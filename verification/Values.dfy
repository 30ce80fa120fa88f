/** How the values of a definition are read, and that nothing of them but the tool pins reaches an Agent or its workload. */
module Values {
  import opened Prelude
  import opened Protocol
  import Workload

  const PIN_PREFIX := "tools.pins."

  /** The one family of keys that is read. */
  predicate IsPin(key: string) { PIN_PREFIX <= key && PIN_PREFIX != key }

  // -------------------------------------------------------------------------- order

  /** The order of Go's strings: by the first character that differs, and a prefix first. */
  predicate Less(a: string, b: string) {
    b != "" && (a == "" || a[0] < b[0] || (a[0] == b[0] && Less(a[1..], b[1..])))
  }

  lemma {:induction false} LessIsTotal(a: string, b: string)
    ensures a == b || Less(a, b) || Less(b, a)
    ensures !(Less(a, b) && Less(b, a)) && !Less(a, a)
  {
    if a != "" {
      LessIsTotal(a[1..], a[1..]);
      if b != "" && a[0] == b[0] {
        LessIsTotal(a[1..], b[1..]);
        assert a[1..] == b[1..] ==> a == [a[0]] + a[1..] == b;
      }
    }
  }

  lemma {:induction false} LessIsTransitive(a: string, b: string, c: string)
    requires Less(a, b) && Less(b, c)
    ensures Less(a, c)
  {
    if a != "" && a[0] == b[0] && b[0] == c[0] { LessIsTransitive(a[1..], b[1..], c[1..]); }
  }

  /** The first place two texts differ decides, and where one ends first it comes first. */
  ghost predicate FirstDiffersAt(a: string, b: string, i: nat) {
    i <= |a| && i < |b| && a[..i] == b[..i] && (i == |a| || a[i] < b[i])
  }

  ghost predicate Before(a: string, b: string) { exists i: nat :: FirstDiffersAt(a, b, i) }

  lemma {:induction false} LessIsLexicographic(a: string, b: string)
    ensures Less(a, b) <==> Before(a, b)
  {
    if Less(a, b) {
      if a == "" || a[0] < b[0] {
        assert a[..0] == b[..0];
        assert FirstDiffersAt(a, b, 0);
      } else {
        LessIsLexicographic(a[1..], b[1..]);
        var i: nat :| FirstDiffersAt(a[1..], b[1..], i);
        assert a[..i + 1] == [a[0]] + a[1..][..i] && b[..i + 1] == [b[0]] + b[1..][..i];
        assert FirstDiffersAt(a, b, i + 1);
      }
    }
    if i: nat :| FirstDiffersAt(a, b, i) {
      if i > 0 {
        assert a[0] == a[..i][0] && b[0] == b[..i][0];
        assert a[1..][..i - 1] == a[..i][1..] && b[1..][..i - 1] == b[..i][1..];
        assert FirstDiffersAt(a[1..], b[1..], i - 1);
        LessIsLexicographic(a[1..], b[1..]);
      }
    }
  }

  /** Sorted, and so distinct. */
  ghost predicate Ascending(s: seq<string>) { forall i, j :: 0 <= i < j < |s| ==> Less(s[i], s[j]) }

  function Insert(s: seq<string>, x: string): (r: seq<string>)
    requires Ascending(s) && x !in s
    ensures Ascending(r) && forall k :: k in r <==> k == x || k in s
  {
    if s == [] then [x]
    else
      LessIsTotal(x, s[0]);
      if Less(x, s[0]) then
        InFront(s, x);
        [x] + s
      else
        Behind(s, x);
        [s[0]] + Insert(s[1..], x)
  }

  lemma InFront(s: seq<string>, x: string)
    requires Ascending(s) && s != [] && Less(x, s[0])
    ensures Ascending([x] + s)
  {
    forall j | 0 <= j < |s| ensures Less(x, s[j]) {
      if j > 0 { LessIsTransitive(x, s[0], s[j]); }
    }
  }

  lemma Behind(s: seq<string>, x: string)
    requires Ascending(s) && s != [] && Less(s[0], x)
    ensures Ascending(s[1..])
    ensures forall r :: Ascending(r) && (forall k :: k in r <==> k == x || k in s[1..]) ==> Ascending([s[0]] + r)
  {
    forall r: seq<string> | Ascending(r) && forall k :: k in r <==> k == x || k in s[1..] ensures Ascending([s[0]] + r) {
      forall j | 0 <= j < |r| ensures Less(s[0], r[j]) {
        assert r[j] in r;
      }
    }
  }

  /** slices.Sort, of distinct keys. */
  function Sort(s: seq<string>): (r: seq<string>)
    requires forall i, j :: 0 <= i < j < |s| ==> s[i] != s[j]
    ensures Ascending(r) && forall k :: k in r <==> k in s
  {
    if s == [] then [] else
      assert s[|s| - 1] !in s[..|s| - 1];
      Insert(Sort(s[..|s| - 1]), s[|s| - 1])
  }

  lemma TailOf(s: seq<string>)
    requires Ascending(s) && s != []
    ensures forall k :: k in s[1..] <==> k in s && k != s[0]
  {
    LessIsTotal(s[0], s[0]);
    forall k | k in s[1..] ensures k != s[0] {
      var i :| 0 <= i < |s[1..]| && s[1..][i] == k;
      assert Less(s[0], s[i + 1]);
    }
  }

  /** What is ascending is decided by its elements. */
  lemma {:induction false} AscendingIsUnique(a: seq<string>, b: seq<string>)
    requires Ascending(a) && Ascending(b) && forall k :: k in a <==> k in b
    ensures a == b
  {
    assert a != [] ==> a[0] in b;
    assert b != [] ==> b[0] in a;
    if a != [] && b != [] {
      LessIsTotal(a[0], b[0]);
      assert a[0] == b[0];
      TailOf(a);
      TailOf(b);
      AscendingIsUnique(a[1..], b[1..]);
    }
  }

  // -------------------------------------------------------------------- what is read

  function PinNames(values: map<string, string>): set<string> {
    set k | k in values && IsPin(k) :: k[|PIN_PREFIX|..]
  }

  function PinsOf(values: map<string, string>): map<string, string> {
    map n | n in PinNames(values) && PIN_PREFIX + n in values :: values[PIN_PREFIX + n]
  }

  /** readValues: the keys in whatever order the map gives them, the pins collected and the rest set aside and sorted. */
  method ReadValues(values: map<string, string>, order: seq<string>) returns (pins: map<string, string>, ignored: seq<string>)
    requires Enumerates(order, values.Keys)
    ensures pins == PinsOf(values)
    ensures forall n :: n in pins <==> n != "" && "tools.pins." + n in values
    ensures forall n :: n in pins ==> pins[n] == values["tools.pins." + n]
    ensures Ascending(ignored) && forall k :: k in ignored <==> k in values && !IsPin(k)
    ensures forall i, j :: 0 <= i < j < |ignored| ==> Before(ignored[i], ignored[j])
  {
    pins, ignored := Separate(values, order);
    PinsSpelled(values);
    ignored := Sort(ignored);
    forall i, j | 0 <= i < j < |ignored| ensures Before(ignored[i], ignored[j]) {
      LessIsLexicographic(ignored[i], ignored[j]);
    }
  }

  lemma PinsSpelled(values: map<string, string>)
    ensures forall n :: n in PinsOf(values) <==> n != "" && "tools.pins." + n in values
    ensures forall n :: n in PinsOf(values) ==> PinsOf(values)[n] == values["tools.pins." + n]
  {
    assert PIN_PREFIX == "tools.pins.";
    forall n ensures n in PinsOf(values) <==> n != "" && "tools.pins." + n in values { PinsCover(values, n); }
  }

  /** The loop over the keys, in the order the map gives them. */
  method Separate(values: map<string, string>, order: seq<string>) returns (pins: map<string, string>, ignored: seq<string>)
    requires Enumerates(order, values.Keys)
    ensures pins == PinsOf(values)
    ensures forall a, b :: 0 <= a < b < |ignored| ==> ignored[a] != ignored[b]
    ensures forall k :: k in ignored <==> k in values && !IsPin(k)
  {
    pins, ignored := map[], [];
    for i := 0 to |order|
      invariant forall a, b :: 0 <= a < b < |ignored| ==> ignored[a] != ignored[b]
      invariant forall k :: k in ignored <==> k in order[..i] && !IsPin(k)
      invariant forall n :: n in pins <==> n != "" && PIN_PREFIX + n in order[..i]
      invariant forall n :: n in pins ==> pins[n] == values[PIN_PREFIX + n]
    {
      var key := order[i];
      assert order[..i + 1] == order[..i] + [key] && key !in order[..i];
      if !(PIN_PREFIX <= key) || key[|PIN_PREFIX|..] == "" {
        assert PIN_PREFIX <= key ==> key == PIN_PREFIX + key[|PIN_PREFIX|..] == PIN_PREFIX;
        ignored := ignored + [key];
        continue;
      }
      var name := key[|PIN_PREFIX|..];
      assert key == PIN_PREFIX + name;
      NameOfKey(name);
      pins := pins[name := values[key]];
    }
    assert order[..|order|] == order;
    forall n ensures n in pins <==> n in PinsOf(values) { PinsCover(values, n); }
  }

  lemma NameOfKey(name: string)
    ensures forall n :: PIN_PREFIX + n == PIN_PREFIX + name ==> n == name
  {
    forall n: string | PIN_PREFIX + n == PIN_PREFIX + name ensures n == name {
      assert (PIN_PREFIX + n)[|PIN_PREFIX|..] == n && (PIN_PREFIX + name)[|PIN_PREFIX|..] == name;
    }
  }

  lemma PinsCover(values: map<string, string>, n: string)
    ensures n in PinsOf(values) <==> n != "" && PIN_PREFIX + n in values
  {
    assert (PIN_PREFIX + n)[|PIN_PREFIX|..] == n;
    assert n != "" ==> IsPin(PIN_PREFIX + n);
    if n in PinNames(values) {
      var k :| k in values && IsPin(k) && k[|PIN_PREFIX|..] == n;
      assert k == PIN_PREFIX + n;
    }
  }

  /** The order the map is visited in does not matter. */
  lemma OrderDoesNotMatter(values: map<string, string>, a: seq<string>, b: seq<string>)
    requires Ascending(a) && forall k :: k in a <==> k in values && !IsPin(k)
    requires Ascending(b) && forall k :: k in b <==> k in values && !IsPin(k)
    ensures a == b
  {
    AscendingIsUnique(a, b);
  }

  /** The pins under the keys they were read from. */
  function Prefixed(pins: map<string, string>): map<string, string> {
    map k | k in (set n | n in pins :: PIN_PREFIX + n) && k[|PIN_PREFIX|..] in pins :: pins[k[|PIN_PREFIX|..]]
  }

  lemma PrefixedAt(pins: map<string, string>, k: string)
    ensures k in Prefixed(pins) <==> PIN_PREFIX <= k && k[|PIN_PREFIX|..] in pins
    ensures k in Prefixed(pins) ==> Prefixed(pins)[k] == pins[k[|PIN_PREFIX|..]]
  {
    if PIN_PREFIX <= k {
      assert k == PIN_PREFIX + k[|PIN_PREFIX|..];
    }
  }

  lemma SplitKey(k: string)
    requires PIN_PREFIX <= k
    ensures k == PIN_PREFIX + k[|PIN_PREFIX|..] && (IsPin(k) <==> k[|PIN_PREFIX|..] != "")
  {
  }

  /** A key is among the re-prefixed pins exactly when it was read, and with its value. */
  lemma KeyIsRead(values: map<string, string>, k: string)
    ensures k in Prefixed(PinsOf(values)) <==> k in values && IsPin(k)
    ensures k in Prefixed(PinsOf(values)) ==> Prefixed(PinsOf(values))[k] == values[k]
  {
    PrefixedAt(PinsOf(values), k);
    if PIN_PREFIX <= k {
      SplitKey(k);
      PinsCover(values, k[|PIN_PREFIX|..]);
    }
  }

  /** A part of a map, and the keys left out of it. */
  lemma PartsMakeTheWhole(values: map<string, string>, part: map<string, string>, others: seq<string>)
    requires forall k :: k in part <==> k in values && k !in others
    requires forall k :: k in part ==> part[k] == values[k]
    requires forall k :: k in others ==> k in values
    ensures part.Keys !! set k | k in others
    ensures part.Keys + (set k | k in others) == values.Keys
    ensures part + (map k | k in values && k in others :: values[k]) == values
  {
  }

  /** Nothing is lost: the keys set aside and the keys read share none and together are all of them, and the pins put back
      under their prefix beside the values set aside are the map itself. */
  lemma ReadingLosesNothing(values: map<string, string>, pins: map<string, string>, ignored: seq<string>)
    requires pins == PinsOf(values) && forall k :: k in ignored <==> k in values && !IsPin(k)
    ensures Prefixed(pins).Keys !! set k | k in ignored
    ensures Prefixed(pins).Keys + (set k | k in ignored) == values.Keys
    ensures Prefixed(pins) + (map k | k in values && k in ignored :: values[k]) == values
  {
    forall k
      ensures k in Prefixed(pins) <==> k in values && k !in ignored
      ensures k in Prefixed(pins) ==> Prefixed(pins)[k] == values[k]
    {
      KeyIsRead(values, k);
    }
    PartsMakeTheWhole(values, Prefixed(pins), ignored);
  }

  // ------------------------------------------------------------------- noninterference

  /** Two maps hold the same pins. */
  ghost predicate SamePins(a: map<string, string>, b: map<string, string>) {
    forall k :: IsPin(k) ==> (k in a <==> k in b) && (k in a ==> a[k] == b[k])
  }

  lemma PinsDecide(a: map<string, string>, b: map<string, string>)
    requires SamePins(a, b)
    ensures PinsOf(a) == PinsOf(b)
  {
    forall n ensures (n in PinsOf(a) <==> n in PinsOf(b)) && (n in PinsOf(a) ==> PinsOf(a)[n] == PinsOf(b)[n]) {
      PinsCover(a, n);
      PinsCover(b, n);
      assert n != "" ==> IsPin(PIN_PREFIX + n);
    }
  }

  /** The claim garam answered, and what a person wrote. */
  datatype Payload = Payload(agent: Grn, values: map<string, string>, claim: Option<int>)

  /** A definition names an agent, and a claim on it an epoch. */
  predicate WellFormed(p: Payload) { p.agent != "" && (p.claim.Some? ==> p.claim.value >= 1) }

  function Read(p: Payload): Definition { Definition(p.agent, PinsOf(p.values), p.claim) }

  /** Two answers that agree on the pins build the same Agent and the same workload, whatever else they say; and the image
      it runs is the operator's configuration, whatever they say. */
  lemma ValuesDoNotInterfere(cfg: Config, images: Workload.Images, a: Payload, b: Payload, name: string, uid: nat,
                             found: Workload.StatefulSet)
    requires a.agent == b.agent && SamePins(a.values, b.values)
    ensures ConstructedSpec(cfg, Read(a)) == ConstructedSpec(cfg, Read(b)) && ConstructedSpec(cfg, Read(a)).image == cfg.image
    ensures Workload.Render(images, Workload.Agent(name, uid, 1, ConstructedSpec(cfg, Read(a))), found)
         == Workload.Render(images, Workload.Agent(name, uid, 1, ConstructedSpec(cfg, Read(b))), found)
  {
    PinsDecide(a.values, b.values);
  }

  // -------------------------------------------------------------------------- the list

  /** ListDefinitions' reading of an answer: every definition, in order, or an error where any of them is not one. */
  method ReadDefinitions(payloads: seq<Payload>, orders: seq<seq<string>>) returns (r: Option<seq<Definition>>)
    requires |orders| == |payloads|
    requires forall i :: 0 <= i < |payloads| ==> Enumerates(orders[i], payloads[i].values.Keys)
    ensures r.Some? <==> forall p :: p in payloads ==> WellFormed(p)
    ensures r.Some? ==> |r.value| == |payloads| && forall i :: 0 <= i < |payloads| ==> r.value[i] == Read(payloads[i])
    ensures r.Some? ==> forall i :: 0 <= i < |payloads| ==>
      r.value[i].agent == payloads[i].agent && r.value[i].claim == payloads[i].claim
    ensures r.None? <==> exists p :: p in payloads && (p.agent == "" || (p.claim.Some? && p.claim.value < 1))
  {
    var definitions := [];
    for i := 0 to |payloads|
      invariant |definitions| == i
      invariant forall k :: 0 <= k < i ==> WellFormed(payloads[k]) && definitions[k] == Read(payloads[k])
    {
      var p := payloads[i];
      if p.agent == "" { assert !WellFormed(p); return None; }
      var pins, ignored := ReadValues(p.values, orders[i]);
      if p.claim.Some? && p.claim.value < 1 { assert !WellFormed(p); return None; }
      definitions := definitions + [Definition(p.agent, pins, p.claim)];
    }
    r := Some(definitions);
  }
}
