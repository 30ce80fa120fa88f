/**
 Renewal: a lineage only whose head can be renewed, a Secret written in one patch, and files that show a write only
 after a lag.  A call presents the newest credential its files show, on a connection of its own.
 */
module Renewal {
  import opened Prelude
  import opened MergePatch

  /** `lag` bounds how long the mounted files may show an older credential; `certificate` and `key` are the PEM texts of
      the credential with a serial, and the two keys are those of the Secret's data. */
  datatype Config = Config(
    interval: int,
    lag: int,
    certificateKey: string,
    keyKey: string,
    certificate: nat -> string,
    key: nat -> string)

  datatype Write = Write(at: int, serial: nat)

  /** `head` is the serial garam issued last.  `hand` holds a credential between its answer and its store, and `crossed`
      says a mint fell between the two.  `severed` says the lineage was broken since the last stored mint: an answer or a
      store was lost, or a store overwrote a mint; renewing the head itself mends it. */
  datatype State = State(
    head: nat,
    writes: seq<Write>,
    doc: Json,
    hand: Option<nat>,
    crossed: bool,
    severed: bool,
    now: int,
    next: int,
    minted: int,
    restarted: int)

  /** Before anything was minted: a Secret with neither key, or with whatever a person put there. */
  function Fresh(doc: Json): State { State(0, [], doc, None, false, true, 0, 0, 0, 0) }

  datatype Step =
    | Ask(at: int, read: nat, early: bool, outcome: Outcome)
    | Keep(at: int, outcome: Outcome)
    | Mint(at: int, stored: bool)
    | Crash(at: int)

  // --------------------------------------------------------------------------- steps

  const DATA := "data"

  /** ReplaceCredential's patch: both keys at once. */
  function CredentialPatch(cfg: Config, serial: nat): (j: Json)
    ensures j.Object?
  {
    Object(map[DATA := Object(map[cfg.certificateKey := Text(cfg.certificate(serial)), cfg.keyKey := Text(cfg.key(serial))])])
  }

  function Stored(cfg: Config, s: State, at: int, serial: nat): State {
    s.(writes := s.writes + [Write(at, serial)], doc := Apply(s.doc, CredentialPatch(cfg, serial)))
  }

  /** What the files may show at a time: any write at or before it that nothing older than the lag replaced. */
  predicate Visible(cfg: Config, s: State, read: nat, at: int) {
    && read < |s.writes| && s.writes[read].at <= at
    && forall k :: read < k < |s.writes| ==> s.writes[k].at + cfg.lag > at
  }

  /** garam refuses the certificate as one it has replaced. */
  predicate Superseded(s: State, read: nat)
    requires read < |s.writes|
  {
    s.writes[read].serial != s.head
  }

  /** An attempt may begin: nothing is in hand, and the interval since the last one ended has passed. */
  predicate MayAsk(cfg: Config, s: State, read: nat, at: int) {
    s.hand.None? && s.now <= at && s.next <= at && Visible(cfg, s, read, at)
  }

  function Asked(cfg: Config, s: State, at: int, read: nat, early: bool, outcome: Outcome): State {
    if !MayAsk(cfg, s, read, at) then s
    else
      var ended := s.(now := at, next := at + cfg.interval);
      if outcome.Failed? || Superseded(s, read) || early then ended
      else if outcome.Done? then ended.(head := s.head + 1, hand := Some(s.head + 1), crossed := false, severed := false)
      else ended.(head := s.head + 1, severed := true)
  }

  function Kept(cfg: Config, s: State, at: int, outcome: Outcome): State {
    if s.hand.None? || at < s.now then s
    else
      var ended := s.(hand := None, crossed := false, now := at, next := at + cfg.interval);
      if outcome.Failed? then ended.(severed := s.severed || !s.crossed)
      else Stored(cfg, ended, at, s.hand.value).(severed := s.severed || s.crossed)
  }

  /** A certificate minted out of band, or by an enrollment, and stored or lost. */
  function Minted(cfg: Config, s: State, at: int, stored: bool): State {
    if at < s.now then s
    else
      var m := s.(head := s.head + 1, now := at, minted := at, severed := !stored);
      if stored then Stored(cfg, m, at, s.head + 1).(crossed := s.hand.Some?) else m
  }

  function Next(cfg: Config, s: State, step: Step): State {
    match step
    case Ask(at, read, early, outcome) => Asked(cfg, s, at, read, early, outcome)
    case Keep(at, outcome) => Kept(cfg, s, at, outcome)
    case Mint(at, stored) => Minted(cfg, s, at, stored)
    case Crash(at) =>
      if at < s.now then s
      else s.(hand := None, crossed := false, severed := s.severed || (s.hand.Some? && !s.crossed),
              now := at, next := at, restarted := at)
  }

  function Run(cfg: Config, s: State, steps: seq<Step>): State
    decreases |steps|
  {
    if steps == [] then s else Next(cfg, Run(cfg, s, steps[..|steps| - 1]), steps[|steps| - 1])
  }

  // ----------------------------------------------------------------------- invariants

  /** The Secret's newest credential is the head of the lineage. */
  predicate Whole(s: State) { s.writes != [] && s.writes[|s.writes| - 1].serial == s.head }

  ghost predicate Lineage(s: State) {
    && (forall w :: w in s.writes ==> w.serial <= s.head)
    && (s.hand.None? ==> (s.severed <==> !Whole(s)))
    && (s.hand.Some? ==> s.hand.value <= s.head)
    && (s.hand.Some? && s.crossed ==> (s.severed <==> !Whole(s)) && s.hand.value < s.head)
    && (s.hand.Some? && !s.crossed ==> (s.severed <==> s.hand.value != s.head) && !Whole(s))
  }

  /** A newest write the interval does not cover was a mint's, or another process's. */
  ghost predicate Timed(cfg: Config, s: State) {
    && s.minted <= s.now && s.restarted <= s.now && (forall w :: w in s.writes ==> w.at <= s.now)
    && (s.writes != [] ==>
          var at := s.writes[|s.writes| - 1].at;
          at <= s.minted || at <= s.restarted || at + cfg.interval <= s.next)
  }

  lemma LineageAsk(cfg: Config, s: State, at: int, read: nat, early: bool, outcome: Outcome)
    requires cfg.interval >= 0 && Lineage(s) && Timed(cfg, s)
    ensures Lineage(Asked(cfg, s, at, read, early, outcome)) && Timed(cfg, Asked(cfg, s, at, read, early, outcome))
  {
    if s.writes != [] { assert s.writes[|s.writes| - 1] in s.writes; }
  }

  lemma LineageKeep(cfg: Config, s: State, at: int, outcome: Outcome)
    requires cfg.interval >= 0 && Lineage(s) && Timed(cfg, s)
    ensures Lineage(Kept(cfg, s, at, outcome)) && Timed(cfg, Kept(cfg, s, at, outcome))
  {
    if s.writes != [] { assert s.writes[|s.writes| - 1] in s.writes; }
  }

  lemma LineageMint(cfg: Config, s: State, at: int, stored: bool)
    requires cfg.interval >= 0 && Lineage(s) && Timed(cfg, s)
    ensures Lineage(Minted(cfg, s, at, stored)) && Timed(cfg, Minted(cfg, s, at, stored))
  {
    if s.writes != [] { assert s.writes[|s.writes| - 1] in s.writes; }
  }

  lemma StepKeeps(cfg: Config, s: State, step: Step)
    requires cfg.interval >= 0 && Lineage(s) && Timed(cfg, s)
    ensures Lineage(Next(cfg, s, step)) && Timed(cfg, Next(cfg, s, step))
  {
    var t := Next(cfg, s, step);
    if s.writes != [] { assert s.writes[|s.writes| - 1] in s.writes; }
    if step.Ask? {
      LineageAsk(cfg, s, step.at, step.read, step.early, step.outcome);
    } else if step.Keep? {
      LineageKeep(cfg, s, step.at, step.outcome);
    } else if step.Mint? {
      LineageMint(cfg, s, step.at, step.stored);
    }
  }

  lemma {:induction false} RunKeeps(cfg: Config, s: State, steps: seq<Step>)
    requires cfg.interval >= 0 && Lineage(s) && Timed(cfg, s)
    ensures Lineage(Run(cfg, s, steps)) && Timed(cfg, Run(cfg, s, steps))
    decreases |steps|
  {
    if steps != [] {
      RunKeeps(cfg, s, steps[..|steps| - 1]);
      StepKeeps(cfg, Run(cfg, s, steps[..|steps| - 1]), steps[|steps| - 1]);
    }
  }

  ghost predicate Reachable(cfg: Config, doc: Json, s: State) {
    exists steps :: s == Run(cfg, Fresh(doc), steps)
  }

  lemma ReachableOk(cfg: Config, doc: Json, s: State)
    requires cfg.interval >= 0 && Reachable(cfg, doc, s)
    ensures Lineage(s) && Timed(cfg, s)
  {
    var steps :| s == Run(cfg, Fresh(doc), steps);
    RunKeeps(cfg, Fresh(doc), steps);
  }

  // ------------------------------------------------------------------------- theorems

  /** With a lag no longer than the interval, an attempt that begins a lag after the last mint and after its process
      started is refused as superseded if and only if the lineage was severed. */
  lemma SupersededIffSevered(cfg: Config, doc: Json, s: State, read: nat, at: int)
    requires 0 <= cfg.lag <= cfg.interval && Reachable(cfg, doc, s) && MayAsk(cfg, s, read, at)
    requires s.minted + cfg.lag <= at && s.restarted + cfg.lag <= at
    ensures read == |s.writes| - 1 && (Superseded(s, read) <==> s.severed)
  {
    ReachableOk(cfg, doc, s);
    var last := |s.writes| - 1;
    assert s.writes[last].at + cfg.lag <= at;
  }

  /** A renewal asked too early, refused as superseded or never answered moves neither the lineage nor the Secret; one asked
      in its window with the head has exactly the next certificate issued, and in hand where the answer came back. */
  lemma AskMoves(cfg: Config, s: State, at: int, read: nat, early: bool, outcome: Outcome)
    requires MayAsk(cfg, s, read, at)
    ensures var t := Asked(cfg, s, at, read, early, outcome);
      && t.writes == s.writes && t.doc == s.doc && t.next == at + cfg.interval
      && (early || outcome.Failed? || s.writes[read].serial != s.head ==>
            t.head == s.head && t.hand.None? && t.severed == s.severed)
      && (!early && !outcome.Failed? && s.writes[read].serial == s.head ==>
            t.head == s.head + 1 && t.hand == (if outcome.Done? then Some(s.head + 1) else None))
  {
  }

  /** The steps that sever a lineage: a lost answer, a lost store, a process dying between the two, a store over a newer
      mint, and a mint that was not stored. */
  ghost predicate Severs(cfg: Config, s: State, step: Step) {
    match step
    case Ask(at, read, early, outcome) =>
      outcome.Vanished? && MayAsk(cfg, s, read, at) && !Superseded(s, read) && !early
    case Keep(at, outcome) => s.hand.Some? && (outcome.Failed? <==> !s.crossed)
    case Mint(_, stored) => !stored
    case Crash(_) => s.hand.Some? && !s.crossed
  }

  /** A lineage that was whole and is severed was severed by one of those steps. */
  lemma {:induction false} SeveredTraces(cfg: Config, s: State, steps: seq<Step>) returns (k: nat)
    requires !s.severed && Run(cfg, s, steps).severed
    ensures k < |steps| && Severs(cfg, Run(cfg, s, steps[..k]), steps[k])
    decreases |steps|
  {
    assert steps != [];
    k := |steps| - 1;
    if Run(cfg, s, steps[..k]).severed {
      var front := steps[..k];
      k := SeveredTraces(cfg, s, front);
      assert front[..k] == steps[..k];
    }
  }

  /** So, after any stored mint, a superseded refusal occurs only if an answer or a store was lost, or a renewal in
      hand was crossed by a mint, in between. */
  lemma SupersededOnlyAfterLoss(cfg: Config, doc: Json, s: State, steps: seq<Step>, read: nat, at: int) returns (k: nat)
    requires 0 <= cfg.lag <= cfg.interval && Reachable(cfg, doc, s) && !s.severed
    requires var t := Run(cfg, s, steps);
      && MayAsk(cfg, t, read, at) && Superseded(t, read)
      && t.minted + cfg.lag <= at && t.restarted + cfg.lag <= at
    ensures k < |steps| && Severs(cfg, Run(cfg, s, steps[..k]), steps[k])
  {
    var t := Run(cfg, s, steps);
    ReachableOn(cfg, doc, s, steps);
    SupersededIffSevered(cfg, doc, t, read, at);
    k := SeveredTraces(cfg, s, steps);
  }

  lemma {:induction false} RunAppends(cfg: Config, s: State, a: seq<Step>, b: seq<Step>)
    ensures Run(cfg, s, a + b) == Run(cfg, Run(cfg, s, a), b)
    decreases |b|
  {
    if b == [] {
      assert a + b == a;
    } else {
      assert (a + b)[..|a + b| - 1] == a + b[..|b| - 1];
      RunAppends(cfg, s, a, b[..|b| - 1]);
    }
  }

  lemma ReachableOn(cfg: Config, doc: Json, s: State, steps: seq<Step>)
    requires Reachable(cfg, doc, s)
    ensures Reachable(cfg, doc, Run(cfg, s, steps))
  {
    var before :| s == Run(cfg, Fresh(doc), before);
    RunAppends(cfg, Fresh(doc), before, steps);
    assert Run(cfg, s, steps) == Run(cfg, Fresh(doc), before + steps);
  }

  /** No retry recovers a severed lineage: only a stored mint does, or an attempt made while the files still show
      the mint that a crossing store overwrote. */
  lemma NoRetryRecovers(cfg: Config, doc: Json, s: State, step: Step)
    requires cfg.interval >= 0 && Reachable(cfg, doc, s) && s.severed && !Next(cfg, s, step).severed
    ensures (step.Mint? && step.stored) || (step.Ask? && step.read < |s.writes| - 1)
  {
    ReachableOk(cfg, doc, s);
  }

  /** The interval must cover the lag.  Where it does not, there is a run in which no call fails and nothing is lost, and
      whose next attempt is refused as superseded. */
  lemma LagBeyondInterval(cfg: Config, doc: Json) returns (s: State, at: int)
    requires 0 <= cfg.interval < cfg.lag
    ensures Reachable(cfg, doc, s) && !s.severed && s.hand.None?
    ensures MayAsk(cfg, s, 0, at) && s.minted + cfg.lag <= at && s.restarted + cfg.lag <= at && Superseded(s, 0)
  {
    var a, b, c := Mint(0, true), Ask(cfg.lag, 0, false, Done), Keep(cfg.lag, Done);
    var s0 := Fresh(doc);
    var s1 := Next(cfg, s0, a);
    var s2 := Next(cfg, s1, b);
    s, at := Next(cfg, s2, c), cfg.lag + cfg.interval;
    assert s1.writes == [Write(0, 1)];
    assert MayAsk(cfg, s1, 0, cfg.lag);
    assert s2.hand == Some(2);
    assert s.writes == [Write(0, 1), Write(cfg.lag, 2)];
    RunOne(cfg, s0, a);
    RunOne(cfg, s1, b);
    RunOne(cfg, s2, c);
    RunAppends(cfg, s0, [a], [b]);
    RunAppends(cfg, s0, [a] + [b], [c]);
    assert s == Run(cfg, s0, [a] + [b] + [c]);
  }

  /** Nor can the hypotheses about the process's start and the last mint go.  A process that starts within a lag of the
      last store asks at once, with what its files still show. */
  lemma RestartWithinLag(cfg: Config, doc: Json) returns (s: State, at: int)
    requires 0 <= cfg.interval && 0 < cfg.lag
    ensures Reachable(cfg, doc, s) && !s.severed && s.hand.None?
    ensures MayAsk(cfg, s, 0, at) && s.minted + cfg.lag <= at && Superseded(s, 0)
  {
    var a, b, c, d := Mint(0, true), Ask(cfg.lag, 0, false, Done), Keep(cfg.lag, Done), Crash(cfg.lag);
    var s0 := Fresh(doc);
    var s1 := Next(cfg, s0, a);
    var s2 := Next(cfg, s1, b);
    var s3 := Next(cfg, s2, c);
    s, at := Next(cfg, s3, d), cfg.lag;
    assert s1.writes == [Write(0, 1)];
    assert MayAsk(cfg, s1, 0, cfg.lag);
    assert s.writes == [Write(0, 1), Write(cfg.lag, 2)];
    RunOne(cfg, s0, a);
    RunOne(cfg, s1, b);
    RunOne(cfg, s2, c);
    RunOne(cfg, s3, d);
    RunAppends(cfg, s0, [a], [b]);
    RunAppends(cfg, s0, [a] + [b], [c]);
    RunAppends(cfg, s0, [a] + [b] + [c], [d]);
    assert s == Run(cfg, s0, [a] + [b] + [c] + [d]);
  }

  /** And an attempt within a lag of a mint presents what the mint replaced. */
  lemma MintWithinLag(cfg: Config, doc: Json) returns (s: State, at: int)
    requires 0 <= cfg.interval && 0 < cfg.lag
    ensures Reachable(cfg, doc, s) && !s.severed && s.hand.None?
    ensures MayAsk(cfg, s, 0, at) && s.restarted + cfg.lag <= at && Superseded(s, 0)
  {
    var a, b := Mint(0, true), Mint(cfg.lag, true);
    var s0 := Fresh(doc);
    var s1 := Next(cfg, s0, a);
    s, at := Next(cfg, s1, b), cfg.lag;
    assert s.writes == [Write(0, 1), Write(cfg.lag, 2)];
    RunOne(cfg, s0, a);
    RunOne(cfg, s1, b);
    RunAppends(cfg, s0, [a], [b]);
    assert s == Run(cfg, s0, [a] + [b]);
  }

  lemma RunOne(cfg: Config, s: State, step: Step)
    ensures Run(cfg, s, [step]) == Next(cfg, s, step)
  {
    assert [step][..0] == [];
  }

  // ---------------------------------------------------------------------- the Secret

  function DataOf(doc: Json): Json {
    if At(doc, DATA).Some? then At(doc, DATA).value else Null
  }

  /** The Secret holds the certificate and the key of one credential. */
  ghost predicate Holds(cfg: Config, doc: Json, serial: nat) {
    && At(DataOf(doc), cfg.certificateKey) == Some(Text(cfg.certificate(serial)))
    && At(DataOf(doc), cfg.keyKey) == Some(Text(cfg.key(serial)))
  }

  /** Everything but the two keys. */
  ghost predicate SameRest(cfg: Config, a: Json, b: Json) {
    && (forall k :: k != DATA ==> At(a, k) == At(b, k))
    && (forall k :: k != cfg.certificateKey && k != cfg.keyKey ==> At(DataOf(a), k) == At(DataOf(b), k))
  }

  lemma PatchReplacesBoth(cfg: Config, doc: Json, serial: nat)
    requires doc.Object? && (DataOf(doc).Object? || DataOf(doc).Null?) && cfg.certificateKey != cfg.keyKey
    ensures var r := Apply(doc, CredentialPatch(cfg, serial));
      r.Object? && DataOf(r).Object? && Holds(cfg, r, serial) && SameRest(cfg, doc, r)
  {
    var patch := CredentialPatch(cfg, serial);
    var inner := patch.fields[DATA];
    var r := Apply(doc, patch);
    assert DATA in r.fields && r.fields[DATA] == Apply(DataOf(doc), inner);
    ApplySets(DataOf(doc), inner, cfg.certificateKey);
    ApplySets(DataOf(doc), inner, cfg.keyKey);
  }

  ghost predicate OnePair(cfg: Config, doc: Json, s: State) {
    && s.doc.Object? && (DataOf(s.doc).Object? || DataOf(s.doc).Null?) && SameRest(cfg, doc, s.doc)
    && (if s.writes == [] then s.doc == doc else Holds(cfg, s.doc, s.writes[|s.writes| - 1].serial))
  }

  lemma StoredHoldsOnePair(cfg: Config, doc: Json, s: State, at: int, serial: nat)
    requires OnePair(cfg, doc, s) && cfg.certificateKey != cfg.keyKey
    ensures OnePair(cfg, doc, Stored(cfg, s, at, serial))
  {
    PatchReplacesBoth(cfg, s.doc, serial);
  }

  /** A step either leaves the Secret alone or stores one credential in it. */
  lemma StepHoldsOnePair(cfg: Config, doc: Json, s: State, step: Step)
    requires OnePair(cfg, doc, s) && cfg.certificateKey != cfg.keyKey
    ensures OnePair(cfg, doc, Next(cfg, s, step))
  {
    var t := Next(cfg, s, step);
    if step.Keep? && s.hand.Some? {
      StoredHoldsOnePair(cfg, doc, s, step.at, s.hand.value);
      assert SameSecret(t, s) || SameSecret(t, Stored(cfg, s, step.at, s.hand.value));
    } else if step.Mint? {
      StoredHoldsOnePair(cfg, doc, s, step.at, s.head + 1);
      assert SameSecret(t, s) || SameSecret(t, Stored(cfg, s, step.at, s.head + 1));
    } else {
      assert SameSecret(t, s);
    }
  }

  ghost predicate SameSecret(s: State, t: State) { s.writes == t.writes && s.doc == t.doc }

  /** Over every run, the Secret never holds a certificate beside another's key: it holds the pair of the last write,
      and its other keys as they were before the first. */
  lemma {:induction false} SecretHoldsOnePair(cfg: Config, doc: Json, steps: seq<Step>)
    requires doc.Object? && (DataOf(doc).Object? || DataOf(doc).Null?) && cfg.certificateKey != cfg.keyKey
    ensures OnePair(cfg, doc, Run(cfg, Fresh(doc), steps))
    decreases |steps|
  {
    if steps != [] {
      var front, step := steps[..|steps| - 1], steps[|steps| - 1];
      SecretHoldsOnePair(cfg, doc, front);
      StepHoldsOnePair(cfg, doc, Run(cfg, Fresh(doc), front), step);
    }
  }
}
