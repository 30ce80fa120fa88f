/**
 Enrollment: one-time tokens read from a file, a list of digests already presented, a certificate that expires, and
 restarts that forget the list.  One step is one look of the enroller, one act of garam, or a restart.
 */
module Enrollment {
  import opened Prelude

  // -------------------------------------------------------------------- white space

  /** What unicode.IsSpace answers. */
  predicate IsSpace(c: char) {
    || '\U{0009}' <= c <= '\U{000D}' || c == ' ' || c == '\U{0085}' || c == '\U{00A0}' || c == '\U{1680}'
    || '\U{2000}' <= c <= '\U{200A}' || c == '\U{2028}' || c == '\U{2029}' || c == '\U{202F}' || c == '\U{205F}'
    || c == '\U{3000}'
  }

  predicate Blank(s: string) { forall i :: 0 <= i < |s| ==> IsSpace(s[i]) }

  function TrimLeft(s: string): (r: string)
    ensures |r| <= |s|
  {
    if s != [] && IsSpace(s[0]) then TrimLeft(s[1..]) else s
  }

  function TrimRight(s: string): (r: string)
    ensures |r| <= |s|
  {
    if s != [] && IsSpace(s[|s| - 1]) then TrimRight(s[..|s| - 1]) else s
  }

  function TrimSpace(s: string): string { TrimRight(TrimLeft(s)) }

  /** Nothing to trim. */
  predicate Bare(s: string) { s == "" || (!IsSpace(s[0]) && !IsSpace(s[|s| - 1])) }

  lemma {:induction false} TrimLeftPadded(a: string, s: string)
    requires Blank(a)
    ensures TrimLeft(a + s) == TrimLeft(s)
  {
    if a == [] {
      assert a + s == s;
    } else {
      assert (a + s)[1..] == a[1..] + s;
      TrimLeftPadded(a[1..], s);
    }
  }

  lemma {:induction false} TrimRightPadded(s: string, b: string)
    requires Blank(b)
    ensures TrimRight(s + b) == TrimRight(s)
  {
    if b == [] {
      assert s + b == s;
    } else {
      assert (s + b)[..|s + b| - 1] == s + b[..|b| - 1];
      TrimRightPadded(s, b[..|b| - 1]);
    }
  }

  /** However a token is padded, it is read as the same token. */
  lemma PaddingIsDropped(a: string, token: string, b: string)
    requires Blank(a) && Blank(b) && Bare(token)
    ensures TrimSpace(a + token + b) == token
  {
    assert a + token + b == a + (token + b);
    TrimLeftPadded(a, token + b);
    if token == "" {
      assert token + b == b + "" && token + b == b;
      TrimLeftPadded(b, "");
    } else {
      assert (token + b)[0] == token[0];
      TrimRightPadded(token, b);
    }
  }

  // --------------------------------------------------------------------------- state

  /** The pair of files the handshake loads. */
  datatype Pair = Unreadable | Loaded(notAfter: int)

  predicate Live(pair: Pair, now: int) { pair.Loaded? && now < pair.notAfter }

  /** A certificate garam signed: for which token, and over which key. */
  datatype Certificate = Certificate(token: string, key: nat)

  /** `minted` holds the tokens a call can still spend, `gone` those spent, expired or withdrawn. */
  datatype Garam = Garam(minted: set<string>, gone: set<string>, issued: seq<Certificate>)

  /** What the credential Secret holds. */
  datatype Stored = Stored(certificate: Certificate, key: nat)

  /** One presentation: which process, which token, and what that process held at the time. */
  datatype Trial = Trial(process: nat, token: string, pair: Pair, now: int)

  datatype State = State(
    spent: seq<string>,
    finished: bool,
    process: nat,
    garam: Garam,
    secret: Option<Stored>,
    nextKey: nat,
    tried: seq<Trial>,
    kept: nat,
    lost: nat)

  const START := State([], false, 0, Garam({}, {}, []), None, 0, [], 0, 0)

  /** How far a call got: not to garam, or there, with or without an answer that could be read. */
  datatype Reach = NotSent | Reached(answered: bool)

  /** Everything one look depends on: the held pair, the clock, the token file, whether a request could be generated, how
      far the call got, and what became of the store's write. */
  datatype Look = Look(pair: Pair, now: int, file: Option<string>, keyed: bool, reach: Reach, stored: Outcome)

  // --------------------------------------------------------------------------- steps

  /** garam spends the token on the call that presents it, and signs for a token it can spend and no other. */
  function Spend(g: Garam, token: string, key: nat): Garam {
    if token in g.minted
    then g.(minted := g.minted - {token}, gone := g.gone + {token}, issued := g.issued + [Certificate(token, key)])
    else g
  }

  /** enroll: generate, remember, present, and store what comes back. */
  function Enrolled(digest: string -> string, s: State, token: string, look: Look): State {
    if !look.keyed then s
    else
      var t := s.(nextKey := s.nextKey + 1, spent := s.spent + [digest(token)],
                  tried := s.tried + [Trial(s.process, token, look.pair, look.now)]);
      if look.reach.NotSent? then t
      else
        var u := t.(garam := Spend(s.garam, token, s.nextKey));
        if token !in s.garam.minted then u
        else if !look.reach.answered || look.stored.Failed? then u.(lost := s.lost + 1)
        else u.(secret := Some(Stored(Certificate(token, s.nextKey), s.nextKey)), kept := s.kept + 1,
                finished := look.stored.Done?)
  }

  /** attempt. */
  function Attempted(digest: string -> string, s: State, look: Look): State {
    if s.finished then s
    else if Live(look.pair, look.now) then s.(finished := true)
    else if look.file.None? then s
    else
      var token := TrimSpace(look.file.value);
      if token == "" || digest(token) in s.spent then s else Enrolled(digest, s, token, look)
  }

  datatype Step =
    | Attempt(look: Look)
    | Mint(token: string)
    | Withdraw(token: string)
    | Renew(certificate: Certificate)
    | Restart

  /** A token is minted once; the renewer, too, stores a certificate beside the key it was signed for. */
  function Next(digest: string -> string, s: State, step: Step): State {
    match step
    case Attempt(look) => Attempted(digest, s, look)
    case Mint(token) =>
      if token in s.garam.gone then s else s.(garam := s.garam.(minted := s.garam.minted + {token}))
    case Withdraw(token) =>
      s.(garam := s.garam.(minted := s.garam.minted - {token}, gone := s.garam.gone + {token}))
    case Renew(certificate) => s.(secret := Some(Stored(certificate, certificate.key)))
    case Restart => s.(spent := [], finished := false, process := s.process + 1)
  }

  function Run(digest: string -> string, s: State, steps: seq<Step>): State
    decreases |steps|
  {
    if steps == [] then s else Next(digest, Run(digest, s, steps[..|steps| - 1]), steps[|steps| - 1])
  }

  // ---------------------------------------------------------------------- invariants

  /** The process remembers exactly the tokens it presented, by digest. */
  ghost predicate Remembers(digest: string -> string, s: State) {
    && (forall t :: t in s.tried && t.process == s.process ==> digest(t.token) in s.spent)
    && (forall d :: d in s.spent ==> exists t :: t in s.tried && t.process == s.process && digest(t.token) == d)
    && (forall t :: t in s.tried ==> t.process <= s.process)
  }

  ghost predicate NeverTwice(tried: seq<Trial>) {
    forall i, j :: 0 <= i < j < |tried| && tried[i].process == tried[j].process ==> tried[i].token != tried[j].token
  }

  ghost predicate OnlyWhenNeeded(tried: seq<Trial>) {
    forall t :: t in tried ==> !Live(t.pair, t.now)
  }

  ghost predicate OneShot(g: Garam) {
    && g.minted !! g.gone
    && (forall c :: c in g.issued ==> c.token in g.gone)
    && (forall i, j :: 0 <= i < j < |g.issued| ==> g.issued[i].token != g.issued[j].token)
  }

  /** Every key garam signed was generated for one request, and no two certificates carry one key. */
  ghost predicate KeysAreFresh(s: State) {
    && (forall c :: c in s.garam.issued ==> c.key < s.nextKey)
    && (forall i, j :: 0 <= i < j < |s.garam.issued| ==> s.garam.issued[i].key != s.garam.issued[j].key)
  }

  ghost predicate Inv(digest: string -> string, s: State) {
    && Remembers(digest, s) && NeverTwice(s.tried) && OnlyWhenNeeded(s.tried)
    && OneShot(s.garam) && KeysAreFresh(s)
    && (s.secret.Some? ==> s.secret.value.key == s.secret.value.certificate.key)
    && |s.garam.issued| == s.kept + s.lost
    && Sourced(s.garam.issued, s.tried)
  }

  /** Every certificate answers a presentation. */
  ghost predicate Sourced(issued: seq<Certificate>, tried: seq<Trial>) {
    forall c :: c in issued ==> exists t :: t in tried && t.token == c.token
  }

  lemma RemembersMore(digest: string -> string, s: State, t: State, trial: Trial)
    requires Remembers(digest, s) && t.process == s.process == trial.process
    requires t.spent == s.spent + [digest(trial.token)] && t.tried == s.tried + [trial]
    ensures Remembers(digest, t)
  {
    forall d | d in t.spent ensures exists x :: x in t.tried && x.process == t.process && digest(x.token) == d {
      if d in s.spent {
        var x :| x in s.tried && x.process == s.process && digest(x.token) == d;
        assert x in t.tried;
      } else {
        assert trial in t.tried;
      }
    }
  }

  lemma TriesOnce(digest: string -> string, s: State, trial: Trial)
    requires Remembers(digest, s) && NeverTwice(s.tried)
    requires trial.process == s.process && digest(trial.token) !in s.spent
    ensures NeverTwice(s.tried + [trial])
  {
    assert forall t :: t in s.tried && t.process == s.process ==> t.token != trial.token;
  }

  lemma SpendKeeps(s: State, token: string, trial: Trial)
    requires OneShot(s.garam) && KeysAreFresh(s) && Sourced(s.garam.issued, s.tried) && trial.token == token
    ensures var t := s.(garam := Spend(s.garam, token, s.nextKey), nextKey := s.nextKey + 1, tried := s.tried + [trial]);
      && OneShot(t.garam) && KeysAreFresh(t) && Sourced(t.garam.issued, t.tried)
      && |t.garam.issued| == |s.garam.issued| + if token in s.garam.minted then 1 else 0
  {
    var tried := s.tried + [trial];
    assert trial in tried;
    forall c | c in s.garam.issued ensures exists t :: t in tried && t.token == c.token {
      var t :| t in s.tried && t.token == c.token;
      assert t in tried;
    }
  }

  lemma SourcedMore(issued: seq<Certificate>, tried: seq<Trial>, trial: Trial)
    requires Sourced(issued, tried)
    ensures Sourced(issued, tried + [trial])
  {
    forall c | c in issued ensures exists t :: t in tried + [trial] && t.token == c.token {
      var t :| t in tried && t.token == c.token;
      assert t in tried + [trial];
    }
  }

  lemma EnrolledKeeps(digest: string -> string, s: State, token: string, look: Look)
    requires Inv(digest, s) && digest(token) !in s.spent && !Live(look.pair, look.now)
    ensures Inv(digest, Enrolled(digest, s, token, look))
  {
    if look.keyed {
      var t, trial := Enrolled(digest, s, token, look), Trial(s.process, token, look.pair, look.now);
      assert t.tried == s.tried + [trial];
      RemembersMore(digest, s, t, trial);
      TriesOnce(digest, s, trial);
      SpendKeeps(s, token, trial);
      SourcedMore(s.garam.issued, s.tried, trial);
    }
  }

  lemma StepKeeps(digest: string -> string, s: State, step: Step)
    requires Inv(digest, s)
    ensures Inv(digest, Next(digest, s, step))
  {
    if step.Attempt? && step.look.file.Some? {
      var token := TrimSpace(step.look.file.value);
      if !Live(step.look.pair, step.look.now) && digest(token) !in s.spent {
        EnrolledKeeps(digest, s, token, step.look);
      }
    }
  }

  lemma {:induction false} RunKeeps(digest: string -> string, s: State, steps: seq<Step>)
    requires Inv(digest, s)
    ensures Inv(digest, Run(digest, s, steps))
    decreases |steps|
  {
    if steps != [] {
      RunKeeps(digest, s, steps[..|steps| - 1]);
      StepKeeps(digest, Run(digest, s, steps[..|steps| - 1]), steps[|steps| - 1]);
    }
  }

  lemma StartOk(digest: string -> string)
    ensures Inv(digest, START)
  {
  }

  /** Everything a run from the start reaches. */
  ghost predicate Reachable(digest: string -> string, s: State) {
    exists steps :: s == Run(digest, START, steps)
  }

  lemma ReachableOk(digest: string -> string, s: State)
    requires Reachable(digest, s)
    ensures Inv(digest, s)
  {
    var steps :| s == Run(digest, START, steps);
    StartOk(digest);
    RunKeeps(digest, START, steps);
  }

  // ------------------------------------------------------------------------ theorems

  /** Over every run of file contents, clock, answers, tokens and restarts, no process presents one token twice. */
  lemma NoTokenIsPresentedTwice(digest: string -> string, s: State, i: nat, j: nat)
    requires Reachable(digest, s) && i < j < |s.tried| && s.tried[i].process == s.tried[j].process
    ensures s.tried[i].token != s.tried[j].token
  {
    ReachableOk(digest, s);
  }

  /** And every presentation, the first of a run among them, was made where the held pair was unreadable or its notAfter
      had come. */
  lemma TokensAreSpentWithCare(digest: string -> string, s: State, j: nat)
    requires Reachable(digest, s) && j < |s.tried|
    ensures s.tried[j].pair.Unreadable? || s.tried[j].pair.notAfter <= s.tried[j].now
  {
    ReachableOk(digest, s);
    assert s.tried[j] in s.tried;
  }

  /** At most one certificate is issued per token, across any number of restarts, and only for a token presented. */
  lemma OneCertificatePerToken(digest: string -> string, s: State, i: nat, j: nat)
    requires Reachable(digest, s) && i < |s.garam.issued| && j < |s.garam.issued|
    ensures
      && (s.garam.issued[i].token == s.garam.issued[j].token ==> i == j)
      && exists t :: t in s.tried && t.token == s.garam.issued[i].token
  {
    ReachableOk(digest, s);
    assert s.garam.issued[i] in s.garam.issued;
  }

  /** A stored certificate sits beside the key of the request it answered, and every certificate issued was stored or
      lost in the look that obtained it. */
  lemma CertificatesAreAccountedFor(digest: string -> string, s: State)
    requires Reachable(digest, s)
    ensures
      && (s.secret.Some? ==> s.secret.value.key == s.secret.value.certificate.key)
      && |s.garam.issued| == s.kept + s.lost
  {
    ReachableOk(digest, s);
  }

  /** Among the tokens this process has presented. */
  ghost predicate PresentedBefore(s: State, token: string) {
    exists t :: t in s.tried && t.process == s.process && t.token == token
  }

  /** Digests tell the token apart from those this process has presented. */
  ghost predicate ToldApart(digest: string -> string, s: State, token: string) {
    forall t :: t in s.tried && t.process == s.process && digest(t.token) == digest(token) ==> t.token == token
  }

  /** A look presents the token in its file exactly when the process is still looking, holds no live certificate, could
      generate a request, and has not presented that token before, however the file pads it. */
  lemma FreshTokenIsPresented(digest: string -> string, s: State, look: Look, a: string, token: string, b: string)
    requires look.file == Some(a + token + b) && Blank(a) && Blank(b) && Bare(token) && token != ""
    requires Reachable(digest, s) && ToldApart(digest, s, token)
    ensures
      var t := Attempted(digest, s, look);
      if !s.finished && !Live(look.pair, look.now) && look.keyed && !PresentedBefore(s, token)
      then t.tried == s.tried + [Trial(s.process, token, look.pair, look.now)]
      else t.tried == s.tried
  {
    ReachableOk(digest, s);
    PaddingIsDropped(a, token, b);
    if digest(token) in s.spent {
      var x :| x in s.tried && x.process == s.process && digest(x.token) == digest(token);
      assert PresentedBefore(s, token);
    }
  }

  /** What ends the looking is a certificate: one that was live, or one this look obtained and stored. */
  lemma CertificateEndsIt(digest: string -> string, s: State, look: Look)
    requires !s.finished
    ensures
      var t := Attempted(digest, s, look);
      t.finished <==>
        || Live(look.pair, look.now)
        || (look.stored.Done? && t.kept == s.kept + 1
            && t.secret == Some(Stored(Certificate(t.tried[|t.tried| - 1].token, s.nextKey), s.nextKey)))
  {
  }

  // ------------------------------------------------------- what a look leaves behind

  /** The look presents a token it finds in its file: it is still looking, holds nothing live, could generate a request,
      and has not presented the token before. */
  ghost predicate Presents(digest: string -> string, s: State, look: Look, token: string) {
    && !s.finished && (look.pair.Unreadable? || look.pair.notAfter <= look.now)
    && look.file.Some? && TrimSpace(look.file.value) == token && token != "" && digest(token) !in s.spent && look.keyed
  }

  /** And the call reaches garam with a token it can spend. */
  ghost predicate Spends(digest: string -> string, s: State, look: Look, token: string) {
    Presents(digest, s, look, token) && look.reach.Reached? && token in s.garam.minted
  }

  /** And the answer is read and the store's write takes effect. */
  ghost predicate Obtains(digest: string -> string, s: State, look: Look, token: string) {
    Spends(digest, s, look, token) && look.reach.answered && !look.stored.Failed?
  }

  /** A look that obtains a certificate leaves it in the Secret beside the key of its request, and ends the looking exactly
      when the store said so. */
  lemma ObtainedIsStored(digest: string -> string, s: State, look: Look, token: string)
    requires Obtains(digest, s, look, token)
    ensures var t := Attempted(digest, s, look);
      && t.secret == Some(Stored(Certificate(token, s.nextKey), s.nextKey))
      && (t.finished <==> look.stored.Done?)
      && t.garam.issued == s.garam.issued + [Certificate(token, s.nextKey)]
      && t.kept == s.kept + 1 && t.lost == s.lost
  {
  }

  /** Every other look leaves the Secret as it was, and ends the looking only for a certificate that is live. */
  lemma OtherLooksStoreNothing(digest: string -> string, s: State, look: Look)
    requires look.file.None? || !Obtains(digest, s, look, TrimSpace(look.file.value))
    ensures var t := Attempted(digest, s, look);
      && t.secret == s.secret && t.kept == s.kept
      && (t.finished <==> s.finished || (look.pair.Loaded? && look.now < look.pair.notAfter))
      && t.lost == s.lost + |t.garam.issued| - |s.garam.issued|
  {
  }

  /** garam is spent a token, and issues for it, exactly where a look spends one; a token presented is remembered whatever
      becomes of the call. */
  lemma LooksSpend(digest: string -> string, s: State, look: Look)
    requires look.file.Some?
    ensures
      var token, t := TrimSpace(look.file.value), Attempted(digest, s, look);
      && t.garam == (if Spends(digest, s, look, token)
                     then Garam(s.garam.minted - {token}, s.garam.gone + {token},
                                s.garam.issued + [Certificate(token, s.nextKey)])
                     else s.garam)
      && t.spent == s.spent + (if Presents(digest, s, look, token) then [digest(token)] else [])
  {
  }

  /** The step puts a credential in the Secret. */
  ghost predicate Puts(digest: string -> string, s: State, step: Step) {
    || step.Renew?
    || (step.Attempt? && step.look.file.Some? && Obtains(digest, s, step.look, TrimSpace(step.look.file.value)))
  }

  lemma OnlyPutsMoveTheSecret(digest: string -> string, s: State, step: Step)
    requires !Puts(digest, s, step)
    ensures Next(digest, s, step).secret == s.secret
  {
    if step.Attempt? { OtherLooksStoreNothing(digest, s, step.look); }
  }

  /** Over every run the Secret holds what was last put there: nothing before the first, and otherwise the credential of the
      last renewal or of the last look that obtained one. */
  lemma {:induction false} SecretHoldsTheLastPut(digest: string -> string, steps: seq<Step>)
    ensures
      var s := Run(digest, START, steps);
      if s.secret.None? then forall k :: 0 <= k < |steps| ==> !Puts(digest, Run(digest, START, steps[..k]), steps[k])
      else exists k :: LastPut(digest, steps, k, s.secret.value)
    decreases |steps|
  {
    if steps != [] {
      var n := |steps| - 1;
      var front := steps[..n];
      SecretHoldsTheLastPut(digest, front);
      forall k | 0 <= k < n ensures front[..k] == steps[..k] {}
      var s := Run(digest, START, front);
      if Puts(digest, s, steps[n]) {
        if steps[n].Attempt? { ObtainedIsStored(digest, s, steps[n].look, TrimSpace(steps[n].look.file.value)); }
        assert LastPut(digest, steps, n, Run(digest, START, steps).secret.value);
      } else {
        OnlyPutsMoveTheSecret(digest, s, steps[n]);
        if s.secret.Some? {
          var k :| LastPut(digest, front, k, s.secret.value);
          LastPutStays(digest, steps, k, s.secret.value);
        }
      }
    }
  }

  /** The step at `k` put this credential there, and no later step put any. */
  ghost predicate LastPut(digest: string -> string, steps: seq<Step>, k: int, held: Stored) {
    && 0 <= k < |steps|
    && PutsThis(digest, Run(digest, START, steps[..k]), steps[k], held)
    && forall j :: k < j < |steps| ==> !Puts(digest, Run(digest, START, steps[..j]), steps[j])
  }

  ghost predicate PutsThis(digest: string -> string, s: State, step: Step, held: Stored) {
    && Puts(digest, s, step)
    && held == if step.Renew? then Stored(step.certificate, step.certificate.key)
               else Stored(Certificate(TrimSpace(step.look.file.value), s.nextKey), s.nextKey)
  }

  lemma LastPutStays(digest: string -> string, steps: seq<Step>, k: int, held: Stored)
    requires steps != [] && LastPut(digest, steps[..|steps| - 1], k, held)
    requires !Puts(digest, Run(digest, START, steps[..|steps| - 1]), steps[|steps| - 1])
    ensures LastPut(digest, steps, k, held)
  {
    var front := steps[..|steps| - 1];
    assert front[..k] == steps[..k];
    forall j | k < j < |steps| ensures !Puts(digest, Run(digest, START, steps[..j]), steps[j]) {
      if j < |front| { assert front[..j] == steps[..j] && !Puts(digest, Run(digest, START, front[..j]), front[j]); }
    }
  }

  /** A token copied out of a console as a line, whatever ends the line and whatever is around it. */
  lemma LineIsRead(token: string)
    requires Bare(token)
    ensures TrimSpace(token + "\n") == token && TrimSpace(token + "\r\n") == token && TrimSpace(" \t" + token + " ") == token
  {
    PaddingIsDropped("", token, "\n");
    PaddingIsDropped("", token, "\r\n");
    PaddingIsDropped(" \t", token, " ");
    assert "" + token + "\n" == token + "\n" && "" + token + "\r\n" == token + "\r\n";
  }
}
