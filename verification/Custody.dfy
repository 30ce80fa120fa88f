/** Where certificates go, where a reported state comes from, and which epoch a record carries. */
module Custody {
  import opened Prelude
  import opened Api
  import opened Protocol
  import opened Safety
  import opened Fencing

  // ------------------------------------------------------- conservation of keys

  /** Per agent, the certificates garam issued are those placed, those lost and the one in the poller's
      hand; between definitions and between passes the hand is empty. */
  lemma KeysAreConserved(cfg: Config, s: State, g: Grn)
    requires cfg.Injective() && Reachable(cfg, s) && g in s.garam
    ensures s.garam[g].issued == s.history.placed[g] + s.history.lost[g] + InHand(s.poller)[g]
    ensures s.poller.Idle? || s.poller.Working? ==> s.garam[g].issued == s.history.placed[g] + s.history.lost[g]
    ensures InHand(s.poller)[g] <= 1
  {
    ReachableOk(cfg, s);
    assert Accounted(s.garam, s.history, InHand(s.poller), g);
  }

  /** From `s` to `t` the credential of `g` stood untouched: the Secret's content, what garam issued, and
      the record on the Agent, unless the Agent itself went. */
  ghost predicate Untouched(cfg: Config, s: State, t: State, g: Grn) {
    var secret, name := cfg.SecretName(g), cfg.Name(g);
    && secret in s.cluster.secrets && secret in t.cluster.secrets
    && t.cluster.secrets[secret] == s.cluster.secrets[secret]
    && g in s.garam && g in t.garam && t.garam[g].issued == s.garam[g].issued
    && (name in t.cluster.agents ==>
          name in s.cluster.agents && SameClaim(s.cluster.agents[name], t.cluster.agents[name]))
  }

  lemma UntouchedOutside(cfg: Config, s: State, step: Step, g: Grn)
    requires Inv(cfg, s) && g in s.garam && cfg.SecretName(g) in s.cluster.secrets
    requires step != SecretGoes(cfg.SecretName(g))
    ensures Untouched(cfg, s, Outside(cfg, s, step), g)
  {
    assert EntryOk(cfg, g, s.garam[g]);
    assert cfg.Reserved(cfg.Name(g));
  }

  lemma UntouchedPoll(cfg: Config, s: State, outcome: Outcome, order: seq<Grn>, g: Grn)
    requires cfg.Injective() && Inv(cfg, s) && g in s.garam && cfg.SecretName(g) in s.cluster.secrets
    ensures Untouched(cfg, s, Polled(cfg, s, outcome, order), g)
  {
    assert EntryOk(cfg, g, s.garam[g]);
    if Constructing(s.poller) {
      var h := s.poller.d.agent;
      assert EntryOk(cfg, h, s.garam[h]);
      NamesDiffer(cfg, g, h);
    }
    PollTouchesGaram(cfg, s, outcome, order, g);
    PollTouchesSecret(cfg, s, outcome, order, cfg.SecretName(g));
    PollTouchesAgent(cfg, s, outcome, order, cfg.Name(g));
  }

  lemma UntouchedReport(cfg: Config, s: State, outcome: Outcome, items: seq<string>, g: Grn)
    requires g in s.garam && cfg.SecretName(g) in s.cluster.secrets
    ensures Untouched(cfg, s, Reported(cfg, s, outcome, items), g)
  {
  }

  lemma UntouchedStep(cfg: Config, s: State, step: Step, g: Grn)
    requires cfg.Injective() && Inv(cfg, s) && g in s.garam && cfg.SecretName(g) in s.cluster.secrets
    requires step != SecretGoes(cfg.SecretName(g))
    ensures Untouched(cfg, s, Next(cfg, s, step), g)
  {
    match step
    case Poll(outcome, order) => UntouchedPoll(cfg, s, outcome, order, g);
    case Report(outcome, items) => UntouchedReport(cfg, s, outcome, items, g);
    case Crash => assert Untouched(cfg, s, Crashed(s), g);
    case _ => UntouchedOutside(cfg, s, step, g);
  }

  lemma {:induction false} UntouchedRun(cfg: Config, s: State, steps: seq<Step>, g: Grn)
    requires cfg.Injective() && Inv(cfg, s) && g in s.garam && cfg.SecretName(g) in s.cluster.secrets
    requires SecretGoes(cfg.SecretName(g)) !in steps
    ensures Untouched(cfg, s, Run(cfg, s, steps), g)
    decreases |steps|
  {
    if steps != [] {
      var front, last := steps[..|steps| - 1], steps[|steps| - 1];
      UntouchedRun(cfg, s, front, g);
      RunKeeps(cfg, s, front);
      UntouchedStep(cfg, Run(cfg, s, front), last, g);
    }
  }

  /** Once a credential is placed its Secret never changes, garam issues no other, and the recorded epoch
      is frozen, over every run in which the Secret is not deleted. */
  lemma PlacedCredentialIsFrozen(cfg: Config, s: State, steps: seq<Step>, g: Grn)
    requires cfg.Injective() && Reachable(cfg, s)
    requires g in s.garam && cfg.SecretName(g) in s.cluster.secrets
    requires SecretGoes(cfg.SecretName(g)) !in steps
    ensures Untouched(cfg, s, Run(cfg, s, steps), g)
  {
    ReachableOk(cfg, s);
    UntouchedRun(cfg, s, steps, g);
  }

  // ----------------------------------------------------------- report provenance

  lemma {:induction false} SeenTraces(cfg: Config, steps: seq<Step>, name: string, ready: bool)
    requires (name, ready) in Run(cfg, START, steps).history.seen
    ensures Observe(name, ready) in steps
    decreases |steps|
  {
    if steps != [] {
      var front, last := steps[..|steps| - 1], steps[|steps| - 1];
      var s := Run(cfg, START, front);
      if (name, ready) in s.history.seen {
        SeenTraces(cfg, front, name, ready);
      } else {
        assert last == Observe(name, ready) by { OnlyObserveAdds(cfg, s, last); }
      }
    }
  }

  lemma OnlyObserveAdds(cfg: Config, s: State, step: Step)
    ensures Next(cfg, s, step).history.seen ==
      s.history.seen + (if step.Observe? then {(step.name, step.ready)} else {})
  {
    if step.Poll? { PollKeepsSeen(cfg, s, step.outcome, step.order); }
  }

  lemma PollKeepsSeen(cfg: Config, s: State, outcome: Outcome, order: seq<Grn>)
    ensures Polled(cfg, s, outcome, order).history.seen == s.history.seen
  {
    match s.poller
    case Working(todo) =>
    case Creating(_, _, _, _) =>
    case Recording(_, _, _, _, _) =>
    case _ =>
  }

  /** Whatever garam holds from this operator is "ready" or "provisioned", and the run contains a
      reconcile that read that very agent's StatefulSet and saw just that. */
  lemma ReportedStateIsObserved(cfg: Config, steps: seq<Step>, g: Grn)
    requires cfg.Injective()
    requires
      var s := Run(cfg, START, steps);
      g in s.garam && s.garam[g].latch.from == Some(cfg.me)
    ensures
      var st := Run(cfg, START, steps).garam[g].latch.state;
      && (st.Ready? || st.Provisioned?)
      && Observe(cfg.Name(g), st.Ready?) in steps
  {
    var s := Run(cfg, START, steps);
    ReachableOk(cfg, s);
    assert LatchOk(cfg, s.history.seen, g, s.garam[g].latch);
    SeenTraces(cfg, steps, cfg.Name(g), s.garam[g].latch.state.Ready?);
  }

  // -------------------------------------------------------- one pass of the reporter

  /** The first Available condition of the Agent has this status. */
  ghost predicate Available(a: AgentObject, status: ConditionStatus) {
    exists i :: FirstOf(a.status.conditions, "Available", i) && a.status.conditions[i].status == status
  }

  /** What is observed of an Agent: a ready replica exactly where its first Available condition is True, none exactly where
      it is False, and otherwise nothing. */
  lemma ReadinessIsAvailable(a: AgentObject)
    ensures ReadinessOf(a).ReplicaReady? <==> Available(a, IsTrue)
    ensures ReadinessOf(a).NoReplica? <==> Available(a, IsFalse)
    ensures ReadinessOf(a).Unobserved? <==> !Available(a, IsTrue) && !Available(a, IsFalse)
  {
    var cs := a.status.conditions;
    assert AVAILABLE == "Available";
    forall i | FirstOf(cs, "Available", i) ensures FindCondition(cs, AVAILABLE) == Some(cs[i]) {
      FoundIsFirst(cs, AVAILABLE, i);
    }
    if FindCondition(cs, AVAILABLE).Some? {
      var i := FirstExists(cs, AVAILABLE);
      assert Available(a, cs[i].status);
    }
  }

  /** garam after a pass reported `observations`, each call ending as `outcomes` says. */
  function Delivered(cfg: Config, garam: map<Grn, Entry>, observations: seq<Observation>,
                     outcomes: seq<Outcome>): map<Grn, Entry>
    requires |observations| == |outcomes|
  {
    if observations == [] then garam
    else Delivered(cfg, Sent(cfg, garam, observations[0], outcomes[0]), observations[1..], outcomes[1..])
  }

  /** What happens to the other agents' reports never changes what is delivered for `g`. */
  lemma {:induction false} RefusalsAreIndependent(cfg: Config, a: map<Grn, Entry>, b: map<Grn, Entry>,
      observations: seq<Observation>, x: seq<Outcome>, y: seq<Outcome>, g: Grn)
    requires |observations| == |x| == |y|
    requires forall i :: 0 <= i < |x| && observations[i].agent == g ==> x[i] == y[i]
    requires g in a && g in b && a[g] == b[g]
    ensures
      var da, db := Delivered(cfg, a, observations, x), Delivered(cfg, b, observations, y);
      g in da && g in db && da[g] == db[g]
    decreases |observations|
  {
    if observations != [] {
      var a', b' := Sent(cfg, a, observations[0], x[0]), Sent(cfg, b, observations[0], y[0]);
      assert g in a' && g in b' && a'[g] == b'[g];
      RefusalsAreIndependent(cfg, a', b', observations[1..], x[1..], y[1..], g);
    }
  }

  /** A pass that observed nothing of `g` leaves garam's value for it standing. */
  lemma {:induction false} UnobservedIsLeftAlone(cfg: Config, garam: map<Grn, Entry>,
      observations: seq<Observation>, outcomes: seq<Outcome>, g: Grn)
    requires |observations| == |outcomes| && g in garam
    requires forall o :: o in observations && o.agent == g ==> o.readiness.Unobserved?
    ensures var d := Delivered(cfg, garam, observations, outcomes); g in d && d[g] == garam[g]
    decreases |observations|
  {
    if observations != [] {
      assert observations[0] in observations;
      UnobservedIsLeftAlone(cfg, Sent(cfg, garam, observations[0], outcomes[0]),
        observations[1..], outcomes[1..], g);
    }
  }

  /** A report garam accepts and which arrives is the state garam holds when the pass ends. */
  lemma {:induction false} CurrentStateIsDelivered(cfg: Config, garam: map<Grn, Entry>,
      observations: seq<Observation>, outcomes: seq<Outcome>, o: Observation)
    requires |observations| == |outcomes| && StateOf(o.readiness).Some?
    requires Accepts(cfg, garam, o.agent, o.epoch)
    requires forall p :: p in observations && p.agent == o.agent ==> p == o
    requires garam[o.agent].latch == Latch(StateOf(o.readiness).value, Some(cfg.me)) ||
      exists i :: 0 <= i < |outcomes| && observations[i] == o && outcomes[i].Effective()
    ensures var d := Delivered(cfg, garam, observations, outcomes);
      o.agent in d && d[o.agent].latch == Latch(StateOf(o.readiness).value, Some(cfg.me))
    decreases |observations|
  {
    if observations != [] {
      assert observations[0] in observations;
      CurrentStateIsDelivered(cfg, Sent(cfg, garam, observations[0], outcomes[0]),
        observations[1..], outcomes[1..], o);
    }
  }

  // ------------------------------------------------------ which epoch is recorded

  function Assignments(steps: seq<Step>, g: Grn): nat {
    if steps == [] then 0
    else Assignments(steps[..|steps| - 1], g) +
         (if steps[|steps| - 1].Reassign? && steps[|steps| - 1].g == g then 1 else 0)
  }

  lemma EpochStep(cfg: Config, s: State, step: Step, g: Grn)
    requires g in s.garam && s.garam[g].claimed
    ensures var t := Next(cfg, s, step);
      && g in t.garam && t.garam[g].claimed
      && t.garam[g].epoch == s.garam[g].epoch + (if step.Reassign? && step.g == g then 1 else 0)
  {
    if step.Poll? { EpochPoll(cfg, s, step.outcome, step.order, g); }
  }

  lemma EpochPoll(cfg: Config, s: State, outcome: Outcome, order: seq<Grn>, g: Grn)
    requires g in s.garam && s.garam[g].claimed
    ensures var t := Polled(cfg, s, outcome, order);
      g in t.garam && t.garam[g].claimed && t.garam[g].epoch == s.garam[g].epoch
  {
    match s.poller
    case Working(todo) =>
    case Asking(_, _, _) =>
    case Creating(_, _, _, _) =>
    case Recording(_, _, _, _, _) =>
    case _ =>
  }

  lemma {:induction false} EpochCountsAssignments(cfg: Config, s: State, steps: seq<Step>, g: Grn)
    requires g in s.garam && s.garam[g].claimed
    ensures var t := Run(cfg, s, steps);
      g in t.garam && t.garam[g].claimed && t.garam[g].epoch == s.garam[g].epoch + Assignments(steps, g)
    decreases |steps|
  {
    if steps != [] {
      var front := steps[..|steps| - 1];
      EpochCountsAssignments(cfg, s, front, g);
      EpochStep(cfg, Run(cfg, s, front), steps[|steps| - 1], g);
    }
  }

  /** The epoch read at `s` and recorded at the end of `steps` is the current one if and only if the agent
      was not assigned in between; the certificate answered in between proves the holder, not the epoch. */
  lemma RecordIsCurrentIff(cfg: Config, s: State, steps: seq<Step>, g: Grn)
    requires g in s.garam && s.garam[g].claimed
    requires var t := Run(cfg, s, steps);
      t.poller.Placing? && t.poller.d.agent == g && t.poller.epoch == s.garam[g].epoch
    ensures var t := Run(cfg, s, steps);
      g in t.garam && (t.poller.epoch == t.garam[g].epoch <==> Assignments(steps, g) == 0)
  {
    EpochCountsAssignments(cfg, s, steps, g);
  }

  // ------------------------------------------------ a record that is never current

  lemma RunThen(cfg: Config, steps: seq<Step>, step: Step)
    ensures Run(cfg, START, steps + [step]) == Next(cfg, Run(cfg, START, steps), step)
  {
    assert (steps + [step])[..|steps|] == steps;
  }

  /** The start, with a definition of `g` declared without pins. */
  function Declares(g: Grn): State { START.(history := START.history.(declared := {(g, map[])})) }

  function Fresh(claims: nat): Entry { Entry(map[], false, "", 0, Latch(Pending, None), 0, claims, 0) }

  function Taken(holder: string, epoch: int): Entry {
    Fresh(1).(claimed := true, holder := holder, epoch := epoch)
  }

  /** The poller has claimed `g` at epoch 1, and then the agent is assigned away and back. */
  lemma AwayAndBack(cfg: Config, g: Grn, other: string) returns (steps: seq<Step>)
    requires g in cfg.play && g != ""
    ensures Run(cfg, START, steps) ==
      Declares(g).(garam := map[g := Taken(cfg.me, 3)], poller := Correcting(Definition(g, map[], None), 1, []))
  {
    var define, list, claim := Define(g, map[]), Poll(Done, [g]), Poll(Done, []);
    var d := Definition(g, map[], None);
    RunThen(cfg, [], define);
    var s1 := Declares(g).(garam := map[g := Fresh(0)]);
    assert Run(cfg, START, [define]) == s1 by { assert [] + [define] == [define]; }
    RunThen(cfg, [define], list);
    var s2 := s1.(poller := Working([d]));
    assert Next(cfg, s1, list) == s2 by { assert Listed(s1.garam, [g]) == [d]; }
    RunThen(cfg, [define] + [list], claim);
    var s3 := s2.(garam := map[g := Taken(cfg.me, 1)], poller := Correcting(d, 1, []));
    assert Next(cfg, s2, claim) == s3 by {
      assert [d][1..] == [];
      assert Begin(cfg, s2, Done) == Claim(cfg, s2, d, [], Done);
    }
    RunThen(cfg, [define] + [list] + [claim], Reassign(g, other));
    RunThen(cfg, [define] + [list] + [claim] + [Reassign(g, other)], Reassign(g, cfg.me));
    steps := [define] + [list] + [claim] + [Reassign(g, other)] + [Reassign(g, cfg.me)];
  }

  /** From there, six calls that all succeed place the credential beside the epoch of the claim. */
  lemma PlacesStale(cfg: Config, g: Grn, steps: seq<Step>) returns (more: seq<Step>)
    requires g != "" && Run(cfg, START, steps) ==
      Declares(g).(garam := map[g := Taken(cfg.me, 3)], poller := Correcting(Definition(g, map[], None), 1, []))
    ensures var t := Run(cfg, START, more);
      && t.poller == Working([]) && t.garam == map[g := Taken(cfg.me, 3).(issued := 1, certificateCalls := 1)]
      && cfg.SecretName(g) in t.cluster.secrets && cfg.Name(g) in t.cluster.agents
      && t.cluster.agents[cfg.Name(g)].status.agent == g && t.cluster.agents[cfg.Name(g)].status.epoch == 1
  {
    var go, d := Poll(Done, []), Definition(g, map[], None);
    more := steps;
    var s0 := Run(cfg, START, steps);
    RunThen(cfg, more, go);
    more := more + [go];
    assert Run(cfg, START, more) == s0.(poller := Checking(d, 1, []));
    RunThen(cfg, more, go);
    more := more + [go];
    assert Run(cfg, START, more) == s0.(poller := Asking(d, 1, []));
    RunThen(cfg, more, go);
    more := more + [go];
    var s3 := s0.(garam := map[g := Taken(cfg.me, 3).(issued := 1, certificateCalls := 1)],
                  poller := Creating(d, 1, Credential(g, 0), []));
    assert Run(cfg, START, more) == s3;
    more := BuildsStale(cfg, g, more);
  }

  lemma BuildsStale(cfg: Config, g: Grn, steps: seq<Step>) returns (more: seq<Step>)
    requires g != "" && Run(cfg, START, steps) ==
      Declares(g).(garam := map[g := Taken(cfg.me, 3).(issued := 1, certificateCalls := 1)],
             poller := Creating(Definition(g, map[], None), 1, Credential(g, 0), []))
    ensures var t := Run(cfg, START, more);
      && t.poller == Working([]) && t.garam == map[g := Taken(cfg.me, 3).(issued := 1, certificateCalls := 1)]
      && cfg.SecretName(g) in t.cluster.secrets && cfg.Name(g) in t.cluster.agents
      && t.cluster.agents[cfg.Name(g)].status.agent == g && t.cluster.agents[cfg.Name(g)].status.epoch == 1
  {
    var go, s := Poll(Done, []), Run(cfg, START, steps);
    RunThen(cfg, steps, go);
    RunThen(cfg, steps + [go], go);
    RunThen(cfg, steps + [go] + [go], go);
    var a := AgentObject(0, ConstructedSpec(cfg, s.poller.d), NO_STATUS);
    var made := Run(cfg, START, steps + [go]);
    assert made == s.(cluster := made.cluster, poller := Recording(s.poller.d, 1, s.poller.credential, a, []));
    assert made.cluster.agents == map[cfg.Name(g) := a];
    var noted := Run(cfg, START, steps + [go] + [go]);
    assert noted.poller == Placing(s.poller.d, 1, s.poller.credential, Recorded(a, g, 1), []);
    assert noted.cluster.agents[cfg.Name(g)] == Recorded(a, g, 1);
    more := steps + [go] + [go] + [go];
  }

  /** A certificate answered after a reassignment away and back does not prove the recorded epoch: there is a run, in
      which no call fails, that ends with a placed credential, this operator as the holder, and a record garam will
      never accept a report at. */
  lemma StaleRecordExists(cfg: Config, g: Grn, other: string) returns (steps: seq<Step>)
    requires cfg.Injective() && g in cfg.play && g != ""
    ensures var t := Run(cfg, START, steps);
      && cfg.SecretName(g) in t.cluster.secrets && cfg.Name(g) in t.cluster.agents && HeldBy(cfg, t.garam, g)
      && var a := t.cluster.agents[cfg.Name(g)];
         a.status.agent == g && a.status.epoch < t.garam[g].epoch && !Accepts(cfg, t.garam, g, a.status.epoch)
  {
    var away := AwayAndBack(cfg, g, other);
    steps := PlacesStale(cfg, g, away);
  }

  /** A credential Secret outlives its Agent until it is collected, so that a Secret implies an Agent only while its
      owner stands. */
  lemma OrphanExists(cfg: Config, g: Grn, other: string) returns (steps: seq<Step>)
    requires cfg.Injective() && g in cfg.play && g != ""
    ensures var t := Run(cfg, START, steps);
      cfg.SecretName(g) in t.cluster.secrets && cfg.Name(g) !in t.cluster.agents
  {
    var built := StaleRecordExists(cfg, g, other);
    RunThen(cfg, built, UserDeletes(cfg.Name(g)));
    steps := built + [UserDeletes(cfg.Name(g))];
  }

  // ---------------------------------------------------------- what an adoption leaves

  function Calls(cfg: Config, s: State, n: nat): State {
    if n == 0 then s else Polled(cfg, Calls(cfg, s, n - 1), Done, [])
  }

  /** A construction takes over whatever Agent it finds at the name, and writes its record on it.  The credential is
      then found again if and only if that Agent names the Secret a construction would have named; where it names
      another, every later pass asks for one more certificate. */
  lemma AdoptsWhateverIsThere(cfg: Config, s: State)
    requires s.poller.Creating? && s.poller.epoch >= 1 && s.poller.d.agent != ""
    requires cfg.Name(s.poller.d.agent) in s.cluster.agents && cfg.SecretName(s.poller.d.agent) !in s.cluster.secrets
    ensures
      var g, t := s.poller.d.agent, Calls(cfg, s, 4);
      var name, a := cfg.Name(g), s.cluster.agents[cfg.Name(g)];
      && t.poller == Working(s.poller.todo) && name in t.cluster.agents
      && t.cluster.agents[name] == Recorded(a, g, s.poller.epoch)
      && (cfg.SecretName(g) in t.cluster.secrets <==> a.spec.credentialsSecretName == cfg.SecretName(g))
      && (a.spec.credentialsSecretName != cfg.SecretName(g) ==>
            forall e, todo :: Check(cfg, t.(poller := Checking(s.poller.d, e, todo)), Done).poller.Asking?)
  {
    var p, name := s.poller, cfg.Name(s.poller.d.agent);
    var a := s.cluster.agents[name];
    var s1 := s.(poller := Adopting(p.d, p.epoch, p.credential, p.todo));
    var s2 := s.(poller := Recording(p.d, p.epoch, p.credential, a, p.todo));
    assert Calls(cfg, s, 1) == s1;
    assert Calls(cfg, s, 2) == s2;
    var s3 := Record(cfg, s2, Done);
    assert Calls(cfg, s, 3) == s3;
    assert s3.poller == Placing(p.d, p.epoch, p.credential, Recorded(a, p.d.agent, p.epoch), p.todo);
    assert s3.cluster.agents[name] == Recorded(a, p.d.agent, p.epoch) && s3.cluster.secrets == s.cluster.secrets;
    assert Calls(cfg, s, 4) == Place(cfg, s3, Done);
  }
}
