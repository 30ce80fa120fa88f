/** Safety of the protocol over whole runs: fencing, crash safety, conservation of keys, provenance. */
module Fencing {
  import opened Prelude
  import opened Protocol
  import opened Safety

  ghost predicate Reachable(cfg: Config, s: State) {
    exists steps :: s == Run(cfg, START, steps)
  }

  lemma ReachableOk(cfg: Config, s: State)
    requires cfg.Injective() && Reachable(cfg, s)
    ensures Inv(cfg, s)
  {
    var steps :| s == Run(cfg, START, steps);
    StartOk(cfg);
    RunKeeps(cfg, START, steps);
  }

  lemma {:induction false} RunAppends(cfg: Config, s: State, a: seq<Step>, b: seq<Step>)
    ensures Run(cfg, s, a + b) == Run(cfg, Run(cfg, s, a), b)
    decreases |b|
  {
    if b == [] {
      assert a + b == a;
    } else {
      RunAppends(cfg, s, a, b[..|b| - 1]);
      assert (a + b)[..|a + b| - 1] == a + b[..|b| - 1];
    }
  }

  lemma RunOne(cfg: Config, s: State, step: Step)
    ensures Run(cfg, s, [step]) == Next(cfg, s, step)
  {
    assert [step][..0] == [];
    assert Run(cfg, s, [step][..0]) == s;
  }

  // -------------------------------------------------- what a step of the poller touches

  lemma BeginTouchesGaram(cfg: Config, s: State, outcome: Outcome, g: Grn)
    requires g in s.garam && s.poller.Working? && s.poller.todo != []
    ensures var t := Begin(cfg, s, outcome);
      && t.reporter == s.reporter && t.history == s.history
      && g in t.garam && t.garam[g].latch == s.garam[g].latch && s.garam[g].epoch <= t.garam[g].epoch
      && t.garam[g].issued == s.garam[g].issued
  {
  }

  lemma AskTouchesGaram(cfg: Config, s: State, outcome: Outcome, g: Grn)
    requires g in s.garam && s.poller.Asking?
    ensures var t := Ask(cfg, s, outcome);
      && t.reporter == s.reporter
      && t.history.accepted == s.history.accepted && t.history.seen == s.history.seen
      && g in t.garam && t.garam[g].latch == s.garam[g].latch && s.garam[g].epoch <= t.garam[g].epoch
      && (t.garam[g].issued != s.garam[g].issued ==> s.poller.d.agent == g)
  {
  }

  lemma PollTouchesGaram(cfg: Config, s: State, outcome: Outcome, order: seq<Grn>, g: Grn)
    requires g in s.garam
    ensures var t := Polled(cfg, s, outcome, order);
      && t.reporter == s.reporter
      && t.history.accepted == s.history.accepted && t.history.seen == s.history.seen
      && g in t.garam && t.garam[g].latch == s.garam[g].latch && s.garam[g].epoch <= t.garam[g].epoch
      && (t.garam[g].issued != s.garam[g].issued ==> s.poller.Asking? && s.poller.d.agent == g)
  {
    var t := Polled(cfg, s, outcome, order);
    match s.poller
    case Working(todo) => if todo != [] { BeginTouchesGaram(cfg, s, outcome, g); }
    case Asking(_, _, _) => AskTouchesGaram(cfg, s, outcome, g);
    case Creating(_, _, _, _) => assert t.garam == s.garam;
    case Recording(_, _, _, _, _) => assert t.garam == s.garam;
    case _ => assert t.garam == s.garam;
  }

  /** The record on an Agent is the one it carried, none at all, or the one now being constructed. */
  ghost predicate RecordFrom(cfg: Config, s: State, name: string, a: AgentObject) {
    || (name in s.cluster.agents && SameRecord(s.cluster.agents[name], a))
    || (s.poller.Creating? && a.status == NO_STATUS && name == cfg.Name(s.poller.d.agent))
    || (s.poller.Recording? && a.status.agent == s.poller.d.agent && name == cfg.Name(s.poller.d.agent))
  }

  lemma PollTouchesAgent(cfg: Config, s: State, outcome: Outcome, order: seq<Grn>, name: string)
    ensures var t := Polled(cfg, s, outcome, order);
      && (name in s.cluster.agents ==> name in t.cluster.agents)
      && (name in t.cluster.agents ==> RecordFrom(cfg, s, name, t.cluster.agents[name]))
  {
    match s.poller
    case Patching(_, _, _) =>
    case Creating(_, _, _, _) =>
    case Recording(_, _, _, _, _) =>
    case _ =>
  }

  lemma PollTouchesSecret(cfg: Config, s: State, outcome: Outcome, order: seq<Grn>, name: string)
    requires name in s.cluster.secrets
    ensures var t := Polled(cfg, s, outcome, order);
      name in t.cluster.secrets && t.cluster.secrets[name] == s.cluster.secrets[name]
  {
    match s.poller
    case Placing(_, _, _, _, _) =>
    case Creating(_, _, _, _) =>
    case Recording(_, _, _, _, _) =>
    case _ =>
  }

  // --------------------------------------------------------------- crash safety

  /** At any point of any run, a credential Secret whose owner stands belongs to an Agent that names
      the right agent and carries a real epoch, never ahead of garam's. */
  lemma CredentialImpliesRecord(cfg: Config, s: State, name: string)
    requires cfg.Injective() && Reachable(cfg, s) && name in s.cluster.secrets
    requires OwnerStands(cfg, s.cluster.agents, s.cluster.secrets[name])
    ensures
      var g := s.cluster.secrets[name].credential.agent;
      var a := s.cluster.agents[cfg.Name(g)];
      && a.status.agent == g && Behind(s.garam, g, a.status.epoch)
      && (cfg.Name(g) !in s.history.renamed ==> name == cfg.SecretName(g) == a.spec.credentialsSecretName)
  {
    ReachableOk(cfg, s);
    var g := s.cluster.secrets[name].credential.agent;
    assert SecretOk(cfg, s.garam, s.cluster, name, s.cluster.secrets[name]);
    assert EntryOk(cfg, g, s.garam[g]);
    assert SecretNamed(cfg, name, s.cluster.secrets[name], s.history.renamed);
    assert AgentOk(cfg, s.garam, s.cluster.nextUid, cfg.Name(g), s.cluster.agents[cfg.Name(g)]);
  }

  /** The poller writes to no Agent but the one of the definition it is at. */
  lemma PollWritesOneName(cfg: Config, s: State, outcome: Outcome, order: seq<Grn>, name: string)
    requires s.poller.Idle? || s.poller.Working? || name != cfg.Name(s.poller.d.agent)
    ensures var t := Polled(cfg, s, outcome, order).cluster.agents;
      (name in t <==> name in s.cluster.agents) && (name in t ==> t[name] == s.cluster.agents[name])
  {
    match s.poller
    case Working(_) =>
    case Creating(_, _, _, _) =>
    case Recording(_, _, _, _, _) =>
    case _ =>
  }

  /** The poller writes nothing on an Agent a user put at a name of their own. */
  lemma UserAgentsLeftAlone(cfg: Config, s: State, outcome: Outcome, order: seq<Grn>, name: string)
    requires cfg.Injective() && Reachable(cfg, s) && !cfg.Reserved(name)
    ensures var t := Polled(cfg, s, outcome, order);
      && (name in t.cluster.agents <==> name in s.cluster.agents)
      && (name in s.cluster.agents ==>
            t.cluster.agents[name] == s.cluster.agents[name] && t.cluster.agents[name].status.agent == "")
  {
    ReachableOk(cfg, s);
    if name in s.cluster.agents {
      var a := s.cluster.agents[name];
      assert AgentOk(cfg, s.garam, s.cluster.nextUid, name, a);
      assert a.status.agent in s.garam ==> EntryOk(cfg, a.status.agent, s.garam[a.status.agent]);
    }
    if !s.poller.Idle? && !s.poller.Working? {
      assert EntryOk(cfg, s.poller.d.agent, s.garam[s.poller.d.agent]);
    }
    PollWritesOneName(cfg, s, outcome, order, name);
  }

  // ----------------------------------------------------------------------- fencing

  /** Everything this operator holds about `g` is older than epoch `floor`, and garam is there already. */
  ghost predicate Fenced(cfg: Config, s: State, g: Grn, floor: int) {
    && Inv(cfg, s)
    && cfg.SecretName(g) in s.cluster.secrets
    && g in s.garam && floor <= s.garam[g].epoch
    && (forall n :: n in s.cluster.agents && s.cluster.agents[n].status.agent == g ==>
          s.cluster.agents[n].status.epoch < floor)
    && (s.reporter.Sending? ==> forall o :: o in s.reporter.todo && o.agent == g ==> o.epoch < floor)
  }

  /** Between `s` and `t` garam took no report of `g` from this operator. */
  ghost predicate Silent(cfg: Config, s: State, t: State, g: Grn) {
    && s.history.accepted <= t.history.accepted
    && (forall i :: |s.history.accepted| <= i < |t.history.accepted| ==> t.history.accepted[i].0 != g)
    && g in s.garam && g in t.garam
    && (t.garam[g].latch == s.garam[g].latch || t.garam[g].latch.from != Some(cfg.me))
  }

  lemma FencedPoll(cfg: Config, s: State, outcome: Outcome, order: seq<Grn>, g: Grn, floor: int)
    requires cfg.Injective() && Fenced(cfg, s, g, floor) && g != ""
    ensures var t := Polled(cfg, s, outcome, order);
      Fenced(cfg, t, g, floor) && Silent(cfg, s, t, g)
  {
    PollKeeps(cfg, s, outcome, order);
    var t := Polled(cfg, s, outcome, order);
    PollTouchesGaram(cfg, s, outcome, order, g);
    PollTouchesSecret(cfg, s, outcome, order, cfg.SecretName(g));
    forall n | n in t.cluster.agents && t.cluster.agents[n].status.agent == g
      ensures t.cluster.agents[n].status.epoch < floor
    {
      PollTouchesAgent(cfg, s, outcome, order, n);
    }
  }

  lemma FencedList(cfg: Config, s: State, items: seq<string>, g: Grn, floor: int)
    requires Fenced(cfg, s, g, floor)
    requires forall n :: n in items ==> n in s.cluster.agents
    ensures forall o :: o in Observed(s.cluster.agents, items) && o.agent == g ==> o.epoch < floor
  {
    forall o | o in Observed(s.cluster.agents, items) && o.agent == g ensures o.epoch < floor {
      var n :| n in items && Describes(o, s.cluster.agents[n]);
    }
  }

  lemma FencedReport(cfg: Config, s: State, outcome: Outcome, items: seq<string>, g: Grn, floor: int)
    requires Fenced(cfg, s, g, floor)
    ensures var t := Reported(cfg, s, outcome, items);
      Fenced(cfg, t, g, floor) && Silent(cfg, s, t, g)
  {
    ReportKeeps(cfg, s, outcome, items);
    match s.reporter
    case Resting =>
      if outcome.Done? && Enumerates(items, s.cluster.agents.Keys) {
        FencedList(cfg, s, items, g, floor);
      }
    case Sending(todo) =>
      assert todo != [] && todo[0].agent == g ==> !Accepts(cfg, s.garam, g, todo[0].epoch);
  }

  /** The outside world raises epochs, removes records and never writes one. */
  lemma OutsideTouches(cfg: Config, s: State, step: Step, g: Grn)
    requires g in s.garam && g != "" && step != SecretGoes(cfg.SecretName(g))
    ensures var t := Outside(cfg, s, step);
      && t.reporter == s.reporter && t.history.accepted == s.history.accepted
      && g in t.garam && s.garam[g].epoch <= t.garam[g].epoch
      && (t.garam[g].latch == s.garam[g].latch || t.garam[g].latch.from != Some(cfg.me))
      && (cfg.SecretName(g) in s.cluster.secrets ==> cfg.SecretName(g) in t.cluster.secrets)
      && forall n :: n in t.cluster.agents && t.cluster.agents[n].status.agent == g ==>
           n in s.cluster.agents && SameClaim(s.cluster.agents[n], t.cluster.agents[n])
  {
  }

  lemma FencedOutside(cfg: Config, s: State, step: Step, g: Grn, floor: int)
    requires Fenced(cfg, s, g, floor) && g != ""
    requires !step.Poll? && !step.Report? && !step.Crash? && step != SecretGoes(cfg.SecretName(g))
    ensures var t := Outside(cfg, s, step);
      Fenced(cfg, t, g, floor) && Silent(cfg, s, t, g)
  {
    OutsideKeeps(cfg, s, step);
    OutsideTouches(cfg, s, step, g);
  }

  lemma FencedStep(cfg: Config, s: State, step: Step, g: Grn, floor: int)
    requires cfg.Injective() && Fenced(cfg, s, g, floor) && step != SecretGoes(cfg.SecretName(g))
    ensures Fenced(cfg, Next(cfg, s, step), g, floor)
    ensures Silent(cfg, s, Next(cfg, s, step), g)
  {
    assert EntryOk(cfg, g, s.garam[g]);
    match step
    case Poll(outcome, order) => FencedPoll(cfg, s, outcome, order, g, floor);
    case Report(outcome, items) => FencedReport(cfg, s, outcome, items, g, floor);
    case Crash => CrashKeeps(cfg, s);
    case _ => FencedOutside(cfg, s, step, g, floor);
  }

  lemma {:induction false} FencedRun(cfg: Config, s: State, steps: seq<Step>, g: Grn, floor: int)
    requires cfg.Injective() && Fenced(cfg, s, g, floor) && SecretGoes(cfg.SecretName(g)) !in steps
    ensures Fenced(cfg, Run(cfg, s, steps), g, floor)
    ensures Silent(cfg, s, Run(cfg, s, steps), g)
    decreases |steps|
  {
    if steps != [] {
      var front, last := steps[..|steps| - 1], steps[|steps| - 1];
      FencedRun(cfg, s, front, g, floor);
      FencedStep(cfg, Run(cfg, s, front), last, g, floor);
    }
  }

  /** The next epoch is ahead of all the operator holds. */
  lemma ReassignedIsFenced(cfg: Config, s: State, g: Grn, to: string)
    requires Inv(cfg, s) && g in s.garam && s.garam[g].claimed && cfg.SecretName(g) in s.cluster.secrets
    ensures var t := Outside(cfg, s, Reassign(g, to));
      g in t.garam && Fenced(cfg, t, g, t.garam[g].epoch) && Silent(cfg, s, t, g)
  {
    var t := Outside(cfg, s, Reassign(g, to));
    OutsideKeeps(cfg, s, Reassign(g, to));
    forall n | n in t.cluster.agents && t.cluster.agents[n].status.agent == g
      ensures t.cluster.agents[n].status.epoch < t.garam[g].epoch
    {
      assert EntryOk(cfg, g, s.garam[g]);
      assert AgentOk(cfg, s.garam, s.cluster.nextUid, n, s.cluster.agents[n]);
    }
    if s.reporter.Sending? {
      forall o | o in s.reporter.todo && o.agent == g ensures o.epoch < t.garam[g].epoch {
        assert ObservationOk(cfg, s.garam, s.history.seen, o);
      }
    }
  }

  /** Fencing.  Once an agent whose credential is placed is assigned again, garam takes no later report
      of it from this operator, whoever holds it then, whatever was in flight, and however often the
      process restarts, for as long as the credential Secret stands. */
  lemma ReassignmentFences(cfg: Config, s: State, g: Grn, to: string, after: seq<Step>)
    requires cfg.Injective() && Reachable(cfg, s)
    requires cfg.SecretName(g) in s.cluster.secrets
    requires s.cluster.secrets[cfg.SecretName(g)].credential.agent == g || (g in s.garam && s.garam[g].claimed)
    requires SecretGoes(cfg.SecretName(g)) !in after
    ensures Silent(cfg, s, Run(cfg, s, [Reassign(g, to)] + after), g)
  {
    ReachableOk(cfg, s);
    assert SecretOk(cfg, s.garam, s.cluster, cfg.SecretName(g), s.cluster.secrets[cfg.SecretName(g)]);
    assert EntryOk(cfg, g, s.garam[g]);
    var t := Outside(cfg, s, Reassign(g, to));
    RunOne(cfg, s, Reassign(g, to));
    ReassignedIsFenced(cfg, s, g, to);
    FencedRun(cfg, t, after, g, t.garam[g].epoch);
    RunAppends(cfg, s, [Reassign(g, to)], after);
  }
}
