/** What an Agent the operator made is made of, over every run: the pins garam declared for its agent and the operator's
    own storage size, until a user edits them. */
module Declarations {
  import opened Prelude
  import opened Api
  import opened Protocol
  import opened Safety
  import opened Convergence

  /** Pins garam declared for the agent, and the rest of the spec as the operator is configured. */
  ghost predicate MadeFor(cfg: Config, h: History, g: Grn, spec: AgentSpec) {
    && (g, spec.pins) in h.declared && spec.storageSize == cfg.storageSize
    && spec.storageClassName == None && spec.resources == map[]
  }

  ghost predicate Declared(h: History, d: Definition) { (d.agent, d.pins) in h.declared }

  ghost predicate AgentMade(cfg: Config, s: State, g: Grn) {
    cfg.Name(g) in s.cluster.agents && cfg.Name(g) !in s.history.edited ==>
      MadeFor(cfg, s.history, g, s.cluster.agents[cfg.Name(g)].spec)
  }

  /** Nothing the operator holds or made of an agent was not declared for it. */
  ghost predicate Faithful(cfg: Config, s: State) {
    && (forall g :: g in s.garam ==> (g, s.garam[g].pins) in s.history.declared)
    && (!s.poller.Idle? ==> forall d :: d in s.poller.todo ==> Declared(s.history, d))
    && (!s.poller.Idle? && !s.poller.Working? ==> Declared(s.history, s.poller.d))
    && (forall g :: g in cfg.play ==> AgentMade(cfg, s, g))
  }

  lemma PollKeepsPins(cfg: Config, s: State, outcome: Outcome, order: seq<Grn>, g: Grn)
    requires g in s.garam
    ensures var t := Polled(cfg, s, outcome, order); g in t.garam && t.garam[g].pins == s.garam[g].pins
  {
    PollKeepsKeys(cfg, s, outcome, order);
    match s.poller
    case Working(_) =>
    case Creating(_, _, _, _) =>
    case Recording(_, _, _, _, _) =>
    case _ =>
  }

  lemma PollDeclaresNothing(cfg: Config, s: State, outcome: Outcome, order: seq<Grn>)
    ensures var t := Polled(cfg, s, outcome, order);
      t.history.declared == s.history.declared && t.history.edited == s.history.edited
  {
    match s.poller
    case Working(_) =>
    case Creating(_, _, _, _) =>
    case Recording(_, _, _, _, _) =>
    case _ =>
  }

  lemma PollJobIsDeclared(cfg: Config, s: State, outcome: Outcome, order: seq<Grn>)
    requires Faithful(cfg, s)
    ensures var p := Polled(cfg, s, outcome, order).poller;
      && (!p.Idle? ==> forall d :: d in p.todo ==> Declared(s.history, d))
      && (!p.Idle? && !p.Working? ==> Declared(s.history, p.d))
  {
    if !s.poller.Idle? {
      PollMoves(cfg, s, outcome, order);
    } else {
      var p := List(s, outcome, order).poller;
      if p.Working? {
        forall d | d in p.todo ensures Declared(s.history, d) {
          var i :| 0 <= i < |p.todo| && p.todo[i] == d;
          assert order[i] in order;
        }
      }
    }
  }

  lemma PollIsFaithful(cfg: Config, s: State, outcome: Outcome, order: seq<Grn>)
    requires cfg.Injective() && Inv(cfg, s) && Faithful(cfg, s)
    ensures Faithful(cfg, Polled(cfg, s, outcome, order))
  {
    var t := Polled(cfg, s, outcome, order);
    PollKeepsKeys(cfg, s, outcome, order);
    PollDeclaresNothing(cfg, s, outcome, order);
    forall g | g in t.garam ensures (g, t.garam[g].pins) in t.history.declared {
      assert g in s.garam.Keys;
      PollKeepsPins(cfg, s, outcome, order, g);
    }
    PollJobIsDeclared(cfg, s, outcome, order);
    forall g | g in cfg.play ensures AgentMade(cfg, t, g) {
      PollKeepsSpecs(cfg, s, outcome, order, g);
      assert AgentMade(cfg, s, g);
    }
  }

  lemma ReportIsFaithful(cfg: Config, s: State, outcome: Outcome, items: seq<string>)
    requires Faithful(cfg, s)
    ensures Faithful(cfg, Reported(cfg, s, outcome, items))
  {
    forall g | g in cfg.play ensures AgentMade(cfg, Reported(cfg, s, outcome, items), g) {
      assert AgentMade(cfg, s, g);
    }
  }

  lemma OutsideIsFaithful(cfg: Config, s: State, step: Step)
    requires Faithful(cfg, s)
    ensures Faithful(cfg, Outside(cfg, s, step))
  {
    forall g | g in cfg.play ensures AgentMade(cfg, Outside(cfg, s, step), g) {
      assert AgentMade(cfg, s, g);
      assert cfg.Reserved(cfg.Name(g));
    }
  }

  lemma StepIsFaithful(cfg: Config, s: State, step: Step)
    requires cfg.Injective() && Inv(cfg, s) && Faithful(cfg, s)
    ensures Faithful(cfg, Next(cfg, s, step))
  {
    match step
    case Poll(outcome, order) => PollIsFaithful(cfg, s, outcome, order);
    case Report(outcome, items) => ReportIsFaithful(cfg, s, outcome, items);
    case Crash => forall g | g in cfg.play ensures AgentMade(cfg, Crashed(s), g) { assert AgentMade(cfg, s, g); }
    case _ => OutsideIsFaithful(cfg, s, step);
  }

  lemma {:induction false} RunIsFaithful(cfg: Config, steps: seq<Step>)
    requires cfg.Injective()
    ensures Faithful(cfg, Run(cfg, START, steps))
    decreases |steps|
  {
    if steps != [] {
      var front := steps[..|steps| - 1];
      RunIsFaithful(cfg, front);
      StartOk(cfg);
      RunKeeps(cfg, START, front);
      StepIsFaithful(cfg, Run(cfg, START, front), steps[|steps| - 1]);
    }
  }

  lemma {:induction false} DeclaredTraces(cfg: Config, steps: seq<Step>, g: Grn, pins: map<string, string>)
    requires (g, pins) in Run(cfg, START, steps).history.declared
    ensures Define(g, pins) in steps || Redefine(g, pins) in steps
    decreases |steps|
  {
    if steps != [] {
      var front, last := steps[..|steps| - 1], steps[|steps| - 1];
      var s := Run(cfg, START, front);
      if (g, pins) in s.history.declared {
        DeclaredTraces(cfg, front, g, pins);
      } else {
        OnlyDefinitionsDeclare(cfg, s, last, g, pins);
      }
    }
  }

  lemma OnlyDefinitionsDeclare(cfg: Config, s: State, step: Step, g: Grn, pins: map<string, string>)
    requires (g, pins) !in s.history.declared && (g, pins) in Next(cfg, s, step).history.declared
    ensures step == Define(g, pins) || step == Redefine(g, pins)
  {
    if step.Poll? { PollDeclaresNothing(cfg, s, step.outcome, step.order); }
  }

  /** Over every run, an Agent at a digest name that no user has edited carries pins garam declared for that very agent, at
      some point of the run, and the operator's storage size, with no storage class and no resources of its own; and
      unless a user made it, it names its own Secret. */
  lemma AgentsAreMadeAsDeclared(cfg: Config, steps: seq<Step>, g: Grn)
    requires cfg.Injective() && g in cfg.play
    requires var s := Run(cfg, START, steps); cfg.Name(g) in s.cluster.agents && cfg.Name(g) !in s.history.edited
    ensures
      var s := Run(cfg, START, steps);
      var spec := s.cluster.agents[cfg.Name(g)].spec;
      && (Define(g, spec.pins) in steps || Redefine(g, spec.pins) in steps)
      && spec.storageSize == cfg.storageSize && spec.storageClassName == None && spec.resources == map[]
      && (cfg.Name(g) !in s.history.renamed ==> spec.credentialsSecretName == cfg.Name(g) + "-credentials")
  {
    var s := Run(cfg, START, steps);
    RunIsFaithful(cfg, steps);
    assert AgentMade(cfg, s, g);
    DeclaredTraces(cfg, steps, g, s.cluster.agents[cfg.Name(g)].spec.pins);
    StartOk(cfg);
    RunKeeps(cfg, START, steps);
  }

  /** What one create leaves: an Agent with the configured image and storage size, its own Secret and the definition's
      pins, and no status. */
  lemma CreatesAsDeclared(cfg: Config, s: State)
    requires s.poller.Creating? && cfg.Name(s.poller.d.agent) !in s.cluster.agents
    ensures
      var d, t := s.poller.d, Create(cfg, s, Done);
      && cfg.Name(d.agent) in t.cluster.agents && cfg.Name(d.agent) == "agent-" + cfg.digest(d.agent)
      && var a := t.cluster.agents[cfg.Name(d.agent)];
         && a.spec.pins == d.pins && a.spec.storageSize == cfg.storageSize && a.spec.image == cfg.image
         && a.spec.credentialsSecretName == cfg.Name(d.agent) + "-credentials"
         && a.spec.storageClassName == None && a.spec.resources == map[] && a.status == AgentStatus([], 0, "", 0)
  {
  }
}
