/**
 The poller and the reporter as they run.  Each keeps what it knows in its own variables, makes its calls on garam and
 the API server, and branches on what they answer, while the world moves between any two calls.  The state of the
 protocol machine is kept beside them as a ghost, and every method is proved to leave its variables and the world
 where the machine is; so what Fencing, Custody and Convergence prove of runs and passes holds of these loops.
 */
module Operator {
  import opened Prelude
  import opened Api
  import opened Protocol
  import Safety
  import Fencing
  import Convergence
  import Custody

  // ------------------------------------------------------------------------- answers

  /** What a read answers. */
  datatype Reply<+T> = Got(value: T) | Absent | Unread

  /** What a create answers. */
  datatype Creation<+T> = Made(value: T) | Exists | NotMade

  datatype ClaimAnswer = Assigned(epoch: int) | Conflict | NotClaimed

  datatype CertificateAnswer = Certified(credential: Credential) | NotHeld | NotIssued

  datatype ReportAnswer = Accepted | Stale | NotOurs | NotReported

  // ----------------------------------------------------------------------- the record

  /** What one loop does not keep in the world: the poller its place and its certificates, the reporter its list. */
  function Bare(polling: bool, s: State): State {
    if polling then s.(poller := Idle, history := s.history.(placed := multiset{}, lost := multiset{}))
    else s.(reporter := Resting, history := s.history.(accepted := []))
  }

  /** `states` and `run` lead from the start to `at`. */
  ghost predicate Logged(cfg: Config, states: seq<State>, run: seq<Step>, at: State) {
    Convergence.Trace(cfg, states, run) && states[0] == START && states[|run|] == at
  }

  lemma LogStep(cfg: Config, states: seq<State>, run: seq<Step>, at: State, step: Step)
    requires Logged(cfg, states, run, at)
    ensures Logged(cfg, states + [Next(cfg, at, step)], run + [step], Next(cfg, at, step))
  {
    var more, steps := states + [Next(cfg, at, step)], run + [step];
    forall i | 0 <= i < |steps| ensures Convergence.StepAt(cfg, more, steps, i) {
      if i < |run| { assert Convergence.StepAt(cfg, states, run, i); }
    }
  }

  /** What the loops log is a run of the protocol. */
  lemma {:induction false} LoggedIsRun(cfg: Config, states: seq<State>, run: seq<Step>, at: State)
    requires Logged(cfg, states, run, at)
    ensures at == Run(cfg, START, run) && Fencing.Reachable(cfg, at)
    decreases |run|
  {
    if run != [] {
      var k := |run| - 1;
      var front, steps := states[..|run|], run[..k];
      forall i | 0 <= i < |steps| ensures Convergence.StepAt(cfg, front, steps, i) {
        assert Convergence.StepAt(cfg, states, run, i);
      }
      LoggedIsRun(cfg, front, steps, states[k]);
      assert Convergence.StepAt(cfg, states, run, k);
    }
  }

  /** The poller has been at work in every state since `from`. */
  ghost predicate Busy(states: seq<State>, from: nat) {
    from <= |states| && forall i :: from <= i < |states| ==> !states[i].poller.Idle?
  }

  /** Since `from` nothing happened but calls of the poller that succeeded. */
  ghost predicate Alone(run: seq<Step>, from: nat) {
    from <= |run| && forall i :: from <= i < |run| ==> run[i].Poll? && run[i].outcome.Done?
  }

  lemma ReportCommutes(cfg: Config, s: State, outcome: Outcome, items: seq<string>)
    ensures Bare(true, Reported(cfg, s, outcome, items)) == Reported(cfg, Bare(true, s), outcome, items)
    ensures Reported(cfg, s, outcome, items).poller == s.poller
  {
  }

  lemma OutsideCommutes(cfg: Config, s: State, step: Step, polling: bool)
    ensures Bare(polling, Outside(cfg, s, step)) == Outside(cfg, Bare(polling, s), step)
    ensures Outside(cfg, s, step).poller == s.poller && Outside(cfg, s, step).reporter == s.reporter
  {
  }

  lemma OthersCommute(cfg: Config, s: State, step: Step, polling: bool)
    requires !step.Crash? && (if polling then !step.Poll? else !step.Report?)
    ensures Bare(polling, Next(cfg, s, step)) == Next(cfg, Bare(polling, s), step)
    ensures polling ==> Next(cfg, s, step).poller == s.poller
    ensures !polling ==> Next(cfg, s, step).reporter == s.reporter
  {
    match step
    case Poll(outcome, order) => PollCommutes(cfg, s, outcome, order);
    case Report(outcome, items) => ReportCommutes(cfg, s, outcome, items);
    case _ => OutsideCommutes(cfg, s, step, polling);
  }

  lemma BeginCommutes(cfg: Config, s: State, outcome: Outcome)
    requires s.poller.Working?
    ensures Bare(false, Polled(cfg, s, outcome, [])) == Polled(cfg, Bare(false, s), outcome, [])
    ensures Polled(cfg, s, outcome, []).reporter == s.reporter
  {
  }

  lemma AskCommutes(cfg: Config, s: State, outcome: Outcome)
    requires s.poller.Asking?
    ensures Bare(false, Polled(cfg, s, outcome, [])) == Polled(cfg, Bare(false, s), outcome, [])
    ensures Polled(cfg, s, outcome, []).reporter == s.reporter
  {
  }

  lemma CreateCommutes(cfg: Config, s: State, outcome: Outcome)
    requires s.poller.Creating?
    ensures Bare(false, Polled(cfg, s, outcome, [])) == Polled(cfg, Bare(false, s), outcome, [])
    ensures Polled(cfg, s, outcome, []).reporter == s.reporter
  {
  }

  lemma RecordCommutes(cfg: Config, s: State, outcome: Outcome)
    requires s.poller.Recording?
    ensures Bare(false, Polled(cfg, s, outcome, [])) == Polled(cfg, Bare(false, s), outcome, [])
    ensures Polled(cfg, s, outcome, []).reporter == s.reporter
  {
  }

  lemma PlaceCommutes(cfg: Config, s: State, outcome: Outcome)
    requires s.poller.Placing?
    ensures Bare(false, Polled(cfg, s, outcome, [])) == Polled(cfg, Bare(false, s), outcome, [])
    ensures Polled(cfg, s, outcome, []).reporter == s.reporter
  {
  }

  lemma PollCommutes(cfg: Config, s: State, outcome: Outcome, order: seq<Grn>)
    ensures Bare(false, Polled(cfg, s, outcome, order)) == Polled(cfg, Bare(false, s), outcome, order)
    ensures Polled(cfg, s, outcome, order).reporter == s.reporter
  {
    match s.poller
    case Working(_) => BeginCommutes(cfg, s, outcome);
    case Asking(_, _, _) => AskCommutes(cfg, s, outcome);
    case Creating(_, _, _, _) => CreateCommutes(cfg, s, outcome);
    case Recording(_, _, _, _, _) => RecordCommutes(cfg, s, outcome);
    case Placing(_, _, _, _, _) => PlaceCommutes(cfg, s, outcome);
    case _ =>
  }

  // ------------------------------------------------------------------------ the world

  /** garam and the cluster.  `s` is what is out there, `at` where the protocol machine is.  In a quiet world nothing
      fails, nothing dies and nobody else moves. */
  class World {
    const cfg: Config
    const polling: bool
    var quiet: bool
    var s: State
    ghost var at: State
    ghost var run: seq<Step>
    ghost var states: seq<State>
    ghost var began: nat
    ghost var listed: nat

    ghost predicate Valid()
      reads this
    {
      cfg.Injective() && Logged(cfg, states, run, at) && s == Bare(polling, at)
    }

    /** A pass of the poller is going on: at work since its list, and in a quiet world alone since it began. */
    ghost predicate Going()
      reads this
    {
      Busy(states, listed) && (quiet ==> Alone(run, began))
    }

    constructor (cfg: Config, polling: bool, quiet: bool)
      requires cfg.Injective()
      ensures Valid() && at == START && this.cfg == cfg && this.polling == polling && this.quiet == quiet
    {
      this.cfg, this.polling, this.quiet := cfg, polling, quiet;
      s := START;
      at, run, states := START, [], [START];
      began, listed := 0, 0;
    }

    /** A step of somebody else. */
    method Move(step: Step)
      requires Valid() && !step.Crash? && (if polling then !step.Poll? else !step.Report?)
      modifies this`s, this`at, this`run, this`states
      ensures Valid() && old(run) <= run && old(states) <= states
      ensures polling ==> at.poller == old(at.poller)
      ensures !polling ==> at.reporter == old(at.reporter)
      ensures states == old(states) + [at]
    {
      OthersCommute(cfg, at, step, polling);
      LogStep(cfg, states, run, at, step);
      s := Next(cfg, s, step);
      at, run := Next(cfg, at, step), run + [step];
      states := states + [at];
    }

    /** The process dies: what it held in memory is gone. */
    method Die()
      requires Valid()
      modifies this`s, this`at, this`run, this`states
      ensures Valid() && old(run) <= run && old(states) <= states && at == Crashed(old(at))
    {
      LogStep(cfg, states, run, at, Crash);
      s := if polling then s.(reporter := Resting) else Crashed(s);
      at, run := Crashed(at), run + [Crash];
      states := states + [at];
    }

    /** Before the next call any number of others' steps happen, and the process may die. */
    method Ready() returns (alive: bool)
      requires Valid()
      modifies this`s, this`at, this`run, this`states
      ensures Valid() && old(run) <= run && old(states) <= states
      ensures quiet ==> alive && s == old(s) && at == old(at) && run == old(run) && states == old(states)
      ensures if alive
              then (polling ==> at.poller == old(at.poller)) && (!polling ==> at.reporter == old(at.reporter))
              else at.poller.Idle? && at.reporter.Resting?
      ensures alive && polling ==> forall i :: |old(states)| <= i < |states| ==> states[i].poller == at.poller
    {
      if quiet { return true; }
      var steps: seq<Step> := *;
      for i := 0 to |steps|
        invariant Valid() && old(run) <= run && old(states) <= states
        invariant polling ==> at.poller == old(at.poller)
        invariant !polling ==> at.reporter == old(at.reporter)
        invariant polling ==> forall i :: |old(states)| <= i < |states| ==> states[i].poller == at.poller
      {
        if !steps[i].Crash? && (if polling then !steps[i].Poll? else !steps[i].Report?) { Move(steps[i]); }
      }
      alive := *;
      if !alive { Die(); }
    }

    /** How the next call ends. */
    method Ending() returns (outcome: Outcome)
      ensures quiet ==> outcome.Done?
    {
      outcome := *;
      if quiet { outcome := Done; }
    }

    /** The machine takes the step whose effect the poller's call has just had. */
    ghost method Note(outcome: Outcome, order: seq<Grn>)
      requires cfg.Injective() && Logged(cfg, states, run, at)
      requires s == Bare(polling, Polled(cfg, at, outcome, order))
      modifies this`at, this`run, this`states
      ensures Valid() && at == Polled(cfg, old(at), outcome, order)
      ensures run == old(run) + [Poll(outcome, order)] && states == old(states) + [at]
    {
      LogStep(cfg, states, run, at, Poll(outcome, order));
      at, run := Polled(cfg, at, outcome, order), run + [Poll(outcome, order)];
      states := states + [at];
    }

    /** The same in the middle of a pass. */
    ghost method Advance(outcome: Outcome)
      requires cfg.Injective() && Logged(cfg, states, run, at) && Going() && (quiet ==> outcome.Done?)
      requires s == Bare(polling, Polled(cfg, at, outcome, [])) && !Polled(cfg, at, outcome, []).poller.Idle?
      modifies this`at, this`run, this`states
      ensures Valid() && Going() && at == Polled(cfg, old(at), outcome, [])
      ensures old(run) <= run && old(states) <= states
    {
      Note(outcome, []);
    }

    /** Likewise for the reporter's. */
    ghost method NoteReport(outcome: Outcome, items: seq<string>)
      requires cfg.Injective() && Logged(cfg, states, run, at)
      requires s == Bare(polling, Reported(cfg, at, outcome, items))
      modifies this`at, this`run, this`states
      ensures Valid() && at == Reported(cfg, old(at), outcome, items)
      ensures old(run) <= run && old(states) <= states
    {
      LogStep(cfg, states, run, at, Report(outcome, items));
      at, run := Reported(cfg, at, outcome, items), run + [Report(outcome, items)];
      states := states + [at];
    }

    // -------------------------------------------------------------------- garam's routes

    method ListDefinitions(order: seq<Grn>) returns (r: Option<seq<Definition>>, ghost outcome: Outcome)
      ensures quiet ==> outcome.Done?
      ensures r.Some? <==> outcome.Done? && Enumerates(order, s.garam.Keys)
      ensures r.Some? ==> r.value == Listed(s.garam, order)
    {
      var o := Ending();
      outcome := o;
      r := if o.Done? && Enumerates(order, s.garam.Keys) then Some(Listed(s.garam, order)) else None;
    }

    /** A definition is claimed once; the claim assigns the agent to the caller at the next epoch. */
    method ClaimDefinition(agent: Grn) returns (r: ClaimAnswer, ghost outcome: Outcome)
      modifies this`s
      ensures quiet ==> outcome.Done?
      ensures s == old(s).(garam := s.garam) && s.garam.Keys == old(s.garam.Keys)
      ensures forall g :: g in s.garam && g != agent ==> s.garam[g] == old(s.garam)[g]
      ensures agent !in s.garam ==> r == NotClaimed
      ensures agent in s.garam ==>
        var e := old(s.garam)[agent];
        var called := e.(claimCalls := e.claimCalls + 1);
        if e.claimed || outcome.Failed?
        then s.garam[agent] == called && r == if outcome.Done? then Conflict else NotClaimed
        else s.garam[agent] == called.(claimed := true, holder := cfg.me, epoch := e.epoch + 1)
             && r == if outcome.Done? then Assigned(e.epoch + 1) else NotClaimed
    {
      var o := Ending();
      outcome, r := o, NotClaimed;
      if agent !in s.garam { return; }
      var e := s.garam[agent].(claimCalls := s.garam[agent].claimCalls + 1);
      if e.claimed || o.Failed? {
        r := if o.Done? then Conflict else NotClaimed;
      } else {
        e := e.(claimed := true, holder := cfg.me, epoch := e.epoch + 1);
        r := if o.Done? then Assigned(e.epoch) else NotClaimed;
      }
      s := s.(garam := s.garam[agent := e]);
    }

    /** A certificate for an agent the caller holds now, and for no other. */
    method IssueAgentCertificate(agent: Grn) returns (r: CertificateAnswer, ghost outcome: Outcome)
      modifies this`s
      ensures quiet ==> outcome.Done?
      ensures s == old(s).(garam := s.garam) && s.garam.Keys == old(s.garam.Keys)
      ensures forall g :: g in s.garam && g != agent ==> s.garam[g] == old(s.garam)[g]
      ensures agent !in s.garam ==> !r.Certified?
      ensures agent in s.garam ==>
        var e := old(s.garam)[agent];
        var called := e.(certificateCalls := e.certificateCalls + 1);
        if outcome.Failed? || !e.claimed || e.holder != cfg.me
        then s.garam[agent] == called && r == if outcome.Done? then NotHeld else NotIssued
        else s.garam[agent] == called.(issued := e.issued + 1)
             && r == if outcome.Done? then Certified(Credential(agent, e.issued)) else NotIssued
    {
      var o := Ending();
      outcome, r := o, NotIssued;
      if agent !in s.garam { return; }
      var e := s.garam[agent].(certificateCalls := s.garam[agent].certificateCalls + 1);
      if o.Failed? || !e.claimed || e.holder != cfg.me {
        r := if o.Done? then NotHeld else NotIssued;
      } else {
        r := if o.Done? then Certified(Credential(agent, e.issued)) else NotIssued;
        e := e.(issued := e.issued + 1);
      }
      s := s.(garam := s.garam[agent := e]);
    }

    /** A report is taken from the holder at the current epoch; one at another epoch is stale. */
    method ReportProvisioningState(agent: Grn, epoch: int, state: ProvisioningState)
        returns (r: ReportAnswer, ghost outcome: Outcome)
      modifies this`s
      ensures quiet ==> outcome.Done?
      ensures s == old(s).(garam := s.garam) && s.garam.Keys == old(s.garam.Keys)
      ensures forall g :: g in s.garam && g != agent ==> s.garam[g] == old(s.garam)[g]
      ensures agent in s.garam ==>
        s.garam[agent] == if outcome.Effective() && Accepts(cfg, old(s.garam), agent, epoch)
                          then old(s.garam)[agent].(latch := Latch(state, Some(cfg.me))) else old(s.garam)[agent]
      ensures r.NotReported? <==> !outcome.Done?
      ensures r.Accepted? <==> outcome.Done? && Accepts(cfg, old(s.garam), agent, epoch)
      ensures r.NotOurs? <==> outcome.Done? && !HeldBy(cfg, old(s.garam), agent)
    {
      var o := Ending();
      outcome := o;
      if !HeldBy(cfg, s.garam, agent) { return if o.Done? then NotOurs else NotReported, o; }
      if s.garam[agent].epoch != epoch { return if o.Done? then Stale else NotReported, o; }
      if !o.Failed? { s := s.(garam := s.garam[agent := s.garam[agent].(latch := Latch(state, Some(cfg.me)))]); }
      r := if o.Done? then ReportAnswer.Accepted else NotReported;
    }

    // ------------------------------------------------------------------- the API server

    method GetAgent(name: string) returns (r: Reply<AgentObject>, ghost outcome: Outcome)
      ensures quiet ==> outcome.Done?
      ensures r == if !outcome.Done? then Unread
                   else if name in s.cluster.agents then Got(s.cluster.agents[name]) else Absent
    {
      var o := Ending();
      outcome := o;
      r := if !o.Done? then Unread else if name in s.cluster.agents then Got(s.cluster.agents[name]) else Absent;
    }

    /** The metadata of a Secret: whether it is there. */
    method GetSecret(name: string) returns (r: Reply<bool>, ghost outcome: Outcome)
      ensures quiet ==> outcome.Done?
      ensures r == if !outcome.Done? then Unread else if name in s.cluster.secrets then Got(true) else Absent
    {
      var o := Ending();
      outcome := o;
      r := if !o.Done? then Unread else if name in s.cluster.secrets then Got(true) else Absent;
    }

    /** A merge patch naming the image and nothing else. */
    method PatchImage(name: string, image: string) returns (ok: bool, ghost outcome: Outcome)
      modifies this`s
      ensures quiet ==> outcome.Done?
      ensures ok <==> outcome.Done? && name in old(s.cluster.agents)
      ensures s == if outcome.Failed? || name !in old(s.cluster.agents) then old(s)
                   else old(s).(cluster := WriteAgent(old(s.cluster), name,
                     old(s.cluster.agents)[name].(spec := old(s.cluster.agents)[name].spec.(image := image))))
    {
      var o := Ending();
      outcome, ok := o, false;
      if o.Failed? || name !in s.cluster.agents { return; }
      var a := s.cluster.agents[name];
      s := s.(cluster := WriteAgent(s.cluster, name, a.(spec := a.spec.(image := image))));
      ok := o.Done?;
    }

    /** A create, which an existing object of the name refuses. */
    method CreateAgent(name: string, spec: AgentSpec) returns (r: Creation<AgentObject>, ghost outcome: Outcome)
      modifies this`s
      ensures quiet ==> outcome.Done?
      ensures
        var c, a := old(s.cluster), AgentObject(old(s.cluster.nextUid), spec, NO_STATUS);
        if name in c.agents then s == old(s) && r == if outcome.Done? then Exists else NotMade
        else if outcome.Failed? then s == old(s) && r == NotMade
        else s == old(s).(cluster := WriteAgent(c, name, a).(nextUid := c.nextUid + 1))
             && r == if outcome.Done? then Made(a) else NotMade
    {
      var o := Ending();
      outcome := o;
      if name in s.cluster.agents { return if o.Done? then Exists else NotMade, o; }
      if o.Failed? { return NotMade, o; }
      var a := AgentObject(s.cluster.nextUid, spec, NO_STATUS);
      s := s.(cluster := WriteAgent(s.cluster, name, a).(nextUid := s.cluster.nextUid + 1));
      r := if o.Done? then Made(a) else NotMade;
    }

    /** The merge patch of the record, which the CRD refuses for an empty GRN or an epoch below 1. */
    method PatchRecord(name: string, agent: Grn, epoch: int) returns (r: Option<AgentObject>, ghost outcome: Outcome)
      modifies this`s
      ensures quiet ==> outcome.Done?
      ensures
        var c := old(s.cluster);
        if outcome.Failed? || name !in c.agents || epoch < 1 || agent == "" then s == old(s) && r == None
        else s == old(s).(cluster := WriteAgent(c, name, Recorded(c.agents[name], agent, epoch)))
             && r == if outcome.Done? then Some(Recorded(c.agents[name], agent, epoch)) else None
    {
      var o := Ending();
      outcome, r := o, None;
      if o.Failed? || name !in s.cluster.agents || epoch < 1 || agent == "" { return; }
      var a := Recorded(s.cluster.agents[name], agent, epoch);
      s := s.(cluster := WriteAgent(s.cluster, name, a));
      r := if o.Done? then Some(a) else None;
    }

    method CreateSecret(name: string, secret: SecretObject) returns (r: Creation<bool>, ghost outcome: Outcome)
      modifies this`s
      ensures quiet ==> outcome.Done?
      ensures
        if name in old(s.cluster.secrets) then s == old(s) && r == if outcome.Done? then Exists else NotMade
        else if outcome.Failed? then s == old(s) && r == NotMade
        else s == old(s).(cluster := old(s.cluster).(secrets := old(s.cluster.secrets)[name := secret],
                                                     writes := old(s.cluster.writes) + 1))
             && r == if outcome.Done? then Made(true) else NotMade
    {
      var o := Ending();
      outcome := o;
      if name in s.cluster.secrets { return if o.Done? then Exists else NotMade, o; }
      if o.Failed? { return NotMade, o; }
      s := s.(cluster := s.cluster.(secrets := s.cluster.secrets[name := secret], writes := s.cluster.writes + 1));
      r := if o.Done? then Made(true) else NotMade;
    }
  }

  // ----------------------------------------------------------------------- the poller

  /** The Agent of `g` carries its record and another image than the configured one. */
  predicate Outdated(cfg: Config, agents: map<string, AgentObject>, g: Grn) {
    && cfg.Name(g) in agents && agents[cfg.Name(g)].status.agent == g
    && agents[cfg.Name(g)].spec.image != cfg.image
  }

  class PollerLoop {
    const world: World

    constructor (world: World)
      ensures this.world == world
    {
      this.world := world;
    }

    /** Before a call of a pass that is going on. */
    method Ready() returns (alive: bool)
      requires world.Valid() && world.polling && world.Going() && !world.at.poller.Idle?
      modifies world`s, world`at, world`run, world`states
      ensures world.Valid() && old(world.run) <= world.run && old(world.states) <= world.states
      ensures if alive then world.Going() && world.at.poller == old(world.at.poller) else world.at.poller.Idle?
      ensures world.quiet ==> alive && world.s == old(world.s)
    {
      alive := world.Ready();
      if alive {
        assert world.at == world.states[|world.run|];
      }
    }

    /** claim: the epoch of the assignment, or nothing where garam refused or the call failed. */
    method Claim(d: Definition, ghost rest: seq<Definition>) returns (epoch: Option<int>, alive: bool)
      requires world.Valid() && world.polling && world.Going()
      requires world.at.poller == Working([d] + rest) && d.claim.None?
      modifies world`s, world`at, world`run, world`states
      ensures world.Valid() && old(world.run) <= world.run && old(world.states) <= world.states
      ensures if alive
              then world.Going()
                   && world.at.poller == if epoch.Some? then Correcting(d, epoch.value, rest) else Working(rest)
              else world.at.poller.Idle?
      ensures world.quiet ==> alive
    {
      epoch := None;
      alive := Ready();
      if !alive { return; }
      var answer, outcome := world.ClaimDefinition(d.agent);
      assert ([d] + rest)[1..] == rest;
      world.Advance(outcome);
      match answer
      case Conflict => return;
      case NotClaimed => return;
      case Assigned(e) => epoch := Some(e);
    }

    /** CorrectImage: patched only where the Agent read carries this agent's record and another image. */
    method CorrectImage(d: Definition, ghost epoch: int, ghost rest: seq<Definition>) returns (corrected: bool, alive: bool)
      requires world.Valid() && world.polling && world.Going() && world.at.poller == Correcting(d, epoch, rest)
      modifies world`s, world`at, world`run, world`states
      ensures world.Valid() && old(world.run) <= world.run && old(world.states) <= world.states
      ensures if alive then world.Going() && world.at.poller == Checking(d, epoch, rest) else world.at.poller.Idle?
      ensures world.quiet ==> alive
      ensures alive && corrected ==>
        && world.cfg.Name(d.agent) in world.s.cluster.agents
        && world.s.cluster.agents[world.cfg.Name(d.agent)].spec.image == world.cfg.image
      ensures world.quiet ==> (corrected <==> Outdated(world.cfg, old(world.s.cluster.agents), d.agent))
      ensures world.quiet && !corrected ==> world.s.cluster == old(world.s.cluster)
    {
      corrected := false;
      alive := Ready();
      if !alive { return; }
      var found, outcome := world.GetAgent(world.cfg.Name(d.agent));
      world.Advance(outcome);
      if !found.Got? { return; }
      if found.value.status.agent != d.agent { return; }
      if found.value.spec.image == world.cfg.image { return; }
      corrected, alive := PatchImage(d, epoch, rest);
    }

    method PatchImage(d: Definition, ghost epoch: int, ghost rest: seq<Definition>) returns (corrected: bool, alive: bool)
      requires world.Valid() && world.polling && world.Going() && world.at.poller == Patching(d, epoch, rest)
      modifies world`s, world`at, world`run, world`states
      ensures world.Valid() && old(world.run) <= world.run && old(world.states) <= world.states
      ensures if alive then world.Going() && world.at.poller == Checking(d, epoch, rest) else world.at.poller.Idle?
      ensures world.quiet ==> alive
      ensures alive && corrected ==>
        && world.cfg.Name(d.agent) in world.s.cluster.agents
        && world.s.cluster.agents[world.cfg.Name(d.agent)].spec.image == world.cfg.image
      ensures world.quiet ==> (corrected <==> world.cfg.Name(d.agent) in old(world.s.cluster.agents))
    {
      corrected := false;
      alive := Ready();
      if !alive { return; }
      ghost var outcome;
      corrected, outcome := world.PatchImage(world.cfg.Name(d.agent), world.cfg.image);
      world.Advance(outcome);
    }

    /** HasCredential: whether the agent's Secret is there, and nothing where the read failed. */
    method HasCredential(d: Definition, ghost epoch: int, ghost rest: seq<Definition>)
        returns (placed: Option<bool>, alive: bool)
      requires world.Valid() && world.polling && world.Going() && world.at.poller == Checking(d, epoch, rest)
      modifies world`s, world`at, world`run, world`states
      ensures world.Valid() && old(world.run) <= world.run && old(world.states) <= world.states
      ensures if alive
              then world.Going()
                   && world.at.poller == if placed == Some(false) then Asking(d, epoch, rest) else Working(rest)
              else world.at.poller.Idle?
      ensures world.quiet ==> alive
    {
      placed := None;
      alive := Ready();
      if !alive { return; }
      var found, outcome := world.GetSecret(world.cfg.SecretName(d.agent));
      world.Advance(outcome);
      if found.Unread? { return; }
      placed := Some(found.Got?);
    }

    /** ensureAgent: create, or get what already has the name; then the record, unless it is there already. */
    method EnsureAgent(d: Definition, epoch: int, ghost c: Credential, ghost rest: seq<Definition>)
        returns (constructed: Option<AgentObject>, alive: bool)
      requires world.Valid() && world.polling && world.Going() && world.at.poller == Creating(d, epoch, c, rest)
      modifies world`s, world`at, world`run, world`states
      ensures world.Valid() && old(world.run) <= world.run && old(world.states) <= world.states
      ensures if alive
              then world.Going()
                   && world.at.poller == if constructed.Some? then Placing(d, epoch, c, constructed.value, rest) else Working(rest)
              else world.at.poller.Idle?
      ensures alive && constructed.Some? ==>
        constructed.value.status.agent == d.agent && constructed.value.status.epoch == epoch
      ensures world.quiet ==> alive
    {
      constructed := None;
      var found;
      found, alive := FindOrCreate(d, epoch, c, rest);
      if !alive || found.None? { return; }
      if found.value.status.agent == d.agent && found.value.status.epoch == epoch {
        world.Advance(Done);
        return found, true;
      }
      constructed, alive := Record(d, epoch, c, found.value, rest);
    }

    /** The record, on whatever object now has the name. */
    method Record(d: Definition, epoch: int, ghost c: Credential, ghost held: AgentObject, ghost rest: seq<Definition>)
        returns (constructed: Option<AgentObject>, alive: bool)
      requires world.Valid() && world.polling && world.Going() && world.at.poller == Recording(d, epoch, c, held, rest)
      requires held.status.agent != d.agent || held.status.epoch != epoch
      modifies world`s, world`at, world`run, world`states
      ensures world.Valid() && old(world.run) <= world.run && old(world.states) <= world.states
      ensures if alive
              then world.Going()
                   && world.at.poller == if constructed.Some? then Placing(d, epoch, c, constructed.value, rest) else Working(rest)
              else world.at.poller.Idle?
      ensures alive && constructed.Some? ==>
        constructed.value.status.agent == d.agent && constructed.value.status.epoch == epoch
      ensures world.quiet ==> alive
    {
      constructed := None;
      alive := Ready();
      if !alive { return; }
      ghost var outcome;
      constructed, outcome := world.PatchRecord(world.cfg.Name(d.agent), d.agent, epoch);
      world.Advance(outcome);
    }

    /** The object under the agent's name: the one just created, or the one that was there. */
    method FindOrCreate(d: Definition, ghost epoch: int, ghost c: Credential, ghost rest: seq<Definition>)
        returns (found: Option<AgentObject>, alive: bool)
      requires world.Valid() && world.polling && world.Going() && world.at.poller == Creating(d, epoch, c, rest)
      modifies world`s, world`at, world`run, world`states
      ensures world.Valid() && old(world.run) <= world.run && old(world.states) <= world.states
      ensures if alive
              then world.Going()
                   && world.at.poller == if found.Some? then Recording(d, epoch, c, found.value, rest) else Working(rest)
              else world.at.poller.Idle?
      ensures world.quiet ==> alive
      ensures world.quiet && world.cfg.Name(d.agent) !in old(world.s.cluster.agents) ==>
        && found.Some? && found.value.spec.pins == d.pins && found.value.spec.storageSize == world.cfg.storageSize
        && found.value.spec.image == world.cfg.image
        && found.value.spec.credentialsSecretName == world.cfg.Name(d.agent) + "-credentials"
        && world.cfg.Name(d.agent) in world.s.cluster.agents
        && world.s.cluster.agents[world.cfg.Name(d.agent)] == found.value
      ensures world.quiet && world.cfg.Name(d.agent) in old(world.s.cluster.agents) ==>
        found == Some(old(world.s.cluster.agents)[world.cfg.Name(d.agent)]) && world.s.cluster == old(world.s.cluster)
    {
      found := None;
      alive := Ready();
      if !alive { return; }
      var name := world.cfg.Name(d.agent);
      var spec := AgentSpec(world.cfg.image, name + "-credentials", world.cfg.storageSize, None, map[], d.pins);
      var made, outcome := world.CreateAgent(name, spec);
      world.Advance(outcome);
      if made.Made? { return Some(made.value), true; }
      if made.NotMade? { return; }
      found, alive := Adopt(d, epoch, c, rest);
    }

    /** What already has the name is taken as it is. */
    method Adopt(d: Definition, ghost epoch: int, ghost c: Credential, ghost rest: seq<Definition>)
        returns (found: Option<AgentObject>, alive: bool)
      requires world.Valid() && world.polling && world.Going() && world.at.poller == Adopting(d, epoch, c, rest)
      modifies world`s, world`at, world`run, world`states
      ensures world.Valid() && old(world.run) <= world.run && old(world.states) <= world.states
      ensures if alive
              then world.Going()
                   && world.at.poller == if found.Some? then Recording(d, epoch, c, found.value, rest) else Working(rest)
              else world.at.poller.Idle?
      ensures world.quiet ==> alive
      ensures world.quiet && world.cfg.Name(d.agent) in old(world.s.cluster.agents) ==>
        found == Some(old(world.s.cluster.agents)[world.cfg.Name(d.agent)]) && world.s.cluster == old(world.s.cluster)
    {
      found := None;
      alive := Ready();
      if !alive { return; }
      var there, outcome := world.GetAgent(world.cfg.Name(d.agent));
      world.Advance(outcome);
      if there.Got? { found := Some(there.value); }
    }

    /** placeCredential: under the Secret name the Agent carries, where none is there already. */
    method PlaceCredential(d: Definition, ghost epoch: int, c: Credential, constructed: AgentObject, ghost rest: seq<Definition>)
        returns (ok: bool, alive: bool)
      requires world.Valid() && world.polling && world.Going()
      requires world.at.poller == Placing(d, epoch, c, constructed, rest)
      modifies world`s, world`at, world`run, world`states
      ensures world.Valid() && old(world.run) <= world.run && old(world.states) <= world.states
      ensures if alive then world.Going() && world.at.poller == Working(rest) else world.at.poller.Idle?
      ensures alive && ok ==> constructed.spec.credentialsSecretName in world.s.cluster.secrets
      ensures world.quiet ==>
        var name := constructed.spec.credentialsSecretName;
        && alive && ok
        && (name in old(world.s.cluster.secrets) ==> world.s.cluster == old(world.s.cluster))
        && (name !in old(world.s.cluster.secrets) ==>
              world.s.cluster.secrets == old(world.s.cluster.secrets)[name := SecretObject(constructed.uid, c)])
    {
      ok := false;
      alive := Ready();
      if !alive { return; }
      var made, outcome := world.CreateSecret(constructed.spec.credentialsSecretName, SecretObject(constructed.uid, c));
      world.Advance(outcome);
      ok := !made.NotMade?;
    }

    /** construct: nothing where the credential is placed or could not be looked for; otherwise certificate, Agent and
        Secret, each only after the one before. */
    method Construct(d: Definition, epoch: int, ghost rest: seq<Definition>) returns (alive: bool)
      requires world.Valid() && world.polling && world.Going() && world.at.poller == Checking(d, epoch, rest)
      modifies world`s, world`at, world`run, world`states
      ensures world.Valid() && old(world.run) <= world.run && old(world.states) <= world.states
      ensures if alive then world.Going() && world.at.poller == Working(rest) else world.at.poller.Idle?
      ensures world.quiet ==> alive
    {
      var placed;
      placed, alive := HasCredential(d, epoch, rest);
      if !alive || placed != Some(false) { return; }
      var credential;
      credential, alive := Certificate(d, epoch, rest);
      if !alive || credential.None? { return; }
      var constructed;
      constructed, alive := EnsureAgent(d, epoch, credential.value, rest);
      if !alive || constructed.None? { return; }
      var ok;
      ok, alive := PlaceCredential(d, epoch, credential.value, constructed.value, rest);
    }

    /** The certificate, or nothing where garam does not hold the agent for this operator or the call failed. */
    method Certificate(d: Definition, ghost epoch: int, ghost rest: seq<Definition>)
        returns (credential: Option<Credential>, alive: bool)
      requires world.Valid() && world.polling && world.Going() && world.at.poller == Asking(d, epoch, rest)
      modifies world`s, world`at, world`run, world`states
      ensures world.Valid() && old(world.run) <= world.run && old(world.states) <= world.states
      ensures if alive
              then world.Going()
                   && world.at.poller == if credential.Some? then Creating(d, epoch, credential.value, rest) else Working(rest)
              else world.at.poller.Idle?
      ensures credential.Some? ==> credential.value.agent == d.agent
      ensures world.quiet ==> alive
    {
      credential := None;
      alive := Ready();
      if !alive { return; }
      var answer, outcome := world.IssueAgentCertificate(d.agent);
      world.Advance(outcome);
      match answer
      case NotHeld => return;
      case NotIssued => return;
      case Certified(c) => credential := Some(c);
    }

    /** One definition: claimed where garam reported no claim, its image corrected and its agent constructed at the epoch
        garam listed, or at the one the claim answered. */
    method Handle(d: Definition, ghost rest: seq<Definition>) returns (alive: bool, epoch: Option<int>, ghost from: nat)
      requires world.Valid() && world.polling && world.Going() && world.at.poller == Working([d] + rest)
      modifies world`s, world`at, world`run, world`states
      ensures world.Valid() && old(world.run) <= world.run && old(world.states) <= world.states
      ensures if alive then world.Going() && world.at.poller == Working(rest) else world.at.poller.Idle?
      ensures world.quiet ==> alive
      ensures d.claim.Some? ==> epoch == d.claim
      ensures epoch.Some? ==>
        |old(world.states)| <= from < |world.states| && world.states[from].poller == Correcting(d, epoch.value, rest)
      ensures epoch.None? && alive ==> d.claim.None? && world.at.poller == Working(rest)
    {
      epoch, from := d.claim, |world.states|;
      if d.claim.None? {
        epoch, alive := Claim(d, rest);
        if !alive { return false, None, from; }
        if epoch.None? { return; }
      } else {
        assert ([d] + rest)[1..] == rest;
        world.Advance(Done);
      }
      from := |world.run|;
      alive := Proceed(d, epoch.value, rest);
    }

    method Proceed(d: Definition, epoch: int, ghost rest: seq<Definition>) returns (alive: bool)
      requires world.Valid() && world.polling && world.Going() && world.at.poller == Correcting(d, epoch, rest)
      modifies world`s, world`at, world`run, world`states
      ensures world.Valid() && old(world.run) <= world.run && old(world.states) <= world.states
      ensures if alive then world.Going() && world.at.poller == Working(rest) else world.at.poller.Idle?
      ensures world.quiet ==> alive
    {
      var corrected;
      corrected, alive := CorrectImage(d, epoch, rest);
      if !alive { return; }
      alive := Construct(d, epoch, rest);
    }

    /** The definitions of one pass in turn. */
    method HandleAll(todo: seq<Definition>) returns (alive: bool)
      requires world.Valid() && world.polling && world.Going() && world.at.poller == Working(todo)
      modifies world`s, world`at, world`run, world`states
      ensures world.Valid() && old(world.run) <= world.run && old(world.states) <= world.states
      ensures if alive then world.Going() && world.at.poller == Working([]) else world.at.poller.Idle?
      ensures world.quiet ==> alive
    {
      alive := true;
      for i := 0 to |todo|
        invariant alive && world.Valid() && old(world.run) <= world.run && old(world.states) <= world.states
        invariant world.Going() && world.at.poller == Working(todo[i..])
      {
        assert todo[i..] == [todo[i]] + todo[i + 1..];
        var epoch;
        ghost var from;
        alive, epoch, from := Handle(todo[i], todo[i + 1..]);
        if !alive { return; }
      }
    }

    /** poll.  Whatever fails, whatever moves meanwhile and whenever the process dies, it takes only steps of the protocol
        and leaves nothing in hand.  A pass it completes is a pass in the sense of Convergence, with all that happened
        beside it; and in a quiet world it completes one that is calm for every agent. */
    method Poll(order: seq<Grn>) returns (completed: bool, ghost k: nat)
      requires world.Valid() && world.polling && world.at.poller.Idle?
      modifies world`s, world`at, world`run, world`states, world`began, world`listed
      ensures world.Valid() && world.at.poller.Idle?
      ensures old(world.run) <= world.run && old(world.states) <= world.states
      ensures completed ==>
        Convergence.IsPass(world.cfg, world.states[|old(world.run)|..], world.run[|old(world.run)|..], k)
      ensures world.quiet && Enumerates(order, old(world.s.garam.Keys)) ==>
        completed && Convergence.Alone(world.run[|old(world.run)|..])
    {
      completed, k := false, 0;
      ghost var n := |world.run|;
      world.began := n;
      var definitions, alive := List(order);
      if !alive || definitions.None? { return; }
      k := world.listed - 1 - n;
      alive := HandleAll(definitions.value);
      if !alive { return; }
      world.Note(Done, []);
      Completes(world.cfg, world.states, world.run, n, world.listed);
      if world.quiet { AloneSince(world.run, n); }
      completed := true;
    }

    /** Three passes in a quiet world.  After two of them every agent unclaimed or held at the start is held, and built
        exactly where no credential had outlived its Agent and none was in the way of placing one; where that is so of
        all, the third leaves the cluster as it finds it. */
    method PollThrice(order: seq<Grn>) returns (ghost settled: State)
      requires world.Valid() && world.polling && world.at.poller.Idle? && world.quiet
      requires Enumerates(order, world.s.garam.Keys)
      requires forall g :: g in world.at.garam ==> Convergence.Apart(world.cfg, world.at, g)
      modifies world`s, world`at, world`run, world`states, world`began, world`listed
      ensures world.Valid()
      ensures (forall g :: g in old(world.s.garam) ==>
                 Convergence.Placeable(world.cfg, Convergence.Of(world.cfg, old(world.at), g), g)) ==>
        world.s.cluster == settled.cluster
      ensures forall g :: g in old(world.s.garam) ==>
        var a, x := Convergence.Of(world.cfg, old(world.at), g), Convergence.Of(world.cfg, settled, g);
        !a.entry.value.claimed || Convergence.Held(world.cfg, a) ==>
          Convergence.Held(world.cfg, x)
          && (Convergence.Built(x, g) <==> Convergence.Owned(a, g) && Convergence.Placeable(world.cfg, a, g))
    {
      var s1, r1, k1 := Pass(order);
      var s2, r2, k2 := Pass(order);
      settled := world.at;
      var s3, r3, k3 := Pass(order);
      if forall g :: g in s1[0].garam ==> Convergence.Placeable(world.cfg, Convergence.Of(world.cfg, s1[0], g), g) {
        Convergence.ThirdPassAlone(world.cfg, s1, r1, k1, s2, r2, k2, s3, r3, k3, |r3|);
      }
      forall g | g in s1[0].garam
        ensures
          var a, x := Convergence.Of(world.cfg, s1[0], g), Convergence.Of(world.cfg, settled, g);
          !a.entry.value.claimed || Convergence.Held(world.cfg, a) ==>
            Convergence.Held(world.cfg, x)
            && (Convergence.Built(x, g) <==> Convergence.Owned(a, g) && Convergence.Placeable(world.cfg, a, g))
      {
        Convergence.AloneIsCalm(world.cfg, s1, r1, g);
        Convergence.AloneIsCalm(world.cfg, s2, r2, g);
        Convergence.TwoPassesBuild(world.cfg, s1, r1, k1, s2, r2, k2, g);
      }
    }

    /** A pass in a quiet world, with what it went through. */
    method Pass(order: seq<Grn>) returns (ghost tr: seq<State>, ghost steps: seq<Step>, ghost k: nat)
      requires world.Valid() && world.polling && world.at.poller.Idle? && world.quiet
      requires Enumerates(order, world.s.garam.Keys)
      modifies world`s, world`at, world`run, world`states, world`began, world`listed
      ensures world.Valid() && world.at.poller.Idle? && Enumerates(order, world.s.garam.Keys)
      ensures Convergence.IsPass(world.cfg, tr, steps, k) && Convergence.Alone(steps)
      ensures tr[0] == old(world.at) && tr[|steps|] == world.at && Fencing.Reachable(world.cfg, old(world.at))
    {
      LoggedIsRun(world.cfg, world.states, world.run, world.at);
      ghost var n := |world.run|;
      var completed;
      completed, k := Poll(order);
      tr, steps := world.states[n..], world.run[n..];
      Convergence.AloneKeepsKeys(world.cfg, tr, steps, |steps|);
    }

    /** ListDefinitions, at the head of a pass. */
    method List(order: seq<Grn>) returns (definitions: Option<seq<Definition>>, alive: bool)
      requires world.Valid() && world.polling && world.at.poller.Idle? && world.began == |world.run|
      modifies world`s, world`at, world`run, world`states, world`listed
      ensures world.Valid() && old(world.run) <= world.run && old(world.states) <= world.states
      ensures if alive && definitions.Some?
              then world.Going() && world.at.poller == Working(definitions.value)
                   && Opened(world.states, world.run, |old(world.run)|, world.listed)
              else world.at.poller.Idle?
      ensures world.quiet && Enumerates(order, old(world.s.garam.Keys)) ==> alive && definitions.Some?
    {
      definitions := None;
      alive := world.Ready();
      if !alive { return; }
      ghost var outcome;
      definitions, outcome := world.ListDefinitions(order);
      world.Note(outcome, order);
      world.listed := |world.run|;
    }
  }

  /** From `n` the poller was idle until a list that succeeded, which led to the state at `listed`. */
  ghost predicate Opened(states: seq<State>, run: seq<Step>, n: nat, listed: nat) {
    && n < listed <= |run| && |states| == |run| + 1
    && (forall i :: n <= i < listed ==> states[i].poller.Idle?)
    && run[listed - 1].Poll? && run[listed - 1].outcome.Done?
    && Enumerates(run[listed - 1].order, states[listed - 1].garam.Keys)
  }

  lemma Completes(cfg: Config, states: seq<State>, run: seq<Step>, n: nat, listed: nat)
    requires Convergence.Trace(cfg, states, run) && Opened(states, run, n, listed)
    requires (forall i :: listed <= i < |run| ==> !states[i].poller.Idle?) && states[|run|].poller.Idle?
    ensures Convergence.IsPass(cfg, states[n..], run[n..], listed - 1 - n)
  {
    forall i | 0 <= i < |run[n..]| ensures Convergence.StepAt(cfg, states[n..], run[n..], i) {
      assert Convergence.StepAt(cfg, states, run, n + i);
    }
  }

  lemma AloneSince(run: seq<Step>, n: nat)
    requires Alone(run, n)
    ensures Convergence.Alone(run[n..])
  {
    assert forall i :: 0 <= i < |run[n..]| ==> run[n..][i] == run[n + i];
  }

  // --------------------------------------------------------------------- the reporter

  lemma ObservedNext(agents: map<string, AgentObject>, items: seq<string>, i: nat, r: seq<Observation>)
    requires i < |items| && forall n :: n in items ==> n in agents
    ensures
      var a := agents[items[i]];
      r + Observed(agents, items[i..]) ==
        (if a.status.agent == "" || a.status.epoch == 0 then r
         else r + [Observation(a.status.agent, a.status.epoch, ReadinessOf(a))])
        + Observed(agents, items[i + 1..])
  {
    assert items[i..][1..] == items[i + 1..] && items[i..][0] == items[i];
  }

  class ReporterLoop {
    const world: World

    constructor (world: World)
      ensures this.world == world
    {
      this.world := world;
    }

    /** Observations: one entry per Agent carrying a whole record, in the order the list came in. */
    static method Observations(agents: map<string, AgentObject>, items: seq<string>) returns (r: seq<Observation>)
      requires forall n :: n in items ==> n in agents
      ensures r == Observed(agents, items)
    {
      r := [];
      for i := 0 to |items|
        invariant r + Observed(agents, items[i..]) == Observed(agents, items)
      {
        var a := agents[items[i]];
        ObservedNext(agents, items, i, r);
        if a.status.agent == "" || a.status.epoch == 0 { continue; }
        r := r + [Observation(a.status.agent, a.status.epoch, ReadinessOf(a))];
      }
    }

    /** provisioningState: nothing is said of a pod nobody observed. */
    static method ProvisioningStateOf(readiness: Readiness) returns (state: ProvisioningState, reportable: bool)
      ensures reportable <==> StateOf(readiness).Some?
      ensures reportable ==> StateOf(readiness).value == state
    {
      match readiness
      case ReplicaReady => return Ready, true;
      case NoReplica => return Provisioned, true;
      case Unobserved => return Pending, false;
    }

    /** send: garam's answer about one agent, which ends that agent's report and no other's. */
    method Send(o: Observation, state: ProvisioningState, ghost rest: seq<Observation>)
        returns (answer: ReportAnswer, alive: bool)
      requires world.Valid() && !world.polling && world.at.reporter == Sending([o] + rest)
      requires StateOf(o.readiness) == Some(state)
      modifies world`s, world`at, world`run, world`states
      ensures world.Valid() && old(world.run) <= world.run && old(world.states) <= world.states
      ensures world.at.reporter == if alive then Sending(rest) else Resting
      ensures alive && answer.Accepted? ==>
        o.agent in world.s.garam && world.s.garam[o.agent].latch == Latch(state, Some(world.cfg.me))
        && world.s.garam[o.agent].epoch == o.epoch
      ensures alive && answer.Stale? ==> HeldBy(world.cfg, world.s.garam, o.agent) && world.s.garam[o.agent].epoch != o.epoch
      ensures alive && answer.NotOurs? ==> !HeldBy(world.cfg, world.s.garam, o.agent)
      ensures world.quiet ==> alive && world.s.garam == Sent(world.cfg, old(world.s.garam), o, Done)
    {
      answer := NotReported;
      alive := world.Ready();
      if !alive { return; }
      ghost var outcome;
      answer, outcome := world.ReportProvisioningState(o.agent, o.epoch, state);
      assert ([o] + rest)[1..] == rest;
      world.NoteReport(outcome, []);
    }

    /** One observation: nothing is sent where nothing was observed. */
    method Report(o: Observation, ghost rest: seq<Observation>) returns (alive: bool)
      requires world.Valid() && !world.polling && world.at.reporter == Sending([o] + rest)
      modifies world`s, world`at, world`run, world`states
      ensures world.Valid() && old(world.run) <= world.run && old(world.states) <= world.states
      ensures world.at.reporter == if alive then Sending(rest) else Resting
      ensures world.quiet ==> alive && world.s.garam == Sent(world.cfg, old(world.s.garam), o, Done)
    {
      var state, reportable := ProvisioningStateOf(o.readiness);
      if !reportable {
        assert ([o] + rest)[1..] == rest;
        world.NoteReport(Done, []);
        return true;
      }
      var answer;
      answer, alive := Send(o, state, rest);
    }

    /** One pass over every agent this operator holds a record of.  In a quiet world garam ends with every observation
        delivered in turn. */
    method ReportPass(items: seq<string>)
      requires world.Valid() && !world.polling && world.at.reporter.Resting?
      modifies world`s, world`at, world`run, world`states
      ensures world.Valid() && world.at.reporter.Resting?
      ensures old(world.run) <= world.run && old(world.states) <= world.states
      ensures world.quiet && Enumerates(items, old(world.s.cluster.agents.Keys)) ==>
        && world.s.garam == AllDelivered(world.cfg, old(world.s.garam), Observed(old(world.s.cluster.agents), items))
        && forall g :: Current(world.cfg, old(world.s), g) ==>
             Told(world.cfg, old(world.s), world.s.garam, g)
    {
      LoggedIsRun(world.cfg, world.states, world.run, world.at);
      if world.quiet && Enumerates(items, world.s.cluster.agents.Keys) {
        forall g | Current(world.cfg, world.s, g)
          ensures Told(world.cfg, world.s, AllDelivered(world.cfg, world.s.garam, Observed(world.s.cluster.agents, items)), g)
        {
          AvailableIsDelivered(world.cfg, world.at, world.s, items, g);
        }
      }
      var alive := world.Ready();
      if !alive { return; }
      var outcome := world.Ending();
      if !outcome.Done? || !Enumerates(items, world.s.cluster.agents.Keys) { return; }
      var observations := Observations(world.s.cluster.agents, items);
      world.NoteReport(Done, items);
      SendAll(observations);
    }

    method SendAll(observations: seq<Observation>)
      requires world.Valid() && !world.polling && world.at.reporter == Sending(observations)
      modifies world`s, world`at, world`run, world`states
      ensures world.Valid() && world.at.reporter.Resting?
      ensures old(world.run) <= world.run && old(world.states) <= world.states
      ensures world.quiet ==> world.s.garam == AllDelivered(world.cfg, old(world.s.garam), observations)
    {
      for i := 0 to |observations|
        invariant world.Valid() && old(world.run) <= world.run && old(world.states) <= world.states
        invariant world.at.reporter == Sending(observations[i..])
        invariant world.quiet ==>
          AllDelivered(world.cfg, world.s.garam, observations[i..]) == AllDelivered(world.cfg, old(world.s.garam), observations)
      {
        DeliverFirst(world.cfg, world.s.garam, observations[i..]);
        assert observations[i..] == [observations[i]] + observations[i + 1..];
        assert observations[i..][1..] == observations[i + 1..];
        var alive := Report(observations[i], observations[i + 1..]);
        if !alive { return; }
      }
      world.NoteReport(Done, []);
    }
  }

  /** The Agent of `g` carries its record at the epoch garam now accepts reports at. */
  ghost predicate Current(cfg: Config, s: State, g: Grn) {
    && cfg.Name(g) in s.cluster.agents && s.cluster.agents[cfg.Name(g)].status.agent == g
    && Accepts(cfg, s.garam, g, s.cluster.agents[cfg.Name(g)].status.epoch)
  }

  /** garam holds the agent as ready where its Agent's Available is True, as provisioned where it is False, and otherwise
      as it did. */
  ghost predicate Told(cfg: Config, s: State, garam: map<Grn, Entry>, g: Grn)
    requires Current(cfg, s, g)
  {
    var a := s.cluster.agents[cfg.Name(g)];
    && g in garam
    && (Custody.Available(a, IsTrue) ==> garam[g].latch == Latch(Ready, Some(cfg.me)))
    && (Custody.Available(a, IsFalse) ==> garam[g].latch == Latch(Provisioned, Some(cfg.me)))
    && (!Custody.Available(a, IsTrue) && !Custody.Available(a, IsFalse) ==> garam[g] == s.garam[g])
  }

  /** An agent's record is on one Agent alone, so of each agent there is one observation. */
  lemma OneObservation(cfg: Config, at: State, items: seq<string>, g: Grn)
    requires cfg.Injective() && Fencing.Reachable(cfg, at) && Current(cfg, at, g)
    requires forall n :: n in items ==> n in at.cluster.agents
    ensures var a := at.cluster.agents[cfg.Name(g)];
      forall o :: o in Observed(at.cluster.agents, items) && o.agent == g ==>
        o == Observation(g, a.status.epoch, ReadinessOf(a))
  {
    Fencing.ReachableOk(cfg, at);
    forall o | o in Observed(at.cluster.agents, items) && o.agent == g
      ensures o == Observation(g, at.cluster.agents[cfg.Name(g)].status.epoch, ReadinessOf(at.cluster.agents[cfg.Name(g)]))
    {
      var n :| n in items && Describes(o, at.cluster.agents[n]);
      assert Safety.AgentOk(cfg, at.garam, at.cluster.nextUid, n, at.cluster.agents[n]);
    }
  }

  /** A pass that gets through tells garam of every agent it accepts a report of just what its Agent's first Available
      condition says. */
  lemma AvailableIsDelivered(cfg: Config, at: State, s: State, items: seq<string>, g: Grn)
    requires cfg.Injective() && Fencing.Reachable(cfg, at) && at.garam == s.garam && at.cluster == s.cluster
    requires Enumerates(items, s.cluster.agents.Keys) && Current(cfg, s, g)
    ensures Told(cfg, s, AllDelivered(cfg, s.garam, Observed(s.cluster.agents, items)), g)
  {
    var a, observations := s.cluster.agents[cfg.Name(g)], Observed(s.cluster.agents, items);
    var o, outcomes := Observation(g, a.status.epoch, ReadinessOf(a)), seq(|observations|, i => Done);
    Custody.ReadinessIsAvailable(a);
    OneObservation(cfg, at, items, g);
    if StateOf(o.readiness).Some? {
      Fencing.ReachableOk(cfg, at);
      assert Safety.AgentOk(cfg, at.garam, at.cluster.nextUid, cfg.Name(g), a);
      assert o in observations;
      var i :| 0 <= i < |observations| && observations[i] == o;
      assert outcomes[i].Effective();
      Custody.CurrentStateIsDelivered(cfg, s.garam, observations, outcomes, o);
    } else {
      Custody.UnobservedIsLeftAlone(cfg, s.garam, observations, outcomes, g);
    }
  }

  /** What garam holds after every report of a pass got through. */
  ghost function AllDelivered(cfg: Config, garam: map<Grn, Entry>, observations: seq<Observation>): map<Grn, Entry> {
    Custody.Delivered(cfg, garam, observations, seq(|observations|, i => Done))
  }

  lemma DeliverFirst(cfg: Config, garam: map<Grn, Entry>, observations: seq<Observation>)
    requires observations != []
    ensures AllDelivered(cfg, garam, observations)
         == AllDelivered(cfg, Sent(cfg, garam, observations[0], Done), observations[1..])
  {
    assert seq(|observations|, i => Done)[1..] == seq(|observations[1..]|, i => Done);
  }
}
