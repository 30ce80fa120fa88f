/** Where an Available condition comes from: over every run of the reconciler, one of True or False was read off the
    Agent's own StatefulSet.  It is what the report protocol assumes of the conditions it forwards. */
module Provenance {
  import opened Prelude
  import opened Api
  import opened Workload
  import opened Reconcile
  import opened Wakeups
  import Protocol

  /** The step wrote or found the StatefulSet of `name`, and judged by it with this readiness. */
  ghost predicate Reads(cfg: Images, s: State, step: Step, name: string, ready: bool) {
    && step.WriteWorkload? && step.name == name && name in s.busy && s.busy[name].Cleared?
    && var t := Next(cfg, s, step);
       name in t.busy && t.busy[name].Decided? && name in t.sets && ready == (t.sets[name].readyReplicas > 0)
  }

  /** What the reconciles of a run read. */
  ghost function Seen(cfg: Images, steps: seq<Step>): set<(string, bool)>
    decreases |steps|
  {
    if steps == [] then {}
    else
      var front, last := steps[..|steps| - 1], steps[|steps| - 1];
      Seen(cfg, front) + ReadBy(cfg, Run(cfg, START, front), last)
  }

  ghost function ReadBy(cfg: Images, s: State, step: Step): set<(string, bool)> {
    if step.WriteWorkload? && Reads(cfg, s, step, step.name, true) then {(step.name, true)}
    else if step.WriteWorkload? && Reads(cfg, s, step, step.name, false) then {(step.name, false)}
    else {}
  }

  lemma {:induction false} SeenWasRead(cfg: Images, steps: seq<Step>, name: string, ready: bool) returns (k: nat)
    requires (name, ready) in Seen(cfg, steps)
    ensures k < |steps| && Reads(cfg, Run(cfg, START, steps[..k]), steps[k], name, ready)
    decreases |steps|
  {
    k := |steps| - 1;
    var front := steps[..k];
    if (name, ready) in Seen(cfg, front) {
      k := SeenWasRead(cfg, front, name, ready);
      assert front[..k] == steps[..k];
    }
  }

  /** Every status stored, held or decided says of availability only what was read. */
  ghost predicate Honest(s: State, seen: set<(string, bool)>) {
    && (forall n :: n in s.agents ==> Protocol.Justified(seen, n, s.agents[n].status.conditions))
    && (forall n :: n in s.busy ==> Fair(seen, n, s.busy[n]))
  }

  ghost predicate Fair(seen: set<(string, bool)>, n: string, p: Phase) {
    && Protocol.Justified(seen, n, p.held.status.conditions)
    && (p.Decided? ==> Protocol.Justified(seen, n, p.status.conditions))
  }

  lemma SeenMore(s: State, a: set<(string, bool)>, b: set<(string, bool)>)
    requires Honest(s, a) && a <= b
    ensures Honest(s, b)
  {
    forall n | n in s.busy ensures Fair(b, n, s.busy[n]) { assert Fair(a, n, s.busy[n]); }
  }

  lemma MissingIsJustified(name: string, r: Resource, now: int, seen: set<(string, bool)>)
    ensures Protocol.Justified(seen, name, Judged(r, SecretMissing(r), now).conditions)
  {
    JudgedFixpoint(r, SecretMissing(r), now) by { assert |SYNCED| == 6 && |AVAILABLE| == 9; }
  }

  lemma WorkloadIsJustified(name: string, r: Resource, w: StatefulSet, now: int, seen: set<(string, bool)>)
    requires (name, w.readyReplicas > 0) in seen
    ensures Protocol.Justified(seen, name, Judged(r, FromWorkload(name, r, w), now).conditions)
  {
    JudgedFixpoint(r, FromWorkload(name, r, w), now) by { assert |SYNCED| == 6 && |AVAILABLE| == 9; }
  }

  lemma CheckedIsHonest(s: State, name: string, outcome: Outcome, now: int, seen: set<(string, bool)>)
    requires Honest(s, seen)
    ensures Honest(Checked(s, name, outcome, now), seen)
  {
    var t := Checked(s, name, outcome, now);
    if name in s.busy {
      MissingIsJustified(name, s.busy[name].held, now, seen);
      assert Fair(seen, name, s.busy[name]);
    }
    forall n | n in t.busy ensures Fair(seen, n, t.busy[n]) {
      if n != name { assert Fair(seen, n, s.busy[n]); }
    }
  }

  /** A workload step moves its own reconcile only from cleared to decided. */
  lemma EffectOnItself(s: State, t: State, name: string, stored: StatefulSet, outcome: Outcome, now: int)
    requires WriteEffect(s, t, name, stored, outcome, now)
    ensures t.agents == s.agents
    ensures name in t.busy ==>
      && name in s.busy && (!t.busy[name].Decided? || !s.busy[name].Cleared? ==> t.busy[name] == s.busy[name])
      && (t.busy[name].Decided? && s.busy[name].Cleared? ==> t.busy[name].held == s.busy[name].held)
  {
  }

  lemma ReadIsFair(cfg: Images, s: State, step: Step, seen: set<(string, bool)>)
    requires step.WriteWorkload? && ReadBy(cfg, s, step) <= seen
    requires step.name in s.busy && s.busy[step.name].Cleared?
    requires var t := Next(cfg, s, step); step.name in t.busy && t.busy[step.name].Decided?
    ensures Protocol.Justified(seen, step.name, Next(cfg, s, step).busy[step.name].status.conditions)
  {
    var name, t := step.name, Next(cfg, s, step);
    WriteJudges(cfg, s, name, step.outcome, step.stored, step.now);
    var w := t.sets[name];
    assert Reads(cfg, s, step, name, w.readyReplicas > 0);
    assert (name, w.readyReplicas > 0) in ReadBy(cfg, s, step);
    WorkloadIsJustified(name, s.busy[name].held, w, step.now, seen);
  }

  lemma WrittenIsHonest(cfg: Images, s: State, step: Step, seen: set<(string, bool)>)
    requires Honest(s, seen) && step.WriteWorkload? && ReadBy(cfg, s, step) <= seen
    ensures Honest(Next(cfg, s, step), seen)
  {
    var name, t := step.name, Next(cfg, s, step);
    WrittenEffect(cfg, s, name, step.outcome, step.stored, step.now);
    EffectOnItself(s, t, name, step.stored, step.outcome, step.now);
    forall n | n in t.busy ensures Fair(seen, n, t.busy[n]) {
      if n != name {
        EffectBeside(s, t, name, step.stored, step.outcome, step.now, n);
        assert Fair(seen, n, s.busy[n]);
      } else {
        assert Fair(seen, n, s.busy[n]);
        if t.busy[n].Decided? && s.busy[n].Cleared? { ReadIsFair(cfg, s, step, seen); }
      }
    }
  }

  /** The patch leaves every other Agent and reconcile, and its own Agent's conditions are the ones decided or the
      ones there. */
  lemma PatchedFrames(s: State, name: string, outcome: Outcome)
    ensures var t := Patched(s, name, outcome);
      && t.agents.Keys == s.agents.Keys && t.busy.Keys <= s.busy.Keys
      && (forall n :: n in t.busy ==> t.busy[n] == s.busy[n])
      && (forall n :: n in t.agents && n != name ==> t.agents[n] == s.agents[n])
      && (name in t.agents && t.agents[name] != s.agents[name] ==>
            name in s.busy && s.busy[name].Decided?
            && (t.agents[name].status.conditions == s.busy[name].status.conditions
                || t.agents[name].status.conditions == s.agents[name].status.conditions))
  {
  }

  lemma PatchedIsHonest(s: State, name: string, outcome: Outcome, seen: set<(string, bool)>)
    requires Honest(s, seen)
    ensures Honest(Patched(s, name, outcome), seen)
  {
    var t := Patched(s, name, outcome);
    PatchedFrames(s, name, outcome);
    forall n | n in t.busy ensures Fair(seen, n, t.busy[n]) { assert Fair(seen, n, s.busy[n]); }
    forall n | n in t.agents ensures Protocol.Justified(seen, n, t.agents[n].status.conditions) {
      if n == name && t.agents[n] != s.agents[n] {
        assert Fair(seen, name, s.busy[name]);
      }
    }
  }

  lemma StartedIsHonest(s: State, name: string, outcome: Outcome, seen: set<(string, bool)>)
    requires Honest(s, seen)
    ensures Honest(Started(s, name, outcome), seen)
  {
    var t := Started(s, name, outcome);
    forall n | n in t.busy ensures Fair(seen, n, t.busy[n]) {
      if n in s.busy { assert Fair(seen, n, s.busy[n]); }
    }
  }

  lemma AroundIsHonest(s: State, step: Step, seen: set<(string, bool)>)
    requires Honest(s, seen)
    ensures Honest(Around(s, step), seen)
  {
    var t := Around(s, step);
    forall n | n in t.busy ensures Fair(seen, n, t.busy[n]) { assert Fair(seen, n, s.busy[n]); }
  }

  lemma StepIsHonest(cfg: Images, s: State, step: Step, seen: set<(string, bool)>)
    requires Honest(s, seen) && ReadBy(cfg, s, step) <= seen
    ensures Honest(Next(cfg, s, step), seen)
  {
    match step
    case Start(name, outcome) => StartedIsHonest(s, name, outcome, seen);
    case CheckSecret(name, outcome, now) => CheckedIsHonest(s, name, outcome, now, seen);
    case WriteWorkload(name, outcome, stored, now) => WrittenIsHonest(cfg, s, step, seen);
    case PatchStatus(name, outcome) => PatchedIsHonest(s, name, outcome, seen);
    case _ => AroundIsHonest(s, step, seen);
  }

  lemma {:induction false} RunIsHonest(cfg: Images, steps: seq<Step>)
    ensures Honest(Run(cfg, START, steps), Seen(cfg, steps))
    decreases |steps|
  {
    if steps != [] {
      var front, last := steps[..|steps| - 1], steps[|steps| - 1];
      var s := Run(cfg, START, front);
      RunIsHonest(cfg, front);
      SeenMore(s, Seen(cfg, front), Seen(cfg, steps));
      StepIsHonest(cfg, s, last, Seen(cfg, steps));
    }
  }

  /** Every run of the reconciler keeps to what the report protocol assumes of it. */
  lemma ConditionsAreJustified(cfg: Images, steps: seq<Step>, name: string)
    requires name in Run(cfg, START, steps).agents
    ensures Protocol.Justified(Seen(cfg, steps), name, Run(cfg, START, steps).agents[name].status.conditions)
  {
    RunIsHonest(cfg, steps);
  }

  /** An Available of True or False on an Agent was decided by a reconcile of that name, at a step of the run that wrote
      or found its StatefulSet with just that readiness; however often the Agent was edited, deleted or created again
      under the name, and whatever the constructor wrote beside it. */
  lemma AvailableWasRead(cfg: Images, steps: seq<Step>, name: string) returns (k: nat)
    requires name in Run(cfg, START, steps).agents
    requires var c := FindCondition(Run(cfg, START, steps).agents[name].status.conditions, AVAILABLE);
      c.Some? && !c.value.status.IsUnknown?
    ensures k < |steps|
    ensures var c := FindCondition(Run(cfg, START, steps).agents[name].status.conditions, AVAILABLE).value;
      Reads(cfg, Run(cfg, START, steps[..k]), steps[k], name, c.status.IsTrue?)
  {
    ConditionsAreJustified(cfg, steps, name);
    var c := FindCondition(Run(cfg, START, steps).agents[name].status.conditions, AVAILABLE).value;
    k := SeenWasRead(cfg, steps, name, c.status.IsTrue?);
  }
}
