/**
 The reconciler as it runs: one Agent read, its workload built, its conditions set in place and its status patched, with
 the cluster moving between any two calls.  Every method takes only steps of the reconcile machine, so what Wakeups and
 Storage prove of runs holds of it.
 */
module Controller {
  import opened Prelude
  import opened Api
  import opened Workload
  import opened Rendering
  import opened Status
  import opened Reconcile
  import opened Wakeups
  import ApplyAgent

  /** meta.SetStatusCondition: the first condition of the kind is written over in place, its transition time kept while
      its status is; where there is none, one is appended. */
  method SetStatusCondition(conditions: seq<Condition>, c: Condition, now: int) returns (r: seq<Condition>)
    ensures r == SetCondition(conditions, c, now) && Reports(r, c)
    ensures
      var before, after := FindCondition(conditions, c.kind), FindCondition(r, c.kind);
      after.Some? && after.value.lastTransition ==
        if before.Some? && before.value.status == c.status then before.value.lastTransition else now
  {
    SetReports(conditions, c, now);
    SetTransition(conditions, c, now);
    r := WriteOver(conditions, c, now);
  }

  method WriteOver(conditions: seq<Condition>, c: Condition, now: int) returns (r: seq<Condition>)
    ensures r == SetCondition(conditions, c, now)
  {
    var i := 0;
    while i < |conditions| && conditions[i].kind != c.kind
      invariant 0 <= i <= |conditions|
      invariant SetCondition(conditions, c, now) == conditions[..i] + SetCondition(conditions[i..], c, now)
    {
      assert conditions[i..][1..] == conditions[i + 1..];
      assert conditions[..i] + ([conditions[i]] + SetCondition(conditions[i + 1..], c, now))
          == conditions[..i + 1] + SetCondition(conditions[i + 1..], c, now);
      i := i + 1;
    }
    if i == |conditions| {
      assert conditions[i..] == [];
      return conditions + [c.(lastTransition := now)];
    }
    var there := conditions[i];
    assert conditions[i..][1..] == conditions[i + 1..];
    r := conditions[i := c.(lastTransition := if there.status == c.status then there.lastTransition else now)];
  }

  /** An Agent as one reconcile holds it in memory. */
  class Held {
    const uid: nat
    const generation: int
    const spec: AgentSpec
    var status: AgentStatus

    ghost function Value(): Resource
      reads this
    {
      Resource(uid, generation, spec, status)
    }

    constructor (r: Resource)
      ensures Value() == r
    {
      uid, generation, spec, status := r.uid, r.generation, r.spec, r.status;
    }

    /** setSynced: from now on the Agent reports this Synced at its generation, and every other kind as before. */
    method SetSynced(value: ConditionStatus, reason: string, message: string, now: int)
      modifies this
      ensures status == old(status).(conditions :=
        SetCondition(old(status.conditions), Say(SYNCED, value, reason, message, generation), now))
      ensures Reports(status.conditions, Say(SYNCED, value, reason, message, generation))
      ensures forall k :: k != SYNCED ==> FindCondition(status.conditions, k) == FindCondition(old(status.conditions), k)
    {
      var c := Condition(SYNCED, value, reason, message, generation, 0);
      SetReports(status.conditions, c, now);
      var conditions := SetStatusCondition(status.conditions, c, now);
      status := status.(conditions := conditions);
    }

    /** setAvailable: likewise for Available. */
    method SetAvailable(value: ConditionStatus, reason: string, message: string, now: int)
      modifies this
      ensures status == old(status).(conditions :=
        SetCondition(old(status.conditions), Say(AVAILABLE, value, reason, message, generation), now))
      ensures Reports(status.conditions, Say(AVAILABLE, value, reason, message, generation))
      ensures forall k :: k != AVAILABLE ==> FindCondition(status.conditions, k) == FindCondition(old(status.conditions), k)
    {
      var c := Condition(AVAILABLE, value, reason, message, generation, 0);
      SetReports(status.conditions, c, now);
      var conditions := SetStatusCondition(status.conditions, c, now);
      status := status.(conditions := conditions);
    }

    method SetAvailableFromWorkload(name: string, w: StatefulSet, now: int)
      modifies this
      ensures status == old(status).(conditions :=
        SetCondition(old(status.conditions), FromWorkload(name, old(Value()), w).available, now))
    {
      if w.readyReplicas > 0 {
        SetAvailable(IsTrue, "ReplicaReady", name, now);
        return;
      }
      SetAvailable(IsFalse, "ReplicaNotReady", name, now);
    }
  }

  /** How a call that may fail or outlive its process ended. */
  datatype Ending = Completed | Erred | Died

  /** Nothing but its own reconcile and a restart moves what a reconcile holds. */
  lemma OthersKeepBusy(cfg: Images, s: State, step: Step, name: string)
    requires !Reconciles(step, name) && !step.Restart?
    ensures var t := Next(cfg, s, step);
      (name in s.busy <==> name in t.busy) && (name in s.busy ==> t.busy[name] == s.busy[name])
  {
    if step.WriteWorkload? {
      WrittenEffect(cfg, s, step.name, step.outcome, step.stored, step.now);
      EffectBeside(s, Next(cfg, s, step), step.name, step.stored, step.outcome, step.now, name);
    }
  }

  /** The cluster, the queue and the run that led here.  In a quiet one nothing fails, nothing dies and nothing else
      moves. */
  class Manager {
    const cfg: Images
    const quiet: bool
    var s: State
    ghost var run: seq<Step>

    ghost predicate Valid()
      reads this
    {
      s == Run(cfg, START, run)
    }

    constructor (cfg: Images, quiet: bool)
      ensures Valid() && s == START && this.quiet == quiet
    {
      this.cfg, this.quiet := cfg, quiet;
      s := START;
      run := [];
    }

    method Take(step: Step)
      requires Valid()
      modifies this
      ensures Valid() && run == old(run) + [step] && s == Next(cfg, old(s), step)
    {
      s := Next(cfg, s, step);
      run := run + [step];
      assert run[..|run| - 1] == old(run);
    }

    /** Any number of steps of users, Secrets, workloads and the reconciles of other Agents. */
    method Interfere(name: string)
      requires Valid()
      modifies this
      ensures Valid() && old(run) <= run
      ensures name in s.busy <==> name in old(s.busy)
      ensures name in s.busy ==> s.busy[name] == old(s.busy)[name]
      ensures quiet ==> s == old(s)
    {
      if quiet { return; }
      var steps: seq<Step> := *;
      for i := 0 to |steps|
        invariant Valid() && old(run) <= run
        invariant name in s.busy <==> name in old(s.busy)
        invariant name in s.busy ==> s.busy[name] == old(s.busy)[name]
      {
        if !Mine(steps[i], name) && !steps[i].Restart? {
          OthersKeepBusy(cfg, s, steps[i], name);
          Take(steps[i]);
        }
      }
    }

    static predicate Mine(step: Step, name: string)
      ensures Mine(step, name) <==> Reconciles(step, name)
    {
      match step
      case Start(n, _) => n == name
      case CheckSecret(n, _, _) => n == name
      case WriteWorkload(n, _, _, _) => n == name
      case PatchStatus(n, _) => n == name
      case _ => false
    }

    /** The cluster moves before the next call of this reconcile, or the process dies there. */
    method Proceed(name: string) returns (alive: bool)
      requires Valid()
      modifies this
      ensures Valid() && old(run) <= run
      ensures if alive then name in s.busy <==> name in old(s.busy) else s.busy == map[]
      ensures alive && name in s.busy ==> s.busy[name] == old(s.busy)[name]
      ensures quiet ==> alive && s == old(s)
    {
      Interfere(name);
      alive := *;
      if quiet { alive := true; }
      if !alive { Take(Step.Restart); }
    }

    /** How the next call ends. */
    method Outcome() returns (outcome: Outcome)
      ensures quiet ==> outcome.Done?
    {
      outcome := *;
      if quiet { outcome := Done; }
    }

    /** agentsNamingSecret: the Agents whose spec names the Secret, in the order the list came in, and none where
        the list failed. */
    static method AgentsNamingSecret(agents: map<string, Resource>, items: seq<string>, outcome: Outcome, secret: string)
        returns (requests: seq<string>)
      requires Enumerates(items, agents.Keys)
      ensures !outcome.Done? ==> requests == []
      ensures outcome.Done? ==> Enumerates(requests, Naming(agents, secret))
      ensures outcome.Done? ==>
        forall n :: n in requests <==> n in agents && agents[n].spec.credentialsSecretName == secret
    {
      requests := [];
      if !outcome.Done? { return; }
      for i := 0 to |items|
        invariant forall n :: n in requests <==> n in items[..i] && n in Naming(agents, secret)
        invariant forall a, b :: 0 <= a < b < |requests| ==> requests[a] != requests[b]
      {
        assert items[..i + 1] == items[..i] + [items[i]];
        assert items[i] !in items[..i];
        if agents[items[i]].spec.credentialsSecretName == secret {
          requests := requests + [items[i]];
        }
      }
      assert items[..|items|] == items;
    }

    /** A Secret's event reaches the queue through that mapping. */
    method SecretEvent(secret: string, items: seq<string>, outcome: Outcome)
      requires Valid() && Enumerates(items, s.agents.Keys)
      modifies this
      ensures Valid() && old(run) <= run
      ensures s.queue == if outcome.Done? then old(s.queue) + Naming(old(s.agents), secret) else old(s.queue)
      ensures secret !in s.pending
      ensures s.dropped == if outcome.Done? then old(s.dropped) else old(s.dropped) + Naming(old(s.agents), secret)
    {
      var requests := AgentsNamingSecret(s.agents, items, outcome, secret);
      ghost var queue := s.queue + set n | n in requests;
      Take(if outcome.Done? then Deliver(secret) else DropWakeup(secret));
      assert s.queue == queue;
    }
  }

  /** What the workload step answers, in terms of the object found and the one stored. */
  lemma WriteAnswers(cfg: Images, s: State, name: string, outcome: Outcome, stored: StatefulSet, now: int)
    requires name in s.busy && s.busy[name].Cleared?
    requires var agent := AgentOf(name, s.busy[name].held);
      Refused(cfg, agent, Found(s, name)) || Keeps(Render(cfg, agent, Found(s, name)), stored)
    ensures
      var r, found, t := s.busy[name].held, Found(s, name), Written(cfg, s, name, outcome, stored, now);
      var w := if name in s.sets && Render(cfg, AgentOf(name, r), found) == found then found else stored;
      if outcome.Done? && !Refused(cfg, AgentOf(name, r), found)
      then name in t.busy && t.busy[name] == Decided(r, Judged(r, FromWorkload(name, r, w), now))
      else name !in t.busy && name in t.queue
  {
    var r, found, t := s.busy[name].held, Found(s, name), Written(cfg, s, name, outcome, stored, now);
    if outcome.Failed? || Refused(cfg, AgentOf(name, r), found) {
      assert t == Retry(s, name);
    } else if name in s.sets && Render(cfg, AgentOf(name, r), found) == found {
      assert t == Landed(s, name, r, found, false, outcome, now);
    } else {
      assert t == Landed(s, name, r, stored, true, outcome, now);
    }
  }

  class Reconciler {
    const manager: Manager

    constructor (manager: Manager)
      ensures this.manager == manager
    {
      this.manager := manager;
    }

    /** What the API server answers a write of `built` with: any object it may store for it. */
    method ServerStores(built: StatefulSet) returns (stored: StatefulSet)
      ensures Keeps(built, stored)
    {
      stored := *;
      if !Keeps(built, stored) { stored := built.(created := true); }
    }

    /** The object found, mutated in place by applyAgent, whatever room its slices were decoded with. */
    method Build(name: string, r: Resource, found: StatefulSet) returns (built: StatefulSet, refused: bool)
      ensures refused <==> Refused(manager.cfg, AgentOf(name, r), found)
      ensures !refused ==> built == Render(manager.cfg, AgentOf(name, r), found)
    {
      var initRoom: nat, containerRoom: nat :| true;
      var o := new ApplyAgent.Object(found, initRoom, containerRoom);
      refused := ApplyAgent.Apply(o, manager.cfg, AgentOf(name, r));
      built := o.Snapshot();
    }

    /** reconcileStatefulSet: the workload as the cluster then holds it. */
    method ReconcileStatefulSet(name: string, r: Resource, now: int)
        returns (ending: Ending, w: StatefulSet, ghost stored: StatefulSet)
      requires manager.Valid() && name in manager.s.busy && manager.s.busy[name] == Cleared(r)
      modifies manager
      ensures manager.Valid() && old(manager.run) <= manager.run
      ensures if ending.Completed?
              then name in manager.s.busy
                   && manager.s.busy[name] == Decided(r, Judged(r, FromWorkload(name, r, w), now))
              else name !in manager.s.busy && (ending.Erred? ==> name in manager.s.queue)
      ensures manager.quiet ==> manager.s == Written(manager.cfg, old(manager.s), name, Done, stored, now)
    {
      w, stored := NO_WORKLOAD, NO_WORKLOAD;
      var alive := manager.Proceed(name);
      if !alive { return Died, w, stored; }
      var there, found := name in manager.s.sets, Found(manager.s, name);
      var built, refused := Build(name, r, found);
      var answer := ServerStores(built);
      stored := answer;
      var outcome := manager.Outcome();
      WriteAnswers(manager.cfg, manager.s, name, outcome, answer, now);
      manager.Take(WriteWorkload(name, outcome, answer, now));
      if refused || !outcome.Done? { return Erred, w, stored; }
      ending, w := Completed, if there && built == found then found else answer;
    }

    /** credentialsExist: whether the Secret the Agent names is there. */
    method CredentialsExist(name: string, secret: string, ghost r: Resource, now: int) returns (ending: Ending, there: bool)
      requires manager.Valid() && name in manager.s.busy && manager.s.busy[name] == Looked(r)
      requires secret == r.spec.credentialsSecretName
      modifies manager
      ensures manager.Valid() && old(manager.run) <= manager.run
      ensures if ending.Completed?
              then name in manager.s.busy && manager.s.busy[name] ==
                   if there then Cleared(r) else Decided(r, Judged(r, SecretMissing(r), now))
              else name !in manager.s.busy && (ending.Erred? ==> name in manager.s.queue)
      ensures manager.quiet ==> manager.s == Checked(old(manager.s), name, Done, now)
    {
      there := false;
      var alive := manager.Proceed(name);
      if !alive { return Died, there; }
      var found := secret in manager.s.secrets;
      var outcome := manager.Outcome();
      manager.Take(CheckSecret(name, outcome, now));
      if !outcome.Done? { return Erred, there; }
      ending, there := Completed, found;
    }

    /** reconcileWorkload: the conditions are set on the Agent in memory, and match what the machine decides. */
    method ReconcileWorkload(name: string, agent: Held, now: int) returns (ending: Ending, ghost stored: StatefulSet)
      requires manager.Valid() && name in manager.s.busy && manager.s.busy[name] == Looked(agent.Value())
      modifies manager, agent
      ensures manager.Valid() && old(manager.run) <= manager.run
      ensures if ending.Completed?
              then name in manager.s.busy && manager.s.busy[name] ==
                   Decided(old(agent.Value()), agent.status.(observedGeneration := agent.generation))
              else name !in manager.s.busy && (ending.Erred? ==> name in manager.s.queue)
      ensures manager.quiet ==>
        manager.s == Written(manager.cfg, Checked(old(manager.s), name, Done, now), name, Done, stored, now)
    {
      stored := NO_WORKLOAD;
      var there;
      ending, there := CredentialsExist(name, agent.spec.credentialsSecretName, agent.Value(), now);
      if !ending.Completed? { return; }
      if !there {
        agent.SetSynced(IsFalse, "CredentialsSecretMissing", agent.spec.credentialsSecretName, now);
        agent.SetAvailable(IsUnknown, "WorkloadNotObserved", "", now);
        return Completed, stored;
      }
      var w;
      ending, w, stored := ReconcileStatefulSet(name, Resource(agent.uid, agent.generation, agent.spec, agent.status), now);
      if !ending.Completed? { return; }
      JudgeWorkload(name, agent, w, now);
    }

    /** The conditions a workload in hand decides. */
    method JudgeWorkload(name: string, agent: Held, w: StatefulSet, now: int)
      modifies agent
      ensures agent.status.(observedGeneration := agent.generation)
           == Judged(old(agent.Value()), FromWorkload(name, old(agent.Value()), w), now)
    {
      var claimed := ApplyAgent.ClaimedStorageSize(w.claims);
      if claimed.value != agent.spec.storageSize.value {
        agent.SetSynced(IsFalse, "StorageSizeImmutable", claimed.notation + "/" + agent.spec.storageSize.notation, now);
      } else {
        agent.SetSynced(IsTrue, "WorkloadReconciled", name, now);
      }
      agent.SetAvailableFromWorkload(name, w, now);
    }

    /** writeStatus: nothing where nothing new was decided, and otherwise the patch, on whatever the object now is. */
    method WriteStatus(name: string, agent: Held, held: AgentStatus) returns (ending: Ending)
      requires manager.Valid() && name in manager.s.busy
      requires manager.s.busy[name].Decided? && manager.s.busy[name].held.status == held
      requires manager.s.busy[name].status == agent.status
      modifies manager
      ensures manager.Valid() && old(manager.run) <= manager.run && name !in manager.s.busy
      ensures held == agent.status ==> ending.Completed? && manager.s.agents == old(manager.s.agents)
      ensures ending.Erred? ==> name in manager.s.queue
      ensures manager.quiet ==> manager.s == Patched(old(manager.s), name, Done)
    {
      if held == agent.status {
        manager.Take(PatchStatus(name, Done));
        return Completed;
      }
      var alive := manager.Proceed(name);
      if !alive { return Died; }
      var outcome := manager.Outcome();
      ending := if outcome.Done? && name in manager.s.agents then Completed else Erred;
      manager.Take(PatchStatus(name, outcome));
    }

    /** Reconcile.  Whatever fails, whatever moves meanwhile and whenever the process dies, it takes only steps of the
        reconcile machine and leaves nothing in progress; an error leaves its key queued.  Where nothing fails or
        moves, it is the quiet pass Wakeups reasons about. */
    method Reconcile(name: string, now: int) returns (ending: Ending, ghost stored: StatefulSet)
      requires manager.Valid() && name in manager.s.queue && name !in manager.s.busy
      modifies manager
      ensures manager.Valid() && old(manager.run) <= manager.run && name !in manager.s.busy
      ensures ending.Erred? ==> name in manager.s.queue
      ensures manager.quiet ==> manager.s == Pass(manager.cfg, old(manager.s), name, stored, now)
    {
      stored := NO_WORKLOAD;
      assert manager.s.queue + {name} == manager.s.queue;
      var outcome := manager.Outcome();
      var found := if name in manager.s.agents then Some(manager.s.agents[name]) else None;
      manager.Take(Start(name, outcome));
      if !outcome.Done? { return Erred, stored; }
      if found.None? { return Completed, stored; }
      var agent := new Held(found.value);
      var held := agent.status;
      ending, stored := ReconcileWorkload(name, agent, now);
      if !ending.Completed? { return; }
      agent.status := agent.status.(observedGeneration := agent.generation);
      ending := WriteStatus(name, agent, held);
    }
  }
}
