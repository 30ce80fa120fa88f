/** What the Synced and Available conditions of a settled Agent mean, and the size its volume was claimed at. */
module Storage {
  import opened Prelude
  import opened Api
  import opened Workload
  import opened Rendering
  import opened Reconcile
  import opened Wakeups

  ghost predicate Shows(cs: seq<Condition>, kind: string, status: ConditionStatus) {
    var c := FindCondition(cs, kind);
    c.Some? && c.value.status == status
  }

  /** Synced is True exactly when the Secret exists and the claimed size is the asked-for one in value; Available is
      Unknown exactly when no workload was read, and otherwise says whether a replica is ready. */
  lemma SettledConditions(cfg: Images, name: string, v: View)
    requires Settled(cfg, name, v)
    ensures var cs := v.r.status.conditions;
      && (Shows(cs, SYNCED, IsTrue) <==> v.secret && ClaimedSize(v.w.value.claims).value == v.r.spec.storageSize.value)
      && (Shows(cs, AVAILABLE, IsUnknown) <==> !v.secret)
      && (Shows(cs, AVAILABLE, IsTrue) <==> v.secret && v.w.value.readyReplicas > 0)
  {
    KindsDiffer(name, v);
  }

  /** The conditions of a settled Agent word for word: the reason of each, and the generation they are of. */
  lemma SettledReasons(cfg: Images, name: string, v: View)
    requires Settled(cfg, name, v)
    ensures
      var synced, available := FindCondition(v.r.status.conditions, "Synced"), FindCondition(v.r.status.conditions, "Available");
      && synced.Some? && available.Some? && v.r.status.observedGeneration == v.r.generation
      && synced.value.observedGeneration == v.r.generation && available.value.observedGeneration == v.r.generation
      && synced.value.reason == (if !v.secret then "CredentialsSecretMissing"
           else if ClaimedSize(v.w.value.claims).value != v.r.spec.storageSize.value then "StorageSizeImmutable"
           else "WorkloadReconciled")
      && (synced.value.status.IsTrue? <==> synced.value.reason == "WorkloadReconciled") && !synced.value.status.IsUnknown?
      && available.value.reason == (if !v.secret then "WorkloadNotObserved"
           else if v.w.value.readyReplicas > 0 then "ReplicaReady" else "ReplicaNotReady")
  {
    KindsDiffer(name, v);
    assert SYNCED == "Synced" && AVAILABLE == "Available";
    assert |"CredentialsSecretMissing"| == 24 && |"StorageSizeImmutable"| == 20 && |"WorkloadReconciled"| == 18;
  }

  /** The claim template of a stored workload outlives every step but the workload's deletion. */
  lemma ClaimOutlives(cfg: Images, s: State, step: Step, name: string)
    requires name in s.sets && s.sets[name].created && name in Next(cfg, s, step).sets
    ensures var w := Next(cfg, s, step).sets[name]; w.created && w.claims == s.sets[name].claims
  {
    if step.WriteWorkload? {
      ClaimOutlivesWrite(cfg, s, step.name, step.outcome, step.stored, step.now, name);
    }
  }

  lemma ClaimOutlivesWrite(cfg: Images, s: State, writing: string, outcome: Outcome, stored: StatefulSet, now: int,
                           name: string)
    requires name in s.sets && s.sets[name].created
    ensures var t := Written(cfg, s, writing, outcome, stored, now);
      name in t.sets && t.sets[name].created && t.sets[name].claims == s.sets[name].claims
  {
    var t := Written(cfg, s, writing, outcome, stored, now);
    WrittenEffect(cfg, s, writing, outcome, stored, now);
    if writing != name {
      EffectBeside(s, t, writing, stored, outcome, now, name);
    } else if t.sets != s.sets {
      OwnWriteKeepsClaim(cfg, s, name, outcome, stored, now);
    }
  }

  lemma StoredKeepsClaim(cfg: Images, agent: Agent, found: StatefulSet, stored: StatefulSet)
    requires found.created && Keeps(Render(cfg, agent, found), stored)
    ensures stored.created && stored.claims == found.claims
  {
  }

  lemma OwnWriteStores(cfg: Images, s: State, name: string, outcome: Outcome, stored: StatefulSet, now: int)
    requires name in s.sets
    ensures var t := Written(cfg, s, name, outcome, stored, now);
      t.sets == s.sets
      || (&& t.sets == s.sets[name := stored] && name in s.busy
          && Keeps(Render(cfg, AgentOf(name, s.busy[name].held), s.sets[name]), stored))
  {
    var t := Written(cfg, s, name, outcome, stored, now);
    if name in s.busy && s.busy[name].Cleared? {
      var held, found := s.busy[name].held, s.sets[name];
      if outcome.Failed? || Refused(cfg, AgentOf(name, held), found) {
        assert t == Retry(s, name);
      } else if Render(cfg, AgentOf(name, held), found) == found {
        assert t == Landed(s, name, held, found, false, outcome, now);
      } else if Keeps(Render(cfg, AgentOf(name, held), found), stored) {
        assert t == Landed(s, name, held, stored, true, outcome, now);
      }
    }
  }

  lemma OwnWriteKeepsClaim(cfg: Images, s: State, name: string, outcome: Outcome, stored: StatefulSet, now: int)
    requires name in s.sets && s.sets[name].created && Written(cfg, s, name, outcome, stored, now).sets != s.sets
    ensures var t := Written(cfg, s, name, outcome, stored, now);
      name in t.sets && t.sets[name].created && t.sets[name].claims == s.sets[name].claims
  {
    OwnWriteStores(cfg, s, name, outcome, stored, now);
    StoredKeepsClaim(cfg, AgentOf(name, s.busy[name].held), s.sets[name], stored);
  }

  /** The workload is never deleted over the run. */
  ghost predicate Stands(cfg: Images, s: State, steps: seq<Step>, name: string) {
    forall k :: 0 <= k <= |steps| ==> name in Run(cfg, s, steps[..k]).sets
  }

  lemma {:induction false} ClaimStands(cfg: Images, s: State, steps: seq<Step>, name: string)
    requires name in s.sets && s.sets[name].created && Stands(cfg, s, steps, name)
    ensures var t := Run(cfg, s, steps);
      name in t.sets && t.sets[name].created && t.sets[name].claims == s.sets[name].claims
    decreases |steps|
  {
    if steps != [] {
      var front := steps[..|steps| - 1];
      forall k | 0 <= k <= |front| ensures name in Run(cfg, s, front[..k]).sets {
        assert front[..k] == steps[..k];
      }
      ClaimStands(cfg, s, front, name);
      assert steps[..|steps|] == steps;
      assert name in Run(cfg, s, steps[..|steps|]).sets;
      ClaimOutlives(cfg, Run(cfg, s, front), steps[|steps| - 1], name);
    }
  }

  /** A reconcile that builds a workload where there was none claims the size its Agent then asked for. */
  lemma FirstBuildClaims(cfg: Images, s: State, name: string, outcome: Outcome, stored: StatefulSet, now: int)
    requires name !in s.sets && name in Written(cfg, s, name, outcome, stored, now).sets
    ensures var w := Written(cfg, s, name, outcome, stored, now).sets[name];
      w.created && ClaimedSize(w.claims) == s.busy[name].held.spec.storageSize
  {
    var held := s.busy[name].held;
    var built := Render(cfg, AgentOf(name, held), NO_WORKLOAD);
    assert built.claims == [StateClaim(held.spec)];
  }

  /** The storage claim over all edits.  However the Agent is edited after its workload is first built, and whatever else
      happens while that workload stands, an Agent at rest says Synced True exactly when its Secret exists and its
      size equals that of the first build in value.  So editing the size away and back restores it. */
  lemma SyncedMeansFirstSize(cfg: Images, before: seq<Step>, build: Step, after: seq<Step>, name: string)
    requires build.WriteWorkload? && build.name == name
    requires var s := Run(cfg, START, before);
      name !in s.sets && Stands(cfg, Next(cfg, s, build), after, name)
    requires var t := Run(cfg, START, before + [build] + after);
      name in t.agents && name !in t.queue && name !in t.busy && Informed(t, name)
    ensures
      var s, t := Run(cfg, START, before), Run(cfg, START, before + [build] + after);
      && name in s.busy
      && (Shows(t.agents[name].status.conditions, SYNCED, IsTrue) <==>
            && t.agents[name].spec.credentialsSecretName in t.secrets
            && t.agents[name].spec.storageSize.value == s.busy[name].held.spec.storageSize.value)
  {
    var s := Run(cfg, START, before);
    var first := Next(cfg, s, build);
    RunOne(cfg, s, build);
    RunAppends(cfg, START, before, [build]);
    RunAppends(cfg, START, before + [build], after);
    assert name in Run(cfg, first, after[..0]).sets;
    FirstBuildClaims(cfg, s, name, build.outcome, build.stored, build.now);
    ClaimStands(cfg, first, after, name);
    NoStuckAgent(cfg, before + [build] + after, name, NO_WORKLOAD, 0);
    SettledConditions(cfg, name, ViewOf(Run(cfg, START, before + [build] + after), name));
  }
}
