/** No Agent is left behind: every step of the reconcile and of the cluster keeps each Agent queued, in progress or settled. */
module Wakeups {
  import opened Prelude
  import opened Api
  import opened Workload
  import opened Rendering
  import opened Status
  import opened Reconcile

  // ------------------------------------------------------------- what every step keeps

  /** An Agent a step does not concern stays attended. */
  lemma AttendedFrame(cfg: Images, s: State, t: State, name: string)
    requires name in s.agents && name in t.agents && Attended(cfg, s, name)
    requires ViewOf(t, name) == ViewOf(s, name).(secret := ViewOf(t, name).secret)
    requires name in s.busy <==> name in t.busy
    requires name in s.busy ==> s.busy[name] == t.busy[name]
    requires name in s.queue ==> name in t.queue
    requires Informed(t, name) ==> Informed(s, name) && ViewOf(t, name).secret == ViewOf(s, name).secret
    ensures Attended(cfg, t, name)
  {
    if name !in s.queue {
      var secret :| RightFor(cfg, s, name, secret) && (Informed(s, name) ==> secret == ViewOf(s, name).secret);
      assert ViewOf(s, name).(secret := secret) == ViewOf(t, name).(secret := secret);
      assert RightFor(cfg, t, name, secret);
    }
  }

  /** What is right of the cluster as it is. */
  lemma RightNow(cfg: Images, s: State, name: string)
    requires name in s.agents && RightFor(cfg, s, name, ViewOf(s, name).secret)
    ensures Attended(cfg, s, name)
  {
  }

  lemma StartedBeside(cfg: Images, s: State, name: string, outcome: Outcome, n: string)
    requires n in s.agents && Attended(cfg, s, n) && (n != name || Started(s, name, outcome) == s)
    ensures n in Started(s, name, outcome).agents && Attended(cfg, Started(s, name, outcome), n)
  {
    AttendedFrame(cfg, s, Started(s, name, outcome), n);
  }

  lemma StartedKeeps(cfg: Images, s: State, name: string, outcome: Outcome)
    requires Inv(cfg, s)
    ensures Inv(cfg, Started(s, name, outcome))
  {
    var t := Started(s, name, outcome);
    forall n | n in t.agents ensures Attended(cfg, t, n) {
      assert Attended(cfg, s, n);
      if n != name || t == s {
        StartedBeside(cfg, s, name, outcome, n);
      } else {
        assert InStep(cfg, n, ViewOf(t, n), t.busy[n]);
        RightNow(cfg, t, n);
      }
    }
  }

  lemma CheckedKeeps(cfg: Images, s: State, name: string, outcome: Outcome, now: int)
    requires Inv(cfg, s)
    ensures Inv(cfg, Checked(s, name, outcome, now))
  {
    var t := Checked(s, name, outcome, now);
    forall n | n in t.agents ensures Attended(cfg, t, n) {
      assert Attended(cfg, s, n);
      if n != name || t == s {
        AttendedFrame(cfg, s, t, n);
      } else if n !in t.queue {
        var secret :| RightFor(cfg, s, n, secret);
        var v := ViewOf(t, n);
        assert t.busy[n].Decided? ==> t.busy[n].status == Judged(v.r, Present(n, v), now);
        assert InStep(cfg, n, v, t.busy[n]);
        RightNow(cfg, t, n);
      }
    }
  }

  /** All that the workload step can do. */
  ghost predicate WriteEffect(s: State, t: State, name: string, stored: StatefulSet, outcome: Outcome, now: int) {
    || t == s
    || (&& name in s.busy && s.busy[name].Cleared?
        && var held := s.busy[name].held;
           || t == Retry(s, name)
           || t == Landed(s, name, held, Found(s, name), false, outcome, now)
           || t == Landed(s, name, held, stored, true, outcome, now))
  }

  lemma WrittenEffect(cfg: Images, s: State, name: string, outcome: Outcome, stored: StatefulSet, now: int)
    ensures WriteEffect(s, Written(cfg, s, name, outcome, stored, now), name, stored, outcome, now)
  {
  }

  /** It moves no status and nobody else's reconcile or workload. */
  lemma EffectBeside(s: State, t: State, name: string, stored: StatefulSet, outcome: Outcome, now: int, n: string)
    requires WriteEffect(s, t, name, stored, outcome, now) && n != name
    ensures t.agents == s.agents && t.secrets == s.secrets && t.pending == s.pending && t.dropped == s.dropped
    ensures n in t.busy <==> n in s.busy
    ensures n in t.busy ==> t.busy[n] == s.busy[n]
    ensures n in t.sets <==> n in s.sets
    ensures n in t.sets ==> t.sets[n] == s.sets[n]
    ensures n in s.queue ==> n in t.queue
  {
  }

  lemma OtherWrite(cfg: Images, s: State, t: State, name: string, outcome: Outcome, stored: StatefulSet, now: int, n: string)
    requires n in s.agents && n != name && Attended(cfg, s, n) && WriteEffect(s, t, name, stored, outcome, now)
    ensures n in t.agents && Attended(cfg, t, n)
  {
    EffectBeside(s, t, name, stored, outcome, now, n);
    AttendedFrame(cfg, s, t, n);
  }

  lemma OwnWrite(cfg: Images, s: State, name: string, outcome: Outcome, stored: StatefulSet, now: int)
    requires name in s.agents && Attended(cfg, s, name)
    ensures name in Written(cfg, s, name, outcome, stored, now).agents
    ensures Attended(cfg, Written(cfg, s, name, outcome, stored, now), name)
  {
    var t := Written(cfg, s, name, outcome, stored, now);
    if t != s && name !in t.queue {
      var secret :| RightFor(cfg, s, name, secret) && (Informed(s, name) ==> secret == ViewOf(s, name).secret);
      var held, found := s.busy[name].held, s.sets[name];
      assert t == s.(busy := s.busy[name := Decided(held, Judged(held, FromWorkload(name, held, found), now))]);
      assert secret;
      var v := ViewOf(t, name).(secret := true);
      assert v == View(held, true, Some(found));
      assert t.busy[name].status == Judged(v.r, Present(name, v), now);
      assert RightFor(cfg, t, name, true);
    }
  }

  lemma WrittenKeeps(cfg: Images, s: State, name: string, outcome: Outcome, stored: StatefulSet, now: int)
    requires Inv(cfg, s)
    ensures Inv(cfg, Written(cfg, s, name, outcome, stored, now))
  {
    var t := Written(cfg, s, name, outcome, stored, now);
    WrittenEffect(cfg, s, name, outcome, stored, now);
    forall n | n in t.agents ensures Attended(cfg, t, n) {
      if n == name {
        OwnWrite(cfg, s, name, outcome, stored, now);
      } else {
        OtherWrite(cfg, s, t, name, outcome, stored, now, n);
      }
    }
  }

  /** A patch step that leaves the Agent unqueued had nothing to say. */
  lemma PatchedSilently(s: State, n: string, outcome: Outcome)
    requires var t := Patched(s, n, outcome); t != s && n !in t.queue
    ensures n in s.busy && s.busy[n].Decided? && s.busy[n].status == s.busy[n].held.status
    ensures Patched(s, n, outcome) == s.(busy := s.busy - {n})
  {
  }

  lemma DecidedSettles(cfg: Images, n: string, v: View, p: Phase)
    requires InStep(cfg, n, v, p) && p.Decided? && p.status == p.held.status
    ensures Settled(cfg, n, v)
  {
    var now :| p.status == Judged(v.r, Present(n, v), now);
    KindsDiffer(n, v);
    JudgedFixpoint(v.r, Present(n, v), now);
  }

  lemma PatchedSettles(cfg: Images, s: State, n: string, outcome: Outcome)
    requires n in s.agents && n !in s.queue && Attended(cfg, s, n)
    requires var t := Patched(s, n, outcome); t != s && n in t.agents && n !in t.queue
    ensures Attended(cfg, Patched(s, n, outcome), n)
  {
    PatchedSilently(s, n, outcome);
    var secret :| RightFor(cfg, s, n, secret) && (Informed(s, n) ==> secret == ViewOf(s, n).secret);
    EndedSettles(cfg, s, n, secret);
  }

  lemma EndedSettles(cfg: Images, s: State, n: string, secret: bool)
    requires n in s.agents && n in s.busy && RightFor(cfg, s, n, secret)
    requires s.busy[n].Decided? && s.busy[n].status == s.busy[n].held.status
    requires Informed(s, n) ==> secret == ViewOf(s, n).secret
    ensures Attended(cfg, s.(busy := s.busy - {n}), n)
  {
    var t := s.(busy := s.busy - {n});
    DecidedSettles(cfg, n, ViewOf(s, n).(secret := secret), s.busy[n]);
    assert ViewOf(t, n) == ViewOf(s, n);
    assert RightFor(cfg, t, n, secret);
  }

  lemma PatchedBeside(cfg: Images, s: State, name: string, outcome: Outcome, n: string)
    requires n in s.agents && Attended(cfg, s, n) && (n != name || Patched(s, name, outcome) == s)
    ensures n in Patched(s, name, outcome).agents && Attended(cfg, Patched(s, name, outcome), n)
  {
    AttendedFrame(cfg, s, Patched(s, name, outcome), n);
  }

  lemma PatchedKeeps(cfg: Images, s: State, name: string, outcome: Outcome)
    requires Inv(cfg, s)
    ensures Inv(cfg, Patched(s, name, outcome))
  {
    var t := Patched(s, name, outcome);
    forall n | n in t.agents ensures Attended(cfg, t, n) {
      assert Attended(cfg, s, n);
      if n != name || t == s {
        PatchedBeside(cfg, s, name, outcome, n);
      } else if n !in t.queue {
        PatchedSettles(cfg, s, n, outcome);
      }
    }
  }

  lemma KindsDiffer(name: string, v: View)
    ensures Present(name, v).synced.kind == SYNCED && Present(name, v).available.kind == AVAILABLE
    ensures SYNCED != AVAILABLE
  {
    assert |SYNCED| == 6 && |AVAILABLE| == 9;
  }

  /** Where its moves go unseen the workload is not one a build left. */
  lemma UnownedIsUnsettled(cfg: Images, s: State, name: string, v: View)
    requires name in s.agents && v == ViewOf(s, name).(secret := v.secret)
    requires name in s.sets ==> !Controls(s.sets[name].owners, name)
    ensures v.secret ==> !WorkloadCurrent(cfg, name, v)
  {
    if name in s.sets { OwnedIsControlled(s.sets[name].owners, AgentOf(name, s.agents[name])); }
  }

  lemma SettledMove(cfg: Images, name: string, v: View, w: Option<StatefulSet>)
    requires Settled(cfg, name, v) && (v.secret ==> !WorkloadCurrent(cfg, name, v))
    ensures Settled(cfg, name, v.(w := w))
  {
  }

  lemma InStepMove(cfg: Images, name: string, v: View, w: Option<StatefulSet>, p: Phase)
    requires InStep(cfg, name, v, p) && (v.secret ==> !WorkloadCurrent(cfg, name, v))
    ensures InStep(cfg, name, v.(w := w), p)
  {
    if p.Decided? {
      var now :| p.status == Judged(v.r, Present(name, v), now);
      assert p.status == Judged(v.r, Present(name, v.(w := w)), now);
    }
  }

  /** A workload that moved without waking its Agent was not the Agent's, and nothing else moved. */
  lemma MovedUnseen(s: State, name: string, w: Option<StatefulSet>)
    requires var t := Around(s, WorkloadMoves(name, w)); t != s && name !in t.queue
    ensures var t := Around(s, WorkloadMoves(name, w));
      && t.agents == s.agents && t.secrets == s.secrets && t.busy == s.busy
      && t.pending == s.pending && t.dropped == s.dropped
    ensures name in s.sets ==> !Controls(s.sets[name].owners, name)
  {
  }

  lemma RightMove(cfg: Images, s: State, t: State, name: string, secret: bool)
    requires name in s.agents && RightFor(cfg, s, name, secret)
    requires t.agents == s.agents && t.secrets == s.secrets && t.busy == s.busy
    requires name in s.sets ==> !Controls(s.sets[name].owners, name)
    ensures RightFor(cfg, t, name, secret)
  {
    var v, u := ViewOf(s, name).(secret := secret), ViewOf(t, name).(secret := secret);
    UnownedIsUnsettled(cfg, s, name, v);
    assert u == v.(w := u.w);
    if name in s.busy { InStepMove(cfg, name, v, u.w, s.busy[name]); } else { SettledMove(cfg, name, v, u.w); }
  }

  lemma MoveAttended(cfg: Images, s: State, t: State, name: string)
    requires name in s.agents && name !in s.queue && Attended(cfg, s, name)
    requires t.agents == s.agents && t.secrets == s.secrets && t.busy == s.busy
    requires t.pending == s.pending && t.dropped == s.dropped
    requires name in s.sets ==> !Controls(s.sets[name].owners, name)
    ensures Attended(cfg, t, name)
  {
    var secret :| RightFor(cfg, s, name, secret) && (Informed(s, name) ==> secret == ViewOf(s, name).secret);
    RightMove(cfg, s, t, name, secret);
    assert Informed(t, name) ==> secret == ViewOf(t, name).secret;
  }

  /** A settled workload is owned by its Agent, so nothing happens to it unseen. */
  lemma WorkloadMovesKeeps(cfg: Images, s: State, name: string, w: Option<StatefulSet>)
    requires Inv(cfg, s)
    ensures Inv(cfg, Around(s, WorkloadMoves(name, w)))
  {
    var t := Around(s, WorkloadMoves(name, w));
    forall n | n in t.agents ensures Attended(cfg, t, n) {
      assert Attended(cfg, s, n);
      if n != name || t == s {
        AttendedFrame(cfg, s, t, n);
      } else if n !in t.queue {
        MovedUnseen(s, name, w);
        MoveAttended(cfg, s, t, name);
      }
    }
  }

  lemma AroundKeeps(cfg: Images, s: State, step: Step)
    requires Inv(cfg, s)
    ensures Inv(cfg, Around(s, step))
  {
    if step.WorkloadMoves? {
      WorkloadMovesKeeps(cfg, s, step.name, step.w);
    } else {
      var t := Around(s, step);
      forall n | n in t.agents ensures Attended(cfg, t, n) {
        if n in s.agents && n !in t.queue { AttendedFrame(cfg, s, t, n); }
      }
    }
  }

  lemma StepKeeps(cfg: Images, s: State, step: Step)
    requires Inv(cfg, s)
    ensures Inv(cfg, Next(cfg, s, step))
  {
    match step
    case Start(name, outcome) => StartedKeeps(cfg, s, name, outcome);
    case CheckSecret(name, outcome, now) => CheckedKeeps(cfg, s, name, outcome, now);
    case WriteWorkload(name, outcome, stored, now) => WrittenKeeps(cfg, s, name, outcome, stored, now);
    case PatchStatus(name, outcome) => PatchedKeeps(cfg, s, name, outcome);
    case _ => AroundKeeps(cfg, s, step);
  }

  lemma {:induction false} RunKeeps(cfg: Images, s: State, steps: seq<Step>)
    requires Inv(cfg, s)
    ensures Inv(cfg, Run(cfg, s, steps))
    decreases |steps|
  {
    if steps != [] {
      RunKeeps(cfg, s, steps[..|steps| - 1]);
      StepKeeps(cfg, Run(cfg, s, steps[..|steps| - 1]), steps[|steps| - 1]);
    }
  }

  /** The workload step either ends the reconcile, or has it judge by the workload the cluster then holds, or was answered
      with what the API server would not store. */
  lemma WriteJudges(cfg: Images, s: State, name: string, outcome: Outcome, stored: StatefulSet, now: int)
    requires name in s.busy && s.busy[name].Cleared?
    ensures
      var r, t := s.busy[name].held, Written(cfg, s, name, outcome, stored, now);
      && (name in t.busy || name in t.queue)
      && (name in t.busy && t.busy[name].Decided? ==>
            name in t.sets && t.busy[name] == Decided(r, Judged(r, FromWorkload(name, r, t.sets[name]), now)))
      && (name in t.busy && !t.busy[name].Decided? ==>
            !Refused(cfg, AgentOf(name, r), Found(s, name))
            && !Keeps(Render(cfg, AgentOf(name, r), Found(s, name)), stored))
  {
    var r, t := s.busy[name].held, Written(cfg, s, name, outcome, stored, now);
    if name in t.busy && t.busy[name].Decided? {
      assert || (t == Landed(s, name, r, Found(s, name), false, outcome, now) && name in s.sets)
             || t == Landed(s, name, r, stored, true, outcome, now);
    }
  }

  // --------------------------------------------------------------------- one quiet pass

  /** One reconcile of `name` with nothing failing and nothing moving meanwhile. */
  function Pass(cfg: Images, s: State, name: string, stored: StatefulSet, now: int): State {
    var looked := Started(s.(queue := s.queue + {name}), name, Done);
    Patched(Written(cfg, Checked(looked, name, Done, now), name, Done, stored, now), name, Done)
  }

  /** In the middle of that pass, with the queue as it then is. */
  function Amid(s: State, name: string, p: Phase, queue: set<string>): State {
    s.(queue := queue, busy := s.busy[name := p])
  }

  /** The read that begins a pass makes up for any event missed before it. */
  function Told(s: State, name: string): State { s.(dropped := s.dropped - {name}) }

  lemma PassForgets(cfg: Images, s: State, name: string, stored: StatefulSet, now: int)
    requires name in s.agents && name !in s.busy
    ensures Pass(cfg, s, name, stored, now) == Pass(cfg, Told(s, name), name, stored, now)
    ensures name !in Told(s, name).dropped && ViewOf(Told(s, name), name) == ViewOf(s, name)
  {
    var a, b := s.(queue := s.queue + {name}), Told(s, name).(queue := s.queue + {name});
    assert a.dropped - {name} == b.dropped - {name};
    assert Started(a, name, Done) == Started(b, name, Done);
  }

  lemma PassWithoutSecret(cfg: Images, s: State, name: string, stored: StatefulSet, now: int)
    requires name in s.agents && name !in s.busy && name !in s.dropped && !ViewOf(s, name).secret
    ensures var r := s.agents[name];
      Pass(cfg, s, name, stored, now)
      == Patched(Amid(s, name, Decided(r, Judged(r, SecretMissing(r), now)), s.queue - {name}), name, Done)
  {
    var looked := Started(s.(queue := s.queue + {name}), name, Done);
    assert s.dropped - {name} == s.dropped;
    assert looked == Amid(s, name, Looked(s.agents[name]), s.queue - {name});
    var r := s.agents[name];
    assert Checked(looked, name, Done, now)
      == Amid(s, name, Decided(r, Judged(r, SecretMissing(r), now)), s.queue - {name});
  }

  lemma PassWithSecret(cfg: Images, s: State, name: string, stored: StatefulSet, now: int)
    requires name in s.agents && name !in s.busy && name !in s.dropped && ViewOf(s, name).secret
    ensures Pass(cfg, s, name, stored, now) ==
      Patched(Written(cfg, Amid(s, name, Cleared(s.agents[name]), s.queue - {name}), name, Done, stored, now), name, Done)
  {
    var looked := Started(s.(queue := s.queue + {name}), name, Done);
    assert s.dropped - {name} == s.dropped;
    assert looked == Amid(s, name, Looked(s.agents[name]), s.queue - {name});
    assert Checked(looked, name, Done, now) == Amid(s, name, Cleared(s.agents[name]), s.queue - {name});
  }

  /** A decision that says what the status already says ends the pass; any other is written and wakes the Agent. */
  lemma PatchEnds(s: State, name: string, v: Verdict, now: int, queue: set<string>)
    requires name in s.agents && name !in s.busy && v.synced.kind != v.available.kind
    ensures var r := s.agents[name];
      var t := Patched(Amid(s, name, Decided(r, Judged(r, v, now)), queue), name, Done);
      if Carried(r, v) then t == s.(queue := queue)
      else t == s.(agents := s.agents[name := r.(status := Judged(r, v, now))], queue := queue + {name})
  {
    var r := s.agents[name];
    JudgedFixpoint(r, v, now);
    var p := Amid(s, name, Decided(r, Judged(r, v, now)), queue);
    assert p.busy - {name} == s.busy;
    assert Merged(r.status, Judged(r, v, now), r.status) == Judged(r, v, now);
  }

  lemma LandedAmid(s: State, name: string, r: Resource, w: StatefulSet, wrote: bool, now: int)
    requires name !in s.busy
    ensures Landed(Amid(s, name, Cleared(r), s.queue - {name}), name, r, w, wrote, Done, now)
         == Amid(if wrote then s.(sets := s.sets[name := w]) else s, name,
                 Decided(r, Judged(r, FromWorkload(name, r, w), now)),
                 if wrote then s.queue + {name} else s.queue - {name})
  {
    assert s.queue - {name} + {name} == s.queue + {name};
  }

  /** The workload step of a quiet pass. */
  lemma WriteEnds(cfg: Images, s: State, name: string, stored: StatefulSet, now: int)
    requires name in s.agents && name !in s.busy
    ensures
      var r, found := s.agents[name], Found(s, name);
      var p := Amid(s, name, Cleared(r), s.queue - {name});
      var t := Written(cfg, p, name, Done, stored, now);
      if Refused(cfg, AgentOf(name, r), found) then t == s.(queue := s.queue + {name})
      else if name in s.sets && Render(cfg, AgentOf(name, r), found) == found
      then t == Amid(s, name, Decided(r, Judged(r, FromWorkload(name, r, found), now)), s.queue - {name})
      else if Keeps(Render(cfg, AgentOf(name, r), found), stored)
      then t == Amid(s.(sets := s.sets[name := stored]), name,
                     Decided(r, Judged(r, FromWorkload(name, r, stored), now)), s.queue + {name})
      else t == p
  {
    var r, found := s.agents[name], Found(s, name);
    var p := Amid(s, name, Cleared(r), s.queue - {name});
    assert Found(p, name) == found && p.busy[name] == Cleared(r);
    assert Retry(p, name) == s.(queue := s.queue + {name}) by {
      assert p.queue + {name} == s.queue + {name};
      assert p.busy - {name} == s.busy;
    }
    LandedAmid(s, name, r, found, false, now);
    LandedAmid(s, name, r, stored, true, now);
  }

  /** A pass over the present cluster writes nothing, fails at nothing and leaves the Agent unqueued exactly when the
      Agent is settled. */
  lemma IdleIffSettled(cfg: Images, s: State, name: string, stored: StatefulSet, now: int)
    requires name in s.agents && name !in s.busy
    ensures Pass(cfg, s, name, stored, now) == Told(s, name).(queue := s.queue - {name})
            <==> Settled(cfg, name, ViewOf(s, name))
  {
    PassForgets(cfg, s, name, stored, now);
    ToldIdleIffSettled(cfg, Told(s, name), name, stored, now);
  }

  lemma ToldIdleIffSettled(cfg: Images, s: State, name: string, stored: StatefulSet, now: int)
    requires name in s.agents && name !in s.busy && name !in s.dropped
    ensures Pass(cfg, s, name, stored, now) == s.(queue := s.queue - {name}) <==> Settled(cfg, name, ViewOf(s, name))
  {
    var v, r := ViewOf(s, name), s.agents[name];
    KindsDiffer(name, v);
    var verdict := Present(name, v);
    if !v.secret {
      PassWithoutSecret(cfg, s, name, stored, now);
      PatchEnds(s, name, verdict, now, s.queue - {name});
    } else {
      PassWithSecret(cfg, s, name, stored, now);
      WriteEnds(cfg, s, name, stored, now);
      if WorkloadCurrent(cfg, name, v) {
        PatchEnds(s, name, verdict, now, s.queue - {name});
      } else {
        BusyPass(cfg, s, name, stored, now);
      }
    }
  }

  lemma BusyPass(cfg: Images, s: State, name: string, stored: StatefulSet, now: int)
    requires name in s.agents && name !in s.busy && name !in s.dropped && ViewOf(s, name).secret
    requires !WorkloadCurrent(cfg, name, ViewOf(s, name))
    ensures var t := Pass(cfg, s, name, stored, now); name in t.queue || name in t.busy
  {
    var r := s.agents[name];
    PassWithSecret(cfg, s, name, stored, now);
    WriteEnds(cfg, s, name, stored, now);
    if !Refused(cfg, AgentOf(name, r), Found(s, name)) && Keeps(Render(cfg, AgentOf(name, r), Found(s, name)), stored) {
      var u := s.(sets := s.sets[name := stored]);
      KindsDiffer(name, ViewOf(u, name));
      PatchEnds(u, name, FromWorkload(name, r, stored), now, s.queue + {name});
    }
  }

  /** The object the API server answers the write of this pass with, where the pass writes. */
  ghost predicate Answers(cfg: Images, s: State, name: string, stored: StatefulSet)
    requires name in s.agents
  {
    var agent, found := AgentOf(name, s.agents[name]), Found(s, name);
    && !Refused(cfg, agent, found)
    && (if name in s.sets && Render(cfg, agent, found) == found then stored == found
        else Keeps(Render(cfg, agent, found), stored))
  }

  /** One quiet pass settles an Agent, wherever the cluster stood before it. */
  lemma PassSettles(cfg: Images, s: State, name: string, stored: StatefulSet, now: int)
    requires name in s.agents && name !in s.busy
    requires ViewOf(s, name).secret ==> Answers(cfg, s, name, stored)
    ensures var t := Pass(cfg, s, name, stored, now);
      name in t.agents && name !in t.busy && Settled(cfg, name, ViewOf(t, name))
  {
    PassForgets(cfg, s, name, stored, now);
    var t := Told(s, name);
    if !ViewOf(s, name).secret {
      PassWithoutSecret(cfg, t, name, stored, now);
      PatchSettles(cfg, t, name, now, t.queue - {name});
    } else {
      assert Found(t, name) == Found(s, name);
      StoredPassSettles(cfg, t, name, stored, now);
    }
  }

  lemma JudgedSettles(cfg: Images, name: string, v: View, now: int)
    requires WorkloadCurrent(cfg, name, v)
    ensures Settled(cfg, name, v.(r := v.r.(status := Judged(v.r, Present(name, v), now))))
  {
    KindsDiffer(name, v);
    JudgedFixpoint(v.r, Present(name, v), now);
  }

  /** The end of a pass that has the workload in place. */
  lemma PatchSettles(cfg: Images, s: State, name: string, now: int, queue: set<string>)
    requires name in s.agents && name !in s.busy && WorkloadCurrent(cfg, name, ViewOf(s, name))
    ensures
      var r, v := s.agents[name], ViewOf(s, name);
      var t := Patched(Amid(s, name, Decided(r, Judged(r, Present(name, v), now)), queue), name, Done);
      name in t.agents && name !in t.busy && Settled(cfg, name, ViewOf(t, name))
  {
    var r, v := s.agents[name], ViewOf(s, name);
    KindsDiffer(name, v);
    PatchEnds(s, name, Present(name, v), now, queue);
    JudgedSettles(cfg, name, v, now);
    if !Carried(r, Present(name, v)) {
      var t := s.(agents := s.agents[name := r.(status := Judged(r, Present(name, v), now))], queue := queue + {name});
      assert ViewOf(t, name) == v.(r := r.(status := Judged(r, Present(name, v), now)));
    }
  }

  lemma StoredPassSettles(cfg: Images, s: State, name: string, stored: StatefulSet, now: int)
    requires name in s.agents && name !in s.busy && name !in s.dropped && ViewOf(s, name).secret
    requires Answers(cfg, s, name, stored)
    ensures var t := Pass(cfg, s, name, stored, now);
      name in t.agents && name !in t.busy && Settled(cfg, name, ViewOf(t, name))
  {
    var r, found := s.agents[name], Found(s, name);
    PassWithSecret(cfg, s, name, stored, now);
    WriteEnds(cfg, s, name, stored, now);
    if name in s.sets && Render(cfg, AgentOf(name, r), found) == found {
      PatchSettles(cfg, s, name, now, s.queue - {name});
    } else {
      var u := s.(sets := s.sets[name := stored]);
      StoredIsFixpoint(cfg, AgentOf(name, r), found, stored);
      assert ViewOf(u, name) == View(r, true, Some(stored));
      PatchSettles(cfg, u, name, now, s.queue + {name});
    }
  }

  /** So the pass after a quiet one writes nothing, whatever the clock then says. */
  lemma SecondPassWritesNothing(cfg: Images, s: State, name: string, stored: StatefulSet, now: int, later: int)
    requires name in s.agents && name !in s.busy
    requires ViewOf(s, name).secret ==> Answers(cfg, s, name, stored)
    ensures var t := Pass(cfg, s, name, stored, now);
      Pass(cfg, t, name, stored, later) == Told(t, name).(queue := t.queue - {name})
  {
    PassSettles(cfg, s, name, stored, now);
    IdleIffSettled(cfg, Pass(cfg, s, name, stored, now), name, stored, later);
  }

  // ------------------------------------------------------------------ no Agent is stuck

  /** The reconcile of `name` as four steps of a run. */
  function PassSteps(name: string, stored: StatefulSet, now: int): seq<Step> {
    [Start(name, Done), CheckSecret(name, Done, now), WriteWorkload(name, Done, stored, now), PatchStatus(name, Done)]
  }

  lemma {:induction false} RunAppends(cfg: Images, s: State, a: seq<Step>, b: seq<Step>)
    ensures Run(cfg, s, a + b) == Run(cfg, Run(cfg, s, a), b)
    decreases |b|
  {
    if b == [] {
      assert a + b == a;
    } else {
      assert (a + b)[..|a + b| - 1] == a + b[..|b| - 1];
      RunAppends(cfg, s, a, b[..|b| - 1]);
    }
  }

  lemma RunOne(cfg: Images, s: State, step: Step)
    ensures Run(cfg, s, [step]) == Next(cfg, s, step)
  {
    assert [step][..0] == [];
  }

  lemma PassIsRun(cfg: Images, s: State, name: string, stored: StatefulSet, now: int)
    requires name in s.queue
    ensures Run(cfg, s, PassSteps(name, stored, now)) == Pass(cfg, s, name, stored, now)
  {
    var steps := PassSteps(name, stored, now);
    var a := Started(s, name, Done);
    var b := Checked(a, name, Done, now);
    var c := Written(cfg, b, name, Done, stored, now);
    assert s.(queue := s.queue + {name}) == s by { assert s.queue + {name} == s.queue; }
    assert steps == [steps[0]] + [steps[1]] + [steps[2]] + [steps[3]];
    RunOne(cfg, s, steps[0]);
    RunOne(cfg, a, steps[1]);
    RunOne(cfg, b, steps[2]);
    RunOne(cfg, c, steps[3]);
    RunAppends(cfg, s, [steps[0]], [steps[1]]);
    RunAppends(cfg, s, [steps[0]] + [steps[1]], [steps[2]]);
    RunAppends(cfg, s, [steps[0]] + [steps[1]] + [steps[2]], [steps[3]]);
  }

  lemma AtRestSettled(cfg: Images, s: State, name: string)
    requires name in s.agents && Attended(cfg, s, name)
    requires name !in s.queue && name !in s.busy && Informed(s, name)
    ensures Settled(cfg, name, ViewOf(s, name))
  {
    assert ViewOf(s, name).(secret := ViewOf(s, name).secret) == ViewOf(s, name);
  }

  /** No Agent is stuck.  In every state any run of the reconciler and the cluster reaches, an Agent that is neither queued
      nor in progress, and that no event of its Secret is outstanding for or passed by since it was last read, carries
      the status a reconcile of the present cluster would write, and that reconcile would write nothing at all. */
  lemma NoStuckAgent(cfg: Images, steps: seq<Step>, name: string, stored: StatefulSet, now: int)
    requires var s := Run(cfg, START, steps);
      name in s.agents && name !in s.queue && name !in s.busy && Informed(s, name)
    ensures var s := Run(cfg, START, steps);
      Settled(cfg, name, ViewOf(s, name)) && Pass(cfg, s, name, stored, now) == s
  {
    var s := Run(cfg, START, steps);
    RunKeeps(cfg, START, steps);
    AtRestSettled(cfg, s, name);
    IdleIffSettled(cfg, s, name, stored, now);
    assert s.queue - {name} == s.queue && s.dropped - {name} == s.dropped;
  }

  /** The status says the Secret is missing. */
  predicate SaysMissing(st: AgentStatus) {
    var c := FindCondition(st.conditions, SYNCED);
    c.Some? && c.value.reason == "CredentialsSecretMissing"
  }

  lemma SettledSays(cfg: Images, name: string, v: View)
    requires Settled(cfg, name, v)
    ensures SaysMissing(v.r.status) <==> !v.secret
  {
    KindsDiffer(name, v);
    assert |"CredentialsSecretMissing"| == 24 && |"StorageSizeImmutable"| == 20 && |"WorkloadReconciled"| == 18;
  }

  /** Exactly when an Agent at rest is settled, told or not: its status must say that the Secret is missing just when it
      is.  So a missed event strands an Agent if and only if the Secret came or went for good, and what a person can
      read off the status and the Secret says whether it did. */
  lemma AtRestSettledIff(cfg: Images, steps: seq<Step>, name: string)
    requires var s := Run(cfg, START, steps); name in s.agents && name !in s.queue && name !in s.busy
    ensures var s := Run(cfg, START, steps);
      Settled(cfg, name, ViewOf(s, name)) <==> (SaysMissing(s.agents[name].status) <==> !ViewOf(s, name).secret)
  {
    var s := Run(cfg, START, steps);
    RunKeeps(cfg, START, steps);
    assert Attended(cfg, s, name);
    var secret :| RightFor(cfg, s, name, secret);
    var v := ViewOf(s, name);
    SettledSays(cfg, name, v.(secret := secret));
    if secret == v.secret {
      assert v.(secret := secret) == v;
    } else if Settled(cfg, name, v) {
      SettledSays(cfg, name, v);
    }
  }

  /** An Agent nobody will come back to: unqueued, with nothing in progress or outstanding, and not settled. */
  ghost predicate Stranded(cfg: Images, s: State, name: string) {
    && name in s.agents && name !in s.queue && name !in s.busy
    && s.agents[name].spec.credentialsSecretName !in s.pending
    && !Settled(cfg, name, ViewOf(s, name))
  }

  /** An Agent is stranded exactly when it is at rest, missed an event since it was last read, and its status is wrong
      about the Secret's being there. */
  lemma StrandedIff(cfg: Images, steps: seq<Step>, name: string)
    requires var s := Run(cfg, START, steps);
      && name in s.agents && name !in s.queue && name !in s.busy
      && s.agents[name].spec.credentialsSecretName !in s.pending
    ensures var s := Run(cfg, START, steps);
      Stranded(cfg, s, name) <==>
        name in s.dropped && (SaysMissing(s.agents[name].status) <==> ViewOf(s, name).secret)
  {
    var s := Run(cfg, START, steps);
    AtRestSettledIff(cfg, steps, name);
    if name !in s.dropped { NoStuckAgent(cfg, steps, name, NO_WORKLOAD, 0); }
  }

  /** Where the Agent's Secret does not exist yet and the Agent is at rest. */
  lemma WaitsForSecret(cfg: Images, name: string, spec: AgentSpec) returns (steps: seq<Step>)
    ensures var s := Run(cfg, START, steps);
      && name in s.agents && s.agents[name].spec == spec && s.queue == {} && s.busy == map[]
      && s.secrets == {} && s.sets == map[] && s.pending == {}
  {
    var s := Around(START, Create(name, spec));
    RunOne(cfg, START, Create(name, spec));
    var r := s.agents[name];
    PassWithoutSecret(cfg, s, name, NO_WORKLOAD, 0);
    KindsDiffer(name, ViewOf(s, name));
    PatchEnds(s, name, SecretMissing(r), 0, s.queue - {name});
    var t := Pass(cfg, s, name, NO_WORKLOAD, 0);
    SecondPassWritesNothing(cfg, s, name, NO_WORKLOAD, 0, 0);
    assert name in t.queue;
    var pass := PassSteps(name, NO_WORKLOAD, 0);
    PassIsRun(cfg, s, name, NO_WORKLOAD, 0);
    PassIsRun(cfg, t, name, NO_WORKLOAD, 0);
    RunAppends(cfg, START, [Create(name, spec)], pass);
    RunAppends(cfg, START, [Create(name, spec)] + pass, pass);
    steps := [Create(name, spec)] + pass + pass;
  }

  /** A step of the reconciler about one Agent. */
  ghost predicate Reconciles(step: Step, name: string) {
    || (step.Start? && step.name == name) || (step.CheckSecret? && step.name == name)
    || (step.WriteWorkload? && step.name == name) || (step.PatchStatus? && step.name == name)
  }

  /** And a dropped event does: the Secret arrives, the list its mapping starts with fails, and no step of the
      reconciler moves again, though the Secret is there and the workload is not built. */
  lemma DroppedWakeupStrands(cfg: Images, name: string, spec: AgentSpec) returns (steps: seq<Step>)
    ensures var s := Run(cfg, START, steps);
      && Stranded(cfg, s, name) && spec.credentialsSecretName in s.secrets && name !in s.sets
      && forall step :: Reconciles(step, name) ==> Next(cfg, s, step) == s
  {
    var x := spec.credentialsSecretName;
    var waiting := WaitsForSecret(cfg, name, spec);
    var w := Run(cfg, START, waiting);
    var arrived := Around(w, SecretAppears(x));
    RunOne(cfg, w, SecretAppears(x));
    RunOne(cfg, arrived, DropWakeup(x));
    RunAppends(cfg, START, waiting, [SecretAppears(x)]);
    RunAppends(cfg, START, waiting + [SecretAppears(x)], [DropWakeup(x)]);
    steps := waiting + [SecretAppears(x)] + [DropWakeup(x)];
    var s := Run(cfg, START, steps);
    assert s == w.(secrets := {x}, pending := {}, dropped := s.dropped);
    assert ViewOf(s, name).secret && ViewOf(s, name).w.None?;
  }
}
