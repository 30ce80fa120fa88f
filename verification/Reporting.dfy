/** The reconciler and the report protocol joined: what garam is told of an agent's pod was read by the reconciler off that
    agent's StatefulSet. */
module Reporting {
  import opened Prelude
  import Workload
  import Reconcile
  import Protocol
  import Custody
  import Provenance

  /** What one step of the reconciler amounts to in the protocol: a read of a StatefulSet, or conditions written. */
  ghost function Amounts(images: Workload.Images, s: Reconcile.State, step: Reconcile.Step): seq<Protocol.Step> {
    if step.WriteWorkload? then
      if Provenance.Reads(images, s, step, step.name, true) then [Protocol.Observe(step.name, true)]
      else if Provenance.Reads(images, s, step, step.name, false) then [Protocol.Observe(step.name, false)]
      else []
    else if step.PatchStatus? && Patches(s, step) then
      var st := Reconcile.Patched(s, step.name, step.outcome).agents[step.name].status;
      [Protocol.Conditions(step.name, st.conditions, st.observedGeneration)]
    else []
  }

  /** The status patch went through and changed the Agent. */
  ghost predicate Patches(s: Reconcile.State, step: Reconcile.Step)
    requires step.PatchStatus?
  {
    var t := Reconcile.Patched(s, step.name, step.outcome);
    step.name in s.agents && step.name in t.agents && t.agents[step.name] != s.agents[step.name]
  }

  /** What a run of the reconciler amounts to. */
  ghost function Amount(images: Workload.Images, steps: seq<Reconcile.Step>): seq<Protocol.Step>
    decreases |steps|
  {
    if steps == [] then []
    else
      var front := steps[..|steps| - 1];
      Amount(images, front) + Amounts(images, Reconcile.Run(images, Reconcile.START, front), steps[|steps| - 1])
  }

  /** The reconciler's part in a run of the protocol. */
  function Part(steps: seq<Protocol.Step>): seq<Protocol.Step>
    decreases |steps|
  {
    if steps == [] then []
    else
      var last := steps[|steps| - 1];
      Part(steps[..|steps| - 1]) + (if last.Observe? || last.Conditions? then [last] else [])
  }

  lemma {:induction false} PartHas(steps: seq<Protocol.Step>, step: Protocol.Step)
    requires step.Observe? || step.Conditions?
    ensures step in steps <==> step in Part(steps)
    decreases |steps|
  {
    if steps != [] { PartHas(steps[..|steps| - 1], step); }
  }

  lemma {:induction false} PartGrows(steps: seq<Protocol.Step>, i: nat)
    requires i < |steps|
    ensures Part(steps[..i]) <= Part(steps)
    ensures steps[i].Observe? || steps[i].Conditions? ==>
      |Part(steps[..i])| < |Part(steps)| && Part(steps)[|Part(steps[..i])|] == steps[i]
    decreases |steps|
  {
    var front := steps[..|steps| - 1];
    if i < |front| {
      PartGrows(front, i);
      assert front[..i] == steps[..i];
    } else {
      assert steps[..i] == front;
    }
  }

  /** The step of the reconciler behind one element of what its run amounts to. */
  lemma {:induction false} AmountAt(images: Workload.Images, steps: seq<Reconcile.Step>, m: nat) returns (k: nat)
    requires m < |Amount(images, steps)|
    ensures k < |steps| && Amount(images, steps[..k]) == Amount(images, steps)[..m]
    ensures Amounts(images, Reconcile.Run(images, Reconcile.START, steps[..k]), steps[k]) == [Amount(images, steps)[m]]
    decreases |steps|
  {
    k := |steps| - 1;
    var front := steps[..k];
    if m < |Amount(images, front)| {
      k := AmountAt(images, front, m);
      assert front[..k] == steps[..k];
    }
  }

  /** What the reconciles of a run read, the run amounts to reading. */
  lemma {:induction false} SeenAmounts(images: Workload.Images, steps: seq<Reconcile.Step>, name: string, ready: bool)
    requires (name, ready) in Provenance.Seen(images, steps)
    ensures Protocol.Observe(name, ready) in Amount(images, steps)
    decreases |steps|
  {
    if (name, ready) in Provenance.Seen(images, steps[..|steps| - 1]) {
      SeenAmounts(images, steps[..|steps| - 1], name, ready);
    }
  }

  lemma {:induction false} ObservedIsSeen(cfg: Protocol.Config, steps: seq<Protocol.Step>, name: string, ready: bool)
    requires Protocol.Observe(name, ready) in steps
    ensures (name, ready) in Protocol.Run(cfg, Protocol.START, steps).history.seen
    decreases |steps|
  {
    var front, last := steps[..|steps| - 1], steps[|steps| - 1];
    Custody.OnlyObserveAdds(cfg, Protocol.Run(cfg, Protocol.START, front), last);
    if last != Protocol.Observe(name, ready) { ObservedIsSeen(cfg, front, name, ready); }
  }

  /** Where a report comes from.  In every run of the protocol in which the reconciler's part is what a run of the
      reconciler amounts to, so far as it has come, whatever garam holds from this operator is "ready" or "provisioned",
      and was decided at a step of that run that wrote or found the agent's own StatefulSet with just that readiness. */
  lemma ReportedStateWasRead(cfg: Protocol.Config, images: Workload.Images, steps: seq<Protocol.Step>,
                             reconciles: seq<Reconcile.Step>, g: Protocol.Grn) returns (k: nat)
    requires cfg.Injective() && Part(steps) <= Amount(images, reconciles)
    requires var s := Protocol.Run(cfg, Protocol.START, steps);
      g in s.garam && s.garam[g].latch.from == Some(cfg.me)
    ensures k < |reconciles|
    ensures var st := Protocol.Run(cfg, Protocol.START, steps).garam[g].latch.state;
      && (st.Ready? || st.Provisioned?)
      && Provenance.Reads(images, Reconcile.Run(images, Reconcile.START, reconciles[..k]), reconciles[k],
                          cfg.Name(g), st.Ready?)
  {
    var st := Protocol.Run(cfg, Protocol.START, steps).garam[g].latch.state;
    Custody.ReportedStateIsObserved(cfg, steps, g);
    var step := Protocol.Observe(cfg.Name(g), st.Ready?);
    PartHas(steps, step);
    var m :| 0 <= m < |Part(steps)| && Part(steps)[m] == step;
    k := AmountAt(images, reconciles, m);
  }

  /** And the protocol never has to turn the reconciler's conditions away: in every such run the guard on them holds. */
  lemma ConditionsAreTaken(cfg: Protocol.Config, images: Workload.Images, steps: seq<Protocol.Step>,
                           reconciles: seq<Reconcile.Step>, i: nat)
    requires Part(steps) <= Amount(images, reconciles) && i < |steps| && steps[i].Conditions?
    ensures Protocol.Justified(Protocol.Run(cfg, Protocol.START, steps[..i]).history.seen, steps[i].name, steps[i].conditions)
  {
    PartGrows(steps, i);
    var m := |Part(steps[..i])|;
    var k := AmountAt(images, reconciles, m);
    assert Amount(images, reconciles[..k]) == Part(steps[..i]);
    PatchIsHonest(images, reconciles[..k], reconciles[k]);
    var seen := Protocol.Run(cfg, Protocol.START, steps[..i]).history.seen;
    forall n, r | (n, r) in Provenance.Seen(images, reconciles[..k]) ensures (n, r) in seen {
      SeenAmounts(images, reconciles[..k], n, r);
      PartHas(steps[..i], Protocol.Observe(n, r));
      ObservedIsSeen(cfg, steps[..i], n, r);
    }
  }

  lemma PatchIsHonest(images: Workload.Images, front: seq<Reconcile.Step>, step: Reconcile.Step)
    requires step.PatchStatus? && Patches(Reconcile.Run(images, Reconcile.START, front), step)
    ensures var s := Reconcile.Run(images, Reconcile.START, front);
      Protocol.Justified(Provenance.Seen(images, front), step.name,
                         Reconcile.Patched(s, step.name, step.outcome).agents[step.name].status.conditions)
  {
    Provenance.RunIsHonest(images, front);
    Provenance.PatchedIsHonest(Reconcile.Run(images, Reconcile.START, front), step.name, step.outcome,
                               Provenance.Seen(images, front));
  }
}
