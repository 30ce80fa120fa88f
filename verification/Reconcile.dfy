/**
 The level-triggered reconcile: a work queue, the watches that fill it, and a reconcile split into its read, its look
 for the Secret, its workload write and its status patch, with the rest of the cluster moving between any two of them.
 */
module Reconcile {
  import opened Prelude
  import opened Api
  import opened Workload
  import opened Rendering
  import opened Status

  /** An Agent as the API server holds it. */
  datatype Resource = Resource(uid: nat, generation: int, spec: AgentSpec, status: AgentStatus)

  function AgentOf(name: string, r: Resource): Agent { Agent(name, r.uid, r.generation, r.spec) }

  // ------------------------------------------------------------------ the verdict

  /** The two conditions a reconcile decides. */
  datatype Verdict = Verdict(synced: Condition, available: Condition)

  function Say(kind: string, status: ConditionStatus, reason: string, message: string, generation: int): Condition {
    Condition(kind, status, reason, message, generation, 0)
  }

  /** The Secret does not exist: no workload was read, so its readiness is unknown rather than false. */
  function SecretMissing(r: Resource): Verdict {
    Verdict(Say(SYNCED, IsFalse, "CredentialsSecretMissing", r.spec.credentialsSecretName, r.generation),
            Say(AVAILABLE, IsUnknown, "WorkloadNotObserved", "", r.generation))
  }

  /** The workload as the cluster now holds it. */
  function FromWorkload(name: string, r: Resource, w: StatefulSet): Verdict {
    var claimed := ClaimedSize(w.claims);
    Verdict(
      if claimed.value != r.spec.storageSize.value
      then Say(SYNCED, IsFalse, "StorageSizeImmutable", claimed.notation + "/" + r.spec.storageSize.notation, r.generation)
      else Say(SYNCED, IsTrue, "WorkloadReconciled", name, r.generation),
      if w.readyReplicas > 0
      then Say(AVAILABLE, IsTrue, "ReplicaReady", name, r.generation)
      else Say(AVAILABLE, IsFalse, "ReplicaNotReady", name, r.generation))
  }

  /** The status with a verdict recorded on it at time `now`. */
  function Judged(r: Resource, v: Verdict, now: int): AgentStatus {
    r.status.(conditions := SetCondition(SetCondition(r.status.conditions, v.synced, now), v.available, now),
              observedGeneration := r.generation)
  }

  /** The status already carries the verdict. */
  ghost predicate Carried(r: Resource, v: Verdict) {
    && Reports(r.status.conditions, v.synced) && Reports(r.status.conditions, v.available)
    && r.status.observedGeneration == r.generation
  }

  lemma JudgedFixpoint(r: Resource, v: Verdict, now: int)
    requires v.synced.kind != v.available.kind
    ensures Judged(r, v, now) == r.status <==> Carried(r, v)
    ensures Carried(r.(status := Judged(r, v, now)), v)
  {
    var cs := r.status.conditions;
    var one := SetCondition(cs, v.synced, now);
    SetReports(cs, v.synced, now);
    SetReports(one, v.available, now);
    SetFixpoint(cs, v.synced, now);
    SetFixpoint(cs, v.available, now);
  }

  // ----------------------------------------------------------------------- state

  datatype Phase =
    | Looked(held: Resource)
    | Cleared(held: Resource)
    | Decided(held: Resource, status: AgentStatus)

  /** `pending` holds Secret events not yet mapped to Agents, `dropped` the Agents that missed one because the mapping
      failed at its list, and were not read since. */
  datatype State = State(
    agents: map<string, Resource>,
    secrets: set<string>,
    sets: map<string, StatefulSet>,
    queue: set<string>,
    busy: map<string, Phase>,
    pending: set<string>,
    dropped: set<string>,
    nextUid: nat)

  const START := State(map[], {}, map[], {}, map[], {}, {}, 0)

  const NO_WORKLOAD := StatefulSet(false, map[], None, map[], [], None, None, [], [], [], [], 0, map[])

  function Found(s: State, name: string): StatefulSet {
    if name in s.sets then s.sets[name] else NO_WORKLOAD
  }

  /** An error: the reconcile ends and its key goes back to the queue. */
  function Retry(s: State, name: string): State {
    s.(busy := s.busy - {name}, queue := s.queue + {name})
  }

  datatype Step =
    // the reconcile of one Agent
    | Start(name: string, outcome: Outcome)
    | CheckSecret(name: string, outcome: Outcome, now: int)
    | WriteWorkload(name: string, outcome: Outcome, stored: StatefulSet, now: int)
    | PatchStatus(name: string, outcome: Outcome)
    | Restart
    // Agents
    | Create(name: string, spec: AgentSpec)
    | Edit(name: string, spec: AgentSpec)
    | Delete(name: string)
    | Record(name: string, agent: string, epoch: int)
    // Secrets, and the watch on them
    | SecretAppears(name: string)
    | SecretGoes(name: string)
    | Deliver(name: string)
    | DropWakeup(name: string)
    // workloads, whose claim templates the API server keeps as they were created
    | WorkloadMoves(name: string, w: Option<StatefulSet>)

  // ------------------------------------------------------------------ the reconcile

  function Started(s: State, name: string, outcome: Outcome): State {
    if name !in s.queue || name in s.busy || !outcome.Done? then s
    else if name !in s.agents then s.(queue := s.queue - {name})
    else s.(queue := s.queue - {name}, dropped := s.dropped - {name}, busy := s.busy[name := Looked(s.agents[name])])
  }

  function Checked(s: State, name: string, outcome: Outcome, now: int): State {
    if name !in s.busy || !s.busy[name].Looked? then s
    else if !outcome.Done? then Retry(s, name)
    else
      var held := s.busy[name].held;
      s.(busy := s.busy[name :=
        if held.spec.credentialsSecretName in s.secrets then Cleared(held)
        else Decided(held, Judged(held, SecretMissing(held), now))])
  }

  /** The workload came back as `w`, and the reconcile judges by it. */
  function Landed(s: State, name: string, held: Resource, w: StatefulSet, wrote: bool, outcome: Outcome, now: int): State {
    var t := if wrote then s.(sets := s.sets[name := w], queue := s.queue + {name}) else s;
    if outcome.Done?
    then t.(busy := s.busy[name := Decided(held, Judged(held, FromWorkload(name, held, w), now))])
    else Retry(t, name)
  }

  /** CreateOrUpdate: written only where building changes the object, and what comes back is what is stored. */
  function Written(cfg: Images, s: State, name: string, outcome: Outcome, stored: StatefulSet, now: int): State {
    if name !in s.busy || !s.busy[name].Cleared? then s
    else
      var held, found := s.busy[name].held, Found(s, name);
      var agent := AgentOf(name, held);
      var built := Render(cfg, agent, found);
      if outcome.Failed? || Refused(cfg, agent, found) then Retry(s, name)
      else if name in s.sets && built == found then Landed(s, name, held, found, false, outcome, now)
      else if Keeps(built, stored) then Landed(s, name, held, stored, true, outcome, now)
      else s
  }

  function Patched(s: State, name: string, outcome: Outcome): State {
    if name !in s.busy || !s.busy[name].Decided? then s
    else
      var held, decided := s.busy[name].held.status, s.busy[name].status;
      var ended := s.(busy := s.busy - {name});
      if decided == held then ended
      else if outcome.Failed? || name !in s.agents then Retry(s, name)
      else
        var r := s.agents[name].(status := Merged(held, decided, s.agents[name].status));
        ended.(agents := s.agents[name := r], queue := s.queue + {name})
  }

  // ------------------------------------------------------------------ the rest

  /** agentsNamingSecret: the Agents whose spec names the Secret. */
  function Naming(agents: map<string, Resource>, secret: string): set<string> {
    set n | n in agents && agents[n].spec.credentialsSecretName == secret
  }

  function Around(s: State, step: Step): State {
    match step
    case Create(name, spec) =>
      if name in s.agents then s
      else s.(agents := s.agents[name := Resource(s.nextUid, 1, spec, AgentStatus([], 0, "", 0))],
              nextUid := s.nextUid + 1, queue := s.queue + {name})
    case Edit(name, spec) =>
      if name !in s.agents || s.agents[name].spec == spec then s
      else s.(agents := s.agents[name := s.agents[name].(spec := spec, generation := s.agents[name].generation + 1)],
              queue := s.queue + {name})
    case Delete(name) => s.(agents := s.agents - {name}, queue := s.queue + {name})
    case Record(name, agent, epoch) =>
      if name !in s.agents then s
      else s.(agents := s.agents[name := s.agents[name].(status := s.agents[name].status.(agent := agent, epoch := epoch))],
              queue := s.queue + {name})
    case SecretAppears(name) => s.(secrets := s.secrets + {name}, pending := s.pending + {name})
    case SecretGoes(name) => s.(secrets := s.secrets - {name}, pending := s.pending + {name})
    case Deliver(name) =>
      s.(pending := s.pending - {name}, queue := s.queue + Naming(s.agents, name))
    case DropWakeup(name) => s.(pending := s.pending - {name}, dropped := s.dropped + Naming(s.agents, name))
    case WorkloadMoves(name, w) =>
      if w.Some? && !(w.value.created && (name in s.sets ==> w.value.claims == s.sets[name].claims)) then s else
      var wakes := (name in s.sets && Controls(s.sets[name].owners, name)) || (w.Some? && Controls(w.value.owners, name));
      s.(sets := if w.Some? then s.sets[name := w.value] else s.sets - {name},
         queue := if wakes then s.queue + {name} else s.queue)
    case Restart => s.(busy := map[], pending := {}, dropped := {}, queue := s.queue + s.agents.Keys)
    case _ => s
  }

  function Next(cfg: Images, s: State, step: Step): State {
    match step
    case Start(name, outcome) => Started(s, name, outcome)
    case CheckSecret(name, outcome, now) => Checked(s, name, outcome, now)
    case WriteWorkload(name, outcome, stored, now) => Written(cfg, s, name, outcome, stored, now)
    case PatchStatus(name, outcome) => Patched(s, name, outcome)
    case _ => Around(s, step)
  }

  function Run(cfg: Images, s: State, steps: seq<Step>): State
    decreases |steps|
  {
    if steps == [] then s else Next(cfg, Run(cfg, s, steps[..|steps| - 1]), steps[|steps| - 1])
  }

  // ---------------------------------------------------------------- the invariant

  /** Everything a reconcile of one Agent reads. */
  datatype View = View(r: Resource, secret: bool, w: Option<StatefulSet>)

  function ViewOf(s: State, name: string): View
    requires name in s.agents
  {
    var r := s.agents[name];
    View(r, r.spec.credentialsSecretName in s.secrets, if name in s.sets then Some(s.sets[name]) else None)
  }

  /** The workload is what building it again would leave. */
  ghost predicate WorkloadCurrent(cfg: Images, name: string, v: View) {
    v.secret ==>
      && v.w.Some? && !Refused(cfg, AgentOf(name, v.r), v.w.value)
      && Render(cfg, AgentOf(name, v.r), v.w.value) == v.w.value
  }

  function Present(name: string, v: View): Verdict {
    if v.secret && v.w.Some? then FromWorkload(name, v.r, v.w.value) else SecretMissing(v.r)
  }

  /** A reconcile of the present cluster would write nothing. */
  ghost predicate Settled(cfg: Images, name: string, v: View) {
    WorkloadCurrent(cfg, name, v) && Carried(v.r, Present(name, v))
  }

  /** What a reconcile in progress holds is still true. */
  ghost predicate InStep(cfg: Images, name: string, v: View, p: Phase) {
    && p.held == v.r
    && (p.Cleared? ==> v.secret)
    && (p.Decided? ==> WorkloadCurrent(cfg, name, v) && exists now :: p.status == Judged(v.r, Present(name, v), now))
  }

  /** No event of the Agent's Secret is outstanding or was missed since the Agent was last read. */
  predicate Informed(s: State, name: string)
    requires name in s.agents
  {
    s.agents[name].spec.credentialsSecretName !in s.pending && name !in s.dropped
  }

  /** What is in progress or was written is right of a cluster in which the Secret was there or not, as `secret` says. */
  ghost predicate RightFor(cfg: Images, s: State, name: string, secret: bool)
    requires name in s.agents
  {
    var v := ViewOf(s, name).(secret := secret);
    if name in s.busy then InStep(cfg, name, v, s.busy[name]) else Settled(cfg, name, v)
  }

  /** The Agent is queued, or what was done about it is right but for an event of its Secret it has not been told of. */
  ghost predicate Attended(cfg: Images, s: State, name: string)
    requires name in s.agents
  {
    || name in s.queue
    || (exists secret :: RightFor(cfg, s, name, secret) && (Informed(s, name) ==> secret == ViewOf(s, name).secret))
  }

  ghost predicate Inv(cfg: Images, s: State) {
    forall name :: name in s.agents ==> Attended(cfg, s, name)
  }
}
