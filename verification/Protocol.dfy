/**
 The claim / construct / report protocol as a state machine.

 The state holds garam's side (assignments, the certificate route, the report latch), the
 cluster's side (Agents and credential Secrets) and what the poller and the reporter hold in
 memory between two calls.  One step is one call of one of them, one step of the outside world,
 or a crash; so a run is an arbitrary interleaving, with any call failing and the process dying
 between any two calls.
 */
module Protocol {
  import opened Prelude
  import opened Api

  type Grn = string

  /** What the operator is configured with.  `digest` is the hex text of the first eight bytes of
      SHA-256, and `play` the agents garam ever defines for this operator. */
  datatype Config = Config(
    me: string,
    image: string,
    storageSize: Quantity,
    digest: Grn -> string,
    play: set<Grn>)
  {
    function Name(g: Grn): string { "agent-" + digest(g) }

    function SecretName(g: Grn): string { Name(g) + "-credentials" }

    /** The digest keeps 64 bits, so it is assumed injective on the agents in play and nowhere else. */
    predicate Injective() {
      forall a, b :: a in play && b in play && digest(a) == digest(b) ==> a == b
    }

    /** A name one of this operator's constructions may write to. */
    predicate Reserved(name: string) { exists g :: g in play && Name(g) == name }
  }

  // ------------------------------------------------------------------ garam

  datatype ProvisioningState = Pending | Provisioned | Ready | FailedState

  /** The last report garam holds, and the operator it came from. */
  datatype Latch = Latch(state: ProvisioningState, from: Option<string>)

  /** One definition naming this operator, with the assignment of the agent it minted.
      `claimCalls` and `certificateCalls` count the calls this operator made about it. */
  datatype Entry = Entry(
    pins: map<string, string>,
    claimed: bool,
    holder: string,
    epoch: int,
    latch: Latch,
    issued: nat,
    claimCalls: nat,
    certificateCalls: nat)

  /** A certificate and the only copy of its key.  garam issues each serial once. */
  datatype Credential = Credential(agent: Grn, serial: nat)

  datatype Definition = Definition(agent: Grn, pins: map<string, string>, claim: Option<int>)

  // ---------------------------------------------------------------- cluster

  datatype AgentObject = AgentObject(uid: nat, spec: AgentSpec, status: AgentStatus)

  datatype SecretObject = SecretObject(owner: nat, credential: Credential)

  /** `writes` counts the objects written; an unchanged count means no object was touched. */
  datatype Cluster = Cluster(
    agents: map<string, AgentObject>,
    secrets: map<string, SecretObject>,
    nextUid: nat,
    writes: nat)

  // ------------------------------------------------------- operator's memory

  datatype Poller =
    | Idle
    | Working(todo: seq<Definition>)
    | Correcting(d: Definition, epoch: int, todo: seq<Definition>)
    | Patching(d: Definition, epoch: int, todo: seq<Definition>)
    | Checking(d: Definition, epoch: int, todo: seq<Definition>)
    | Asking(d: Definition, epoch: int, todo: seq<Definition>)
    | Creating(d: Definition, epoch: int, credential: Credential, todo: seq<Definition>)
    | Adopting(d: Definition, epoch: int, credential: Credential, todo: seq<Definition>)
    | Recording(d: Definition, epoch: int, credential: Credential, held: AgentObject, todo: seq<Definition>)
    | Placing(d: Definition, epoch: int, credential: Credential, held: AgentObject, todo: seq<Definition>)

  datatype Readiness = Unobserved | NoReplica | ReplicaReady

  datatype Observation = Observation(agent: Grn, epoch: int, readiness: Readiness)

  datatype Reporter = Resting | Sending(todo: seq<Observation>)

  /** What happened, kept only to state properties: `placed` and `lost` count credentials per agent,
      `seen` holds what reconciles read of a StatefulSet, `accepted` the reports garam took, `renamed` the Agents a
      user made to name another Secret, `edited` those there whose image or pins a user edited, and `declared` the
      pins garam ever declared for an agent. */
  datatype History = History(
    placed: multiset<Grn>,
    lost: multiset<Grn>,
    seen: set<(string, bool)>,
    accepted: seq<(Grn, int)>,
    renamed: set<string>,
    edited: set<string>,
    declared: set<(Grn, map<string, string>)>)

  datatype State = State(
    garam: map<Grn, Entry>,
    cluster: Cluster,
    poller: Poller,
    reporter: Reporter,
    history: History)

  const NO_STATUS := AgentStatus([], 0, "", 0)

  const START := State(map[], Cluster(map[], map[], 0, 0), Idle, Resting,
                             History(multiset{}, multiset{}, {}, [], {}, {}, {}))

  // ----------------------------------------------------------- poller's steps

  /** What ListDefinitions answers.  A claim carries the assignment's epoch whoever holds it. */
  function Listed(garam: map<Grn, Entry>, order: seq<Grn>): (r: seq<Definition>)
    requires forall g :: g in order ==> g in garam
    ensures |r| == |order|
    ensures forall i :: 0 <= i < |r| ==>
      r[i] == Definition(order[i], garam[order[i]].pins,
                         if garam[order[i]].claimed then Some(garam[order[i]].epoch) else None)
  {
    seq(|order|, i requires 0 <= i < |order| =>
      Definition(order[i], garam[order[i]].pins,
                 if garam[order[i]].claimed then Some(garam[order[i]].epoch) else None))
  }

  function List(s: State, outcome: Outcome, order: seq<Grn>): State {
    if outcome.Done? && Enumerates(order, s.garam.Keys)
    then s.(poller := Working(Listed(s.garam, order)))
    else s
  }

  /** The certificate in hand is dropped, and nothing holds its key any more. */
  function Drop(s: State, g: Grn, todo: seq<Definition>): State {
    s.(poller := Working(todo), history := s.history.(lost := s.history.lost + multiset{g}))
  }

  /** The claim call.  A definition is claimed once, so a second claim is a conflict. */
  function Claim(cfg: Config, s: State, d: Definition, rest: seq<Definition>, outcome: Outcome): State {
    if d.agent !in s.garam then s.(poller := Working(rest))
    else
      var e := s.garam[d.agent];
      var called := e.(claimCalls := e.claimCalls + 1);
      if outcome.Effective() && !e.claimed then
        var taken := called.(claimed := true, holder := cfg.me, epoch := e.epoch + 1);
        s.(garam := s.garam[d.agent := taken],
           poller := if outcome.Done? then Correcting(d, taken.epoch, rest) else Working(rest))
      else
        s.(garam := s.garam[d.agent := called], poller := Working(rest))
  }

  /** Begin the next definition, claiming it where garam reported no claim on it. */
  function Begin(cfg: Config, s: State, outcome: Outcome): State
    requires s.poller.Working? && s.poller.todo != []
  {
    var d, rest := s.poller.todo[0], s.poller.todo[1..];
    if d.claim.Some? then s.(poller := Correcting(d, d.claim.value, rest))
    else Claim(cfg, s, d, rest, outcome)
  }

  /** CorrectImage's read: patch only an Agent recorded for this very agent and carrying another image. */
  function Correct(cfg: Config, s: State, outcome: Outcome): State
    requires s.poller.Correcting?
  {
    var p := s.poller;
    var name := cfg.Name(p.d.agent);
    if outcome.Done? && name in s.cluster.agents
       && s.cluster.agents[name].status.agent == p.d.agent
       && s.cluster.agents[name].spec.image != cfg.image
    then s.(poller := Patching(p.d, p.epoch, p.todo))
    else s.(poller := Checking(p.d, p.epoch, p.todo))
  }

  function WriteAgent(c: Cluster, name: string, a: AgentObject): Cluster {
    c.(agents := c.agents[name := a], writes := c.writes + 1)
  }

  function PatchImage(cfg: Config, s: State, outcome: Outcome): State
    requires s.poller.Patching?
  {
    var p := s.poller;
    var name := cfg.Name(p.d.agent);
    var next := s.(poller := Checking(p.d, p.epoch, p.todo));
    if outcome.Effective() && name in s.cluster.agents then
      var a := s.cluster.agents[name];
      next.(cluster := WriteAgent(s.cluster, name, a.(spec := a.spec.(image := cfg.image))))
    else next
  }

  function Check(cfg: Config, s: State, outcome: Outcome): State
    requires s.poller.Checking?
  {
    var p := s.poller;
    if outcome.Done? && cfg.SecretName(p.d.agent) !in s.cluster.secrets
    then s.(poller := Asking(p.d, p.epoch, p.todo))
    else s.(poller := Working(p.todo))
  }

  predicate HeldBy(cfg: Config, garam: map<Grn, Entry>, g: Grn) {
    g in garam && garam[g].claimed && garam[g].holder == cfg.me
  }

  /** IssueAgentCertificate: garam answers for an agent this operator holds now, and for no other. */
  function Ask(cfg: Config, s: State, outcome: Outcome): State
    requires s.poller.Asking?
  {
    var p := s.poller;
    var g := p.d.agent;
    if g !in s.garam then s.(poller := Working(p.todo))
    else
      var e := s.garam[g];
      var called := e.(certificateCalls := e.certificateCalls + 1);
      if outcome.Effective() && HeldBy(cfg, s.garam, g) then
        var issued := s.(garam := s.garam[g := called.(issued := e.issued + 1)]);
        if outcome.Done?
        then issued.(poller := Creating(p.d, p.epoch, Credential(g, e.issued), p.todo))
        else Drop(issued, g, p.todo)
      else s.(garam := s.garam[g := called], poller := Working(p.todo))
  }

  /** The spec a construction writes: the operator's configuration and the definition's pins. */
  function ConstructedSpec(cfg: Config, d: Definition): AgentSpec {
    AgentSpec(cfg.image, cfg.SecretName(d.agent), cfg.storageSize, None, map[], d.pins)
  }

  function Create(cfg: Config, s: State, outcome: Outcome): State
    requires s.poller.Creating?
  {
    var p := s.poller;
    var name := cfg.Name(p.d.agent);
    if name in s.cluster.agents then
      if outcome.Done? then s.(poller := Adopting(p.d, p.epoch, p.credential, p.todo))
      else Drop(s, p.d.agent, p.todo)
    else if outcome.Failed? then Drop(s, p.d.agent, p.todo)
    else
      var a := AgentObject(s.cluster.nextUid, ConstructedSpec(cfg, p.d), NO_STATUS);
      var created := s.(cluster := WriteAgent(s.cluster, name, a).(nextUid := s.cluster.nextUid + 1));
      if outcome.Done?
      then created.(poller := Recording(p.d, p.epoch, p.credential, a, p.todo))
      else Drop(created, p.d.agent, p.todo)
  }

  function Adopt(cfg: Config, s: State, outcome: Outcome): State
    requires s.poller.Adopting?
  {
    var p := s.poller;
    var name := cfg.Name(p.d.agent);
    if outcome.Done? && name in s.cluster.agents
    then s.(poller := Recording(p.d, p.epoch, p.credential, s.cluster.agents[name], p.todo))
    else Drop(s, p.d.agent, p.todo)
  }

  function Recorded(a: AgentObject, g: Grn, epoch: int): AgentObject {
    a.(status := a.status.(agent := g, epoch := epoch))
  }

  /** The status patch naming the GRN and the epoch.  It carries no resource version, so it lands on
      whatever object now has the name, which is what the answer holds; the CRD refuses an epoch below 1 and
      an empty GRN. */
  function Record(cfg: Config, s: State, outcome: Outcome): State
    requires s.poller.Recording?
  {
    var p := s.poller;
    var g, name := p.d.agent, cfg.Name(p.d.agent);
    if p.held.status.agent == g && p.held.status.epoch == p.epoch
    then s.(poller := Placing(p.d, p.epoch, p.credential, p.held, p.todo))
    else if outcome.Failed? || name !in s.cluster.agents || p.epoch < 1 || g == ""
    then Drop(s, g, p.todo)
    else
      var written := s.(cluster := WriteAgent(s.cluster, name, Recorded(s.cluster.agents[name], g, p.epoch)));
      if outcome.Done?
      then written.(poller := Placing(p.d, p.epoch, p.credential, written.cluster.agents[name], p.todo))
      else Drop(written, g, p.todo)
  }

  /** placeCredential: a create, which an existing Secret of that name refuses without an error. */
  function Place(cfg: Config, s: State, outcome: Outcome): State
    requires s.poller.Placing?
  {
    var p := s.poller;
    var name := p.held.spec.credentialsSecretName;
    if outcome.Failed? || name in s.cluster.secrets then Drop(s, p.d.agent, p.todo)
    else
      s.(cluster := s.cluster.(secrets := s.cluster.secrets[name := SecretObject(p.held.uid, p.credential)],
                               writes := s.cluster.writes + 1),
         poller := Working(p.todo),
         history := s.history.(placed := s.history.placed + multiset{p.d.agent}))
  }

  function Polled(cfg: Config, s: State, outcome: Outcome, order: seq<Grn>): State {
    match s.poller
    case Idle => List(s, outcome, order)
    case Working(todo) => if todo == [] then s.(poller := Idle) else Begin(cfg, s, outcome)
    case Correcting(_, _, _) => Correct(cfg, s, outcome)
    case Patching(_, _, _) => PatchImage(cfg, s, outcome)
    case Checking(_, _, _) => Check(cfg, s, outcome)
    case Asking(_, _, _) => Ask(cfg, s, outcome)
    case Creating(_, _, _, _) => Create(cfg, s, outcome)
    case Adopting(_, _, _, _) => Adopt(cfg, s, outcome)
    case Recording(_, _, _, _, _) => Record(cfg, s, outcome)
    case Placing(_, _, _, _, _) => Place(cfg, s, outcome)
  }

  // --------------------------------------------------------- reporter's steps

  function ReadinessOf(a: AgentObject): Readiness {
    match FindCondition(a.status.conditions, AVAILABLE)
    case None => Unobserved
    case Some(c) =>
      match c.status
      case IsTrue => ReplicaReady
      case IsFalse => NoReplica
      case IsUnknown => Unobserved
  }

  /** The observation made of one Agent that carries a whole record. */
  predicate Describes(o: Observation, a: AgentObject) {
    o == Observation(a.status.agent, a.status.epoch, ReadinessOf(a)) && o.agent != "" && o.epoch != 0
  }

  /** Agents carrying no GRN or no epoch are left out. */
  function Observed(agents: map<string, AgentObject>, items: seq<string>): (r: seq<Observation>)
    requires forall n :: n in items ==> n in agents
    ensures forall o :: o in r ==> exists n :: n in items && Describes(o, agents[n])
    ensures forall n :: n in items && agents[n].status.agent != "" && agents[n].status.epoch != 0 ==>
      Observation(agents[n].status.agent, agents[n].status.epoch, ReadinessOf(agents[n])) in r
  {
    if items == [] then []
    else
      var a := agents[items[0]];
      var rest := Observed(agents, items[1..]);
      if a.status.agent == "" || a.status.epoch == 0 then rest
      else [Observation(a.status.agent, a.status.epoch, ReadinessOf(a))] + rest
  }

  /** The state a readiness is reported as, and nothing where nothing was observed. */
  function StateOf(r: Readiness): (st: Option<ProvisioningState>)
    ensures st.Some? ==> st.value.Ready? || st.value.Provisioned?
    ensures (st == Some(Ready) <==> r.ReplicaReady?) && (st == Some(Provisioned) <==> r.NoReplica?)
  {
    match r
    case ReplicaReady => Some(Ready)
    case NoReplica => Some(Provisioned)
    case Unobserved => None
  }

  /** garam takes a report from the current holder at the current epoch, and no other. */
  predicate Accepts(cfg: Config, garam: map<Grn, Entry>, g: Grn, epoch: int) {
    HeldBy(cfg, garam, g) && garam[g].epoch == epoch
  }

  /** One report: skipped where nothing was observed, recorded where garam takes it. */
  function Sent(cfg: Config, garam: map<Grn, Entry>, o: Observation, outcome: Outcome): map<Grn, Entry> {
    if StateOf(o.readiness).Some? && outcome.Effective() && Accepts(cfg, garam, o.agent, o.epoch)
    then garam[o.agent := garam[o.agent].(latch := Latch(StateOf(o.readiness).value, Some(cfg.me)))]
    else garam
  }

  function Reported(cfg: Config, s: State, outcome: Outcome, items: seq<string>): State {
    match s.reporter
    case Resting =>
      if outcome.Done? && Enumerates(items, s.cluster.agents.Keys)
      then s.(reporter := Sending(Observed(s.cluster.agents, items)))
      else s
    case Sending(todo) =>
      if todo == [] then s.(reporter := Resting)
      else
        var o := todo[0];
        var taken := StateOf(o.readiness).Some? && outcome.Effective() && Accepts(cfg, s.garam, o.agent, o.epoch);
        s.(garam := Sent(cfg, s.garam, o, outcome),
           reporter := Sending(todo[1..]),
           history := if taken then s.history.(accepted := s.history.accepted + [(o.agent, o.epoch)]) else s.history)
  }

  // ------------------------------------------------------ crash and environment

  function InHand(p: Poller): multiset<Grn> {
    if p.Creating? || p.Adopting? || p.Recording? || p.Placing? then multiset{p.d.agent} else multiset{}
  }

  function Crashed(s: State): State {
    s.(poller := Idle, reporter := Resting,
       history := s.history.(lost := s.history.lost + InHand(s.poller)))
  }

  datatype Step =
    | Poll(outcome: Outcome, order: seq<Grn>)
    | Report(outcome: Outcome, items: seq<string>)
    | Crash
    // garam
    | Define(g: Grn, pins: map<string, string>)
    | Redefine(g: Grn, pins: map<string, string>)
    | Reassign(g: Grn, to: string)
    | ForeignReport(g: Grn, state: ProvisioningState)
    // the cluster
    | UserCreates(name: string, spec: AgentSpec)
    | UserEdits(name: string, image: string, pins: map<string, string>)
    | UserRenames(name: string, secret: string)
    | UserDeletes(name: string)
    | SecretGoes(name: string)
    // the reconciler: reading a StatefulSet, and later writing what it saw
    | Observe(name: string, ready: bool)
    | Conditions(name: string, conditions: seq<Condition>, generation: int)

  /** An Available condition of True or False was decided from a StatefulSet somebody read.  Provenance proves of every run
      of the reconciler that the conditions it writes are of this kind. */
  predicate Justified(seen: set<(string, bool)>, name: string, conditions: seq<Condition>) {
    match FindCondition(conditions, AVAILABLE)
    case None => true
    case Some(c) =>
      && (c.status.IsTrue? ==> (name, true) in seen)
      && (c.status.IsFalse? ==> (name, false) in seen)
  }

  /** Steps of the outside world.  A step whose guard does not hold changes nothing.  Users write no
      Agent at a reserved name and no status; the reconciler writes conditions and no record. */
  function Outside(cfg: Config, s: State, step: Step): State {
    var c := s.cluster;
    match step
    case Define(g, pins) =>
      if g in cfg.play && g != "" && g !in s.garam
      then s.(garam := s.garam[g := Entry(pins, false, "", 0, Latch(Pending, None), 0, 0, 0)],
              history := s.history.(declared := s.history.declared + {(g, pins)}))
      else s
    case Redefine(g, pins) =>
      if g in s.garam
      then s.(garam := s.garam[g := s.garam[g].(pins := pins)],
              history := s.history.(declared := s.history.declared + {(g, pins)}))
      else s
    case Reassign(g, to) =>
      if g in s.garam && s.garam[g].claimed
      then s.(garam := s.garam[g := s.garam[g].(holder := to, epoch := s.garam[g].epoch + 1)])
      else s
    case ForeignReport(g, st) =>
      if g in s.garam && s.garam[g].claimed && s.garam[g].holder != cfg.me
      then s.(garam := s.garam[g := s.garam[g].(latch := Latch(st, Some(s.garam[g].holder)))])
      else s
    case UserCreates(name, spec) =>
      if name !in c.agents && !cfg.Reserved(name)
      then s.(cluster := WriteAgent(c, name, AgentObject(c.nextUid, spec, NO_STATUS)).(nextUid := c.nextUid + 1))
      else s
    case UserEdits(name, image, pins) =>
      if name in c.agents
      then s.(cluster := WriteAgent(c, name,
                c.agents[name].(spec := c.agents[name].spec.(image := image, pins := pins))),
              history := s.history.(edited := s.history.edited + {name}))
      else s
    case UserRenames(name, secret) =>
      if name in c.agents
      then s.(cluster := WriteAgent(c, name,
                c.agents[name].(spec := c.agents[name].spec.(credentialsSecretName := secret))),
              history := s.history.(renamed := s.history.renamed + {name}))
      else s
    case UserDeletes(name) =>
      s.(cluster := c.(agents := c.agents - {name}, writes := c.writes + 1),
         history := s.history.(edited := s.history.edited - {name}))
    case SecretGoes(name) =>
      s.(cluster := c.(secrets := c.secrets - {name}, writes := c.writes + 1))
    case Observe(name, ready) =>
      s.(history := s.history.(seen := s.history.seen + {(name, ready)}))
    case Conditions(name, conditions, generation) =>
      if name in c.agents && Justified(s.history.seen, name, conditions)
      then s.(cluster := WriteAgent(c, name, c.agents[name].(
              status := c.agents[name].status.(conditions := conditions, observedGeneration := generation))))
      else s
    case Poll(_, _) => s
    case Report(_, _) => s
    case Crash => s
  }

  function Next(cfg: Config, s: State, step: Step): State {
    match step
    case Poll(outcome, order) => Polled(cfg, s, outcome, order)
    case Report(outcome, items) => Reported(cfg, s, outcome, items)
    case Crash => Crashed(s)
    case _ => Outside(cfg, s, step)
  }

  function Run(cfg: Config, s: State, steps: seq<Step>): State
    decreases |steps|
  {
    if steps == [] then s
    else Next(cfg, Run(cfg, s, steps[..|steps| - 1]), steps[|steps| - 1])
  }
}
