/** The invariant of the protocol, and the proof that every step keeps it. */
module Safety {
  import opened Prelude
  import opened Api
  import opened Protocol

  // ---------------------------------------------------------------- invariant

  ghost predicate EntryOk(cfg: Config, g: Grn, e: Entry) {
    && g in cfg.play && g != "" && 0 <= e.epoch
    && (e.claimed ==> 1 <= e.epoch)
    && (e.issued > 0 ==> e.claimed)
  }

  ghost predicate GaramOk(cfg: Config, garam: map<Grn, Entry>) {
    forall g :: g in garam ==> EntryOk(cfg, g, garam[g])
  }

  /** An epoch some part of the operator remembers for `g`: real, and never ahead of garam's. */
  ghost predicate Behind(garam: map<Grn, Entry>, g: Grn, epoch: int) {
    g in garam && 1 <= epoch <= garam[g].epoch && garam[g].claimed
  }

  /** Nobody but a construction writes a record, and only at the digest name of its agent. */
  ghost predicate AgentOk(cfg: Config, garam: map<Grn, Entry>, nextUid: nat, name: string, a: AgentObject) {
    && a.uid < nextUid
    && (a.status.agent == "" ==> a.status.epoch == 0)
    && (a.status.agent != "" ==> name == cfg.Name(a.status.agent) && Behind(garam, a.status.agent, a.status.epoch))
  }

  ghost predicate AgentsOk(cfg: Config, garam: map<Grn, Entry>, c: Cluster) {
    forall n :: n in c.agents ==> AgentOk(cfg, garam, c.nextUid, n, c.agents[n])
  }

  /** The Agent a Secret is owned by still exists. */
  ghost predicate OwnerStands(cfg: Config, agents: map<string, AgentObject>, secret: SecretObject) {
    var name := cfg.Name(secret.credential.agent);
    name in agents && agents[name].uid == secret.owner
  }

  ghost predicate SecretOk(cfg: Config, garam: map<Grn, Entry>, c: Cluster, name: string, secret: SecretObject) {
    var g := secret.credential.agent;
    && g in garam
    && secret.credential.serial < garam[g].issued
    && secret.owner < c.nextUid
    && (OwnerStands(cfg, c.agents, secret) ==> c.agents[cfg.Name(g)].status.agent == g)
  }

  ghost predicate SecretsOk(cfg: Config, garam: map<Grn, Entry>, c: Cluster) {
    forall n :: n in c.secrets ==> SecretOk(cfg, garam, c, n, c.secrets[n])
  }

  /** Past the look for a credential, and not yet done with the agent. */
  predicate Constructing(p: Poller) {
    p.Asking? || p.Creating? || p.Adopting? || p.Recording? || p.Placing?
  }

  ghost predicate DefinitionOk(garam: map<Grn, Entry>, d: Definition) {
    d.agent in garam && (d.claim.Some? ==> Behind(garam, d.agent, d.claim.value))
  }

  /** The epoch and the certificate the poller holds in memory. */
  ghost predicate JobOk(garam: map<Grn, Entry>, p: Poller) {
    p.Idle? ||
    (&& (forall d :: d in p.todo ==> DefinitionOk(garam, d))
     && (!p.Working? ==> Behind(garam, p.d.agent, p.epoch))
     && (InHand(p) != multiset{} ==>
           p.credential.agent == p.d.agent && p.credential.serial < garam[p.d.agent].issued))
  }

  /** What the poller holds of an Agent is what the cluster holds, unless the Agent is gone. */
  ghost predicate HeldOk(cfg: Config, c: Cluster, g: Grn, held: AgentObject) {
    && held.uid < c.nextUid
    && (cfg.Name(g) in c.agents ==>
          var a := c.agents[cfg.Name(g)];
          a.uid == held.uid && a.status.agent == held.status.agent && a.status.epoch == held.status.epoch)
  }

  /** While an agent is being constructed it has no Secret. */
  ghost predicate WorkOk(cfg: Config, c: Cluster, p: Poller) {
    Constructing(p) ==>
      && cfg.SecretName(p.d.agent) !in c.secrets
      && (p.Recording? || p.Placing? ==> HeldOk(cfg, c, p.d.agent, p.held))
      && (p.Placing? ==> p.held.status.agent == p.d.agent && p.held.status.epoch == p.epoch)
  }

  /** An Agent at a digest name names its own Secret, and a credential sits under the name of its own agent, unless a
      user made the Agent name another. */
  ghost predicate NamesOk(cfg: Config, c: Cluster, p: Poller, renamed: set<string>) {
    && (forall g :: g in cfg.play && cfg.Name(g) in c.agents && cfg.Name(g) !in renamed ==>
          c.agents[cfg.Name(g)].spec.credentialsSecretName == cfg.SecretName(g))
    && (forall n :: n in c.secrets ==> SecretNamed(cfg, n, c.secrets[n], renamed))
    && (p.Recording? || p.Placing? ==> HeldNamed(cfg, p.d.agent, p.held, renamed))
  }

  ghost predicate SecretNamed(cfg: Config, name: string, secret: SecretObject, renamed: set<string>) {
    cfg.Name(secret.credential.agent) !in renamed ==> name == cfg.SecretName(secret.credential.agent)
  }

  ghost predicate HeldNamed(cfg: Config, g: Grn, held: AgentObject, renamed: set<string>) {
    cfg.Name(g) !in renamed ==> held.spec.credentialsSecretName == cfg.SecretName(g)
  }

  /** A state reported for `g` was seen by a reconcile that read the StatefulSet of `g`. */
  ghost predicate Backed(cfg: Config, seen: set<(string, bool)>, g: Grn, st: Option<ProvisioningState>) {
    st.Some? ==>
      && (st.value.Ready? || st.value.Provisioned?)
      && (cfg.Name(g), st.value.Ready?) in seen
  }

  ghost predicate ObservationOk(cfg: Config, garam: map<Grn, Entry>, seen: set<(string, bool)>, o: Observation) {
    Behind(garam, o.agent, o.epoch) && Backed(cfg, seen, o.agent, StateOf(o.readiness))
  }

  ghost predicate ReporterOk(cfg: Config, garam: map<Grn, Entry>, seen: set<(string, bool)>, r: Reporter) {
    r.Sending? ==> forall o :: o in r.todo ==> ObservationOk(cfg, garam, seen, o)
  }

  ghost predicate ConditionsOk(agents: map<string, AgentObject>, seen: set<(string, bool)>) {
    forall n :: n in agents ==> Justified(seen, n, agents[n].status.conditions)
  }

  ghost predicate LatchOk(cfg: Config, seen: set<(string, bool)>, g: Grn, l: Latch) {
    l.from == Some(cfg.me) ==> Backed(cfg, seen, g, Some(l.state))
  }

  ghost predicate LatchesOk(cfg: Config, garam: map<Grn, Entry>, seen: set<(string, bool)>) {
    forall g :: g in garam ==> LatchOk(cfg, seen, g, garam[g].latch)
  }

  /** Every certificate issued for `g` is placed, lost, or in the poller's hand. */
  ghost predicate Accounted(garam: map<Grn, Entry>, h: History, hand: multiset<Grn>, g: Grn) {
    (if g in garam then garam[g].issued else 0) == h.placed[g] + h.lost[g] + hand[g]
  }

  ghost predicate KeysOk(garam: map<Grn, Entry>, h: History, hand: multiset<Grn>) {
    forall g :: Accounted(garam, h, hand, g)
  }

  ghost predicate Inv(cfg: Config, s: State) {
    && GaramOk(cfg, s.garam)
    && AgentsOk(cfg, s.garam, s.cluster)
    && SecretsOk(cfg, s.garam, s.cluster)
    && JobOk(s.garam, s.poller)
    && WorkOk(cfg, s.cluster, s.poller)
    && ReporterOk(cfg, s.garam, s.history.seen, s.reporter)
    && ConditionsOk(s.cluster.agents, s.history.seen)
    && LatchesOk(cfg, s.garam, s.history.seen)
    && KeysOk(s.garam, s.history, InHand(s.poller))
    && NamesOk(cfg, s.cluster, s.poller, s.history.renamed)
  }

  // -------------------------------------------------------------------- names

  lemma NamesDiffer(cfg: Config, a: Grn, b: Grn)
    requires cfg.Injective() && a in cfg.play && b in cfg.play && a != b
    ensures cfg.Name(a) != cfg.Name(b)
    ensures cfg.SecretName(a) != cfg.SecretName(b)
  {
    assert cfg.digest(a) == cfg.Name(a)[6..] && cfg.digest(b) == cfg.Name(b)[6..];
    var suffix := "-credentials";
    assert cfg.Name(a) == cfg.SecretName(a)[..|cfg.SecretName(a)| - |suffix|];
    assert cfg.Name(b) == cfg.SecretName(b)[..|cfg.SecretName(b)| - |suffix|];
  }

  // ---------------------------------------------------------- garam moves forward

  /** garam's side only ever moves this way: assignments and issuance rise, claims stand. */
  ghost predicate Advances(a: Entry, b: Entry) {
    a.epoch <= b.epoch && a.issued <= b.issued && (a.claimed ==> b.claimed)
  }

  ghost predicate Grows(a: map<Grn, Entry>, b: map<Grn, Entry>) {
    forall g :: g in a ==> g in b && Advances(a[g], b[g])
  }

  lemma AgentsGrow(cfg: Config, a: map<Grn, Entry>, b: map<Grn, Entry>, c: Cluster)
    requires AgentsOk(cfg, a, c) && Grows(a, b)
    ensures AgentsOk(cfg, b, c)
  {
  }

  lemma SecretsGrow(cfg: Config, a: map<Grn, Entry>, b: map<Grn, Entry>, c: Cluster)
    requires SecretsOk(cfg, a, c) && Grows(a, b)
    ensures SecretsOk(cfg, b, c)
  {
  }

  lemma JobGrows(a: map<Grn, Entry>, b: map<Grn, Entry>, p: Poller)
    requires JobOk(a, p) && Grows(a, b)
    ensures JobOk(b, p)
  {
  }

  lemma ReporterGrows(cfg: Config, a: map<Grn, Entry>, b: map<Grn, Entry>, seen: set<(string, bool)>, r: Reporter)
    requires ReporterOk(cfg, a, seen, r) && Grows(a, b)
    ensures ReporterOk(cfg, b, seen, r)
  {
  }

  /** What the invariant does not speak of in the history. */
  ghost predicate SameLedger(a: History, b: History) {
    a.placed == b.placed && a.lost == b.lost && a.seen == b.seen && a.renamed == b.renamed
  }

  lemma HistoryMoves(cfg: Config, s: State, h: History)
    requires Inv(cfg, s) && SameLedger(s.history, h)
    ensures Inv(cfg, s.(history := h))
  {
    forall g ensures Accounted(s.garam, h, InHand(s.poller), g) {
      assert Accounted(s.garam, s.history, InHand(s.poller), g);
    }
  }

  /** What the operator remembers stays behind garam while garam grows. */
  lemma GaramMoves(cfg: Config, s: State, t: State)
    requires Inv(cfg, s) && Grows(s.garam, t.garam)
    requires t == s.(garam := t.garam, history := t.history) && t.history.seen == s.history.seen
    requires t.history.renamed == s.history.renamed
    requires GaramOk(cfg, t.garam) && LatchesOk(cfg, t.garam, t.history.seen)
    requires KeysOk(t.garam, t.history, InHand(t.poller))
    ensures Inv(cfg, t)
  {
    AgentsGrow(cfg, s.garam, t.garam, s.cluster);
    SecretsGrow(cfg, s.garam, t.garam, s.cluster);
    JobGrows(s.garam, t.garam, s.poller);
    ReporterGrows(cfg, s.garam, t.garam, s.history.seen, s.reporter);
  }

  /** One entry moves with no certificate issued. */
  lemma EntryMoves(cfg: Config, s: State, g: Grn, e: Entry, h: History)
    requires Inv(cfg, s) && g in s.garam && Advances(s.garam[g], e) && s.garam[g].issued == e.issued
    requires EntryOk(cfg, g, e) && LatchOk(cfg, s.history.seen, g, e.latch)
    requires h == s.history.(accepted := h.accepted)
    ensures Inv(cfg, s.(garam := s.garam[g := e], history := h))
  {
    var garam := s.garam[g := e];
    assert GaramOk(cfg, garam);
    assert LatchesOk(cfg, garam, h.seen);
    forall k ensures Accounted(garam, h, InHand(s.poller), k) {
      assert Accounted(s.garam, s.history, InHand(s.poller), k);
    }
    GaramMoves(cfg, s, s.(garam := garam, history := h));
  }

  // -------------------------------------------------------------- poller's steps

  /** Only the poller's own position changes, and no certificate changes hands. */
  lemma PollerMoves(cfg: Config, s: State, p: Poller)
    requires Inv(cfg, s) && InHand(p) == InHand(s.poller) && JobOk(s.garam, p) && WorkOk(cfg, s.cluster, p)
    requires p.Recording? || p.Placing? ==> HeldNamed(cfg, p.d.agent, p.held, s.history.renamed)
    ensures Inv(cfg, s.(poller := p))
  {
  }

  lemma ListKeeps(cfg: Config, s: State, outcome: Outcome, order: seq<Grn>)
    requires Inv(cfg, s) && s.poller.Idle?
    ensures Inv(cfg, List(s, outcome, order))
  {
    if outcome.Done? && Enumerates(order, s.garam.Keys) {
      var p := Working(Listed(s.garam, order));
      assert JobOk(s.garam, p) by {
        forall d | d in p.todo ensures DefinitionOk(s.garam, d) {
          var i :| 0 <= i < |p.todo| && p.todo[i] == d;
          assert EntryOk(cfg, order[i], s.garam[order[i]]);
        }
      }
      PollerMoves(cfg, s, p);
    }
  }

  lemma ClaimTakes(cfg: Config, s: State, d: Definition)
    requires Inv(cfg, s) && s.poller.Working? && d.agent in s.garam && !s.garam[d.agent].claimed
    ensures Inv(cfg, Claim(cfg, s, d, s.poller.todo, Done)) && Inv(cfg, Claim(cfg, s, d, s.poller.todo, Vanished))
  {
    var g, rest, e := d.agent, s.poller.todo, s.garam[d.agent];
    assert EntryOk(cfg, g, e);
    assert LatchOk(cfg, s.history.seen, g, e.latch);
    var taken := e.(claimCalls := e.claimCalls + 1, claimed := true, holder := cfg.me, epoch := e.epoch + 1);
    EntryMoves(cfg, s, g, taken, s.history);
    var t := s.(garam := s.garam[g := taken]);
    TakenKeeps(cfg, t, d);
    assert Claim(cfg, s, d, rest, Done) == t.(poller := Correcting(d, taken.epoch, rest));
    assert Claim(cfg, s, d, rest, Vanished) == t;
  }

  lemma ClaimKeeps(cfg: Config, s: State, d: Definition, outcome: Outcome)
    requires Inv(cfg, s) && s.poller.Working? && d.agent in s.garam
    ensures Inv(cfg, Claim(cfg, s, d, s.poller.todo, outcome))
  {
    var g, e := d.agent, s.garam[d.agent];
    if outcome.Effective() && !e.claimed {
      ClaimTakes(cfg, s, d);
    } else {
      assert EntryOk(cfg, g, e);
      assert LatchOk(cfg, s.history.seen, g, e.latch);
      EntryMoves(cfg, s, g, e.(claimCalls := e.claimCalls + 1), s.history);
    }
  }

  lemma TakenKeeps(cfg: Config, s: State, d: Definition)
    requires Inv(cfg, s) && s.poller.Working? && d.agent in s.garam && s.garam[d.agent].claimed
    ensures Inv(cfg, s.(poller := Correcting(d, s.garam[d.agent].epoch, s.poller.todo)))
  {
    assert EntryOk(cfg, d.agent, s.garam[d.agent]);
    PollerMoves(cfg, s, Correcting(d, s.garam[d.agent].epoch, s.poller.todo));
  }

  lemma JobRest(garam: map<Grn, Entry>, todo: seq<Definition>)
    requires JobOk(garam, Working(todo)) && todo != []
    ensures DefinitionOk(garam, todo[0])
    ensures JobOk(garam, Working(todo[1..]))
  {
  }

  lemma BeginKeeps(cfg: Config, s: State, outcome: Outcome)
    requires Inv(cfg, s) && s.poller.Working? && s.poller.todo != []
    ensures Inv(cfg, Begin(cfg, s, outcome))
  {
    var d, rest := s.poller.todo[0], s.poller.todo[1..];
    JobRest(s.garam, s.poller.todo);
    var t := s.(poller := Working(rest));
    PollerMoves(cfg, s, Working(rest));
    if d.claim.Some? {
      PollerMoves(cfg, t, Correcting(d, d.claim.value, rest));
      assert Begin(cfg, s, outcome) == t.(poller := Correcting(d, d.claim.value, rest));
    } else {
      ClaimKeeps(cfg, t, d, outcome);
      assert Begin(cfg, s, outcome) == Claim(cfg, t, d, rest, outcome);
    }
  }

  lemma CorrectKeeps(cfg: Config, s: State, outcome: Outcome)
    requires Inv(cfg, s) && s.poller.Correcting?
    ensures Inv(cfg, Correct(cfg, s, outcome))
  {
    PollerMoves(cfg, s, Correct(cfg, s, outcome).poller);
  }

  /** One Agent is rewritten with its identity, its record and its Secret's name unchanged. */
  ghost predicate SameRecord(a: AgentObject, b: AgentObject) {
    && SameClaim(a, b)
    && a.spec.credentialsSecretName == b.spec.credentialsSecretName
  }

  /** The same object with the same record. */
  ghost predicate SameClaim(a: AgentObject, b: AgentObject) {
    a.uid == b.uid && a.status.agent == b.status.agent && a.status.epoch == b.status.epoch
  }

  lemma AgentMoves(cfg: Config, s: State, name: string, a: AgentObject)
    requires Inv(cfg, s) && name in s.cluster.agents && SameRecord(s.cluster.agents[name], a)
    requires Justified(s.history.seen, name, a.status.conditions)
    ensures Inv(cfg, s.(cluster := WriteAgent(s.cluster, name, a)))
  {
    var c := WriteAgent(s.cluster, name, a);
    assert AgentOk(cfg, s.garam, c.nextUid, name, s.cluster.agents[name]);
    assert AgentsOk(cfg, s.garam, c);
    assert SecretsOk(cfg, s.garam, c) by {
      forall n | n in c.secrets ensures SecretOk(cfg, s.garam, c, n, c.secrets[n]) {
        assert SecretOk(cfg, s.garam, s.cluster, n, s.cluster.secrets[n]);
      }
    }
    assert WorkOk(cfg, c, s.poller);
  }

  lemma PatchImageKeeps(cfg: Config, s: State, outcome: Outcome)
    requires Inv(cfg, s) && s.poller.Patching?
    ensures Inv(cfg, PatchImage(cfg, s, outcome))
  {
    var p, name := s.poller, cfg.Name(s.poller.d.agent);
    PollerMoves(cfg, s, Checking(p.d, p.epoch, p.todo));
    if name in s.cluster.agents {
      var a := s.cluster.agents[name];
      AgentMoves(cfg, s.(poller := Checking(p.d, p.epoch, p.todo)), name, a.(spec := a.spec.(image := cfg.image)));
    }
  }

  lemma CheckKeeps(cfg: Config, s: State, outcome: Outcome)
    requires Inv(cfg, s) && s.poller.Checking?
    ensures Inv(cfg, Check(cfg, s, outcome))
  {
    PollerMoves(cfg, s, Check(cfg, s, outcome).poller);
  }

  /** The poller drops the certificate it holds, or never received. */
  lemma DropKeeps(cfg: Config, s: State)
    requires Inv(cfg, s) && InHand(s.poller) != multiset{}
    ensures Inv(cfg, Drop(s, s.poller.d.agent, s.poller.todo))
  {
    var t := Drop(s, s.poller.d.agent, s.poller.todo);
    forall g ensures Accounted(t.garam, t.history, multiset{}, g) {
      assert Accounted(s.garam, s.history, InHand(s.poller), g);
    }
  }

  lemma IssueKeeps(cfg: Config, s: State)
    requires Inv(cfg, s) && s.poller.Asking? && HeldBy(cfg, s.garam, s.poller.d.agent)
    ensures Inv(cfg, Ask(cfg, s, Done))
  {
    var p, g := s.poller, s.poller.d.agent;
    var e := s.garam[g];
    assert EntryOk(cfg, g, e) && LatchOk(cfg, s.history.seen, g, e.latch);
    var t := Ask(cfg, s, Done);
    assert Grows(s.garam, t.garam);
    assert GaramOk(cfg, t.garam);
    assert LatchesOk(cfg, t.garam, t.history.seen);
    AgentsGrow(cfg, s.garam, t.garam, s.cluster);
    SecretsGrow(cfg, s.garam, t.garam, s.cluster);
    JobGrows(s.garam, t.garam, p);
    ReporterGrows(cfg, s.garam, t.garam, s.history.seen, s.reporter);
    forall k ensures Accounted(t.garam, t.history, InHand(t.poller), k) {
      assert Accounted(s.garam, s.history, InHand(s.poller), k);
    }
  }

  /** The call is counted, and nothing else comes of it. */
  lemma RefusedAskKeeps(cfg: Config, s: State)
    requires Inv(cfg, s) && s.poller.Asking?
    ensures
      var g := s.poller.d.agent;
      && g in s.garam
      && Inv(cfg, s.(garam := s.garam[g := s.garam[g].(certificateCalls := s.garam[g].certificateCalls + 1)],
                     poller := Working(s.poller.todo)))
  {
    var g, t := s.poller.d.agent, s.(poller := Working(s.poller.todo));
    PollerMoves(cfg, s, Working(s.poller.todo));
    var e := s.garam[g];
    assert EntryOk(cfg, g, e);
    assert LatchOk(cfg, s.history.seen, g, e.latch);
    EntryMoves(cfg, t, g, e.(certificateCalls := e.certificateCalls + 1), s.history);
  }

  /** Where the answer is lost, so is the certificate. */
  lemma VanishedAskKeeps(cfg: Config, s: State)
    requires Inv(cfg, s) && s.poller.Asking? && HeldBy(cfg, s.garam, s.poller.d.agent)
    ensures Inv(cfg, Ask(cfg, s, Vanished))
  {
    IssueKeeps(cfg, s);
    DropKeeps(cfg, Ask(cfg, s, Done));
  }

  lemma AskKeeps(cfg: Config, s: State, outcome: Outcome)
    requires Inv(cfg, s) && s.poller.Asking?
    ensures Inv(cfg, Ask(cfg, s, outcome))
  {
    if outcome.Failed? || !HeldBy(cfg, s.garam, s.poller.d.agent) {
      RefusedAskKeeps(cfg, s);
    } else if outcome.Done? {
      IssueKeeps(cfg, s);
    } else {
      VanishedAskKeeps(cfg, s);
    }
  }

  /** An Agent comes into being at a name that carried none. */
  lemma AgentAppears(cfg: Config, s: State, name: string, a: AgentObject, c: Cluster)
    requires Inv(cfg, s) && name !in s.cluster.agents && a.uid == s.cluster.nextUid && a.status == NO_STATUS
    requires forall g :: g in cfg.play && name == cfg.Name(g) ==> a.spec.credentialsSecretName == cfg.SecretName(g)
    requires c == WriteAgent(s.cluster, name, a).(nextUid := s.cluster.nextUid + 1)
    ensures AgentsOk(cfg, s.garam, c)
    ensures SecretsOk(cfg, s.garam, c)
    ensures ConditionsOk(c.agents, s.history.seen)
    ensures NamesOk(cfg, c, s.poller, s.history.renamed)
  {
    forall n | n in c.agents ensures AgentOk(cfg, s.garam, c.nextUid, n, c.agents[n]) {
      if n != name {
        assert AgentOk(cfg, s.garam, s.cluster.nextUid, n, s.cluster.agents[n]);
      }
    }
    forall n | n in c.secrets ensures SecretOk(cfg, s.garam, c, n, c.secrets[n]) {
      assert SecretOk(cfg, s.garam, s.cluster, n, s.cluster.secrets[n]);
    }
  }

  lemma CreateKeeps(cfg: Config, s: State, outcome: Outcome)
    requires cfg.Injective() && Inv(cfg, s) && s.poller.Creating?
    ensures Inv(cfg, Create(cfg, s, outcome))
  {
    var p, name := s.poller, cfg.Name(s.poller.d.agent);
    if name in s.cluster.agents {
      DropKeeps(cfg, s);
      PollerMoves(cfg, s, Adopting(p.d, p.epoch, p.credential, p.todo));
    } else if outcome.Failed? {
      DropKeeps(cfg, s);
    } else {
      CreatedKeeps(cfg, s);
      DropKeeps(cfg, Create(cfg, s, Done));
    }
  }

  lemma CreatedKeeps(cfg: Config, s: State)
    requires cfg.Injective() && Inv(cfg, s) && s.poller.Creating?
    requires cfg.Name(s.poller.d.agent) !in s.cluster.agents
    ensures Inv(cfg, Create(cfg, s, Done))
  {
    var p, name := s.poller, cfg.Name(s.poller.d.agent);
    var t := Create(cfg, s, Done);
    assert EntryOk(cfg, p.d.agent, s.garam[p.d.agent]);
    forall g | g in cfg.play && name == cfg.Name(g)
      ensures t.poller.held.spec.credentialsSecretName == cfg.SecretName(g)
    {
      if g != p.d.agent { NamesDiffer(cfg, g, p.d.agent); }
    }
    AgentAppears(cfg, s, name, t.poller.held, t.cluster);
    assert JobOk(t.garam, t.poller);
    assert WorkOk(cfg, t.cluster, t.poller);
  }

  lemma AdoptKeeps(cfg: Config, s: State, outcome: Outcome)
    requires Inv(cfg, s) && s.poller.Adopting?
    ensures Inv(cfg, Adopt(cfg, s, outcome))
  {
    var p, name := s.poller, cfg.Name(s.poller.d.agent);
    if outcome.Done? && name in s.cluster.agents {
      assert EntryOk(cfg, p.d.agent, s.garam[p.d.agent]);
      assert AgentOk(cfg, s.garam, s.cluster.nextUid, name, s.cluster.agents[name]);
      PollerMoves(cfg, s, Recording(p.d, p.epoch, p.credential, s.cluster.agents[name], p.todo));
    } else {
      DropKeeps(cfg, s);
    }
  }

  lemma RecordKeeps(cfg: Config, s: State, outcome: Outcome)
    requires cfg.Injective() && Inv(cfg, s) && s.poller.Recording?
    ensures Inv(cfg, Record(cfg, s, outcome))
  {
    var p, g, name := s.poller, s.poller.d.agent, cfg.Name(s.poller.d.agent);
    if p.held.status.agent == g && p.held.status.epoch == p.epoch {
      PollerMoves(cfg, s, Placing(p.d, p.epoch, p.credential, p.held, p.todo));
    } else if outcome.Failed? || name !in s.cluster.agents || p.epoch < 1 || g == "" {
      DropKeeps(cfg, s);
    } else {
      RecordedKeeps(cfg, s);
      DropKeeps(cfg, Record(cfg, s, Done));
    }
  }

  /** Writing a record on one Agent leaves every Secret's owner recorded. */
  lemma RecordedSecrets(cfg: Config, s: State, g: Grn, epoch: int)
    requires cfg.Injective() && Inv(cfg, s) && cfg.Name(g) in s.cluster.agents && Behind(s.garam, g, epoch)
    ensures
      var c := WriteAgent(s.cluster, cfg.Name(g), Recorded(s.cluster.agents[cfg.Name(g)], g, epoch));
      && AgentsOk(cfg, s.garam, c) && SecretsOk(cfg, s.garam, c) && ConditionsOk(c.agents, s.history.seen)
      && NamesOk(cfg, c, s.poller, s.history.renamed)
  {
    var name := cfg.Name(g);
    var c := WriteAgent(s.cluster, name, Recorded(s.cluster.agents[name], g, epoch));
    assert EntryOk(cfg, g, s.garam[g]);
    assert AgentOk(cfg, s.garam, s.cluster.nextUid, name, s.cluster.agents[name]);
    forall n | n in c.secrets ensures SecretOk(cfg, s.garam, c, n, c.secrets[n]) {
      var h := s.cluster.secrets[n].credential.agent;
      assert SecretOk(cfg, s.garam, s.cluster, n, s.cluster.secrets[n]);
      assert EntryOk(cfg, h, s.garam[h]);
      if h != g { NamesDiffer(cfg, h, g); }
    }
  }

  lemma RecordedKeeps(cfg: Config, s: State)
    requires cfg.Injective() && Inv(cfg, s) && s.poller.Recording?
    requires cfg.Name(s.poller.d.agent) in s.cluster.agents
    ensures Inv(cfg, Record(cfg, s, Done))
  {
    var p, g, name := s.poller, s.poller.d.agent, cfg.Name(s.poller.d.agent);
    var t := Record(cfg, s, Done);
    assert EntryOk(cfg, g, s.garam[g]);
    assert AgentOk(cfg, s.garam, s.cluster.nextUid, name, s.cluster.agents[name]);
    if t.cluster != s.cluster {
      RecordedSecrets(cfg, s, g, p.epoch);
    }
    assert JobOk(t.garam, t.poller);
    assert WorkOk(cfg, t.cluster, t.poller);
  }

  lemma PlacedSecrets(cfg: Config, s: State, c: Cluster)
    requires Inv(cfg, s) && s.poller.Placing?
    requires var p := s.poller;
      c == s.cluster.(secrets := s.cluster.secrets[p.held.spec.credentialsSecretName := SecretObject(p.held.uid, p.credential)],
                      writes := c.writes)
    ensures SecretsOk(cfg, s.garam, c) && NamesOk(cfg, c, Working(s.poller.todo), s.history.renamed)
  {
    forall n | n in c.secrets
      ensures SecretOk(cfg, s.garam, c, n, c.secrets[n]) && SecretNamed(cfg, n, c.secrets[n], s.history.renamed)
    {
      if n != s.poller.held.spec.credentialsSecretName {
        assert SecretOk(cfg, s.garam, s.cluster, n, s.cluster.secrets[n]);
        assert SecretNamed(cfg, n, s.cluster.secrets[n], s.history.renamed);
      }
    }
  }

  lemma PlaceKeeps(cfg: Config, s: State, outcome: Outcome)
    requires Inv(cfg, s) && s.poller.Placing?
    ensures Inv(cfg, Place(cfg, s, outcome))
  {
    var p := s.poller;
    if outcome.Failed? {
      DropKeeps(cfg, s);
    } else {
      var t := Place(cfg, s, outcome);
      if p.held.spec.credentialsSecretName in s.cluster.secrets {
        DropKeeps(cfg, s);
      } else {
        PlacedSecrets(cfg, s, t.cluster);
        forall g ensures Accounted(t.garam, t.history, multiset{}, g) {
          assert Accounted(s.garam, s.history, InHand(p), g);
        }
      }
    }
  }

  lemma PollKeeps(cfg: Config, s: State, outcome: Outcome, order: seq<Grn>)
    requires cfg.Injective() && Inv(cfg, s)
    ensures Inv(cfg, Polled(cfg, s, outcome, order))
  {
    match s.poller
    case Idle => ListKeeps(cfg, s, outcome, order);
    case Working(todo) =>
      if todo == [] { PollerMoves(cfg, s, Idle); } else { BeginKeeps(cfg, s, outcome); }
    case Correcting(_, _, _) => CorrectKeeps(cfg, s, outcome);
    case Patching(_, _, _) => PatchImageKeeps(cfg, s, outcome);
    case Checking(_, _, _) => CheckKeeps(cfg, s, outcome);
    case Asking(_, _, _) => AskKeeps(cfg, s, outcome);
    case Creating(_, _, _, _) => CreateKeeps(cfg, s, outcome);
    case Adopting(_, _, _, _) => AdoptKeeps(cfg, s, outcome);
    case Recording(_, _, _, _, _) => RecordKeeps(cfg, s, outcome);
    case Placing(_, _, _, _, _) => PlaceKeeps(cfg, s, outcome);
  }

  // --------------------------------------------- reporter, crash, outside world

  lemma ObservedOk(cfg: Config, s: State, items: seq<string>)
    requires Inv(cfg, s)
    requires forall n :: n in items ==> n in s.cluster.agents
    ensures forall o :: o in Observed(s.cluster.agents, items) ==> ObservationOk(cfg, s.garam, s.history.seen, o)
  {
    forall o | o in Observed(s.cluster.agents, items) ensures ObservationOk(cfg, s.garam, s.history.seen, o) {
      var n :| n in items && Describes(o, s.cluster.agents[n]);
      assert AgentOk(cfg, s.garam, s.cluster.nextUid, n, s.cluster.agents[n]);
      assert Justified(s.history.seen, n, s.cluster.agents[n].status.conditions);
    }
  }

  lemma ReportKeeps(cfg: Config, s: State, outcome: Outcome, items: seq<string>)
    requires Inv(cfg, s)
    ensures Inv(cfg, Reported(cfg, s, outcome, items))
  {
    match s.reporter
    case Resting =>
      if outcome.Done? && Enumerates(items, s.cluster.agents.Keys) {
        ObservedOk(cfg, s, items);
      }
    case Sending(todo) =>
      if todo != [] {
        var o, rest := todo[0], s.(reporter := Sending(todo[1..]));
        assert ObservationOk(cfg, s.garam, s.history.seen, o);
        assert Inv(cfg, rest);
        if StateOf(o.readiness).Some? && outcome.Effective() && Accepts(cfg, s.garam, o.agent, o.epoch) {
          assert EntryOk(cfg, o.agent, s.garam[o.agent]);
          var e := s.garam[o.agent].(latch := Latch(StateOf(o.readiness).value, Some(cfg.me)));
          EntryMoves(cfg, rest, o.agent, e, Reported(cfg, s, outcome, items).history);
        }
      }
  }

  lemma CrashKeeps(cfg: Config, s: State)
    requires Inv(cfg, s)
    ensures Inv(cfg, Crashed(s))
  {
    var t := Crashed(s);
    forall g ensures Accounted(t.garam, t.history, multiset{}, g) {
      assert Accounted(s.garam, s.history, InHand(s.poller), g);
    }
  }

  lemma UserCreatesKeeps(cfg: Config, s: State, name: string, spec: AgentSpec)
    requires Inv(cfg, s)
    ensures Inv(cfg, Outside(cfg, s, UserCreates(name, spec)))
  {
    if name !in s.cluster.agents && !cfg.Reserved(name) {
      var t := Outside(cfg, s, UserCreates(name, spec));
      AgentAppears(cfg, s, name, AgentObject(s.cluster.nextUid, spec, NO_STATUS), t.cluster);
      if Constructing(s.poller) {
        assert EntryOk(cfg, s.poller.d.agent, s.garam[s.poller.d.agent]);
      }
      assert WorkOk(cfg, t.cluster, t.poller);
    }
  }

  lemma DeletionKeeps(cfg: Config, s: State, c: Cluster)
    requires Inv(cfg, s)
    requires c.nextUid == s.cluster.nextUid
    requires forall n :: n in c.agents ==> n in s.cluster.agents && c.agents[n] == s.cluster.agents[n]
    requires forall n :: n in c.secrets ==> n in s.cluster.secrets && c.secrets[n] == s.cluster.secrets[n]
    ensures Inv(cfg, s.(cluster := c))
  {
    assert SecretsOk(cfg, s.garam, c) by {
      forall n | n in c.secrets ensures SecretOk(cfg, s.garam, c, n, c.secrets[n]) {
        assert SecretOk(cfg, s.garam, s.cluster, n, s.cluster.secrets[n]);
      }
    }
  }

  lemma SeenKeeps(cfg: Config, s: State, name: string, ready: bool)
    requires Inv(cfg, s)
    ensures Inv(cfg, Outside(cfg, s, Observe(name, ready)))
  {
    var t := Outside(cfg, s, Observe(name, ready));
    assert KeysOk(t.garam, t.history, InHand(t.poller)) by {
      forall g ensures Accounted(t.garam, t.history, InHand(t.poller), g) {
        assert Accounted(s.garam, s.history, InHand(s.poller), g);
      }
    }
  }

  lemma UserRenamesKeeps(cfg: Config, s: State, name: string, secret: string)
    requires Inv(cfg, s)
    ensures Inv(cfg, Outside(cfg, s, UserRenames(name, secret)))
  {
    if name in s.cluster.agents {
      var t := Outside(cfg, s, UserRenames(name, secret));
      assert AgentOk(cfg, s.garam, s.cluster.nextUid, name, s.cluster.agents[name]);
      assert AgentsOk(cfg, s.garam, t.cluster);
      assert SecretsOk(cfg, s.garam, t.cluster) by {
        forall n | n in t.cluster.secrets ensures SecretOk(cfg, s.garam, t.cluster, n, t.cluster.secrets[n]) {
          assert SecretOk(cfg, s.garam, s.cluster, n, s.cluster.secrets[n]);
        }
      }
      assert NamesOk(cfg, t.cluster, t.poller, t.history.renamed) by {
        forall n | n in t.cluster.secrets ensures SecretNamed(cfg, n, t.cluster.secrets[n], t.history.renamed) {
          assert SecretNamed(cfg, n, s.cluster.secrets[n], s.history.renamed);
        }
      }
      forall g ensures Accounted(t.garam, t.history, InHand(t.poller), g) {
        assert Accounted(s.garam, s.history, InHand(s.poller), g);
      }
    }
  }

  lemma ClusterKeeps(cfg: Config, s: State, step: Step)
    requires Inv(cfg, s)
    requires !step.Define? && !step.Redefine? && !step.Reassign? && !step.ForeignReport?
    ensures Inv(cfg, Outside(cfg, s, step))
  {
    match step
    case UserEdits(name, image, pins) =>
      if name in s.cluster.agents {
        var a := s.cluster.agents[name];
        AgentMoves(cfg, s, name, a.(spec := a.spec.(image := image, pins := pins)));
        var t := Outside(cfg, s, step);
        HistoryMoves(cfg, s.(cluster := t.cluster), t.history);
      }
    case Conditions(name, conditions, generation) =>
      if name in s.cluster.agents && Justified(s.history.seen, name, conditions) {
        var a := s.cluster.agents[name];
        AgentMoves(cfg, s, name,
          a.(status := a.status.(conditions := conditions, observedGeneration := generation)));
      }
    case UserRenames(name, secret) => UserRenamesKeeps(cfg, s, name, secret);
    case UserCreates(name, spec) => UserCreatesKeeps(cfg, s, name, spec);
    case UserDeletes(_) =>
      DeletionKeeps(cfg, s, Outside(cfg, s, step).cluster);
      HistoryMoves(cfg, s.(cluster := Outside(cfg, s, step).cluster), Outside(cfg, s, step).history);
    case SecretGoes(_) => DeletionKeeps(cfg, s, Outside(cfg, s, step).cluster);
    case Observe(name, ready) => SeenKeeps(cfg, s, name, ready);
    case _ =>
  }

  lemma DefineKeeps(cfg: Config, s: State, g: Grn, pins: map<string, string>)
    requires Inv(cfg, s)
    ensures Inv(cfg, Outside(cfg, s, Define(g, pins)))
  {
    if g in cfg.play && g != "" && g !in s.garam {
      var t := Outside(cfg, s, Define(g, pins));
      forall k ensures Accounted(t.garam, t.history, InHand(t.poller), k) {
        assert Accounted(s.garam, s.history, InHand(s.poller), k);
      }
      GaramMoves(cfg, s, t);
    }
  }

  lemma OutsideKeeps(cfg: Config, s: State, step: Step)
    requires Inv(cfg, s)
    ensures Inv(cfg, Outside(cfg, s, step))
  {
    match step
    case Define(g, pins) => DefineKeeps(cfg, s, g, pins);
    case Redefine(g, pins) =>
      if g in s.garam {
        assert EntryOk(cfg, g, s.garam[g]) && LatchOk(cfg, s.history.seen, g, s.garam[g].latch);
        EntryMoves(cfg, s, g, s.garam[g].(pins := pins), s.history);
        var t := Outside(cfg, s, step);
        HistoryMoves(cfg, s.(garam := t.garam), t.history);
      }
    case Reassign(g, to) =>
      if g in s.garam && s.garam[g].claimed {
        assert EntryOk(cfg, g, s.garam[g]) && LatchOk(cfg, s.history.seen, g, s.garam[g].latch);
        EntryMoves(cfg, s, g, s.garam[g].(holder := to, epoch := s.garam[g].epoch + 1), s.history);
      }
    case ForeignReport(g, st) =>
      if g in s.garam && s.garam[g].claimed && s.garam[g].holder != cfg.me {
        assert EntryOk(cfg, g, s.garam[g]);
        EntryMoves(cfg, s, g, s.garam[g].(latch := Latch(st, Some(s.garam[g].holder))), s.history);
      }
    case _ => ClusterKeeps(cfg, s, step);
  }

  /** Every step, of the operator or of the world, keeps the invariant. */
  lemma StepKeeps(cfg: Config, s: State, step: Step)
    requires cfg.Injective() && Inv(cfg, s)
    ensures Inv(cfg, Next(cfg, s, step))
  {
    match step
    case Poll(outcome, order) => PollKeeps(cfg, s, outcome, order);
    case Report(outcome, items) => ReportKeeps(cfg, s, outcome, items);
    case Crash => CrashKeeps(cfg, s);
    case _ => OutsideKeeps(cfg, s, step);
  }

  lemma {:induction false} RunKeeps(cfg: Config, s: State, steps: seq<Step>)
    requires cfg.Injective() && Inv(cfg, s)
    ensures Inv(cfg, Run(cfg, s, steps))
    decreases |steps|
  {
    if steps != [] {
      RunKeeps(cfg, s, steps[..|steps| - 1]);
      StepKeeps(cfg, Run(cfg, s, steps[..|steps| - 1]), steps[|steps| - 1]);
    }
  }

  lemma StartOk(cfg: Config)
    ensures Inv(cfg, START)
  {
  }
}
