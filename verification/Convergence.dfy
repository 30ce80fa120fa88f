/**
 From any point a crash can leave, two passes of the poller build an agent, and a third does nothing about it.

 Everything is said of one agent at a time.  A pass is calm for an agent when the calls about that agent succeed and
 nobody takes the agent or its two objects away; the reconciler, the reporter, garam, users and the calls about every
 other agent go on as they like.  What users may not do is make another
 agent's Agent name its Secret.
 */
module Convergence {
  import opened Prelude
  import opened Api
  import opened Protocol
  import opened Safety
  import opened Fencing

  // ------------------------------------------------------------------------- traces

  ghost predicate StepAt(cfg: Config, tr: seq<State>, steps: seq<Step>, i: nat)
    requires i < |steps| && |tr| == |steps| + 1
  {
    tr[i + 1] == Next(cfg, tr[i], steps[i])
  }

  ghost predicate Trace(cfg: Config, tr: seq<State>, steps: seq<Step>) {
    |tr| == |steps| + 1 && forall i :: 0 <= i < |steps| ==> StepAt(cfg, tr, steps, i)
  }

  /** One pass: the poller is idle until the list at `k`, and from there at work until it is idle again. */
  ghost predicate IsPass(cfg: Config, tr: seq<State>, steps: seq<Step>, k: nat) {
    && Trace(cfg, tr, steps) && k < |steps|
    && (forall i :: 0 <= i <= k ==> tr[i].poller.Idle?)
    && steps[k].Poll? && steps[k].outcome.Done? && Enumerates(steps[k].order, tr[k].garam.Keys)
    && (forall i :: k < i < |steps| ==> !tr[i].poller.Idle?) && tr[|steps|].poller.Idle?
  }

  /** The poller's next call is about `g`. */
  ghost predicate OnTurn(p: Poller, g: Grn) {
    if p.Idle? then false
    else if p.Working? then p.todo != [] && p.todo[0].agent == g
    else p.d.agent == g
  }

  /** The step does not fail `g`, and takes neither the agent nor its objects away. */
  ghost predicate Gentle(cfg: Config, s: State, step: Step, g: Grn) {
    match step
    case Poll(outcome, _) => OnTurn(s.poller, g) ==> outcome.Done?
    case Crash => false
    case Reassign(h, _) => h != g
    case UserEdits(n, _, _) => n != cfg.Name(g)
    case UserRenames(n, x) => n != cfg.Name(g) && (x == cfg.SecretName(g) ==> !cfg.Reserved(n))
    case UserDeletes(n) => n != cfg.Name(g)
    case SecretGoes(n) => n != cfg.SecretName(g)
    case _ => true
  }

  ghost predicate Calm(cfg: Config, tr: seq<State>, steps: seq<Step>, g: Grn)
    requires |tr| == |steps| + 1
  {
    forall i :: 0 <= i < |steps| ==> Gentle(cfg, tr[i], steps[i], g)
  }

  /** No other agent's Agent names the Secret of `g`, nor does one the poller holds of another agent. */
  ghost predicate Apart(cfg: Config, s: State, g: Grn) {
    && (forall h :: h in cfg.play && h != g && cfg.Name(h) in s.cluster.agents ==>
          s.cluster.agents[cfg.Name(h)].spec.credentialsSecretName != cfg.SecretName(g))
    && (s.poller.Recording? || s.poller.Placing? ==>
          s.poller.d.agent == g || s.poller.held.spec.credentialsSecretName != cfg.SecretName(g))
  }

  // ------------------------------------------------------------------ what is held of one agent

  /** What garam and the cluster hold of one agent, but for the report latch, the pins garam now declares and what the
      reconciler writes. */
  datatype Slice = Slice(entry: Option<Entry>, agent: Option<AgentObject>, secret: Option<SecretObject>)

  function Still(e: Entry): Entry { e.(latch := Latch(Pending, None), pins := map[]) }

  function Plain(a: AgentObject): AgentObject {
    a.(status := a.status.(conditions := [], observedGeneration := 0))
  }

  function Of(cfg: Config, s: State, g: Grn): Slice {
    Slice(if g in s.garam then Some(Still(s.garam[g])) else None,
          if cfg.Name(g) in s.cluster.agents then Some(Plain(s.cluster.agents[cfg.Name(g)])) else None,
          if cfg.SecretName(g) in s.cluster.secrets then Some(s.cluster.secrets[cfg.SecretName(g)]) else None)
  }

  ghost predicate Held(cfg: Config, x: Slice) {
    x.entry.Some? && x.entry.value.claimed && x.entry.value.holder == cfg.me
  }

  ghost predicate RecordedFor(x: Slice, g: Grn) {
    x.agent.Some? && x.agent.value.status.agent == g
  }

  /** The Agent exists with its record, and a credential of the agent is placed under it. */
  ghost predicate Built(x: Slice, g: Grn) {
    && RecordedFor(x, g) && x.secret.Some?
    && x.secret.value.credential.agent == g && x.secret.value.owner == x.agent.value.uid
  }

  /** No credential under the agent's name has outlived the Agent that owns it. */
  ghost predicate Owned(x: Slice, g: Grn) { x.secret.Some? ==> Built(x, g) }

  /** A credential of `g` is placed, or there is nothing in the way of placing one: the Agent, where there is one, names
      the Secret a construction would have named. */
  ghost predicate Placeable(cfg: Config, x: Slice, g: Grn) { x.secret.Some? || NamesOwn(cfg, x, g) }

  ghost predicate NamesOwn(cfg: Config, x: Slice, g: Grn) {
    x.agent.Some? ==> x.agent.value.spec.credentialsSecretName == cfg.SecretName(g)
  }

  /** An Agent recorded for `g` runs the configured image. */
  ghost predicate Current(cfg: Config, x: Slice, g: Grn) {
    RecordedFor(x, g) ==> x.agent.value.spec.image == cfg.image
  }

  ghost predicate SameAssignment(a: Slice, b: Slice) {
    a.entry.Some? && b.entry.Some?
    && a.entry.value.claimed == b.entry.value.claimed
    && a.entry.value.holder == b.entry.value.holder
    && a.entry.value.epoch == b.entry.value.epoch
  }

  /** The same Secret, and an Agent of the same identity, record and spec but for the image. */
  ghost predicate Alike(a: Slice, b: Slice) {
    && b.secret == a.secret && (a.agent.Some? <==> b.agent.Some?)
    && (a.agent.Some? ==> SameRecord(a.agent.value, b.agent.value) && SameButImage(a, b))
  }

  ghost predicate SameButImage(a: Slice, b: Slice) {
    && a.agent.Some? && b.agent.Some?
    && b.agent.value.spec == a.agent.value.spec.(image := b.agent.value.spec.image)
  }

  /** The spec of an Agent the operator made: its image, its storage size, its own Secret and the pins declared. */
  function SpecFor(cfg: Config, g: Grn, pins: map<string, string>): AgentSpec {
    AgentSpec(cfg.image, cfg.Name(g) + "-credentials", cfg.storageSize, None, map[], pins)
  }

  /** An Agent made in between has that spec, and one that was there keeps its own but for the image. */
  ghost predicate SpecKept(cfg: Config, a: Slice, b: Slice, g: Grn, pins: map<string, string>) {
    && (a.agent.None? && b.agent.Some? ==> b.agent.value.spec == SpecFor(cfg, g, pins))
    && (a.agent.Some? ==> SameButImage(a, b))
  }

  // -------------------------------------------------------- steps that are not about the agent

  lemma OutsideBeside(cfg: Config, s: State, step: Step, g: Grn)
    requires g in s.garam && Gentle(cfg, s, step, g) && !step.Poll? && !step.Report?
    requires g in cfg.play && Apart(cfg, s, g)
    ensures var t := Outside(cfg, s, step);
      Of(cfg, t, g) == Of(cfg, s, g) && t.poller == s.poller && Apart(cfg, t, g)
  {
    assert cfg.Reserved(cfg.Name(g));
  }

  lemma ReportBeside(cfg: Config, s: State, outcome: Outcome, items: seq<string>, g: Grn)
    requires g in s.garam && Apart(cfg, s, g)
    ensures var t := Reported(cfg, s, outcome, items);
      Of(cfg, t, g) == Of(cfg, s, g) && t.poller == s.poller && Apart(cfg, t, g)
  {
  }

  lemma PollBesideGaram(cfg: Config, s: State, outcome: Outcome, order: seq<Grn>, g: Grn)
    requires !OnTurn(s.poller, g)
    ensures var t := Polled(cfg, s, outcome, order).garam;
      (g in t <==> g in s.garam) && (g in t ==> t[g] == s.garam[g])
  {
    match s.poller
    case Working(_) =>
    case Creating(_, _, _, _) =>
    case Recording(_, _, _, _, _) =>
    case _ =>
  }

  lemma PollBesideSecret(cfg: Config, s: State, outcome: Outcome, order: seq<Grn>, name: string)
    requires s.poller.Placing? ==> s.poller.held.spec.credentialsSecretName != name
    ensures var t := Polled(cfg, s, outcome, order).cluster.secrets;
      (name in t <==> name in s.cluster.secrets) && (name in t ==> t[name] == s.cluster.secrets[name])
  {
    match s.poller
    case Working(_) =>
    case Creating(_, _, _, _) =>
    case Recording(_, _, _, _, _) =>
    case _ =>
  }

  /** The spec an Agent has after a step of the poller: but for the image its own, and SpecFor where it was made now. */
  ghost predicate SpecFrom(cfg: Config, s: State, h: Grn, a: AgentObject) {
    if cfg.Name(h) in s.cluster.agents
    then a.spec == s.cluster.agents[cfg.Name(h)].spec.(image := a.spec.image)
    else s.poller.Creating? && s.poller.d.agent == h && a.spec == SpecFor(cfg, h, s.poller.d.pins)
  }

  lemma OwnSpec(cfg: Config, s: State, outcome: Outcome, order: seq<Grn>)
    requires !s.poller.Idle? && !s.poller.Working?
    ensures var h, t := s.poller.d.agent, Polled(cfg, s, outcome, order).cluster.agents;
      cfg.Name(h) in t ==> SpecFrom(cfg, s, h, t[cfg.Name(h)])
  {
    match s.poller
    case Creating(_, _, _, _) =>
    case Recording(_, _, _, _, _) =>
    case _ =>
  }

  /** The poller writes no field of a spec but the image, and makes an Agent with its own Secret, the configured storage
      size and the pins of the definition it was listed with. */
  lemma PollKeepsSpecs(cfg: Config, s: State, outcome: Outcome, order: seq<Grn>, h: Grn)
    requires cfg.Injective() && Inv(cfg, s) && h in cfg.play
    ensures var t := Polled(cfg, s, outcome, order).cluster.agents;
      cfg.Name(h) in t ==> SpecFrom(cfg, s, h, t[cfg.Name(h)])
  {
    if s.poller.Idle? || s.poller.Working? {
      PollWritesOneName(cfg, s, outcome, order, cfg.Name(h));
    } else if s.poller.d.agent == h {
      OwnSpec(cfg, s, outcome, order);
    } else {
      assert EntryOk(cfg, s.poller.d.agent, s.garam[s.poller.d.agent]);
      NamesDiffer(cfg, h, s.poller.d.agent);
      PollWritesOneName(cfg, s, outcome, order, cfg.Name(h));
    }
  }

  /** What the poller takes in hand is an Agent as the cluster has it. */
  lemma PollHolds(cfg: Config, s: State, outcome: Outcome, order: seq<Grn>)
    ensures var t := Polled(cfg, s, outcome, order);
      t.poller.Recording? || t.poller.Placing? ==>
        && !s.poller.Idle? && !s.poller.Working? && t.poller.d == s.poller.d
        && ((s.poller.Recording? && t.poller.held == s.poller.held)
            || (cfg.Name(t.poller.d.agent) in t.cluster.agents
                && t.cluster.agents[cfg.Name(t.poller.d.agent)] == t.poller.held))
  {
    match s.poller
    case Working(_) =>
    case Creating(_, _, _, _) =>
    case Recording(_, _, _, _, _) =>
    case _ =>
  }

  lemma PollKeepsApart(cfg: Config, s: State, outcome: Outcome, order: seq<Grn>, g: Grn)
    requires cfg.Injective() && Inv(cfg, s) && Apart(cfg, s, g) && g in cfg.play
    ensures Apart(cfg, Polled(cfg, s, outcome, order), g)
  {
    var t := Polled(cfg, s, outcome, order);
    forall h | h in cfg.play && h != g && cfg.Name(h) in t.cluster.agents
      ensures t.cluster.agents[cfg.Name(h)].spec.credentialsSecretName != cfg.SecretName(g)
    {
      PollKeepsSpecs(cfg, s, outcome, order, h);
      NamesDiffer(cfg, h, g);
    }
    PollHolds(cfg, s, outcome, order);
    if t.poller.Recording? || t.poller.Placing? {
      assert EntryOk(cfg, s.poller.d.agent, s.garam[s.poller.d.agent]);
    }
  }

  /** Work on one agent touches nothing of another, however its calls end. */
  lemma WorkIsLocal(cfg: Config, s: State, outcome: Outcome, order: seq<Grn>, g: Grn)
    requires cfg.Injective() && Inv(cfg, s) && Apart(cfg, s, g) && g in cfg.play && !OnTurn(s.poller, g)
    ensures var t := Polled(cfg, s, outcome, order);
      Of(cfg, t, g) == Of(cfg, s, g) && Apart(cfg, t, g)
  {
    PollKeepsApart(cfg, s, outcome, order, g);
    PollBesideGaram(cfg, s, outcome, order, g);
    if !s.poller.Idle? && !s.poller.Working? {
      var h := s.poller.d.agent;
      assert EntryOk(cfg, h, s.garam[h]);
      NamesDiffer(cfg, g, h);
    }
    PollBesideSecret(cfg, s, outcome, order, cfg.SecretName(g));
    PollWritesOneName(cfg, s, outcome, order, cfg.Name(g));
  }

  /** A gentle step that is not the poller's about `g` leaves all that is held of `g`. */
  lemma BesideKeeps(cfg: Config, s: State, step: Step, g: Grn)
    requires cfg.Injective() && Inv(cfg, s) && Apart(cfg, s, g) && g in s.garam && Gentle(cfg, s, step, g)
    requires step.Poll? ==> !OnTurn(s.poller, g)
    ensures var t := Next(cfg, s, step);
      Of(cfg, t, g) == Of(cfg, s, g) && Apart(cfg, t, g) && (!step.Poll? ==> t.poller == s.poller)
  {
    assert EntryOk(cfg, g, s.garam[g]);
    match step
    case Poll(outcome, order) => WorkIsLocal(cfg, s, outcome, order, g);
    case Report(outcome, items) => ReportBeside(cfg, s, outcome, items, g);
    case _ => OutsideBeside(cfg, s, step, g);
  }

  // ----------------------------------------------------------------- the poller's list

  ghost predicate Listing(p: Poller, g: Grn) {
    !p.Idle? && exists i :: 0 <= i < |p.todo| && p.todo[i].agent == g
  }

  /** Every agent comes up once in a pass. */
  ghost predicate Distinct(p: Poller) {
    !p.Idle? ==>
      && (forall i, j :: 0 <= i < j < |p.todo| ==> p.todo[i].agent != p.todo[j].agent)
      && (!p.Working? ==> forall i :: 0 <= i < |p.todo| ==> p.todo[i].agent != p.d.agent)
  }

  /** Where one step can take the poller: through the stages of a definition, then on to the next. */
  ghost predicate Moves(p: Poller, q: Poller) {
    if p.Idle? then q.Idle?
    else if p == Working([]) then q.Idle?
    else if p.Working? then !q.Idle? && q.todo == p.todo[1..] && (q.Working? || q.d == p.todo[0])
    else !q.Idle? && q.todo == p.todo && (q.Working? || q.d == p.d)
  }

  lemma PollMoves(cfg: Config, s: State, outcome: Outcome, order: seq<Grn>)
    requires !s.poller.Idle?
    ensures Moves(s.poller, Polled(cfg, s, outcome, order).poller)
  {
    match s.poller
    case Working(_) =>
    case Creating(_, _, _, _) =>
    case Recording(_, _, _, _, _) =>
    case _ =>
  }

  lemma ListingRest(todo: seq<Definition>, g: Grn)
    requires todo != []
    ensures Listing(Working(todo), g) <==> todo[0].agent == g || Listing(Working(todo[1..]), g)
  {
    var p, q := Working(todo), Working(todo[1..]);
    if Listing(p, g) && todo[0].agent != g {
      var i :| 0 <= i < |todo| && todo[i].agent == g;
      assert q.todo[i - 1].agent == g;
    }
    if Listing(q, g) {
      var i :| 0 <= i < |q.todo| && q.todo[i].agent == g;
      assert p.todo[i + 1].agent == g;
    }
  }

  lemma ListingByTodo(p: Poller, g: Grn)
    requires !p.Idle?
    ensures Listing(p, g) <==> Listing(Working(p.todo), g)
  {
  }

  lemma MovesKeepsDistinct(p: Poller, q: Poller)
    requires Moves(p, q) && Distinct(p) && !p.Idle?
    ensures Distinct(q)
  {
    if p.Working? && p.todo != [] {
      assert forall i :: 0 <= i < |q.todo| ==> q.todo[i] == p.todo[i + 1];
    }
  }

  /** What a move does to the list. */
  lemma MovesList(p: Poller, q: Poller, g: Grn)
    requires Moves(p, q) && Distinct(p) && !p.Idle?
    ensures Distinct(q)
    ensures !OnTurn(p, g) ==> (Listing(q, g) <==> Listing(p, g))
    ensures OnTurn(p, g) ==> !Listing(q, g)
    ensures !q.Idle? && !q.Working? && q.d.agent == g ==> OnTurn(p, g)
  {
    MovesKeepsDistinct(p, q);
    ListingByTodo(p, g);
    if !q.Idle? { ListingByTodo(q, g); }
    if p.Working? && p.todo != [] { ListingRest(p.todo, g); }
    assert !q.Idle? && p.Working? ==> forall i :: 0 <= i < |q.todo| ==> q.todo[i] == p.todo[i + 1];
  }

  // -------------------------------------------------------------- one agent through a pass

  /** What one pass brings about, from what was held of the agent to what is held after it. */
  ghost predicate Progress(cfg: Config, a: Slice, b: Slice, g: Grn, pins: map<string, string>) {
    && a.entry.Some? && b.entry.Some?
    && (a.entry.value.claimed ==> SameAssignment(a, b))
    && (!a.entry.value.claimed ==> Held(cfg, b))
    && b.entry.value.issued == a.entry.value.issued + (if Held(cfg, b) && a.secret.None? then 1 else 0)
    && SpecKept(cfg, a, b, g, pins)
    && (Placeable(cfg, a, g) <==> Placeable(cfg, b, g))
    && (Held(cfg, b) && Placeable(cfg, a, g) ==> b.secret.Some?)
    && (Held(cfg, b) && a.secret.None? ==> RecordedFor(b, g))
    && (Owned(a, g) ==> Owned(b, g))
    && (a.secret.Some? ==> Alike(a, b))
    && (RecordedFor(a, g) ==> RecordedFor(b, g) && Current(cfg, b, g))
    && (RecordedFor(b, g) ==> RecordedFor(a, g) || Held(cfg, b))
  }

  /** From what was held of the agent at the list to what is held in the middle of its turn. */
  ghost predicate During(cfg: Config, p: Poller, a: Slice, x: Slice, g: Grn, pins: map<string, string>)
    requires !p.Idle? && !p.Working?
  {
    && a.entry.Some? && x.entry.Some? && x.entry.value.claimed
    && (a.entry.value.claimed ==> SameAssignment(a, x)) && (!a.entry.value.claimed ==> Held(cfg, x))
    && x.entry.value.issued == a.entry.value.issued + |InHand(p)| && p.d.pins == pins
    && match p
       case Correcting(_, _, _) => x.agent == a.agent && x.secret == a.secret
       case Patching(_, _, _) => x.agent == a.agent && x.secret == a.secret
       case Checking(_, _, _) => Alike(a, x) && Current(cfg, x, g)
       case Asking(_, _, _) => Alike(a, x) && Current(cfg, x, g) && a.secret.None?
       case Creating(_, _, _, _) => Alike(a, x) && Current(cfg, x, g) && a.secret.None? && Held(cfg, x)
       case Adopting(_, _, _, _) =>
         Alike(a, x) && Current(cfg, x, g) && a.secret.None? && Held(cfg, x) && x.agent.Some?
       case Recording(_, _, _, held, _) => UnderWay(cfg, a, x, g, held, pins)
       case Placing(_, _, _, held, _) => UnderWay(cfg, a, x, g, held, pins)
  }

  ghost predicate UnderWay(cfg: Config, a: Slice, x: Slice, g: Grn, held: AgentObject, pins: map<string, string>) {
    && Held(cfg, x) && a.secret.None? && x.secret.None? && x.agent.Some?
    && held.spec.credentialsSecretName == x.agent.value.spec.credentialsSecretName
    && (NamesOwn(cfg, a, g) <==> NamesOwn(cfg, x, g)) && SpecKept(cfg, a, x, g, pins)
    && (RecordedFor(a, g) ==> RecordedFor(x, g) && Current(cfg, x, g))
  }

  /** Where the agent stands in a pass that began with `a` held of it. */
  ghost predicate OnPass(cfg: Config, s: State, g: Grn, a: Slice, pins: map<string, string>) {
    var x, p := Of(cfg, s, g), s.poller;
    && Distinct(p)
    && if Listing(p, g) then
         && x == a && a.entry.Some?
         && (forall i :: 0 <= i < |p.todo| && p.todo[i].agent == g ==>
               (p.todo[i].claim.Some? <==> a.entry.value.claimed) && p.todo[i].pins == pins)
       else if !p.Idle? && !p.Working? && p.d.agent == g then During(cfg, p, a, x, g, pins)
       else Progress(cfg, a, x, g, pins)
  }

  lemma TurnBegins(cfg: Config, s: State, g: Grn, a: Slice, pins: map<string, string>)
    requires Inv(cfg, s) && OnPass(cfg, s, g, a, pins) && s.poller.Working? && OnTurn(s.poller, g)
    ensures var t := Polled(cfg, s, Done, []);
      t.poller.Correcting? && t.poller.d.agent == g && During(cfg, t.poller, a, Of(cfg, t, g), g, pins)
  {
    assert s.poller.todo[0].agent == g;
    assert Listing(s.poller, g);
  }

  lemma TurnCorrects(cfg: Config, s: State, g: Grn, a: Slice, pins: map<string, string>)
    requires Inv(cfg, s) && (s.poller.Correcting? || s.poller.Patching?) && s.poller.d.agent == g
    requires During(cfg, s.poller, a, Of(cfg, s, g), g, pins)
    ensures var t := Polled(cfg, s, Done, []);
      && (t.poller.Checking? || t.poller.Patching?) && t.poller.d.agent == g
      && During(cfg, t.poller, a, Of(cfg, t, g), g, pins)
  {
  }

  lemma TurnChecks(cfg: Config, s: State, g: Grn, a: Slice, pins: map<string, string>)
    requires Inv(cfg, s) && s.poller.Checking? && s.poller.d.agent == g
    requires During(cfg, s.poller, a, Of(cfg, s, g), g, pins)
    ensures var t := Polled(cfg, s, Done, []);
      && t == s.(poller := t.poller) && (t.poller.Working? || (t.poller.Asking? && t.poller.d.agent == g))
      && if t.poller.Asking? then During(cfg, t.poller, a, Of(cfg, t, g), g, pins) else Progress(cfg, a, Of(cfg, t, g), g, pins)
  {
    var t := Polled(cfg, s, Done, []);
    assert Of(cfg, t, g) == Of(cfg, s, g);
  }

  lemma TurnAsks(cfg: Config, s: State, g: Grn, a: Slice, pins: map<string, string>)
    requires Inv(cfg, s) && s.poller.Asking? && s.poller.d.agent == g
    requires During(cfg, s.poller, a, Of(cfg, s, g), g, pins)
    ensures var t := Polled(cfg, s, Done, []);
      && (t.poller.Working? || (t.poller.Creating? && t.poller.d.agent == g))
      && if t.poller.Creating? then During(cfg, t.poller, a, Of(cfg, t, g), g, pins) else Progress(cfg, a, Of(cfg, t, g), g, pins)
  {
  }

  lemma TurnEnsures(cfg: Config, s: State, g: Grn, a: Slice, pins: map<string, string>)
    requires Inv(cfg, s) && (s.poller.Creating? || s.poller.Adopting?) && s.poller.d.agent == g
    requires During(cfg, s.poller, a, Of(cfg, s, g), g, pins)
    ensures var t := Polled(cfg, s, Done, []);
      && (t.poller.Adopting? || t.poller.Recording?) && t.poller.d.agent == g
      && During(cfg, t.poller, a, Of(cfg, t, g), g, pins)
  {
  }

  lemma TurnRecords(cfg: Config, s: State, g: Grn, a: Slice, pins: map<string, string>)
    requires Inv(cfg, s) && s.poller.Recording? && s.poller.d.agent == g
    requires During(cfg, s.poller, a, Of(cfg, s, g), g, pins)
    ensures var t := Polled(cfg, s, Done, []);
      t.poller.Placing? && t.poller.d.agent == g && During(cfg, t.poller, a, Of(cfg, t, g), g, pins)
  {
    assert EntryOk(cfg, g, s.garam[g]);
  }

  lemma TurnPlaces(cfg: Config, s: State, g: Grn, a: Slice, pins: map<string, string>)
    requires Inv(cfg, s) && Apart(cfg, s, g) && s.poller.Placing? && s.poller.d.agent == g
    requires During(cfg, s.poller, a, Of(cfg, s, g), g, pins)
    ensures var t := Polled(cfg, s, Done, []);
      t.poller.Working? && Progress(cfg, a, Of(cfg, t, g), g, pins)
  {
    assert EntryOk(cfg, g, s.garam[g]);
  }

  /** The agent's own turn, one call at a time. */
  lemma TurnMoves(cfg: Config, s: State, g: Grn, a: Slice, pins: map<string, string>)
    requires Inv(cfg, s) && Apart(cfg, s, g) && OnPass(cfg, s, g, a, pins) && OnTurn(s.poller, g)
    ensures var t := Polled(cfg, s, Done, []);
      if !t.poller.Working? && !t.poller.Idle? then t.poller.d.agent == g && During(cfg, t.poller, a, Of(cfg, t, g), g, pins)
      else Progress(cfg, a, Of(cfg, t, g), g, pins)
  {
    match s.poller
    case Working(_) => TurnBegins(cfg, s, g, a, pins);
    case Correcting(_, _, _) => TurnCorrects(cfg, s, g, a, pins);
    case Patching(_, _, _) => TurnCorrects(cfg, s, g, a, pins);
    case Checking(_, _, _) => TurnChecks(cfg, s, g, a, pins);
    case Asking(_, _, _) => TurnAsks(cfg, s, g, a, pins);
    case Creating(_, _, _, _) => TurnEnsures(cfg, s, g, a, pins);
    case Adopting(_, _, _, _) => TurnEnsures(cfg, s, g, a, pins);
    case Recording(_, _, _, _, _) => TurnRecords(cfg, s, g, a, pins);
    case Placing(_, _, _, _, _) => TurnPlaces(cfg, s, g, a, pins);
  }

  /** A gentle step in the middle of a pass keeps the agent's place in it. */
  lemma OnPassStep(cfg: Config, s: State, step: Step, g: Grn, a: Slice, pins: map<string, string>)
    requires cfg.Injective() && Inv(cfg, s) && Apart(cfg, s, g) && g in s.garam && Gentle(cfg, s, step, g)
    requires OnPass(cfg, s, g, a, pins) && !s.poller.Idle?
    ensures var t := Next(cfg, s, step); OnPass(cfg, t, g, a, pins) && Apart(cfg, t, g) && g in t.garam
  {
    if step.Poll? && OnTurn(s.poller, g) {
      assert EntryOk(cfg, g, s.garam[g]);
      PollKeepsApart(cfg, s, Done, step.order, g);
      OrderIsForLists(cfg, s, step.order);
      PollMoves(cfg, s, Done, []);
      MovesList(s.poller, Polled(cfg, s, Done, []).poller, g);
      TurnMoves(cfg, s, g, a, pins);
    } else {
      BesideKeeps(cfg, s, step, g);
      assert Of(cfg, Next(cfg, s, step), g).entry.Some?;
      if step.Poll? { BesideOnPass(cfg, s, step.outcome, step.order, g, a, pins); }
    }
  }

  lemma OrderIsForLists(cfg: Config, s: State, order: seq<Grn>)
    requires !s.poller.Idle?
    ensures Polled(cfg, s, Done, order) == Polled(cfg, s, Done, [])
  {
  }

  lemma BesideOnPass(cfg: Config, s: State, outcome: Outcome, order: seq<Grn>, g: Grn, a: Slice, pins: map<string, string>)
    requires OnPass(cfg, s, g, a, pins) && !s.poller.Idle? && !OnTurn(s.poller, g)
    requires var t := Polled(cfg, s, outcome, order); Of(cfg, t, g) == Of(cfg, s, g)
    ensures OnPass(cfg, Polled(cfg, s, outcome, order), g, a, pins)
  {
    var p, q := s.poller, Polled(cfg, s, outcome, order).poller;
    PollMoves(cfg, s, outcome, order);
    MovesList(p, q, g);
    if Listing(q, g) {
      forall i | 0 <= i < |q.todo| && q.todo[i].agent == g
        ensures (q.todo[i].claim.Some? <==> a.entry.value.claimed) && q.todo[i].pins == pins
      {
        assert p.Working? ==> q.todo[i] == p.todo[i + 1];
      }
    }
  }

  /** The list puts every defined agent on the pass. */
  lemma ListStarts(cfg: Config, s: State, order: seq<Grn>, g: Grn)
    requires s.poller.Idle? && Enumerates(order, s.garam.Keys) && g in s.garam
    ensures OnPass(cfg, List(s, Done, order), g, Of(cfg, s, g), s.garam[g].pins)
  {
    var t := List(s, Done, order);
    var i :| 0 <= i < |order| && order[i] == g;
    assert t.poller.todo[i].agent == g;
    assert Listing(t.poller, g);
    assert Of(cfg, t, g) == Of(cfg, s, g);
  }

  /** What is kept along a calm trace. */
  ghost predicate Sound(cfg: Config, s: State, g: Grn) { Reachable(cfg, s) && Apart(cfg, s, g) && g in s.garam }

  lemma StepIsReachable(cfg: Config, s: State, step: Step)
    requires Reachable(cfg, s)
    ensures Reachable(cfg, Next(cfg, s, step))
  {
    var steps :| s == Run(cfg, START, steps);
    RunAppends(cfg, START, steps, [step]);
    RunOne(cfg, s, step);
    assert Next(cfg, s, step) == Run(cfg, START, steps + [step]);
  }

  lemma IdleAt(cfg: Config, tr: seq<State>, steps: seq<Step>, g: Grn, i: nat)
    requires cfg.Injective() && Trace(cfg, tr, steps) && Calm(cfg, tr, steps, g) && i < |steps|
    requires Sound(cfg, tr[i], g) && tr[i].poller.Idle?
    ensures Sound(cfg, tr[i + 1], g) && Of(cfg, tr[i + 1], g) == Of(cfg, tr[i], g)
  {
    assert StepAt(cfg, tr, steps, i) && Gentle(cfg, tr[i], steps[i], g);
    ReachableOk(cfg, tr[i]);
    StepIsReachable(cfg, tr[i], steps[i]);
    BesideKeeps(cfg, tr[i], steps[i], g);
    assert Of(cfg, tr[i + 1], g).entry.Some?;
  }

  lemma {:induction false} BeforeList(cfg: Config, tr: seq<State>, steps: seq<Step>, k: nat, g: Grn, i: nat)
    requires cfg.Injective() && IsPass(cfg, tr, steps, k) && Calm(cfg, tr, steps, g) && Sound(cfg, tr[0], g) && i <= k
    ensures Sound(cfg, tr[i], g) && Of(cfg, tr[i], g) == Of(cfg, tr[0], g)
  {
    if i > 0 {
      BeforeList(cfg, tr, steps, k, g, i - 1);
      IdleAt(cfg, tr, steps, g, i - 1);
    }
  }

  lemma PassBegins(cfg: Config, tr: seq<State>, steps: seq<Step>, k: nat, g: Grn)
    requires cfg.Injective() && IsPass(cfg, tr, steps, k) && Sound(cfg, tr[k], g)
    ensures Sound(cfg, tr[k + 1], g) && OnPass(cfg, tr[k + 1], g, Of(cfg, tr[k], g), tr[k].garam[g].pins)
  {
    assert StepAt(cfg, tr, steps, k);
    StepIsReachable(cfg, tr[k], steps[k]);
    ListStarts(cfg, tr[k], steps[k].order, g);
  }

  lemma PassAt(cfg: Config, tr: seq<State>, steps: seq<Step>, g: Grn, a: Slice, i: nat, pins: map<string, string>)
    requires cfg.Injective() && Trace(cfg, tr, steps) && Calm(cfg, tr, steps, g) && i < |steps|
    requires Sound(cfg, tr[i], g) && OnPass(cfg, tr[i], g, a, pins) && !tr[i].poller.Idle?
    ensures Sound(cfg, tr[i + 1], g) && OnPass(cfg, tr[i + 1], g, a, pins)
  {
    assert StepAt(cfg, tr, steps, i) && Gentle(cfg, tr[i], steps[i], g);
    ReachableOk(cfg, tr[i]);
    StepIsReachable(cfg, tr[i], steps[i]);
    OnPassStep(cfg, tr[i], steps[i], g, a, pins);
  }

  /** From `j` to the end of the trace. */
  lemma {:induction false} AfterList(cfg: Config, tr: seq<State>, steps: seq<Step>, g: Grn, a: Slice, j: nat, pins: map<string, string>)
    requires cfg.Injective() && Trace(cfg, tr, steps) && Calm(cfg, tr, steps, g) && j <= |steps|
    requires forall i :: j <= i < |steps| ==> !tr[i].poller.Idle?
    requires Sound(cfg, tr[j], g) && OnPass(cfg, tr[j], g, a, pins)
    ensures Sound(cfg, tr[|steps|], g) && OnPass(cfg, tr[|steps|], g, a, pins)
    decreases |steps| - j
  {
    if j < |steps| {
      PassAt(cfg, tr, steps, g, a, j, pins);
      AfterList(cfg, tr, steps, g, a, j + 1, pins);
    }
  }

  /** One pass that is calm for an agent moves that agent forward, whatever happens to the others. */
  lemma OnePass(cfg: Config, tr: seq<State>, steps: seq<Step>, k: nat, g: Grn)
    requires cfg.Injective() && IsPass(cfg, tr, steps, k) && Calm(cfg, tr, steps, g) && Sound(cfg, tr[0], g)
    ensures Sound(cfg, tr[|steps|], g) && tr[|steps|].poller.Idle? && g in tr[k].garam
    ensures Progress(cfg, Of(cfg, tr[0], g), Of(cfg, tr[|steps|], g), g, tr[k].garam[g].pins)
  {
    BeforeList(cfg, tr, steps, k, g, k);
    PassBegins(cfg, tr, steps, k, g);
    AfterList(cfg, tr, steps, g, Of(cfg, tr[0], g), k + 1, tr[k].garam[g].pins);
  }

  /** Nothing is left to do about `g`: claimed, its image current, and a credential under its name where it is held. */
  ghost predicate Quiet(cfg: Config, x: Slice, g: Grn) {
    && x.entry.Some? && x.entry.value.claimed
    && Current(cfg, x, g) && (Held(cfg, x) ==> x.secret.Some?)
  }

  /** Progress made twice. */
  lemma TwiceProgress(cfg: Config, a: Slice, b: Slice, c: Slice, g: Grn, first: map<string, string>, second: map<string, string>)
    requires Progress(cfg, a, b, g, first) && Progress(cfg, b, c, g, second)
    ensures Placeable(cfg, a, g) ==> Quiet(cfg, c, g)
    ensures Current(cfg, c, g)
    ensures !a.entry.value.claimed || Held(cfg, a) ==>
      && Held(cfg, c) && (Built(c, g) <==> Owned(a, g) && Placeable(cfg, a, g))
      && (a.agent.None? && a.secret.None? ==> c.agent.Some? && c.agent.value.spec == SpecFor(cfg, g, first))
    ensures a.agent.Some? ==> SameButImage(a, c)
  {
  }

  /** Two passes are enough, whatever a crash left behind and whatever users edited before.  An agent unclaimed or held at
      the start is held after two passes calm for it, and an Agent recorded for it runs the configured image.  It is
      built, with its record and its credential under its Agent, if and only if at the start no credential under its name
      had outlived its Agent and no user had made its Agent name another Secret before one was placed.  The second pass
      is for an Agent adopted by the first with an image from an older configuration.  An Agent there was none of carries
      the pins garam declared at the first list and the configured storage size; one that was there keeps its spec but
      for the image, so pins declared later reach nothing. */
  lemma TwoPassesBuild(cfg: Config, p1: seq<State>, s1: seq<Step>, k1: nat, p2: seq<State>, s2: seq<Step>, k2: nat, g: Grn)
    requires cfg.Injective() && IsPass(cfg, p1, s1, k1) && IsPass(cfg, p2, s2, k2) && p2[0] == p1[|s1|]
    requires Reachable(cfg, p1[0]) && Apart(cfg, p1[0], g) && g in p1[0].garam
    requires Calm(cfg, p1, s1, g) && Calm(cfg, p2, s2, g)
    ensures var a, x := Of(cfg, p1[0], g), Of(cfg, p2[|s2|], g);
      && Sound(cfg, p2[|s2|], g) && Current(cfg, x, g) && (Placeable(cfg, a, g) ==> Quiet(cfg, x, g))
      && (!a.entry.value.claimed || Held(cfg, a) ==>
            Held(cfg, x) && (Built(x, g) <==> Owned(a, g) && Placeable(cfg, a, g)))
      && (Built(x, g) ==> x.agent.value.spec.image == cfg.image)
    ensures var a, x := Of(cfg, p1[0], g), Of(cfg, p2[|s2|], g);
      && g in p1[k1].garam
      && (a.agent.Some? ==> SameButImage(a, x))
      && ((!a.entry.value.claimed || Held(cfg, a)) && a.agent.None? && a.secret.None? ==>
            x.agent.Some? && x.agent.value.spec == SpecFor(cfg, g, p1[k1].garam[g].pins))
  {
    OnePass(cfg, p1, s1, k1, g);
    OnePass(cfg, p2, s2, k2, g);
    TwiceProgress(cfg, Of(cfg, p1[0], g), Of(cfg, p2[0], g), Of(cfg, p2[|s2|], g), g,
                  p1[k1].garam[g].pins, p2[k2].garam[g].pins);
  }

  // ------------------------------------------------------------------- the third pass

  /** With nothing left to do, the agent's turn goes no further than the look for its credential, or than a certificate
      refused for an agent held elsewhere. */
  ghost predicate AtEase(cfg: Config, s: State, g: Grn) {
    var x, p := Of(cfg, s, g), s.poller;
    && Distinct(p) && Quiet(cfg, x, g)
    && (Listing(p, g) ==> forall i :: 0 <= i < |p.todo| && p.todo[i].agent == g ==> p.todo[i].claim.Some?)
    && (!p.Idle? && !p.Working? && p.d.agent == g ==>
          p.Correcting? || p.Checking? || (p.Asking? && !Held(cfg, x)))
  }

  /** The poller wrote nothing, and asked nothing of garam but a certificate of an agent it does not hold. */
  ghost predicate Spared(cfg: Config, s: State, t: State, g: Grn) {
    && t.cluster == s.cluster && t.history == s.history && t.garam.Keys == s.garam.Keys && g in s.garam
    && (forall h :: h in s.garam && h != g ==> t.garam[h] == s.garam[h])
    && t.garam[g] == s.garam[g].(certificateCalls := t.garam[g].certificateCalls)
    && (HeldBy(cfg, s.garam, g) ==> t.garam[g] == s.garam[g])
  }

  lemma TurnIsSpared(cfg: Config, s: State, g: Grn)
    requires Inv(cfg, s) && AtEase(cfg, s, g) && OnTurn(s.poller, g) && g in s.garam
    ensures var t := Polled(cfg, s, Done, []);
      && Spared(cfg, s, t, g) && Quiet(cfg, Of(cfg, t, g), g)
      && (!t.poller.Idle? && !t.poller.Working? ==>
            t.poller.d.agent == g && (t.poller.Correcting? || t.poller.Checking? || (t.poller.Asking? && !Held(cfg, Of(cfg, t, g)))))
  {
    if s.poller.Working? { assert s.poller.todo[0].agent == g && Listing(s.poller, g); }
  }

  lemma SoundStep(cfg: Config, s: State, step: Step, g: Grn)
    requires cfg.Injective() && Sound(cfg, s, g) && Gentle(cfg, s, step, g)
    ensures Sound(cfg, Next(cfg, s, step), g)
  {
    ReachableOk(cfg, s);
    StepIsReachable(cfg, s, step);
    if step.Poll? {
      assert EntryOk(cfg, g, s.garam[g]);
      PollKeepsApart(cfg, s, step.outcome, step.order, g);
      PollTouchesGaram(cfg, s, step.outcome, step.order, g);
    } else {
      BesideKeeps(cfg, s, step, g);
      assert Of(cfg, Next(cfg, s, step), g).entry.Some?;
    }
  }

  lemma AtEaseStep(cfg: Config, s: State, step: Step, g: Grn)
    requires cfg.Injective() && Sound(cfg, s, g) && Gentle(cfg, s, step, g) && AtEase(cfg, s, g) && !s.poller.Idle?
    ensures AtEase(cfg, Next(cfg, s, step), g)
    ensures step.Poll? && OnTurn(s.poller, g) ==> Spared(cfg, s, Next(cfg, s, step), g)
  {
    ReachableOk(cfg, s);
    if step.Poll? {
      var p, q := s.poller, Polled(cfg, s, step.outcome, step.order).poller;
      PollMoves(cfg, s, step.outcome, step.order);
      MovesList(p, q, g);
      if OnTurn(p, g) {
        OrderIsForLists(cfg, s, step.order);
        TurnIsSpared(cfg, s, g);
      } else {
        BesideKeeps(cfg, s, step, g);
        assert Listing(q, g) && p.Working? ==> forall i :: 0 <= i < |q.todo| ==> q.todo[i] == p.todo[i + 1];
      }
    } else {
      BesideKeeps(cfg, s, step, g);
    }
  }

  lemma EaseBegins(cfg: Config, s: State, order: seq<Grn>, g: Grn)
    requires s.poller.Idle? && Enumerates(order, s.garam.Keys) && g in s.garam && Quiet(cfg, Of(cfg, s, g), g)
    ensures AtEase(cfg, List(s, Done, order), g)
  {
    ListStarts(cfg, s, order, g);
    assert Of(cfg, List(s, Done, order), g) == Of(cfg, s, g);
  }

  lemma EaseListed(cfg: Config, tr: seq<State>, steps: seq<Step>, k: nat, g: Grn)
    requires cfg.Injective() && IsPass(cfg, tr, steps, k) && Calm(cfg, tr, steps, g) && Sound(cfg, tr[k], g)
    requires Quiet(cfg, Of(cfg, tr[k], g), g)
    ensures AtEase(cfg, tr[k + 1], g) && Sound(cfg, tr[k + 1], g)
  {
    assert StepAt(cfg, tr, steps, k) && Gentle(cfg, tr[k], steps[k], g);
    EaseBegins(cfg, tr[k], steps[k].order, g);
    SoundStep(cfg, tr[k], steps[k], g);
  }

  lemma EaseAt(cfg: Config, tr: seq<State>, steps: seq<Step>, g: Grn, i: nat)
    requires cfg.Injective() && Trace(cfg, tr, steps) && Calm(cfg, tr, steps, g) && i < |steps|
    requires AtEase(cfg, tr[i], g) && Sound(cfg, tr[i], g) && !tr[i].poller.Idle?
    ensures AtEase(cfg, tr[i + 1], g) && Sound(cfg, tr[i + 1], g)
  {
    assert StepAt(cfg, tr, steps, i) && Gentle(cfg, tr[i], steps[i], g);
    AtEaseStep(cfg, tr[i], steps[i], g);
    SoundStep(cfg, tr[i], steps[i], g);
  }

  lemma {:induction false} EasyPass(cfg: Config, tr: seq<State>, steps: seq<Step>, k: nat, g: Grn, i: nat)
    requires cfg.Injective() && IsPass(cfg, tr, steps, k) && Calm(cfg, tr, steps, g) && Sound(cfg, tr[0], g)
    requires Quiet(cfg, Of(cfg, tr[0], g), g) && k < i <= |steps|
    ensures AtEase(cfg, tr[i], g) && Sound(cfg, tr[i], g)
  {
    if i == k + 1 {
      BeforeList(cfg, tr, steps, k, g, k);
      EaseListed(cfg, tr, steps, k, g);
    } else {
      EasyPass(cfg, tr, steps, k, g, i - 1);
      assert !tr[i - 1].poller.Idle?;
      EaseAt(cfg, tr, steps, g, i - 1);
    }
  }

  /** Crash safety.  After two passes calm for an agent, no step of a third that the poller takes about it writes an
      object or makes a claim, and none asks a certificate if this operator holds the agent, provided nothing was in the way
      of placing its credential. */
  lemma ThirdPassDoesNothing(cfg: Config, p1: seq<State>, s1: seq<Step>, k1: nat, p2: seq<State>, s2: seq<Step>, k2: nat,
                             p3: seq<State>, s3: seq<Step>, k3: nat, g: Grn, i: nat)
    requires cfg.Injective() && IsPass(cfg, p1, s1, k1) && IsPass(cfg, p2, s2, k2) && IsPass(cfg, p3, s3, k3)
    requires p2[0] == p1[|s1|] && p3[0] == p2[|s2|]
    requires Reachable(cfg, p1[0]) && Apart(cfg, p1[0], g) && g in p1[0].garam && Placeable(cfg, Of(cfg, p1[0], g), g)
    requires Calm(cfg, p1, s1, g) && Calm(cfg, p2, s2, g) && Calm(cfg, p3, s3, g)
    requires i < |s3| && s3[i].Poll? && OnTurn(p3[i].poller, g)
    ensures Spared(cfg, p3[i], p3[i + 1], g)
  {
    TwoPassesBuild(cfg, p1, s1, k1, p2, s2, k2, g);
    EasyPass(cfg, p3, s3, k3, g, i);
    assert StepAt(cfg, p3, s3, i) && Gentle(cfg, p3[i], s3[i], g);
    AtEaseStep(cfg, p3[i], s3[i], g);
  }

  /** The proviso is exact: a third pass has one more certificate issued to an agent this operator may hold if and only if
      something was in the way of placing the first. */
  lemma ThirdPassIssuesIff(cfg: Config, p1: seq<State>, s1: seq<Step>, k1: nat, p2: seq<State>, s2: seq<Step>, k2: nat,
                           p3: seq<State>, s3: seq<Step>, k3: nat, g: Grn)
    requires cfg.Injective() && IsPass(cfg, p1, s1, k1) && IsPass(cfg, p2, s2, k2) && IsPass(cfg, p3, s3, k3)
    requires p2[0] == p1[|s1|] && p3[0] == p2[|s2|]
    requires Reachable(cfg, p1[0]) && Apart(cfg, p1[0], g) && g in p1[0].garam
    requires Calm(cfg, p1, s1, g) && Calm(cfg, p2, s2, g) && Calm(cfg, p3, s3, g)
    requires var a := Of(cfg, p1[0], g); !a.entry.value.claimed || Held(cfg, a)
    ensures var a, b, c := Of(cfg, p1[0], g), Of(cfg, p3[0], g), Of(cfg, p3[|s3|], g);
      && b.entry.Some? && c.entry.Some?
      && c.entry.value.issued == b.entry.value.issued + (if Placeable(cfg, a, g) then 0 else 1)
  {
    OnePass(cfg, p1, s1, k1, g);
    OnePass(cfg, p2, s2, k2, g);
    OnePass(cfg, p3, s3, k3, g);
  }

  lemma {:induction false} TraceKeeps(cfg: Config, tr: seq<State>, steps: seq<Step>, i: nat)
    requires cfg.Injective() && Trace(cfg, tr, steps) && Inv(cfg, tr[0]) && i <= |steps|
    ensures Inv(cfg, tr[i])
  {
    if i > 0 {
      TraceKeeps(cfg, tr, steps, i - 1);
      assert StepAt(cfg, tr, steps, i - 1);
      StepKeeps(cfg, tr[i - 1], steps[i - 1]);
    }
  }

  /** And where the passes are calm for every agent and none is defined meanwhile, the third writes no object at all. */
  lemma ThirdPassWritesNothing(cfg: Config, p1: seq<State>, s1: seq<Step>, k1: nat, p2: seq<State>, s2: seq<Step>, k2: nat,
                               p3: seq<State>, s3: seq<Step>, k3: nat, i: nat)
    requires cfg.Injective() && IsPass(cfg, p1, s1, k1) && IsPass(cfg, p2, s2, k2) && IsPass(cfg, p3, s3, k3)
    requires p2[0] == p1[|s1|] && p3[0] == p2[|s2|] && Reachable(cfg, p1[0])
    requires forall g :: g in p1[0].garam ==> Apart(cfg, p1[0], g) && Placeable(cfg, Of(cfg, p1[0], g), g)
    requires forall g :: g in p1[0].garam ==> Calm(cfg, p1, s1, g) && Calm(cfg, p2, s2, g) && Calm(cfg, p3, s3, g)
    requires i < |s3| && s3[i].Poll? && p3[i].garam.Keys <= p1[0].garam.Keys
    ensures p3[i + 1].cluster == p3[i].cluster
  {
    assert StepAt(cfg, p3, s3, i);
    var p := p3[i].poller;
    if !p.Idle? && p != Working([]) {
      ReachableOk(cfg, p1[0]);
      TraceKeeps(cfg, p1, s1, |s1|);
      TraceKeeps(cfg, p2, s2, |s2|);
      TraceKeeps(cfg, p3, s3, i);
      var g := if p.Working? then p.todo[0].agent else p.d.agent;
      assert p.Working? ==> DefinitionOk(p3[i].garam, p.todo[0]);
      assert g in p3[i].garam.Keys;
      ThirdPassDoesNothing(cfg, p1, s1, k1, p2, s2, k2, p3, s3, k3, g, i);
    }
  }

  /** A trace of nothing but the poller's own successful calls. */
  ghost predicate Alone(steps: seq<Step>) {
    forall i :: 0 <= i < |steps| ==> steps[i].Poll? && steps[i].outcome.Done?
  }

  lemma AloneIsCalm(cfg: Config, tr: seq<State>, steps: seq<Step>, g: Grn)
    requires |tr| == |steps| + 1 && Alone(steps)
    ensures Calm(cfg, tr, steps, g)
  {
  }

  lemma PollKeepsKeys(cfg: Config, s: State, outcome: Outcome, order: seq<Grn>)
    ensures Polled(cfg, s, outcome, order).garam.Keys == s.garam.Keys
  {
    match s.poller
    case Working(_) =>
    case Creating(_, _, _, _) =>
    case Recording(_, _, _, _, _) =>
    case _ =>
  }

  lemma {:induction false} AloneKeepsKeys(cfg: Config, tr: seq<State>, steps: seq<Step>, i: nat)
    requires Trace(cfg, tr, steps) && Alone(steps) && i <= |steps|
    ensures tr[i].garam.Keys == tr[0].garam.Keys
  {
    if i > 0 {
      AloneKeepsKeys(cfg, tr, steps, i - 1);
      assert StepAt(cfg, tr, steps, i - 1);
      PollKeepsKeys(cfg, tr[i - 1], Done, steps[i - 1].order);
    }
  }

  /** Three passes left to themselves: the third ends with the cluster the second left. */
  lemma {:induction false} ThirdPassAlone(cfg: Config, p1: seq<State>, s1: seq<Step>, k1: nat, p2: seq<State>, s2: seq<Step>,
                                          k2: nat, p3: seq<State>, s3: seq<Step>, k3: nat, i: nat)
    requires cfg.Injective() && IsPass(cfg, p1, s1, k1) && IsPass(cfg, p2, s2, k2) && IsPass(cfg, p3, s3, k3)
    requires p2[0] == p1[|s1|] && p3[0] == p2[|s2|] && Reachable(cfg, p1[0])
    requires forall g :: g in p1[0].garam ==> Apart(cfg, p1[0], g) && Placeable(cfg, Of(cfg, p1[0], g), g)
    requires Alone(s1) && Alone(s2) && Alone(s3) && i <= |s3|
    ensures p3[i].cluster == p3[0].cluster
  {
    if i > 0 {
      ThirdPassAlone(cfg, p1, s1, k1, p2, s2, k2, p3, s3, k3, i - 1);
      AloneKeepsKeys(cfg, p1, s1, |s1|);
      AloneKeepsKeys(cfg, p2, s2, |s2|);
      AloneKeepsKeys(cfg, p3, s3, i - 1);
      forall g | g in p1[0].garam ensures Calm(cfg, p1, s1, g) && Calm(cfg, p2, s2, g) && Calm(cfg, p3, s3, g) {
        AloneIsCalm(cfg, p1, s1, g);
        AloneIsCalm(cfg, p2, s2, g);
        AloneIsCalm(cfg, p3, s3, g);
      }
      ThirdPassWritesNothing(cfg, p1, s1, k1, p2, s2, k2, p3, s3, k3, i - 1);
    }
  }

  // --------------------------------------------------------------- passes exist

  function Stage(p: Poller): nat {
    match p
    case Idle => 0
    case Working(_) => 1
    case Correcting(_, _, _) => 10
    case Patching(_, _, _) => 9
    case Checking(_, _, _) => 8
    case Asking(_, _, _) => 7
    case Creating(_, _, _, _) => 6
    case Adopting(_, _, _, _) => 5
    case Recording(_, _, _, _, _) => 4
    case Placing(_, _, _, _, _) => 3
  }

  function Rank(p: Poller): nat {
    if p.Idle? then 0 else 10 * |p.todo| + Stage(p)
  }

  lemma RankFalls(cfg: Config, s: State)
    requires !s.poller.Idle?
    ensures Rank(Polled(cfg, s, Done, []).poller) < Rank(s.poller)
  {
  }

  /** The rest of a pass in which every call succeeds and nothing else happens. */
  lemma {:induction false} RestOfPass(cfg: Config, s: State) returns (tr: seq<State>, steps: seq<Step>)
    ensures Trace(cfg, tr, steps) && tr[0] == s && tr[|steps|].poller.Idle?
    ensures forall i :: 0 <= i < |steps| ==> steps[i] == Poll(Done, []) && !tr[i].poller.Idle?
    decreases Rank(s.poller)
  {
    if s.poller.Idle? {
      tr, steps := [s], [];
    } else {
      RankFalls(cfg, s);
      var rest, more := RestOfPass(cfg, Polled(cfg, s, Done, []));
      tr, steps := [s] + rest, [Poll(Done, [])] + more;
      forall i | 0 <= i < |steps| ensures StepAt(cfg, tr, steps, i) && steps[i] == Poll(Done, []) && !tr[i].poller.Idle? {
        if i > 0 { assert StepAt(cfg, rest, more, i - 1) && steps[i] == more[i - 1] && tr[i] == rest[i - 1]; }
      }
    }
  }

  /** A pass left to itself always comes to an end, and is calm for everyone. */
  lemma PassExists(cfg: Config, s: State, order: seq<Grn>) returns (tr: seq<State>, steps: seq<Step>)
    requires s.poller.Idle? && Enumerates(order, s.garam.Keys)
    ensures IsPass(cfg, tr, steps, 0) && tr[0] == s && forall g :: Calm(cfg, tr, steps, g)
  {
    var rest, more := RestOfPass(cfg, List(s, Done, order));
    tr, steps := [s] + rest, [Poll(Done, order)] + more;
    forall i | 0 <= i < |steps| ensures StepAt(cfg, tr, steps, i) {
      if i > 0 { assert StepAt(cfg, rest, more, i - 1) && steps[i] == more[i - 1] && tr[i] == rest[i - 1]; }
    }
  }
}
