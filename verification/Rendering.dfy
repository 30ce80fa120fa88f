/** What the workload builder promises over any sequence of edits: idempotence, path independence, independence of
    the optional features, and closed mounts. */
module Rendering {
  import opened Prelude
  import opened Api
  import opened Workload

  // ------------------------------------------------------------- lists of containers

  lemma {:induction false} IndexOfAppend(a: seq<Container>, b: seq<Container>, name: string)
    ensures IndexOf(a + b, name) == if Has(a, name) then IndexOf(a, name) else |a| + IndexOf(b, name)
  {
    if a == [] {
      assert a + b == b;
    } else if a[0].name != name {
      IndexOfAppend(a[1..], b, name);
      assert (a + b)[1..] == a[1..] + b;
    }
  }

  lemma {:induction false} WithoutAppend(a: seq<Container>, b: seq<Container>, name: string)
    ensures Without(a + b, name) == Without(a, name) + Without(b, name)
  {
    if a == [] {
      assert a + b == b;
    } else {
      var rest := a[1..];
      assert (a + b)[1..] == rest + b && (a + b)[0] == a[0];
      WithoutAppend(rest, b, name);
      assert [a[0]] + (Without(rest, name) + Without(b, name)) == [a[0]] + Without(rest, name) + Without(b, name);
    }
  }

  lemma {:induction false} WithoutAbsent(cs: seq<Container>, name: string)
    ensures Without(cs, name) == cs <==> !Has(cs, name)
  {
    if cs != [] {
      WithoutAbsent(cs[1..], name);
      if cs[0].name == name {
        assert |Without(cs[1..], name)| < |cs|;
      }
    }
  }

  /** The index of a name depends only on the names. */
  lemma {:induction false} IndexOfByNames(a: seq<Container>, b: seq<Container>, name: string)
    requires |a| == |b| && forall i :: 0 <= i < |a| ==> a[i].name == b[i].name
    ensures IndexOf(a, name) == IndexOf(b, name)
  {
    if a != [] && a[0].name != name { IndexOfByNames(a[1..], b[1..], name); }
  }

  lemma UpsertNames(cs: seq<Container>, name: string, o: Overlay, other: string)
    ensures |Upsert(cs, name, o)| == |Ensured(cs, name)|
    ensures IndexOf(Upsert(cs, name, o), other) == IndexOf(Ensured(cs, name), other)
    ensures Has(Upsert(cs, name, o), name) && IndexOf(Upsert(cs, name, o), name) == IndexOf(cs, name)
    ensures other != name ==> (Has(Upsert(cs, name, o), other) <==> Has(cs, other))
  {
    IndexOfByNames(Upsert(cs, name, o), Ensured(cs, name), other);
    IndexOfByNames(Upsert(cs, name, o), Ensured(cs, name), name);
    IndexOfAppend(cs, [Empty(name)], name);
    IndexOfAppend(cs, [Empty(name)], other);
    assert IndexOf([Empty(name)], name) == 0;
    assert other != name ==> IndexOf([Empty(name)], other) == 1;
  }

  /** A list whose tail does not matter to a name already in its front. */
  lemma UpsertFront(a: seq<Container>, b: seq<Container>, name: string, o: Overlay)
    requires Has(a, name)
    ensures Upsert(a + b, name, o) == Upsert(a, name, o) + b
  {
    IndexOfAppend(a, b, name);
  }

  /** Two writes of the same fields leave what the second leaves. */
  ghost predicate SameFields(o: Overlay, p: Overlay) {
    && (o.command.Some? <==> p.command.Some?) && (o.env.Some? <==> p.env.Some?)
    && (o.resources.Some? <==> p.resources.Some?)
  }

  lemma UpsertTwice(cs: seq<Container>, name: string, o: Overlay, p: Overlay)
    requires SameFields(o, p)
    ensures Upsert(Upsert(cs, name, o), name, p) == Upsert(cs, name, p)
  {
    UpsertNames(cs, name, o, name);
  }

  lemma UpsertFixpoint(cs: seq<Container>, name: string, o: Overlay)
    ensures Upsert(cs, name, o) == cs <==> Has(cs, name) && Overlaid(o, cs[IndexOf(cs, name)]) == cs[IndexOf(cs, name)]
  {
    if !Has(cs, name) {
      assert |Upsert(cs, name, o)| == |cs| + 1;
    }
  }

  // ------------------------------------------------------------------ idempotence

  lemma {:induction false} WithoutHas(cs: seq<Container>, name: string, other: string)
    ensures !Has(Without(cs, name), name)
    ensures other != name ==> (Has(Without(cs, name), other) <==> Has(cs, other))
    ensures other != name && Has(cs, other) ==>
      Without(cs, name)[IndexOf(Without(cs, name), other)] == cs[IndexOf(cs, other)]
  {
    if cs != [] {
      WithoutHas(cs[1..], name, other);
      if cs[0].name != name {
        assert Without(cs, name)[1..] == Without(cs[1..], name);
      }
    }
  }

  /** A container of this name is there and already carries every field of the overlay. */
  ghost predicate Carries(cs: seq<Container>, name: string, o: Overlay) {
    Has(cs, name) && Overlaid(o, cs[IndexOf(cs, name)]) == cs[IndexOf(cs, name)]
  }

  ghost predicate CarriesBoth(cs: seq<Container>, main: string, o: Overlay, extra: string, x: Option<Overlay>) {
    Carries(cs, main, o) && (if x.Some? then Carries(cs, extra, x.value) else !Has(cs, extra))
  }

  lemma RenderedCarries(cs: seq<Container>, main: string, o: Overlay, extra: string, x: Option<Overlay>)
    requires main != extra
    ensures CarriesBoth(Rendered(cs, main, o, extra, x), main, o, extra, x)
  {
    var kept := Upsert(cs, main, o);
    UpsertNames(cs, main, o, main);
    if x.Some? {
      UpsertNames(kept, extra, x.value, main);
      IndexOfAppend(kept, [Empty(extra)], main);
      IndexOfAppend(kept, [Empty(extra)], extra);
    } else {
      WithoutHas(kept, extra, main);
    }
  }

  /** The builder leaves a list of containers alone exactly when it already carries what the spec asks for. */
  lemma RenderedFixpoint(cs: seq<Container>, main: string, o: Overlay, extra: string, x: Option<Overlay>)
    requires main != extra
    ensures Rendered(cs, main, o, extra, x) == cs <==> CarriesBoth(cs, main, o, extra, x)
  {
    if CarriesBoth(cs, main, o, extra, x) {
      UpsertFixpoint(cs, main, o);
      if x.Some? { UpsertFixpoint(cs, extra, x.value); } else { WithoutAbsent(cs, extra); }
    }
    RenderedCarries(cs, main, o, extra, x);
  }

  /** Of one container, a change that keeps every field the builder writes on a container of that name. */
  predicate Fills(a: Container, b: Container) {
    && b.name == a.name
    && (a.name in {AGENT, CREDENTIALS, CONFIG, WORKSPACE} ==>
          && b.image == a.image && b.imagePullPolicy == a.imagePullPolicy
          && b.security == a.security && b.mounts == a.mounts)
    && (a.name in {CREDENTIALS, CONFIG} ==> b.command == a.command)
    && (a.name in {AGENT, CONFIG, WORKSPACE} ==> b.env == a.env)
    && (a.name == AGENT ==> b.resources == a.resources)
  }

  predicate FillsAll(a: seq<Container>, b: seq<Container>) {
    |a| == |b| && forall i :: 0 <= i < |a| ==> Fills(a[i], b[i])
  }

  /** The object the API server stores for `a`: created, with any field the builder never writes filled in. */
  predicate Stores(a: StatefulSet, b: StatefulSet) {
    && b.created && b.replicas == a.replicas && b.volumes == a.volumes && b.owners == a.owners
    && (a.podSecurity.Some? <==> b.podSecurity.Some?)
    && (a.podSecurity.Some? ==> b.podSecurity.value == a.podSecurity.value.(other := b.podSecurity.value.other))
    && FillsAll(a.inits, b.inits) && FillsAll(a.containers, b.containers)
  }

  lemma FillsKeepCarries(a: seq<Container>, b: seq<Container>, name: string, o: Overlay)
    requires FillsAll(a, b) && Carries(a, name, o)
    requires name in {AGENT, CREDENTIALS, CONFIG, WORKSPACE}
    requires o.command.Some? ==> name in {CREDENTIALS, CONFIG}
    requires o.env.Some? ==> name in {AGENT, CONFIG, WORKSPACE}
    requires o.resources.Some? ==> name == AGENT
    ensures Carries(b, name, o)
  {
    IndexOfByNames(a, b, name);
    assert Fills(a[IndexOf(a, name)], b[IndexOf(b, name)]);
  }

  lemma {:induction false} OwnedTwice(owners: seq<OwnerReference>, agent: Agent)
    ensures OwnedBy(OwnedBy(owners, agent), agent) == OwnedBy(owners, agent)
  {
    if owners != [] && !SameOwner(owners[0], agent) { OwnedTwice(owners[1..], agent); }
  }

  lemma {:induction false} OwnedIsNotForeign(owners: seq<OwnerReference>, agent: Agent)
    requires !ForeignController(owners, agent)
    ensures !ForeignController(OwnedBy(owners, agent), agent)
  {
    if owners != [] && !owners[0].controller && !SameOwner(owners[0], agent) {
      OwnedIsNotForeign(owners[1..], agent);
    }
  }

  /** The Agent's reference is there, and every other owner's still. */
  lemma {:induction false} OwnedKeeps(owners: seq<OwnerReference>, agent: Agent)
    ensures OwnerReference("Agent", agent.name, agent.uid, true) in OwnedBy(owners, agent)
    ensures forall r :: r in owners && !SameOwner(r, agent) ==> r in OwnedBy(owners, agent)
  {
    if owners != [] && !SameOwner(owners[0], agent) { OwnedKeeps(owners[1..], agent); }
  }

  lemma {:induction false} OwnedIsControlled(owners: seq<OwnerReference>, agent: Agent)
    ensures Controls(OwnedBy(owners, agent), agent.name)
  {
    var o := OwnedBy(owners, agent);
    if owners == [] || SameOwner(owners[0], agent) {
      assert o[0].controller;
    } else {
      OwnedIsControlled(owners[1..], agent);
      var i :| 0 <= i < |o[1..]| && o[1..][i].controller && o[1..][i].kind == "Agent" && o[1..][i].name == agent.name;
      assert o[i + 1].controller;
    }
  }

  /** Idempotence through the API server.  Whatever the server fills into the fields the builder never writes, building
      again from the stored object changes nothing, so an unchanged Agent writes its workload once. */
  lemma StoredIsFixpoint(cfg: Images, agent: Agent, s: StatefulSet, stored: StatefulSet)
    requires !Refused(cfg, agent, s) && Stores(Render(cfg, agent, s), stored)
    ensures Render(cfg, agent, stored) == stored && !Refused(cfg, agent, stored)
  {
    var built := Render(cfg, agent, s);
    InitsStored(cfg, agent.spec, s.inits, stored.inits);
    ContainersStored(cfg, agent.spec, s.containers, stored.containers);
    OwnedTwice(s.owners, agent);
    OwnedIsNotForeign(s.owners, agent);
  }

  lemma InitsStored(cfg: Images, spec: AgentSpec, cs: seq<Container>, stored: seq<Container>)
    requires FillsAll(Inits(cfg, spec, cs), stored)
    ensures Inits(cfg, spec, stored) == stored
  {
    var o := CredentialsOverlay(cfg);
    var x := if |spec.pins| != 0 then Some(ConfigOverlay(cfg, ConfigText(cfg, spec))) else None;
    RenderedCarries(cs, CREDENTIALS, o, CONFIG, x);
    FillsKeepCarries(Inits(cfg, spec, cs), stored, CREDENTIALS, o);
    if x.Some? { FillsKeepCarries(Inits(cfg, spec, cs), stored, CONFIG, x.value); }
    IndexOfByNames(Inits(cfg, spec, cs), stored, CONFIG);
    RenderedFixpoint(stored, CREDENTIALS, o, CONFIG, x);
  }

  lemma ContainersStored(cfg: Images, spec: AgentSpec, cs: seq<Container>, stored: seq<Container>)
    requires FillsAll(Containers(cfg, spec, cs), stored)
    ensures Containers(cfg, spec, stored) == stored
  {
    var o := AgentOverlay(cfg, spec);
    var x := if cfg.workspace != "" then Some(WorkspaceOverlay(cfg)) else None;
    RenderedCarries(cs, AGENT, o, WORKSPACE, x);
    FillsKeepCarries(Containers(cfg, spec, cs), stored, AGENT, o);
    if x.Some? { FillsKeepCarries(Containers(cfg, spec, cs), stored, WORKSPACE, x.value); }
    IndexOfByNames(Containers(cfg, spec, cs), stored, WORKSPACE);
    RenderedFixpoint(stored, AGENT, o, WORKSPACE, x);
  }

  // --------------------------------------------------------------- path independence

  /** From a list without the extra container, the builder's result is the kept part and then the extra one. */
  lemma RenderedShape(cs: seq<Container>, main: string, o: Overlay, extra: string, x: Option<Overlay>)
    requires main != extra && !Has(cs, extra)
    ensures Rendered(cs, main, o, extra, x) ==
      Upsert(cs, main, o) + (if x.Some? then [Overlaid(x.value, Empty(extra))] else [])
  {
    UpsertNames(cs, main, o, extra);
    WithoutAbsent(Upsert(cs, main, o), extra);
  }

  lemma ExtraTwice(kept: seq<Container>, extra: string, x: Option<Overlay>, y: Option<Overlay>)
    requires !Has(kept, extra) && (x.Some? && y.Some? ==> SameFields(x.value, y.value))
    ensures
      var all := kept + (if x.Some? then [Overlaid(x.value, Empty(extra))] else []);
      (if y.Some? then Upsert(all, extra, y.value) else Without(all, extra))
      == kept + (if y.Some? then [Overlaid(y.value, Empty(extra))] else [])
  {
    var tail := if x.Some? then [Overlaid(x.value, Empty(extra))] else [];
    if y.Some? {
      IndexOfAppend(kept, tail, extra);
      assert IndexOf(tail, extra) == 0;
    } else {
      WithoutAppend(kept, tail, extra);
      WithoutAbsent(kept, extra);
      assert Without(tail, extra) == [];
    }
  }

  /** Building twice, with different specs, is building once with the second. */
  lemma RenderedTwice(cs: seq<Container>, main: string, o: Overlay, p: Overlay, extra: string,
                      x: Option<Overlay>, y: Option<Overlay>)
    requires main != extra && !Has(cs, extra) && SameFields(o, p)
    requires x.Some? && y.Some? ==> SameFields(x.value, y.value)
    ensures Rendered(Rendered(cs, main, o, extra, x), main, p, extra, y) == Rendered(cs, main, p, extra, y)
  {
    var base, kept := Upsert(cs, main, o), Upsert(cs, main, p);
    var tail := if x.Some? then [Overlaid(x.value, Empty(extra))] else [];
    RenderedShape(cs, main, o, extra, x);
    RenderedShape(cs, main, p, extra, y);
    UpsertNames(cs, main, o, main);
    UpsertFront(base, tail, main, p);
    UpsertTwice(cs, main, o, p);
    UpsertNames(cs, main, p, extra);
    assert Upsert(base + tail, main, p) == kept + tail;
    ExtraTwice(kept, extra, x, y);
  }

  /** One build: the operator's configuration and the Agent as they stood. */
  datatype Build = Build(cfg: Images, agent: Agent)

  /** The object after each build in turn, where the API server stores just what it was given. */
  function Built(s: StatefulSet, builds: seq<Build>): StatefulSet
    decreases |builds|
  {
    if builds == [] then s
    else
      var last := builds[|builds| - 1];
      Render(last.cfg, last.agent, Built(s, builds[..|builds| - 1])).(created := true)
  }

  ghost predicate Plain(s: StatefulSet) { !Has(s.inits, CONFIG) && !Has(s.containers, WORKSPACE) }

  lemma BuildAbsorbs(s: StatefulSet, t: StatefulSet, a: Build, b: Build)
    requires Plain(s)
    requires t.inits == Inits(a.cfg, a.agent.spec, s.inits) && t.containers == Containers(a.cfg, a.agent.spec, s.containers)
    requires t.podSecurity == Some(Secured(s.podSecurity))
    ensures Inits(b.cfg, b.agent.spec, t.inits) == Inits(b.cfg, b.agent.spec, s.inits)
    ensures Containers(b.cfg, b.agent.spec, t.containers) == Containers(b.cfg, b.agent.spec, s.containers)
    ensures Secured(t.podSecurity) == Secured(s.podSecurity)
  {
    RenderedTwice(s.inits, CREDENTIALS, CredentialsOverlay(a.cfg), CredentialsOverlay(b.cfg), CONFIG,
      if |a.agent.spec.pins| != 0 then Some(ConfigOverlay(a.cfg, ConfigText(a.cfg, a.agent.spec))) else None,
      if |b.agent.spec.pins| != 0 then Some(ConfigOverlay(b.cfg, ConfigText(b.cfg, b.agent.spec))) else None);
    RenderedTwice(s.containers, AGENT, AgentOverlay(a.cfg, a.agent.spec), AgentOverlay(b.cfg, b.agent.spec), WORKSPACE,
      if a.cfg.workspace != "" then Some(WorkspaceOverlay(a.cfg)) else None,
      if b.cfg.workspace != "" then Some(WorkspaceOverlay(b.cfg)) else None);
  }

  /** Path independence, to the letter.  From an object with neither optional container, any sequence of specs and
      configurations leaves the Pod the last of them alone leaves, with every field nobody owns as it was, while labels,
      selector and claim stay as they were at creation. */
  lemma {:induction false} ExactlyTheLastBuild(s: StatefulSet, builds: seq<Build>)
    requires Plain(s) && builds != []
    ensures
      var last, t := builds[|builds| - 1], Built(s, builds);
      var direct := Render(last.cfg, last.agent, s);
      && t.inits == direct.inits && t.containers == direct.containers && t.volumes == direct.volumes
      && t.podSecurity == direct.podSecurity && t.replicas == direct.replicas
      && t.created && t.readyReplicas == s.readyReplicas && t.other == s.other
    ensures
      var first, t := AtCreation(builds[0].agent, s), Built(s, builds);
      && t.claims == first.claims && t.selector == first.selector
      && t.labels == first.labels && t.templateLabels == first.templateLabels
    decreases |builds|
  {
    var front, last := builds[..|builds| - 1], builds[|builds| - 1];
    if front == [] {
      assert Built(s, front) == s;
    } else {
      ExactlyTheLastBuild(s, front);
      BuildAbsorbs(s, Built(s, front), front[|front| - 1], last);
    }
  }

  // ------------------------------------------- path independence through the API server

  /** The object as the API server keeps it: filled in as it likes, and otherwise as given. */
  predicate Keeps(a: StatefulSet, b: StatefulSet) {
    && Stores(a, b) && b.claims == a.claims && b.readyReplicas == a.readyReplicas
    && b.labels == a.labels && b.selector == a.selector && b.templateLabels == a.templateLabels
  }

  /** The builds written to one object, and what was stored after each.  A build that is refused writes nothing, and is
      none of them. */
  ghost predicate StoredInTurn(builds: seq<Build>, objects: seq<StatefulSet>) {
    |objects| == |builds| + 1 && forall i :: 0 <= i < |builds| ==> StoredAt(builds, objects, i)
  }

  ghost predicate StoredAt(builds: seq<Build>, objects: seq<StatefulSet>, i: nat)
    requires i < |builds| && |objects| == |builds| + 1
  {
    && !Refused(builds[i].cfg, builds[i].agent, objects[i])
    && Keeps(Render(builds[i].cfg, builds[i].agent, objects[i]), objects[i + 1])
  }

  lemma FillsTwice(a: seq<Container>, b: seq<Container>, c: seq<Container>)
    requires FillsAll(a, b) && FillsAll(b, c)
    ensures FillsAll(a, c)
  {
    forall i | 0 <= i < |a| ensures Fills(a[i], c[i]) {
      assert Fills(a[i], b[i]) && Fills(b[i], c[i]);
    }
  }

  lemma UpsertFills(a: seq<Container>, b: seq<Container>, name: string, o: Overlay)
    requires FillsAll(a, b)
    ensures FillsAll(Upsert(a, name, o), Upsert(b, name, o))
  {
    IndexOfByNames(a, b, name);
    var x, y := Ensured(a, name), Ensured(b, name);
    forall i | 0 <= i < |x| ensures Fills(x[i], y[i]) {
      if i < |a| { assert Fills(a[i], b[i]); }
    }
    var j := IndexOf(a, name);
    assert Fills(Overlaid(o, x[j]), Overlaid(o, y[j])) by { assert Fills(x[j], y[j]); }
    forall i | 0 <= i < |x| ensures Fills(Upsert(a, name, o)[i], Upsert(b, name, o)[i]) {
      assert Fills(x[i], y[i]);
    }
  }

  lemma {:induction false} WithoutFills(a: seq<Container>, b: seq<Container>, name: string)
    requires FillsAll(a, b)
    ensures FillsAll(Without(a, name), Without(b, name))
  {
    if a != [] {
      assert Fills(a[0], b[0]);
      forall i | 0 <= i < |a[1..]| ensures Fills(a[1..][i], b[1..][i]) { assert Fills(a[i + 1], b[i + 1]); }
      WithoutFills(a[1..], b[1..], name);
    }
  }

  /** The builder does not look at what the server fills in. */
  lemma RenderedFills(a: seq<Container>, b: seq<Container>, main: string, o: Overlay, extra: string, x: Option<Overlay>)
    requires FillsAll(a, b)
    ensures FillsAll(Rendered(a, main, o, extra, x), Rendered(b, main, o, extra, x))
  {
    UpsertFills(a, b, main, o);
    if x.Some? {
      UpsertFills(Upsert(a, main, o), Upsert(b, main, o), extra, x.value);
    } else {
      WithoutFills(Upsert(a, main, o), Upsert(b, main, o), extra);
    }
  }

  lemma InitsAbsorb(a: Build, b: Build, cs: seq<Container>, found: seq<Container>, stored: seq<Container>)
    requires !Has(cs, CONFIG) && FillsAll(Inits(a.cfg, a.agent.spec, cs), found)
    requires FillsAll(Inits(b.cfg, b.agent.spec, found), stored)
    ensures FillsAll(Inits(b.cfg, b.agent.spec, cs), stored)
  {
    var x := if |a.agent.spec.pins| != 0 then Some(ConfigOverlay(a.cfg, ConfigText(a.cfg, a.agent.spec))) else None;
    var y := if |b.agent.spec.pins| != 0 then Some(ConfigOverlay(b.cfg, ConfigText(b.cfg, b.agent.spec))) else None;
    RenderedTwice(cs, CREDENTIALS, CredentialsOverlay(a.cfg), CredentialsOverlay(b.cfg), CONFIG, x, y);
    RenderedFills(Inits(a.cfg, a.agent.spec, cs), found, CREDENTIALS, CredentialsOverlay(b.cfg), CONFIG, y);
    FillsTwice(Inits(b.cfg, b.agent.spec, cs), Inits(b.cfg, b.agent.spec, found), stored);
  }

  lemma ContainersAbsorb(a: Build, b: Build, cs: seq<Container>, found: seq<Container>, stored: seq<Container>)
    requires !Has(cs, WORKSPACE) && FillsAll(Containers(a.cfg, a.agent.spec, cs), found)
    requires FillsAll(Containers(b.cfg, b.agent.spec, found), stored)
    ensures FillsAll(Containers(b.cfg, b.agent.spec, cs), stored)
  {
    var x := if a.cfg.workspace != "" then Some(WorkspaceOverlay(a.cfg)) else None;
    var y := if b.cfg.workspace != "" then Some(WorkspaceOverlay(b.cfg)) else None;
    RenderedTwice(cs, AGENT, AgentOverlay(a.cfg, a.agent.spec), AgentOverlay(b.cfg, b.agent.spec), WORKSPACE, x, y);
    RenderedFills(Containers(a.cfg, a.agent.spec, cs), found, AGENT, AgentOverlay(b.cfg, b.agent.spec), WORKSPACE, y);
    FillsTwice(Containers(b.cfg, b.agent.spec, cs), Containers(b.cfg, b.agent.spec, found), stored);
  }

  /** The Pod `b` asks for of `s`, filled in as the server likes. */
  ghost predicate PodFor(b: Build, s: StatefulSet, t: StatefulSet) {
    && FillsAll(Inits(b.cfg, b.agent.spec, s.inits), t.inits)
    && FillsAll(Containers(b.cfg, b.agent.spec, s.containers), t.containers)
    && t.volumes == Volumes(b.cfg, b.agent.spec) && t.replicas == Some(1)
    && t.podSecurity.Some? && t.podSecurity.value == Secured(None).(other := t.podSecurity.value.other)
  }

  ghost predicate CreatedAs(agent: Agent, s: StatefulSet, t: StatefulSet) {
    var first := AtCreation(agent, s);
    && t.created && t.readyReplicas == s.readyReplicas && t.claims == first.claims && t.selector == first.selector
    && t.labels == first.labels && t.templateLabels == first.templateLabels
  }

  lemma OneBuild(b: Build, s: StatefulSet, t: StatefulSet)
    requires Keeps(Render(b.cfg, b.agent, s), t)
    ensures PodFor(b, s, t) && CreatedAs(b.agent, s, t)
  {
  }

  lemma NextBuild(a: Build, b: Build, first: Agent, s: StatefulSet, found: StatefulSet, t: StatefulSet)
    requires Plain(s) && PodFor(a, s, found) && CreatedAs(first, s, found) && Keeps(Render(b.cfg, b.agent, found), t)
    ensures PodFor(b, s, t) && CreatedAs(first, s, t)
  {
    OneBuild(b, found, t);
    InitsAbsorb(a, b, s.inits, found.inits, t.inits);
    ContainersAbsorb(a, b, s.containers, found.containers, t.containers);
  }

  /** Path independence.  From an object with neither optional container, whatever specs and configurations were built in
      turn and whatever the API server filled in after each, what the operator owns of the Pod after any of the builds is
      what that build alone asks for, while labels, selector and claim stay as they were at creation. */
  lemma {:induction false} OnlyTheLastBuildCounts(builds: seq<Build>, objects: seq<StatefulSet>, n: nat)
    requires StoredInTurn(builds, objects) && 0 < n <= |builds| && Plain(objects[0])
    ensures PodFor(builds[n - 1], objects[0], objects[n]) && CreatedAs(builds[0].agent, objects[0], objects[n])
  {
    if n == 1 {
      FirstStored(builds, objects);
    } else {
      OnlyTheLastBuildCounts(builds, objects, n - 1);
      NextStored(builds, objects, n - 1);
    }
  }

  lemma FirstStored(builds: seq<Build>, objects: seq<StatefulSet>)
    requires StoredInTurn(builds, objects) && builds != []
    ensures PodFor(builds[0], objects[0], objects[1]) && CreatedAs(builds[0].agent, objects[0], objects[1])
  {
    assert StoredAt(builds, objects, 0);
    OneBuild(builds[0], objects[0], objects[1]);
  }

  lemma NextStored(builds: seq<Build>, objects: seq<StatefulSet>, n: nat)
    requires StoredInTurn(builds, objects) && 0 < n < |builds| && Plain(objects[0])
    requires PodFor(builds[n - 1], objects[0], objects[n]) && CreatedAs(builds[0].agent, objects[0], objects[n])
    ensures PodFor(builds[n], objects[0], objects[n + 1]) && CreatedAs(builds[0].agent, objects[0], objects[n + 1])
  {
    assert StoredAt(builds, objects, n);
    NextBuild(builds[n - 1], builds[n], builds[0].agent, objects[0], objects[n], objects[n + 1]);
  }

  // ------------------------------------------------------------ what is left alone

  function Foreign(cs: seq<Container>, main: string, extra: string): seq<Container> {
    Without(Without(cs, main), extra)
  }

  lemma {:induction false} WithoutUpdate(cs: seq<Container>, i: nat, c: Container)
    requires i < |cs| && c.name == cs[i].name
    ensures Without(cs[i := c], c.name) == Without(cs, c.name)
  {
    if i > 0 {
      WithoutUpdate(cs[1..], i - 1, c);
      assert cs[i := c][1..] == cs[1..][i - 1 := c];
    } else {
      assert cs[i := c][1..] == cs[1..];
    }
  }

  lemma WithoutUpsert(cs: seq<Container>, name: string, o: Overlay)
    ensures Without(Upsert(cs, name, o), name) == Without(cs, name)
  {
    var all, i := Ensured(cs, name), IndexOf(cs, name);
    WithoutUpdate(all, i, Overlaid(o, all[i]));
    WithoutAppend(cs, [Empty(name)], name);
    assert Without([Empty(name)], name) == [];
  }

  lemma {:induction false} WithoutCommutes(cs: seq<Container>, a: string, b: string)
    ensures Without(Without(cs, a), b) == Without(Without(cs, b), a)
  {
    if cs != [] {
      WithoutCommutes(cs[1..], a, b);
      assert cs[0].name != a ==> Without(cs, a)[1..] == Without(cs[1..], a);
      assert cs[0].name != b ==> Without(cs, b)[1..] == Without(cs[1..], b);
    }
  }

  /** Containers this operator does not own keep their content and their order, whatever is built around them. */
  lemma ForeignContainersKept(cs: seq<Container>, main: string, o: Overlay, extra: string, x: Option<Overlay>)
    ensures Foreign(Rendered(cs, main, o, extra, x), main, extra) == Foreign(cs, main, extra)
  {
    var kept := Upsert(cs, main, o);
    var r := Rendered(cs, main, o, extra, x);
    WithoutUpsert(cs, main, o);
    WithoutCommutes(r, main, extra);
    WithoutCommutes(kept, main, extra);
    if x.Some? {
      WithoutUpsert(kept, extra, x.value);
    } else {
      WithoutHas(kept, extra, extra);
      WithoutAbsent(r, extra);
    }
  }
}
