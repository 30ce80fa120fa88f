/** The three optional parts of the Pod are independent of one another, and everything it mounts is there. */
module Features {
  import opened Prelude
  import opened Api
  import opened Workload
  import opened Rendering

  datatype Pod = Pod(volumes: seq<Volume>, inits: seq<Container>, containers: seq<Container>)

  function PodOf(s: StatefulSet): Pod { Pod(s.volumes, s.inits, s.containers) }

  // ------------------------------------------------------------------- taking parts out

  /** A list without the entries of one name. */
  function Drop<T>(xs: seq<T>, name: string, nameOf: T -> string): seq<T> {
    if xs == [] then []
    else if nameOf(xs[0]) == name then Drop(xs[1..], name, nameOf)
    else [xs[0]] + Drop(xs[1..], name, nameOf)
  }

  function VolumeName(v: Volume): string { v.name }

  function MountName(m: VolumeMount): string { m.name }

  function VariableName(e: EnvVar): string { e.name }

  /** Take a mount and a variable out of the agent's container. */
  function Prune(cs: seq<Container>, volume: string, variable: string): seq<Container> {
    if !Has(cs, AGENT) then cs
    else
      var i := IndexOf(cs, AGENT);
      cs[i := cs[i].(mounts := Drop(cs[i].mounts, volume, MountName), env := Drop(cs[i].env, variable, VariableName))]
  }

  function StripTools(p: Pod): Pod {
    Pod(Drop(p.volumes, TOOLS_VOLUME, VolumeName), p.inits, Prune(p.containers, TOOLS_VOLUME, TOOLS_VARIABLE))
  }

  /** The workspace brings no volume of its own; `""` names none. */
  function StripWorkspace(p: Pod): Pod {
    Pod(p.volumes, p.inits, Prune(Without(p.containers, WORKSPACE), "", DIAL_VARIABLE))
  }

  function StripPins(p: Pod): Pod {
    Pod(Drop(p.volumes, CONFIG_VOLUME, VolumeName), Without(p.inits, CONFIG),
        Prune(p.containers, CONFIG_VOLUME, CONFIG_HOME_VARIABLE))
  }

  lemma {:induction false} DropAppend<T>(a: seq<T>, b: seq<T>, name: string, nameOf: T -> string)
    ensures Drop(a + b, name, nameOf) == Drop(a, name, nameOf) + Drop(b, name, nameOf)
  {
    if a == [] {
      assert a + b == b;
    } else {
      var rest := a[1..];
      assert (a + b)[1..] == rest + b && (a + b)[0] == a[0];
      DropAppend(rest, b, name, nameOf);
      assert [a[0]] + (Drop(rest, name, nameOf) + Drop(b, name, nameOf))
          == [a[0]] + Drop(rest, name, nameOf) + Drop(b, name, nameOf);
    }
  }

  // ------------------------------------------------------------ the agent's container

  lemma PruneUpsert(cs: seq<Container>, o: Overlay, volume: string, variable: string)
    requires o.env.Some?
    ensures Prune(Upsert(cs, AGENT, o), volume, variable) ==
      Upsert(cs, AGENT, o.(mounts := Drop(o.mounts, volume, MountName), env := Some(Drop(o.env.value, variable, VariableName))))
  {
    UpsertNames(cs, AGENT, o, AGENT);
  }

  lemma Swapped(cs: seq<Container>, i: nat, a: Container, j: nat, b: Container)
    requires i < |cs| && j < |cs| && cs[i].name == AGENT && cs[j].name == WORKSPACE
    ensures cs[j := b][i := a] == cs[i := a][j := b]
  {
    assert AGENT != WORKSPACE by { assert |AGENT| == 5 && |WORKSPACE| == 9; }
  }

  lemma PruneBesideUpsert(cs: seq<Container>, x: Overlay, volume: string, variable: string)
    requires Has(cs, AGENT)
    ensures Prune(Upsert(cs, WORKSPACE, x), volume, variable) == Upsert(Prune(cs, volume, variable), WORKSPACE, x)
  {
    var pruned, all := Prune(cs, volume, variable), Ensured(cs, WORKSPACE);
    UpsertNames(cs, WORKSPACE, x, AGENT);
    IndexOfAppend(cs, [Empty(WORKSPACE)], AGENT);
    IndexOfByNames(cs, pruned, WORKSPACE);
    var i, j := IndexOf(cs, AGENT), IndexOf(cs, WORKSPACE);
    var c := cs[i].(mounts := Drop(cs[i].mounts, volume, MountName), env := Drop(cs[i].env, variable, VariableName));
    assert all[i] == cs[i];
    assert Ensured(pruned, WORKSPACE) == all[i := c];
    Swapped(all, i, c, j, Overlaid(x, all[j]));
  }

  lemma {:induction false} PruneBesideWithout(cs: seq<Container>, volume: string, variable: string)
    ensures Prune(Without(cs, WORKSPACE), volume, variable) == Without(Prune(cs, volume, variable), WORKSPACE)
  {
    if cs != [] {
      var rest := Without(cs[1..], WORKSPACE);
      PruneBesideWithout(cs[1..], volume, variable);
      if cs[0].name == AGENT {
        assert Prune(cs, volume, variable)[1..] == cs[1..];
      } else {
        PruneRest(cs, volume, variable);
        if cs[0].name != WORKSPACE {
          assert Without(cs, WORKSPACE)[1..] == rest;
          PruneRest(Without(cs, WORKSPACE), volume, variable);
        }
      }
    }
  }

  lemma PruneRest(cs: seq<Container>, volume: string, variable: string)
    requires cs != [] && cs[0].name != AGENT
    ensures Prune(cs, volume, variable) == [cs[0]] + Prune(cs[1..], volume, variable)
    ensures Prune(cs, volume, variable)[1..] == Prune(cs[1..], volume, variable)
  {
  }

  /** Pruning the built containers is building them with a pruned overlay. */
  lemma PruneRendered(cs: seq<Container>, o: Overlay, x: Option<Overlay>, volume: string, variable: string)
    requires o.env.Some?
    ensures Prune(Rendered(cs, AGENT, o, WORKSPACE, x), volume, variable) ==
      Rendered(cs, AGENT,
        o.(mounts := Drop(o.mounts, volume, MountName), env := Some(Drop(o.env.value, variable, VariableName))), WORKSPACE, x)
  {
    var kept := Upsert(cs, AGENT, o);
    PruneUpsert(cs, o, volume, variable);
    UpsertNames(cs, AGENT, o, AGENT);
    if x.Some? { PruneBesideUpsert(kept, x.value, volume, variable); }
    else { PruneBesideWithout(kept, volume, variable); }
  }

  lemma DropAgentMount(cfg: Images, spec: AgentSpec, name: string)
    requires name != CREDENTIALS_VOLUME && name != STATE_VOLUME
    ensures Drop(AgentMounts(cfg, spec), name, MountName) ==
      [VolumeMount(CREDENTIALS_VOLUME, CREDENTIALS_PATH, false), VolumeMount(STATE_VOLUME, STATE_PATH, false)]
      + (if cfg.tools != "" && name != TOOLS_VOLUME then [VolumeMount(TOOLS_VOLUME, TOOLS_PATH, true)] else [])
      + (if |spec.pins| != 0 && name != CONFIG_VOLUME then [VolumeMount(CONFIG_VOLUME, CONFIG_PATH, true)] else [])
  {
    var a, b := VolumeMount(CREDENTIALS_VOLUME, CREDENTIALS_PATH, false), VolumeMount(STATE_VOLUME, STATE_PATH, false);
    var tools := if cfg.tools != "" then [VolumeMount(TOOLS_VOLUME, TOOLS_PATH, true)] else [];
    var pins := if |spec.pins| != 0 then [VolumeMount(CONFIG_VOLUME, CONFIG_PATH, true)] else [];
    DropAppend([a, b] + tools, pins, name, MountName);
    DropAppend([a, b], tools, name, MountName);
    assert [a, b][1..] == [b] && [b][1..] == [];
    assert Drop([b], name, MountName) == [b];
    assert Drop([a, b], name, MountName) == [a, b];
  }

  lemma PrunedMounts(cfg: Images, spec: AgentSpec)
    ensures Drop(AgentMounts(cfg, spec), TOOLS_VOLUME, MountName) == AgentMounts(cfg.(tools := ""), spec)
    ensures Drop(AgentMounts(cfg, spec), CONFIG_VOLUME, MountName) == AgentMounts(cfg, spec.(pins := map[]))
    ensures Drop(AgentMounts(cfg, spec), "", MountName) == AgentMounts(cfg.(workspace := ""), spec)
  {
    DropAgentMount(cfg, spec, TOOLS_VOLUME);
    DropAgentMount(cfg, spec, CONFIG_VOLUME);
    DropAgentMount(cfg, spec, "");
  }

  lemma DropAgentVariable(cfg: Images, spec: AgentSpec, name: string)
    ensures Drop(AgentEnv(cfg, spec), name, VariableName) ==
      (if cfg.tools != "" && name != TOOLS_VARIABLE then [EnvVar(TOOLS_VARIABLE, TOOLS_PATH)] else [])
      + (if cfg.workspace != "" && name != DIAL_VARIABLE then [EnvVar(DIAL_VARIABLE, WORKSPACE_ADDRESS)] else [])
      + (if |spec.pins| != 0 && name != CONFIG_HOME_VARIABLE then [EnvVar(CONFIG_HOME_VARIABLE, CONFIG_PATH)] else [])
  {
    var tools := if cfg.tools != "" then [EnvVar(TOOLS_VARIABLE, TOOLS_PATH)] else [];
    var dial := if cfg.workspace != "" then [EnvVar(DIAL_VARIABLE, WORKSPACE_ADDRESS)] else [];
    var pins := if |spec.pins| != 0 then [EnvVar(CONFIG_HOME_VARIABLE, CONFIG_PATH)] else [];
    DropAppend(tools + dial, pins, name, VariableName);
    DropAppend(tools, dial, name, VariableName);
  }

  lemma PrunedEnv(cfg: Images, spec: AgentSpec)
    ensures Drop(AgentEnv(cfg, spec), TOOLS_VARIABLE, VariableName) == AgentEnv(cfg.(tools := ""), spec)
    ensures Drop(AgentEnv(cfg, spec), DIAL_VARIABLE, VariableName) == AgentEnv(cfg.(workspace := ""), spec)
    ensures Drop(AgentEnv(cfg, spec), CONFIG_HOME_VARIABLE, VariableName) == AgentEnv(cfg, spec.(pins := map[]))
  {
    DropAgentVariable(cfg, spec, TOOLS_VARIABLE);
    DropAgentVariable(cfg, spec, DIAL_VARIABLE);
    DropAgentVariable(cfg, spec, CONFIG_HOME_VARIABLE);
  }

  lemma DropPodVolume(cfg: Images, spec: AgentSpec, name: string)
    requires name != CREDENTIALS_VOLUME && name != CREDENTIALS_SECRET_VOLUME
    ensures Drop(Volumes(cfg, spec), name, VolumeName) ==
      Volumes(cfg, spec)[..2]
      + (if cfg.tools != "" && name != TOOLS_VOLUME then [Volume(TOOLS_VOLUME, FromImage(cfg.tools, PULL_ALWAYS))] else [])
      + (if |spec.pins| != 0 && name != CONFIG_VOLUME then [Volume(CONFIG_VOLUME, EmptyDir("", None))] else [])
  {
    var base := Volumes(cfg, spec)[..2];
    var tools := if cfg.tools != "" then [Volume(TOOLS_VOLUME, FromImage(cfg.tools, PULL_ALWAYS))] else [];
    var pins := if |spec.pins| != 0 then [Volume(CONFIG_VOLUME, EmptyDir("", None))] else [];
    assert Volumes(cfg, spec) == base + tools + pins;
    DropAppend(base + tools, pins, name, VolumeName);
    DropAppend(base, tools, name, VolumeName);
    assert base[1..] == [base[1]] && [base[1]][1..] == [];
    assert Drop([base[1]], name, VolumeName) == [base[1]];
    assert Drop(base, name, VolumeName) == base;
  }

  lemma PrunedVolumes(cfg: Images, spec: AgentSpec)
    ensures Drop(Volumes(cfg, spec), TOOLS_VOLUME, VolumeName) == Volumes(cfg.(tools := ""), spec)
    ensures Drop(Volumes(cfg, spec), CONFIG_VOLUME, VolumeName) == Volumes(cfg, spec.(pins := map[]))
  {
    DropPodVolume(cfg, spec, TOOLS_VOLUME);
    DropPodVolume(cfg, spec, CONFIG_VOLUME);
  }

  // --------------------------------------------------------------- feature independence

  function NoPins(agent: Agent): Agent { agent.(spec := agent.spec.(pins := map[])) }

  lemma ToolsAreSeparate(cfg: Images, agent: Agent, s: StatefulSet)
    ensures StripTools(PodOf(Render(cfg, agent, s))) == PodOf(Render(cfg.(tools := ""), agent, s))
  {
    PrunedVolumes(cfg, agent.spec);
    PrunedMounts(cfg, agent.spec);
    PrunedEnv(cfg, agent.spec);
    PruneRendered(s.containers, AgentOverlay(cfg, agent.spec),
      if cfg.workspace != "" then Some(WorkspaceOverlay(cfg)) else None, TOOLS_VOLUME, TOOLS_VARIABLE);
  }

  lemma WorkspaceIsSeparate(cfg: Images, agent: Agent, s: StatefulSet)
    ensures StripWorkspace(PodOf(Render(cfg, agent, s))) == PodOf(Render(cfg.(workspace := ""), agent, s))
  {
    var o := AgentOverlay(cfg, agent.spec);
    var kept := Upsert(s.containers, AGENT, o);
    PrunedMounts(cfg, agent.spec);
    PrunedEnv(cfg, agent.spec);
    PruneRendered(s.containers, o, None, "", DIAL_VARIABLE);
    if cfg.workspace != "" {
      WithoutUpsert(kept, WORKSPACE, WorkspaceOverlay(cfg));
    } else {
      WithoutHas(kept, WORKSPACE, WORKSPACE);
      WithoutAbsent(Without(kept, WORKSPACE), WORKSPACE);
    }
  }

  lemma PinsAreSeparate(cfg: Images, agent: Agent, s: StatefulSet)
    ensures StripPins(PodOf(Render(cfg, agent, s))) == PodOf(Render(cfg, NoPins(agent), s))
  {
    var kept := Upsert(s.inits, CREDENTIALS, CredentialsOverlay(cfg));
    PrunedVolumes(cfg, agent.spec);
    PrunedMounts(cfg, agent.spec);
    PrunedEnv(cfg, agent.spec);
    PruneRendered(s.containers, AgentOverlay(cfg, agent.spec),
      if cfg.workspace != "" then Some(WorkspaceOverlay(cfg)) else None, CONFIG_VOLUME, CONFIG_HOME_VARIABLE);
    if |agent.spec.pins| != 0 {
      WithoutUpsert(kept, CONFIG, ConfigOverlay(cfg, ConfigText(cfg, agent.spec)));
    } else {
      WithoutHas(kept, CONFIG, CONFIG);
      WithoutAbsent(Without(kept, CONFIG), CONFIG);
    }
  }

  /** The three parts come out of a built Pod in any order. */
  lemma StripsCommute(cfg: Images, agent: Agent, s: StatefulSet)
    ensures var p := PodOf(Render(cfg, agent, s));
      && StripTools(StripWorkspace(p)) == StripWorkspace(StripTools(p))
      && StripTools(StripPins(p)) == StripPins(StripTools(p))
      && StripPins(StripWorkspace(p)) == StripWorkspace(StripPins(p))
  {
    ToolsAreSeparate(cfg, agent, s);
    WorkspaceIsSeparate(cfg, agent, s);
    PinsAreSeparate(cfg, agent, s);
    ToolsAreSeparate(cfg.(workspace := ""), agent, s);
    WorkspaceIsSeparate(cfg.(tools := ""), agent, s);
    ToolsAreSeparate(cfg, NoPins(agent), s);
    PinsAreSeparate(cfg.(tools := ""), agent, s);
    WorkspaceIsSeparate(cfg, NoPins(agent), s);
    PinsAreSeparate(cfg.(workspace := ""), agent, s);
  }

  // -------------------------------------------------------------------- closed mounts

  /** A mount of the Pod names one of its volumes, or the claim. */
  ghost predicate Mountable(s: StatefulSet, m: VolumeMount) {
    || (exists i :: 0 <= i < |s.volumes| && s.volumes[i].name == m.name)
    || (exists i :: 0 <= i < |s.claims| && s.claims[i].name == m.name)
  }

  function OurInits(cfg: Images, spec: AgentSpec): seq<Container> {
    [Overlaid(CredentialsOverlay(cfg), Empty(CREDENTIALS))]
    + (if |spec.pins| != 0 then [Overlaid(ConfigOverlay(cfg, ConfigText(cfg, spec)), Empty(CONFIG))] else [])
  }

  function OurContainers(cfg: Images, spec: AgentSpec): seq<Container> {
    [Overlaid(AgentOverlay(cfg, spec), Empty(AGENT))]
    + (if cfg.workspace != "" then [Overlaid(WorkspaceOverlay(cfg), Empty(WORKSPACE))] else [])
  }

  lemma InitsFromNothing(cfg: Images, spec: AgentSpec)
    ensures Inits(cfg, spec, []) == OurInits(cfg, spec)
  {
    RenderedShape([], CREDENTIALS, CredentialsOverlay(cfg), CONFIG,
      if |spec.pins| != 0 then Some(ConfigOverlay(cfg, ConfigText(cfg, spec))) else None);
  }

  lemma ContainersFromNothing(cfg: Images, spec: AgentSpec)
    ensures Containers(cfg, spec, []) == OurContainers(cfg, spec)
  {
    RenderedShape([], AGENT, AgentOverlay(cfg, spec), WORKSPACE,
      if cfg.workspace != "" then Some(WorkspaceOverlay(cfg)) else None);
  }

  /** The workload was built from nothing, and has been built and stored any number of times since. */
  ghost predicate FromNothing(builds: seq<Build>, objects: seq<StatefulSet>) {
    && StoredInTurn(builds, objects) && builds != []
    && objects[0].inits == [] && objects[0].containers == [] && !objects[0].created
  }

  /** Of a Pod built from nothing, the containers are exactly the operator's own, filled in as the server likes. */
  lemma PodFromNothing(builds: seq<Build>, objects: seq<StatefulSet>)
    requires FromNothing(builds, objects)
    ensures
      var t, b := objects[|builds|], builds[|builds| - 1];
      && t.volumes == Volumes(b.cfg, b.agent.spec) && t.claims == [StateClaim(builds[0].agent.spec)]
      && FillsAll(OurInits(b.cfg, b.agent.spec), t.inits)
      && FillsAll(OurContainers(b.cfg, b.agent.spec), t.containers)
  {
    OnlyTheLastBuildCounts(builds, objects, |builds|);
    var b := builds[|builds| - 1];
    InitsFromNothing(b.cfg, b.agent.spec);
    ContainersFromNothing(b.cfg, b.agent.spec);
  }

  lemma AgentMountsClosed(t: StatefulSet, cfg: Images, spec: AgentSpec, m: VolumeMount)
    requires t.volumes == Volumes(cfg, spec) && |t.claims| == 1 && t.claims[0].name == STATE_VOLUME
    requires m in AgentMounts(cfg, spec)
    ensures Mountable(t, m) && m.name != CREDENTIALS_SECRET_VOLUME
  {
    assert t.volumes[1].name == CREDENTIALS_VOLUME;
    if m.name == TOOLS_VOLUME { assert t.volumes[2].name == TOOLS_VOLUME; }
    if m.name == CONFIG_VOLUME { assert t.volumes[|t.volumes| - 1].name == CONFIG_VOLUME; }
  }

  lemma OtherMountsClosed(t: StatefulSet, cfg: Images, spec: AgentSpec, o: Overlay, m: VolumeMount)
    requires t.volumes == Volumes(cfg, spec) && |t.claims| == 1 && t.claims[0].name == STATE_VOLUME
    requires o == CredentialsOverlay(cfg) || o == WorkspaceOverlay(cfg)
             || (|spec.pins| != 0 && o == ConfigOverlay(cfg, ConfigText(cfg, spec)))
    requires m in o.mounts
    ensures Mountable(t, m)
    ensures m.name == CREDENTIALS_SECRET_VOLUME ==> o == CredentialsOverlay(cfg)
  {
    assert t.volumes[0].name == CREDENTIALS_SECRET_VOLUME && t.volumes[1].name == CREDENTIALS_VOLUME;
    if m.name == CONFIG_VOLUME { assert t.volumes[|t.volumes| - 1].name == CONFIG_VOLUME; }
  }

  /** The container is one of the operator's four, with the overlay it was built from. */
  ghost predicate Ours(cfg: Images, spec: AgentSpec, c: Container) {
    || Fills(Overlaid(AgentOverlay(cfg, spec), Empty(AGENT)), c)
    || Fills(Overlaid(CredentialsOverlay(cfg), Empty(CREDENTIALS)), c)
    || (|spec.pins| != 0 && Fills(Overlaid(ConfigOverlay(cfg, ConfigText(cfg, spec)), Empty(CONFIG)), c))
    || (cfg.workspace != "" && Fills(Overlaid(WorkspaceOverlay(cfg), Empty(WORKSPACE)), c))
  }

  lemma FilledIsOurs(cfg: Images, spec: AgentSpec, ours: seq<Container>, cs: seq<Container>, c: Container)
    requires ours == OurInits(cfg, spec) || ours == OurContainers(cfg, spec)
    requires FillsAll(ours, cs) && c in cs
    ensures Ours(cfg, spec, c)
  {
    var i :| 0 <= i < |cs| && cs[i] == c;
    assert Fills(ours[i], cs[i]);
  }

  lemma OnlyOurs(builds: seq<Build>, objects: seq<StatefulSet>, c: Container)
    requires FromNothing(builds, objects)
    requires c in objects[|builds|].inits || c in objects[|builds|].containers
    ensures Ours(builds[|builds| - 1].cfg, builds[|builds| - 1].agent.spec, c)
  {
    PodFromNothing(builds, objects);
    var t, b := objects[|builds|], builds[|builds| - 1];
    if c in t.inits {
      FilledIsOurs(b.cfg, b.agent.spec, OurInits(b.cfg, b.agent.spec), t.inits, c);
    } else {
      FilledIsOurs(b.cfg, b.agent.spec, OurContainers(b.cfg, b.agent.spec), t.containers, c);
    }
  }

  lemma OursMountClosed(t: StatefulSet, cfg: Images, spec: AgentSpec, c: Container, m: VolumeMount)
    requires t.volumes == Volumes(cfg, spec) && |t.claims| == 1 && t.claims[0].name == STATE_VOLUME
    requires Ours(cfg, spec, c) && m in c.mounts
    ensures Mountable(t, m)
    ensures m.name == CREDENTIALS_SECRET_VOLUME ==> c.name == CREDENTIALS
  {
    if Fills(Overlaid(AgentOverlay(cfg, spec), Empty(AGENT)), c) {
      AgentMountsClosed(t, cfg, spec, m);
    } else if Fills(Overlaid(CredentialsOverlay(cfg), Empty(CREDENTIALS)), c) {
      OtherMountsClosed(t, cfg, spec, CredentialsOverlay(cfg), m);
    } else if cfg.workspace != "" && Fills(Overlaid(WorkspaceOverlay(cfg), Empty(WORKSPACE)), c) {
      OtherMountsClosed(t, cfg, spec, WorkspaceOverlay(cfg), m);
    } else {
      OtherMountsClosed(t, cfg, spec, ConfigOverlay(cfg, ConfigText(cfg, spec)), m);
    }
  }

  /** In every workload built from nothing by any sequence of edits, as the API server stores it, each mount names a
      volume of the Pod or the claim, and the projected Secret is mounted by the credentials container alone. */
  lemma MountsAreClosed(builds: seq<Build>, objects: seq<StatefulSet>, c: Container, m: VolumeMount)
    requires FromNothing(builds, objects)
    requires c in objects[|builds|].inits || c in objects[|builds|].containers
    requires m in c.mounts
    ensures Mountable(objects[|builds|], m)
    ensures m.name == CREDENTIALS_SECRET_VOLUME ==> c.name == CREDENTIALS
  {
    PodFromNothing(builds, objects);
    OnlyOurs(builds, objects, c);
    OursMountClosed(objects[|builds|], builds[|builds| - 1].cfg, builds[|builds| - 1].agent.spec, c, m);
  }

  lemma VolumeNamesDistinct(cfg: Images, spec: AgentSpec)
    ensures var vs := Volumes(cfg, spec);
      forall i, j :: 0 <= i < j < |vs| ==> vs[i].name != vs[j].name
  {
    assert |CREDENTIALS_SECRET_VOLUME| == 18 && |CREDENTIALS_VOLUME| == 11 && |TOOLS_VOLUME| == 5 && |CONFIG_VOLUME| == 6;
  }

  lemma VariableNamesDistinct(cfg: Images, spec: AgentSpec)
    ensures var es := AgentEnv(cfg, spec);
      forall i, j :: 0 <= i < j < |es| ==> es[i].name != es[j].name
  {
    assert |TOOLS_VARIABLE| == 16 && |DIAL_VARIABLE| == 21 && |CONFIG_HOME_VARIABLE| == 15;
  }

  /** The agent's container comes first, with the variables decided for it. */
  lemma AgentComesFirst(builds: seq<Build>, objects: seq<StatefulSet>)
    requires FromNothing(builds, objects)
    ensures
      var t, b := objects[|builds|], builds[|builds| - 1];
      && |t.containers| == (if b.cfg.workspace != "" then 2 else 1)
      && t.containers[0].name == AGENT && t.containers[0].env == AgentEnv(b.cfg, b.agent.spec)
      && (b.cfg.workspace != "" ==>
            t.containers[1].name == WORKSPACE && t.containers[1].env == WorkspaceOverlay(b.cfg).env.value)
  {
    PodFromNothing(builds, objects);
    var t, b := objects[|builds|], builds[|builds| - 1];
    var ours := OurContainers(b.cfg, b.agent.spec);
    assert Fills(ours[0], t.containers[0]);
    if b.cfg.workspace != "" { assert Fills(ours[1], t.containers[1]); }
  }

  /** Volume names are distinct, and so are the names of the agent's variables. */
  lemma NamesAreDistinct(builds: seq<Build>, objects: seq<StatefulSet>)
    requires FromNothing(builds, objects)
    ensures var t := objects[|builds|];
      && (forall i, j :: 0 <= i < j < |t.volumes| ==> t.volumes[i].name != t.volumes[j].name)
      && t.containers != [] && t.containers[0].name == AGENT
      && (forall i, j :: 0 <= i < j < |t.containers[0].env| ==>
            t.containers[0].env[i].name != t.containers[0].env[j].name)
  {
    PodFromNothing(builds, objects);
    AgentComesFirst(builds, objects);
    var b := builds[|builds| - 1];
    VolumeNamesDistinct(b.cfg, b.agent.spec);
    VariableNamesDistinct(b.cfg, b.agent.spec);
  }

  lemma AgentHasNoText(cfg: Images, spec: AgentSpec, e: EnvVar)
    requires e in AgentEnv(cfg, spec)
    ensures e.name != CONFIG_CONTENT_VARIABLE
  {
    assert |CONFIG_CONTENT_VARIABLE| == 20 && |TOOLS_VARIABLE| == 16 && |DIAL_VARIABLE| == 21;
    assert |CONFIG_HOME_VARIABLE| == 15;
  }

  lemma WorkspaceHasNoText(cfg: Images, e: EnvVar)
    requires e in WorkspaceOverlay(cfg).env.value
    ensures e.name != CONFIG_CONTENT_VARIABLE
  {
    assert |CONFIG_CONTENT_VARIABLE| == 20 && |LISTEN_VARIABLE| == 11 && |WORKSPACE_DIR_VARIABLE| == 16;
    assert |EXEC_USER_VARIABLE| == 15;
  }

  /** Only the config container carries the config text, and it is the rendering of the pins last built.  The builder
      never writes the variables of the credentials container, so of that one it is said where nobody else did. */
  lemma TextStaysInConfig(builds: seq<Build>, objects: seq<StatefulSet>, c: Container, e: EnvVar)
    requires FromNothing(builds, objects)
    requires c in objects[|builds|].inits || c in objects[|builds|].containers
    requires c.name == CREDENTIALS ==> c.env == []
    requires e in c.env && e.name == CONFIG_CONTENT_VARIABLE
    ensures
      var b := builds[|builds| - 1];
      c.name == CONFIG && b.cfg.render(b.agent.spec.pins) == Some(e.value)
  {
    OnlyOurs(builds, objects, c);
    var n := |builds| - 1;
    assert StoredAt(builds, objects, n);
    OursHasText(builds[n].cfg, builds[n].agent.spec, c, e);
  }

  lemma OursHasText(cfg: Images, spec: AgentSpec, c: Container, e: EnvVar)
    requires Ours(cfg, spec, c) && (c.name == CREDENTIALS ==> c.env == [])
    requires e in c.env && e.name == CONFIG_CONTENT_VARIABLE
    ensures c.name == CONFIG && |spec.pins| != 0 && e.value == ConfigText(cfg, spec)
  {
    if e in AgentEnv(cfg, spec) { AgentHasNoText(cfg, spec, e); }
    if e in WorkspaceOverlay(cfg).env.value { WorkspaceHasNoText(cfg, e); }
  }

  lemma AgentDials(cfg: Images, spec: AgentSpec, address: string)
    ensures EnvVar(DIAL_VARIABLE, address) in AgentEnv(cfg, spec) <==>
      cfg.workspace != "" && address == WORKSPACE_ADDRESS
  {
    assert |TOOLS_VARIABLE| == 16 && |DIAL_VARIABLE| == 21 && |CONFIG_HOME_VARIABLE| == 15;
    if cfg.workspace != "" {
      var i := if cfg.tools != "" then 1 else 0;
      assert AgentEnv(cfg, spec)[i] == EnvVar(DIAL_VARIABLE, WORKSPACE_ADDRESS);
    }
  }

  lemma WorkspaceListens(cfg: Images, address: string)
    ensures EnvVar(LISTEN_VARIABLE, address) in WorkspaceOverlay(cfg).env.value <==> address == WORKSPACE_ADDRESS
  {
    var es := WorkspaceOverlay(cfg).env.value;
    assert |LISTEN_VARIABLE| == 11 && |WORKSPACE_DIR_VARIABLE| == 16 && |EXEC_USER_VARIABLE| == 15;
    assert es[0] == EnvVar(LISTEN_VARIABLE, WORKSPACE_ADDRESS);
  }

  ghost predicate Listening(t: StatefulSet, address: string) {
    exists i :: 0 <= i < |t.containers| && t.containers[i].name == WORKSPACE
      && EnvVar(LISTEN_VARIABLE, address) in t.containers[i].env
  }

  /** The agent is told to dial an address exactly when the Pod has a workspace listening there. */
  lemma BothEndsOfTheLink(builds: seq<Build>, objects: seq<StatefulSet>, address: string)
    requires FromNothing(builds, objects)
    ensures var t := objects[|builds|];
      && t.containers != [] && t.containers[0].name == AGENT
      && (EnvVar(DIAL_VARIABLE, address) in t.containers[0].env <==> Listening(t, address))
  {
    var b := builds[|builds| - 1];
    AgentComesFirst(builds, objects);
    AgentDials(b.cfg, b.agent.spec, address);
    WorkspaceListens(b.cfg, address);
    assert |AGENT| == 5 && |WORKSPACE| == 9;
  }

  // ------------------------------------------------------------------------ the claim

  /** While one StatefulSet stands, its claim keeps the size of the first build, through every later edit. */
  lemma ClaimKeepsFirstSize(builds: seq<Build>, objects: seq<StatefulSet>)
    requires StoredInTurn(builds, objects) && builds != [] && Plain(objects[0]) && !objects[0].created
    ensures ClaimedSize(objects[|builds|].claims) == builds[0].agent.spec.storageSize
  {
    OnlyTheLastBuildCounts(builds, objects, |builds|);
  }
}
