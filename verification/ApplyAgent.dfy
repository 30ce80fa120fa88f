/** applyAgent as it runs: in place, through pointers into the two container slices. */
module ApplyAgent {
  import opened Prelude
  import opened Api
  import opened Workload
  import opened GoSlice
  import Rendering

  /** A StatefulSet in memory.  The two container lists are slices with a capacity of their own. */
  class Object {
    var created: bool
    var labels: map<string, string>
    var selector: Option<map<string, string>>
    var templateLabels: map<string, string>
    var claims: seq<Claim>
    var replicas: Option<int>
    var podSecurity: Option<PodSecurity>
    var volumes: seq<Volume>
    const inits: Slice
    const containers: Slice
    var owners: seq<OwnerReference>
    var readyReplicas: int
    var other: Other

    ghost predicate Valid()
      reads this, inits, containers
    {
      inits != containers && inits.Valid() && containers.Valid() && inits.cells != containers.cells
    }

    ghost function Value(): StatefulSet
      reads this, inits, inits.cells, containers, containers.cells
      requires Valid()
    {
      StatefulSet(created, labels, selector, templateLabels, claims, replicas, podSecurity, volumes,
                  inits.Contents(), containers.Contents(), owners, readyReplicas, other)
    }

    constructor (s: StatefulSet, initRoom: nat, containerRoom: nat)
      ensures Valid() && Value() == s
      ensures fresh(inits) && fresh(inits.cells) && fresh(containers) && fresh(containers.cells)
      ensures inits.cells.Length == |s.inits| + initRoom && containers.cells.Length == |s.containers| + containerRoom
    {
      created, labels, selector, templateLabels, claims := s.created, s.labels, s.selector, s.templateLabels, s.claims;
      replicas, podSecurity, volumes, owners := s.replicas, s.podSecurity, s.volumes, s.owners;
      readyReplicas, other := s.readyReplicas, s.other;
      inits := new Slice(s.inits, initRoom);
      containers := new Slice(s.containers, containerRoom);
    }

    /** What would go on the wire. */
    method Snapshot() returns (s: StatefulSet)
      requires Valid()
      ensures s == Value()
    {
      s := StatefulSet(created, labels, selector, templateLabels, claims, replicas, podSecurity, volumes,
                       inits.cells[..inits.len], containers.cells[..containers.len], owners, readyReplicas, other);
    }
  }

  /** One field-by-field write of an overlay through a pointer. */
  method WriteOverlay(p: Pointer, o: Overlay)
    requires p.at < p.cells.Length
    modifies p.cells
    ensures p.cells[..] == old(p.cells[..])[p.at := Overlaid(o, old(p.cells[p.at]))]
  {
    p.cells[p.at] := p.cells[p.at].(image := o.image);
    p.cells[p.at] := p.cells[p.at].(imagePullPolicy := PULL_ALWAYS);
    if o.command.Some? { p.cells[p.at] := p.cells[p.at].(command := o.command.value); }
    if o.resources.Some? { p.cells[p.at] := p.cells[p.at].(resources := o.resources.value); }
    p.cells[p.at] := p.cells[p.at].(security := Some(RESTRICTED));
    p.cells[p.at] := p.cells[p.at].(mounts := o.mounts);
    if o.env.Some? { p.cells[p.at] := p.cells[p.at].(env := o.env.value); }
  }

  /** Find or append the container of a name, and write its overlay. */
  method Put(s: Slice, name: string, o: Overlay) returns (p: Pointer)
    requires s.Valid()
    modifies s, s.cells
    ensures s.Valid() && s.Contents() == Upsert(old(s.Contents()), name, o)
    ensures p == Pointer(s.cells, IndexOf(old(s.Contents()), name)) && p.at < s.len
    ensures s.cells == old(s.cells) || fresh(s.cells)
  {
    p := s.Named(name);
    ghost var all := s.Contents();
    WriteOverlay(p, o);
    assert s.Contents() == all[p.at := Overlaid(o, all[p.at])];
  }

  /** What an append to the mounts and the variables of the agent's container leaves. */
  function Extended(c: Container, ms: seq<VolumeMount>, es: seq<EnvVar>): Container {
    c.(mounts := c.mounts + ms, env := c.env + es)
  }

  method Extend(s: Slice, p: Pointer, ms: seq<VolumeMount>, es: seq<EnvVar>)
    requires s.Valid() && p.cells == s.cells && p.at < s.len
    modifies p.cells
    ensures s.Contents() == old(s.Contents())[p.at := Extended(old(s.Contents())[p.at], ms, es)]
  {
    p.cells[p.at] := p.cells[p.at].(mounts := p.cells[p.at].mounts + ms);
    p.cells[p.at] := p.cells[p.at].(env := p.cells[p.at].env + es);
  }

  /** The agent's container before the optional parts are added to it. */
  function Bare(spec: AgentSpec): Overlay {
    Overlay(spec.image, None, Some([]), Some(spec.resources),
            [VolumeMount(CREDENTIALS_VOLUME, CREDENTIALS_PATH, false), VolumeMount(STATE_VOLUME, STATE_PATH, false)])
  }

  /** applyToolPins: the config file's volume, its init container, and the agent's view of it. */
  method ApplyToolPins(o: Object, cfg: Images, spec: AgentSpec, p: Pointer) returns (refused: bool)
    requires o.Valid() && p.cells == o.containers.cells && p.at < o.containers.len
    modifies o`volumes, o.inits, o.inits.cells, p.cells
    ensures o.Valid() && o.containers.cells == old(o.containers.cells)
    ensures refused == (|spec.pins| != 0 && cfg.render(spec.pins).None?)
    ensures !refused && |spec.pins| == 0 ==>
      && o.volumes == old(o.volumes) && o.containers.Contents() == old(o.containers.Contents())
      && o.inits.Contents() == Without(old(o.inits.Contents()), CONFIG)
    ensures !refused && |spec.pins| != 0 ==>
      && o.volumes == old(o.volumes) + [Volume(CONFIG_VOLUME, EmptyDir("", None))]
      && o.inits.Contents() == Upsert(old(o.inits.Contents()), CONFIG, ConfigOverlay(cfg, ConfigText(cfg, spec)))
      && o.containers.Contents() == old(o.containers.Contents())[p.at :=
           Extended(old(o.containers.Contents())[p.at],
             [VolumeMount(CONFIG_VOLUME, CONFIG_PATH, true)], [EnvVar(CONFIG_HOME_VARIABLE, CONFIG_PATH)])]
  {
    if |spec.pins| == 0 {
      o.inits.Delete(CONFIG);
      return false;
    }
    var file := cfg.render(spec.pins);
    if file.None? { return true; }
    o.volumes := o.volumes + [Volume(CONFIG_VOLUME, EmptyDir("", None))];
    var config := Put(o.inits, CONFIG, ConfigOverlay(cfg, file.value));
    Extend(o.containers, p, [VolumeMount(CONFIG_VOLUME, CONFIG_PATH, true)], [EnvVar(CONFIG_HOME_VARIABLE, CONFIG_PATH)]);
    refused := false;
  }

  /** applyWorkspace: the one step that may move the container slice, and so the last one. */
  method ApplyWorkspace(s: Slice, cfg: Images)
    requires s.Valid()
    modifies s, s.cells
    ensures s.Valid() && (s.cells == old(s.cells) || fresh(s.cells))
    ensures s.Contents() ==
      if cfg.workspace == "" then Without(old(s.Contents()), WORKSPACE)
      else Upsert(old(s.Contents()), WORKSPACE, WorkspaceOverlay(cfg))
  {
    if cfg.workspace == "" {
      s.Delete(WORKSPACE);
    } else {
      var p := Put(s, WORKSPACE, WorkspaceOverlay(cfg));
    }
  }

  function ToolMounts(cfg: Images): seq<VolumeMount> {
    if cfg.tools != "" then [VolumeMount(TOOLS_VOLUME, TOOLS_PATH, true)] else []
  }

  function ToolEnv(cfg: Images): seq<EnvVar> {
    if cfg.tools != "" then [EnvVar(TOOLS_VARIABLE, TOOLS_PATH)] else []
  }

  function DialEnv(cfg: Images): seq<EnvVar> {
    if cfg.workspace != "" then [EnvVar(DIAL_VARIABLE, WORKSPACE_ADDRESS)] else []
  }

  function PinMounts(spec: AgentSpec): seq<VolumeMount> {
    if |spec.pins| != 0 then [VolumeMount(CONFIG_VOLUME, CONFIG_PATH, true)] else []
  }

  function PinEnv(spec: AgentSpec): seq<EnvVar> {
    if |spec.pins| != 0 then [EnvVar(CONFIG_HOME_VARIABLE, CONFIG_PATH)] else []
  }

  /** The parts, appended one after the other, are the whole overlay. */
  lemma PartsMakeTheWhole(c: Container, cfg: Images, spec: AgentSpec)
    ensures
      Extended(Extended(Extended(Overlaid(Bare(spec), c), ToolMounts(cfg), ToolEnv(cfg)), [], DialEnv(cfg)),
               PinMounts(spec), PinEnv(spec))
      == Overlaid(AgentOverlay(cfg, spec), c)
  {
    var base := Bare(spec).mounts;
    assert base + ToolMounts(cfg) + [] + PinMounts(spec) == AgentMounts(cfg, spec);
    assert [] + ToolEnv(cfg) + DialEnv(cfg) + PinEnv(spec) == AgentEnv(cfg, spec);
  }

  /** The agent's container with its tool tree and its end of the workspace link. */
  method ApplyContainer(s: Slice, cfg: Images, spec: AgentSpec) returns (p: Pointer)
    requires s.Valid()
    modifies s, s.cells
    ensures s.Valid() && (s.cells == old(s.cells) || fresh(s.cells))
    ensures p == Pointer(s.cells, IndexOf(old(s.Contents()), AGENT)) && p.at < s.len
    ensures
      var all := Ensured(old(s.Contents()), AGENT);
      s.Contents() == all[p.at :=
        Extended(Extended(Overlaid(Bare(spec), all[p.at]), ToolMounts(cfg), ToolEnv(cfg)), [], DialEnv(cfg))]
  {
    ghost var all := Ensured(s.Contents(), AGENT);
    p := Put(s, AGENT, Bare(spec));
    if cfg.tools != "" {
      Extend(s, p, ToolMounts(cfg), ToolEnv(cfg));
    } else {
      assert Extended(Overlaid(Bare(spec), all[p.at]), [], []) == Overlaid(Bare(spec), all[p.at]);
    }
    if cfg.workspace != "" {
      Extend(s, p, [], DialEnv(cfg));
    } else {
      var c := Extended(Overlaid(Bare(spec), all[p.at]), ToolMounts(cfg), ToolEnv(cfg));
      assert Extended(c, [], []) == c;
    }
  }

  /** The containers of the Pod, workspace last. */
  method ApplyContainers(o: Object, cfg: Images, spec: AgentSpec) returns (refused: bool)
    requires o.Valid()
    modifies o`volumes, o.inits, o.inits.cells, o.containers, o.containers.cells
    ensures o.Valid()
    ensures refused == (|spec.pins| != 0 && cfg.render(spec.pins).None?)
    ensures !refused ==>
      && o.volumes == old(o.volumes) + (if |spec.pins| != 0 then [Volume(CONFIG_VOLUME, EmptyDir("", None))] else [])
      && o.inits.Contents() == (if |spec.pins| == 0 then Without(old(o.inits.Contents()), CONFIG)
           else Upsert(old(o.inits.Contents()), CONFIG, ConfigOverlay(cfg, ConfigText(cfg, spec))))
      && o.containers.Contents() == Containers(cfg, spec, old(o.containers.Contents()))
  {
    ghost var before := o.containers.Contents();
    ghost var all := Ensured(before, AGENT);
    var p := ApplyContainer(o.containers, cfg, spec);
    ghost var c := Extended(Extended(Overlaid(Bare(spec), all[p.at]), ToolMounts(cfg), ToolEnv(cfg)), [], DialEnv(cfg));
    refused := ApplyToolPins(o, cfg, spec, p);
    if refused { return; }
    PartsMakeTheWhole(all[p.at], cfg, spec);
    assert Extended(c, [], []) == c;
    assert o.containers.Contents() == Upsert(before, AGENT, AgentOverlay(cfg, spec));
    ApplyWorkspace(o.containers, cfg);
  }

  /** The fields a StatefulSet refuses a change to.  An object that exists is left as it is, so that no later edit asks
      for what the API server refuses; a new one selects the very Pods of its template and claims the size asked for. */
  method ApplyAtCreation(o: Object, agent: Agent)
    requires o.Valid()
    modifies o`labels, o`selector, o`templateLabels, o`claims
    ensures o.Valid() && o.Value() == AtCreation(agent, old(o.Value()))
    ensures o.created ==> o.Value() == old(o.Value())
    ensures !o.created ==> o.selector == Some(o.templateLabels) && ClaimedSize(o.claims) == agent.spec.storageSize
  {
    if !o.created {
      o.labels := Labels(agent);
      o.selector := Some(Labels(agent));
      o.templateLabels := Labels(agent);
      o.claims := [StateClaim(agent.spec)];
    }
  }

  /** What the Pod carries besides containers. */
  method ApplyPod(o: Object, cfg: Images, spec: AgentSpec)
    modifies o`replicas, o`podSecurity, o`volumes
    ensures o.replicas == Some(1) && o.podSecurity == Some(Secured(old(o.podSecurity)))
    ensures o.volumes == Volumes(cfg, spec.(pins := map[]))
  {
    o.replicas := Some(1);
    if o.podSecurity.None? {
      o.podSecurity := Some(PodSecurity(None, None, None, None, map[]));
    }
    o.podSecurity := Some(o.podSecurity.value.(fsGroup := Some(65532), runAsUser := Some(65532)));
    o.podSecurity := Some(o.podSecurity.value.(runAsNonRoot := Some(true), seccompProfile := Some("RuntimeDefault")));
    o.volumes := [
      Volume(CREDENTIALS_SECRET_VOLUME, FromSecret(spec.credentialsSecretName, 288)),
      Volume(CREDENTIALS_VOLUME, EmptyDir("Memory", Some(1048576)))];
    if cfg.tools != "" {
      o.volumes := o.volumes + [Volume(TOOLS_VOLUME, FromImage(cfg.tools, PULL_ALWAYS))];
    }
  }

  /** The part of the build that is the Pod's. */
  ghost function Templated(cfg: Images, spec: AgentSpec, s: StatefulSet): StatefulSet {
    s.(replicas := Some(1), podSecurity := Some(Secured(s.podSecurity)), volumes := Volumes(cfg, spec),
       inits := Inits(cfg, spec, s.inits), containers := Containers(cfg, spec, s.containers))
  }

  /** Everything but the owner. */
  method ApplyTemplate(o: Object, cfg: Images, agent: Agent) returns (refused: bool)
    requires o.Valid()
    modifies o`replicas, o`podSecurity, o`volumes, o.inits, o.inits.cells, o.containers, o.containers.cells
    ensures o.Valid()
    ensures refused == (|agent.spec.pins| != 0 && cfg.render(agent.spec.pins).None?)
    ensures !refused ==>
      && o.replicas == Some(1) && o.podSecurity == Some(Secured(old(o.podSecurity)))
      && o.volumes == Volumes(cfg, agent.spec)
      && o.inits.Contents() == Inits(cfg, agent.spec, old(o.inits.Contents()))
      && o.containers.Contents() == Containers(cfg, agent.spec, old(o.containers.Contents()))
  {
    ApplyPod(o, cfg, agent.spec);
    var credentials := Put(o.inits, CREDENTIALS, CredentialsOverlay(cfg));
    refused := ApplyContainers(o, cfg, agent.spec);
  }

  /** SetControllerReference: refused where the first controller found is another's; otherwise the Agent's own reference is
      written over or appended, the Agent controls the object, which is what its events are mapped back by, and the
      first controller found is the Agent. */
  method Own(o: Object, agent: Agent) returns (refused: bool)
    requires o.Valid()
    modifies o`owners
    ensures refused == ForeignController(old(o.owners), agent)
    ensures !refused ==> o.Value() == old(o.Value()).(owners := OwnedBy(old(o.owners), agent))
    ensures !refused ==> Controls(o.owners, agent.name) && !ForeignController(o.owners, agent)
    ensures !refused ==> OwnerReference("Agent", agent.name, agent.uid, true) in o.owners
    ensures !refused ==> forall r :: r in old(o.owners) && !(r.kind == "Agent" && r.name == agent.name) ==> r in o.owners
    ensures refused ==> o.owners == old(o.owners)
  {
    ghost var was := o.owners;
    refused := AnotherControls(o.owners, agent);
    if refused { return; }
    o.owners := WithReference(o.owners, agent);
    Rendering.OwnedIsControlled(was, agent);
    Rendering.OwnedKeeps(was, agent);
    Rendering.OwnedIsNotForeign(was, agent);
  }

  /** The first reference to the Agent is written over, or one is appended. */
  method WithReference(owners: seq<OwnerReference>, agent: Agent) returns (r: seq<OwnerReference>)
    ensures r == OwnedBy(owners, agent)
  {
    var i := 0;
    while i < |owners| && !(owners[i].kind == "Agent" && owners[i].name == agent.name)
      invariant 0 <= i <= |owners|
      invariant OwnedBy(owners, agent) == owners[..i] + OwnedBy(owners[i..], agent)
    {
      assert owners[i..][1..] == owners[i + 1..];
      assert owners[..i] + ([owners[i]] + OwnedBy(owners[i + 1..], agent)) == owners[..i + 1] + OwnedBy(owners[i + 1..], agent);
      i := i + 1;
    }
    var reference := OwnerReference("Agent", agent.name, agent.uid, true);
    if i == |owners| {
      assert owners[i..] == [] && owners[..i] == owners;
      return owners + [reference];
    }
    assert owners[i..][1..] == owners[i + 1..];
    r := owners[i := reference];
  }

  ghost predicate FirstControllerIs(owners: seq<OwnerReference>, i: int) {
    0 <= i < |owners| && owners[i].controller && forall j :: 0 <= j < i ==> !owners[j].controller
  }

  /** metav1.GetControllerOf: the first controller there is. */
  method AnotherControls(owners: seq<OwnerReference>, agent: Agent) returns (another: bool)
    ensures another == ForeignController(owners, agent)
    ensures another <==> exists i :: FirstControllerIs(owners, i) && !(owners[i].kind == "Agent" && owners[i].name == agent.name)
  {
    for i := 0 to |owners|
      invariant ForeignController(owners, agent) == ForeignController(owners[i..], agent)
      invariant forall j :: 0 <= j < i ==> !owners[j].controller
    {
      assert owners[i..][1..] == owners[i + 1..];
      if owners[i].controller {
        assert FirstControllerIs(owners, i) && forall j :: FirstControllerIs(owners, j) ==> j == i;
        return !(owners[i].kind == "Agent" && owners[i].name == agent.name);
      }
    }
    another := false;
  }

  lemma Assembled(cfg: Images, agent: Agent, s: StatefulSet)
    ensures Templated(cfg, agent.spec, AtCreation(agent, s)).(owners := OwnedBy(s.owners, agent)) == Render(cfg, agent, s)
  {
  }

  method ApplyAllButOwner(o: Object, cfg: Images, agent: Agent) returns (refused: bool)
    requires o.Valid()
    modifies o, o.inits, o.inits.cells, o.containers, o.containers.cells
    ensures o.Valid() && o.owners == old(o.owners)
    ensures refused == (|agent.spec.pins| != 0 && cfg.render(agent.spec.pins).None?)
    ensures !refused ==> o.Value().(owners := OwnedBy(o.owners, agent)) == Render(cfg, agent, old(o.Value()))
  {
    ghost var s := o.Value();
    ApplyAtCreation(o, agent);
    ghost var t := o.Value();
    refused := ApplyTemplate(o, cfg, agent);
    if !refused {
      assert o.Value() == Templated(cfg, agent.spec, t);
      Assembled(cfg, agent, s);
    }
  }

  /** applyAgent.  For every capacity of both slices the object it leaves is the pure Render of the one it found. */
  method Apply(o: Object, cfg: Images, agent: Agent) returns (refused: bool)
    requires o.Valid()
    modifies o, o.inits, o.inits.cells, o.containers, o.containers.cells
    ensures o.Valid()
    ensures refused == Refused(cfg, agent, old(o.Value()))
    ensures !refused ==> o.Value() == Render(cfg, agent, old(o.Value()))
  {
    refused := ApplyAllButOwner(o, cfg, agent);
    if refused { return; }
    refused := Own(o, agent);
  }

  ghost predicate FirstClaim(claims: seq<Claim>, i: int) {
    0 <= i < |claims| && claims[i].name == "state" && forall j :: 0 <= j < i ==> claims[j].name != "state"
  }

  /** claimedStorageSize. */
  method ClaimedStorageSize(claims: seq<Claim>) returns (size: Quantity)
    ensures size == ClaimedSize(claims)
    ensures (forall c :: c in claims ==> c.name != "state") ==> size.value == 0
    ensures forall i :: FirstClaim(claims, i) && "storage" in claims[i].requests ==> size == claims[i].requests["storage"]
  {
    for i := 0 to |claims|
      invariant ClaimedSize(claims) == ClaimedSize(claims[i..])
      invariant forall j :: 0 <= j < i ==> claims[j].name != "state"
    {
      assert claims[i..][1..] == claims[i + 1..];
      if claims[i].name == STATE_VOLUME {
        assert forall j :: FirstClaim(claims, j) ==> j == i;
        return if "storage" in claims[i].requests then claims[i].requests["storage"] else Quantity(0, "0");
      }
    }
    size := Quantity(0, "0");
  }
}
