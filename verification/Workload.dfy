/**
 The StatefulSet an Agent's spec and the operator's configuration decide, as a pure function of them and of
 the object found.  Fields nothing here writes are carried in `other`.
 */
module Workload {
  import opened Prelude
  import opened Api

  type Other = map<string, string>

  datatype EnvVar = EnvVar(name: string, value: string)

  datatype VolumeMount = VolumeMount(name: string, mountPath: string, readOnly: bool)

  datatype SecurityContext = SecurityContext(allowPrivilegeEscalation: bool, drop: seq<string>)

  datatype Container = Container(
    name: string,
    image: string,
    imagePullPolicy: string,
    command: seq<string>,
    env: seq<EnvVar>,
    resources: Resources,
    security: Option<SecurityContext>,
    mounts: seq<VolumeMount>,
    other: Other)

  datatype PodSecurity = PodSecurity(
    fsGroup: Option<int>,
    runAsUser: Option<int>,
    runAsNonRoot: Option<bool>,
    seccompProfile: Option<string>,
    other: Other)

  datatype VolumeSource =
    | FromSecret(secretName: string, mode: int)
    | EmptyDir(medium: string, sizeLimit: Option<int>)
    | FromImage(reference: string, pullPolicy: string)

  datatype Volume = Volume(name: string, source: VolumeSource)

  datatype Claim = Claim(
    name: string,
    accessModes: seq<string>,
    requests: map<string, Quantity>,
    storageClassName: Option<string>)

  datatype OwnerReference = OwnerReference(kind: string, name: string, uid: nat, controller: bool)

  datatype StatefulSet = StatefulSet(
    created: bool,
    labels: map<string, string>,
    selector: Option<map<string, string>>,
    templateLabels: map<string, string>,
    claims: seq<Claim>,
    replicas: Option<int>,
    podSecurity: Option<PodSecurity>,
    volumes: seq<Volume>,
    inits: seq<Container>,
    containers: seq<Container>,
    owners: seq<OwnerReference>,
    readyReplicas: int,
    other: Other)

  /** The Agent a reconcile works from. */
  datatype Agent = Agent(name: string, uid: nat, generation: int, spec: AgentSpec)

  /** The images the operator is configured with, and the YAML rendering of a pin set. */
  datatype Images = Images(
    copy: string,
    tools: string,
    workspace: string,
    render: map<string, string> -> Option<string>)

  // ------------------------------------------------------------------ constants

  const AGENT := "agent"
  const CREDENTIALS := "credentials"
  const CONFIG := "config"
  const WORKSPACE := "workspace"

  const CREDENTIALS_VOLUME := "credentials"
  const CREDENTIALS_SECRET_VOLUME := "credentials-secret"
  const STATE_VOLUME := "state"
  const TOOLS_VOLUME := "tools"
  const CONFIG_VOLUME := "config"

  const CREDENTIALS_PATH := "/run/gagent/credentials"
  const CREDENTIALS_SECRET_PATH := "/etc/gagent/credentials"
  const STATE_PATH := "/var/lib/gagent"
  const TOOLS_PATH := "/opt/gagent/tools"
  const CONFIG_PATH := "/run/gagent/config"
  const WORKSPACE_DIR := STATE_PATH + "/workspace"

  const TOOLS_VARIABLE := "GAGENT_TOOLS_DIR"
  const CONFIG_HOME_VARIABLE := "XDG_CONFIG_HOME"
  const CONFIG_CONTENT_VARIABLE := "AGENT_CONFIG_CONTENT"
  const LISTEN_VARIABLE := "GAGENT_ADDR"
  const DIAL_VARIABLE := "GAGENT_WORKSPACE_ADDR"
  const WORKSPACE_DIR_VARIABLE := "GAGENT_WORKSPACE"
  const EXEC_USER_VARIABLE := "GAGENT_EXEC_UID"
  const WORKSPACE_ADDRESS := "127.0.0.1:8081"

  const PULL_ALWAYS := "Always"
  const RESTRICTED := SecurityContext(false, ["ALL"])
  const COPY_COMMAND := ["/bin/sh", "-ec",
    "for f in " + CREDENTIALS_SECRET_PATH + "/*; do install -m 0600 \"$f\" " + CREDENTIALS_PATH + "/; done"]
  const WRITE_CONFIG_COMMAND := ["/bin/sh", "-ec",
    "umask 077 && mkdir -p " + CONFIG_PATH + "/gagent && printf '%s' \"$" + CONFIG_CONTENT_VARIABLE + "\" > "
    + CONFIG_PATH + "/gagent/config.yaml"]

  // ------------------------------------------------------------ named containers

  function IndexOf(cs: seq<Container>, name: string): (r: nat)
    ensures r <= |cs|
    ensures r < |cs| ==> cs[r].name == name
    ensures forall i :: 0 <= i < r ==> cs[i].name != name
  {
    if cs == [] || cs[0].name == name then 0 else 1 + IndexOf(cs[1..], name)
  }

  predicate Has(cs: seq<Container>, name: string) { IndexOf(cs, name) < |cs| }

  function Empty(name: string): Container {
    Container(name, "", "", [], [], map[], None, [], map[])
  }

  /** containerNamed's effect on the list: an empty container at the end where the name is missing. */
  function Ensured(cs: seq<Container>, name: string): (r: seq<Container>)
    ensures IndexOf(cs, name) < |r| && r[IndexOf(cs, name)].name == name
  {
    if Has(cs, name) then cs else cs + [Empty(name)]
  }

  /** The fields this operator decides on one container, `None` where it leaves a field alone. */
  datatype Overlay = Overlay(
    image: string,
    command: Option<seq<string>>,
    env: Option<seq<EnvVar>>,
    resources: Option<Resources>,
    mounts: seq<VolumeMount>)

  function Overlaid(o: Overlay, c: Container): Container {
    c.(image := o.image,
       imagePullPolicy := PULL_ALWAYS,
       security := Some(RESTRICTED),
       mounts := o.mounts,
       command := if o.command.Some? then o.command.value else c.command,
       env := if o.env.Some? then o.env.value else c.env,
       resources := if o.resources.Some? then o.resources.value else c.resources)
  }

  function Upsert(cs: seq<Container>, name: string, o: Overlay): seq<Container> {
    var all, i := Ensured(cs, name), IndexOf(cs, name);
    all[i := Overlaid(o, all[i])]
  }

  function Without(cs: seq<Container>, name: string): (r: seq<Container>)
    ensures |r| <= |cs|
  {
    if cs == [] then []
    else if cs[0].name == name then Without(cs[1..], name)
    else [cs[0]] + Without(cs[1..], name)
  }

  // --------------------------------------------------------------------- overlays

  function CredentialsOverlay(cfg: Images): Overlay {
    Overlay(cfg.copy, Some(COPY_COMMAND), None, None,
            [VolumeMount(CREDENTIALS_SECRET_VOLUME, CREDENTIALS_SECRET_PATH, true),
             VolumeMount(CREDENTIALS_VOLUME, CREDENTIALS_PATH, false)])
  }

  function AgentMounts(cfg: Images, spec: AgentSpec): seq<VolumeMount> {
    [VolumeMount(CREDENTIALS_VOLUME, CREDENTIALS_PATH, false), VolumeMount(STATE_VOLUME, STATE_PATH, false)]
    + (if cfg.tools != "" then [VolumeMount(TOOLS_VOLUME, TOOLS_PATH, true)] else [])
    + (if |spec.pins| != 0 then [VolumeMount(CONFIG_VOLUME, CONFIG_PATH, true)] else [])
  }

  function AgentEnv(cfg: Images, spec: AgentSpec): seq<EnvVar> {
    (if cfg.tools != "" then [EnvVar(TOOLS_VARIABLE, TOOLS_PATH)] else [])
    + (if cfg.workspace != "" then [EnvVar(DIAL_VARIABLE, WORKSPACE_ADDRESS)] else [])
    + (if |spec.pins| != 0 then [EnvVar(CONFIG_HOME_VARIABLE, CONFIG_PATH)] else [])
  }

  function AgentOverlay(cfg: Images, spec: AgentSpec): Overlay {
    Overlay(spec.image, None, Some(AgentEnv(cfg, spec)), Some(spec.resources), AgentMounts(cfg, spec))
  }

  function ConfigOverlay(cfg: Images, text: string): Overlay {
    Overlay(cfg.copy, Some(WRITE_CONFIG_COMMAND), Some([EnvVar(CONFIG_CONTENT_VARIABLE, text)]), None,
            [VolumeMount(CONFIG_VOLUME, CONFIG_PATH, false)])
  }

  function WorkspaceOverlay(cfg: Images): Overlay {
    Overlay(cfg.workspace, None,
            Some([EnvVar(LISTEN_VARIABLE, WORKSPACE_ADDRESS), EnvVar(WORKSPACE_DIR_VARIABLE, WORKSPACE_DIR),
                  EnvVar(EXEC_USER_VARIABLE, "65532")]),
            None,
            [VolumeMount(STATE_VOLUME, STATE_PATH, false)])
  }

  // ----------------------------------------------------------------------- render

  /** The text of the config file.  Only asked for where pins are declared. */
  function ConfigText(cfg: Images, spec: AgentSpec): string {
    var t := cfg.render(spec.pins);
    if t.Some? then t.value else ""
  }

  function Volumes(cfg: Images, spec: AgentSpec): seq<Volume> {
    [Volume(CREDENTIALS_SECRET_VOLUME, FromSecret(spec.credentialsSecretName, 288)),
     Volume(CREDENTIALS_VOLUME, EmptyDir("Memory", Some(1048576)))]
    + (if cfg.tools != "" then [Volume(TOOLS_VOLUME, FromImage(cfg.tools, PULL_ALWAYS))] else [])
    + (if |spec.pins| != 0 then [Volume(CONFIG_VOLUME, EmptyDir("", None))] else [])
  }

  /** The container that is always there, and then the one that comes and goes. */
  function Rendered(cs: seq<Container>, main: string, o: Overlay, extra: string, x: Option<Overlay>): seq<Container> {
    var kept := Upsert(cs, main, o);
    if x.Some? then Upsert(kept, extra, x.value) else Without(kept, extra)
  }

  function Inits(cfg: Images, spec: AgentSpec, cs: seq<Container>): seq<Container> {
    Rendered(cs, CREDENTIALS, CredentialsOverlay(cfg), CONFIG,
             if |spec.pins| != 0 then Some(ConfigOverlay(cfg, ConfigText(cfg, spec))) else None)
  }

  function Containers(cfg: Images, spec: AgentSpec, cs: seq<Container>): seq<Container> {
    Rendered(cs, AGENT, AgentOverlay(cfg, spec), WORKSPACE,
             if cfg.workspace != "" then Some(WorkspaceOverlay(cfg)) else None)
  }

  function Secured(p: Option<PodSecurity>): PodSecurity {
    PodSecurity(Some(65532), Some(65532), Some(true), Some("RuntimeDefault"),
                if p.Some? then p.value.other else map[])
  }

  function Labels(agent: Agent): map<string, string> {
    map["app.kubernetes.io/name" := AGENT, "app.kubernetes.io/instance" := agent.name]
  }

  function StateClaim(spec: AgentSpec): Claim {
    Claim(STATE_VOLUME, ["ReadWriteOnce"], map["storage" := spec.storageSize], spec.storageClassName)
  }

  // ------------------------------------------------------------------------- owner

  predicate SameOwner(r: OwnerReference, agent: Agent) { r.kind == "Agent" && r.name == agent.name }

  /** Some other object already controls this one, which SetControllerReference refuses. */
  predicate ForeignController(owners: seq<OwnerReference>, agent: Agent) {
    owners != [] && (if owners[0].controller then !SameOwner(owners[0], agent) else ForeignController(owners[1..], agent))
  }

  function OwnedBy(owners: seq<OwnerReference>, agent: Agent): seq<OwnerReference> {
    if owners == [] then [OwnerReference("Agent", agent.name, agent.uid, true)]
    else if SameOwner(owners[0], agent) then [OwnerReference("Agent", agent.name, agent.uid, true)] + owners[1..]
    else [owners[0]] + OwnedBy(owners[1..], agent)
  }

  /** The Agent is the controller of the object, which is what its events are mapped back by. */
  predicate Controls(owners: seq<OwnerReference>, name: string) {
    exists i :: 0 <= i < |owners| && owners[i].controller && owners[i].kind == "Agent" && owners[i].name == name
  }

  // ----------------------------------------------------------------------- the whole

  /** When applyAgent returns an error, so that nothing is written. */
  predicate Refused(cfg: Images, agent: Agent, s: StatefulSet) {
    || (|agent.spec.pins| != 0 && cfg.render(agent.spec.pins).None?)
    || ForeignController(s.owners, agent)
  }

  function AtCreation(agent: Agent, s: StatefulSet): StatefulSet {
    if s.created then s
    else s.(labels := Labels(agent), selector := Some(Labels(agent)), templateLabels := Labels(agent),
            claims := [StateClaim(agent.spec)])
  }

  /** What applyAgent leaves of the object it was given. */
  function Render(cfg: Images, agent: Agent, s: StatefulSet): StatefulSet {
    AtCreation(agent, s).(
      replicas := Some(1),
      podSecurity := Some(Secured(s.podSecurity)),
      volumes := Volumes(cfg, agent.spec),
      inits := Inits(cfg, agent.spec, s.inits),
      containers := Containers(cfg, agent.spec, s.containers),
      owners := OwnedBy(s.owners, agent))
  }

  /** The size claimed for the agent's state: the first claim of that name, and zero where there is none. */
  function ClaimedSize(claims: seq<Claim>): Quantity {
    if claims == [] then Quantity(0, "0")
    else if claims[0].name == STATE_VOLUME then
      if "storage" in claims[0].requests then claims[0].requests["storage"] else Quantity(0, "0")
    else ClaimedSize(claims[1..])
  }
}
