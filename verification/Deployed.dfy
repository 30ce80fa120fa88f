/** What a workload that has been built and stored any number of times runs, mounts and is allowed, said outright. */
module Deployed {
  import opened Prelude
  import opened Api
  import opened Workload
  import opened Rendering
  import opened Features

  /** The workload as it is stored, and the build it was last given. */
  function Latest(builds: seq<Build>, objects: seq<StatefulSet>): StatefulSet
    requires |objects| == |builds| + 1
  {
    objects[|builds|]
  }

  /** Pulled at every start, without escalation and with every capability dropped. */
  predicate Confined(c: Container) {
    c.imagePullPolicy == "Always" && c.security == Some(SecurityContext(false, ["ALL"]))
  }

  /** The agent's container runs the image and has the resources its Agent's spec says, and reads its credential and
      keeps its state where it expects them. */
  lemma AgentRunsItsSpec(builds: seq<Build>, objects: seq<StatefulSet>)
    requires FromNothing(builds, objects)
    ensures
      var t, spec := Latest(builds, objects), builds[|builds| - 1].agent.spec;
      && t.containers != []
      && var c := t.containers[0];
         && c.name == "agent" && c.image == spec.image && c.resources == spec.resources && Confined(c)
         && VolumeMount("credentials", "/run/gagent/credentials", false) in c.mounts
         && VolumeMount("state", "/var/lib/gagent", false) in c.mounts
  {
    PodFromNothing(builds, objects);
    var t, b := Latest(builds, objects), builds[|builds| - 1];
    var ours := OurContainers(b.cfg, b.agent.spec);
    assert Fills(ours[0], t.containers[0]);
    assert AgentMounts(b.cfg, b.agent.spec)[0] == VolumeMount("credentials", "/run/gagent/credentials", false);
    assert AgentMounts(b.cfg, b.agent.spec)[1] == VolumeMount("state", "/var/lib/gagent", false);
  }

  lemma AgentMountsTools(cfg: Images, spec: AgentSpec)
    ensures VolumeMount("tools", "/opt/gagent/tools", true) in AgentMounts(cfg, spec) <==> cfg.tools != ""
    ensures EnvVar("GAGENT_TOOLS_DIR", "/opt/gagent/tools") in AgentEnv(cfg, spec) <==> cfg.tools != ""
  {
    assert |"tools"| == 5 && |"credentials"| == 11 && |"config"| == 6 && |"state"| == 5 && "tools"[0] != "state"[0];
    assert |TOOLS_VARIABLE| == 16 && |DIAL_VARIABLE| == 21 && |CONFIG_HOME_VARIABLE| == 15;
    if cfg.tools != "" {
      assert AgentMounts(cfg, spec)[2] == VolumeMount("tools", "/opt/gagent/tools", true);
      assert AgentEnv(cfg, spec)[0] == EnvVar("GAGENT_TOOLS_DIR", "/opt/gagent/tools");
    }
  }

  lemma AgentMountsConfig(cfg: Images, spec: AgentSpec)
    ensures VolumeMount("config", "/run/gagent/config", true) in AgentMounts(cfg, spec) <==> |spec.pins| != 0
    ensures EnvVar("XDG_CONFIG_HOME", "/run/gagent/config") in AgentEnv(cfg, spec) <==> |spec.pins| != 0
  {
    assert |"tools"| == 5 && |"credentials"| == 11 && |"config"| == 6 && |"state"| == 5;
    assert |TOOLS_VARIABLE| == 16 && |DIAL_VARIABLE| == 21 && |CONFIG_HOME_VARIABLE| == 15;
    if |spec.pins| != 0 {
      var ms, es := AgentMounts(cfg, spec), AgentEnv(cfg, spec);
      assert ms[|ms| - 1] == VolumeMount("config", "/run/gagent/config", true);
      assert es[|es| - 1] == EnvVar("XDG_CONFIG_HOME", "/run/gagent/config");
    }
  }

  /** The tool tree and the config file are mounted, read-only, and the agent is pointed at the very place each is mounted,
      exactly where an image of tools is configured and exactly where pins are declared. */
  lemma AgentIsPointedAtItsTrees(builds: seq<Build>, objects: seq<StatefulSet>)
    requires FromNothing(builds, objects)
    ensures
      var t, b := Latest(builds, objects), builds[|builds| - 1];
      && t.containers != []
      && var c := t.containers[0];
         && (VolumeMount("tools", "/opt/gagent/tools", true) in c.mounts <==> b.cfg.tools != "")
         && (EnvVar("GAGENT_TOOLS_DIR", "/opt/gagent/tools") in c.env <==> b.cfg.tools != "")
         && (VolumeMount("config", "/run/gagent/config", true) in c.mounts <==> |b.agent.spec.pins| != 0)
         && (EnvVar("XDG_CONFIG_HOME", "/run/gagent/config") in c.env <==> |b.agent.spec.pins| != 0)
  {
    PodFromNothing(builds, objects);
    var t, b := Latest(builds, objects), builds[|builds| - 1];
    assert Fills(OurContainers(b.cfg, b.agent.spec)[0], t.containers[0]);
    AgentMountsTools(b.cfg, b.agent.spec);
    AgentMountsConfig(b.cfg, b.agent.spec);
  }

  /** The workspace runs the configured image, serves the address the agent dials, and works in the agent's state. */
  lemma WorkspaceServes(builds: seq<Build>, objects: seq<StatefulSet>)
    requires FromNothing(builds, objects)
    ensures
      var t, b := Latest(builds, objects), builds[|builds| - 1];
      && |t.containers| == (if b.cfg.workspace != "" then 2 else 1)
      && (b.cfg.workspace != "" ==>
            var c := t.containers[1];
            && c.name == "workspace" && c.image == b.cfg.workspace && Confined(c)
            && c.env == [EnvVar("GAGENT_ADDR", "127.0.0.1:8081"), EnvVar("GAGENT_WORKSPACE", "/var/lib/gagent/workspace"),
                         EnvVar("GAGENT_EXEC_UID", "65532")]
            && c.mounts == [VolumeMount("state", "/var/lib/gagent", false)])
  {
    PodFromNothing(builds, objects);
    var t, b := Latest(builds, objects), builds[|builds| - 1];
    if b.cfg.workspace != "" {
      assert Fills(OurContainers(b.cfg, b.agent.spec)[1], t.containers[1]);
      assert WORKSPACE_DIR == "/var/lib/gagent/workspace";
    }
  }

  /** The credential is copied by the operator's copy image from where the Secret is projected to where the agent reads
      it, at a mode only its owner can read. */
  lemma CredentialIsCopied(builds: seq<Build>, objects: seq<StatefulSet>)
    requires FromNothing(builds, objects)
    ensures
      var t, b := Latest(builds, objects), builds[|builds| - 1];
      && t.inits != []
      && var c := t.inits[0];
         && c.name == "credentials" && c.image == b.cfg.copy && Confined(c)
         && c.mounts == [VolumeMount("credentials-secret", "/etc/gagent/credentials", true),
                         VolumeMount("credentials", "/run/gagent/credentials", false)]
         && c.command == ["/bin/sh", "-ec",
              "for f in " + "/etc/gagent/credentials" + "/*; do install -m 0600 \"$f\" " + "/run/gagent/credentials" + "/; done"]
  {
    PodFromNothing(builds, objects);
    var t, b := Latest(builds, objects), builds[|builds| - 1];
    assert Fills(OurInits(b.cfg, b.agent.spec)[0], t.inits[0]);
  }

  /** The config file is written, exactly where pins are declared, by the copy image to where the agent is pointed, from a
      text that travels in the environment and is the rendering of those pins. */
  lemma ConfigIsWritten(builds: seq<Build>, objects: seq<StatefulSet>)
    requires FromNothing(builds, objects)
    ensures
      var t, b := Latest(builds, objects), builds[|builds| - 1];
      && |t.inits| == (if |b.agent.spec.pins| != 0 then 2 else 1)
      && (|b.agent.spec.pins| != 0 ==>
            var c := t.inits[1];
            && c.name == "config" && c.image == b.cfg.copy && Confined(c)
            && c.mounts == [VolumeMount("config", "/run/gagent/config", false)]
            && b.cfg.render(b.agent.spec.pins).Some?
            && c.env == [EnvVar("AGENT_CONFIG_CONTENT", b.cfg.render(b.agent.spec.pins).value)]
            && c.command == ["/bin/sh", "-ec",
                 "umask 077 && mkdir -p " + "/run/gagent/config" + "/gagent && printf '%s' \"$" + "AGENT_CONFIG_CONTENT"
                 + "\" > " + "/run/gagent/config" + "/gagent/config.yaml"])
  {
    PodFromNothing(builds, objects);
    var t, b, n := Latest(builds, objects), builds[|builds| - 1], |builds| - 1;
    assert StoredAt(builds, objects, n);
    if |b.agent.spec.pins| != 0 {
      assert Fills(OurInits(b.cfg, b.agent.spec)[1], t.inits[1]);
    }
  }

  /** The Pod runs one replica as an ordinary user, and its security context says so to whoever admits it. */
  lemma PodIsUnprivileged(builds: seq<Build>, objects: seq<StatefulSet>)
    requires FromNothing(builds, objects)
    ensures
      var t := Latest(builds, objects);
      && t.replicas == Some(1) && t.podSecurity.Some?
      && t.podSecurity.value.runAsUser == Some(65532) && t.podSecurity.value.fsGroup == Some(65532)
      && t.podSecurity.value.runAsNonRoot == Some(true) && t.podSecurity.value.seccompProfile == Some("RuntimeDefault")
  {
    OnlyTheLastBuildCounts(builds, objects, |builds|);
  }

  lemma VolumesAre(cfg: Images, spec: AgentSpec, v: Volume)
    requires v in Volumes(cfg, spec)
    ensures v.name == "credentials-secret" ==> v.source == FromSecret(spec.credentialsSecretName, 0x120)
    ensures v.name == "credentials" ==> v.source == EmptyDir("Memory", Some(1048576))
    ensures v.name == "tools" ==> cfg.tools != "" && v.source == FromImage(cfg.tools, "Always")
    ensures v.name == "config" ==> |spec.pins| != 0 && v.source == EmptyDir("", None)
    ensures v.name in {"credentials-secret", "credentials", "tools", "config"}
  {
    assert |"credentials-secret"| == 18 && |"credentials"| == 11 && |"tools"| == 5 && |"config"| == 6;
  }

  /** Each volume of the Pod is what its name says: the Secret the Agent names, readable to its group and no further; a
      bounded volume in memory for the copy; the image of tools; and a directory for the config file. */
  lemma VolumesHoldWhatTheyName(builds: seq<Build>, objects: seq<StatefulSet>, v: Volume)
    requires FromNothing(builds, objects) && v in Latest(builds, objects).volumes
    ensures
      var b := builds[|builds| - 1];
      && (v.name == "credentials-secret" ==> v.source == FromSecret(b.agent.spec.credentialsSecretName, 0x120))
      && (v.name == "credentials" ==> v.source == EmptyDir("Memory", Some(1048576)))
      && (v.name == "tools" ==> b.cfg.tools != "" && v.source == FromImage(b.cfg.tools, "Always"))
      && (v.name == "config" ==> |b.agent.spec.pins| != 0 && v.source == EmptyDir("", None))
      && v.name in {"credentials-secret", "credentials", "tools", "config"}
  {
    PodFromNothing(builds, objects);
    VolumesAre(builds[|builds| - 1].cfg, builds[|builds| - 1].agent.spec, v);
  }

  /** The Secret the Agent names is projected into the Pod. */
  lemma SecretIsProjected(builds: seq<Build>, objects: seq<StatefulSet>)
    requires FromNothing(builds, objects)
    ensures Volume("credentials-secret", FromSecret(builds[|builds| - 1].agent.spec.credentialsSecretName, 0x120))
            in Latest(builds, objects).volumes
  {
    PodFromNothing(builds, objects);
    assert Latest(builds, objects).volumes[0]
        == Volume("credentials-secret", FromSecret(builds[|builds| - 1].agent.spec.credentialsSecretName, 0x120));
  }

  /** The one claim is of the size and class first asked for, for one writer. */
  lemma StateIsClaimed(builds: seq<Build>, objects: seq<StatefulSet>)
    requires FromNothing(builds, objects)
    ensures
      var first := builds[0].agent.spec;
      Latest(builds, objects).claims ==
        [Claim("state", ["ReadWriteOnce"], map["storage" := first.storageSize], first.storageClassName)]
  {
    PodFromNothing(builds, objects);
  }

  lemma InstanceIsLabelled(agent: Agent)
    ensures "app.kubernetes.io/instance" in Labels(agent) && Labels(agent)["app.kubernetes.io/instance"] == agent.name
    ensures "app.kubernetes.io/name" in Labels(agent) && Labels(agent)["app.kubernetes.io/name"] == "agent"
  {
    assert |"app.kubernetes.io/instance"| == 26 && |"app.kubernetes.io/name"| == 22;
  }

  /** A workload selects the Pods of its own template, which carry its first Agent's name, and no Pod of a workload first
      built for an Agent of another name. */
  lemma SelectorsKeepApart(builds: seq<Build>, objects: seq<StatefulSet>, others: seq<Build>, theirs: seq<StatefulSet>)
    requires FromNothing(builds, objects) && FromNothing(others, theirs)
    ensures
      var t, u := Latest(builds, objects), Latest(others, theirs);
      && t.selector == Some(t.templateLabels) && t.labels == t.templateLabels
      && "app.kubernetes.io/instance" in t.templateLabels
      && t.templateLabels["app.kubernetes.io/instance"] == builds[0].agent.name
      && (builds[0].agent.name != others[0].agent.name ==> t.selector != u.selector && t.selector != Some(u.templateLabels))
  {
    OnlyTheLastBuildCounts(builds, objects, |builds|);
    OnlyTheLastBuildCounts(others, theirs, |others|);
    InstanceIsLabelled(builds[0].agent);
    InstanceIsLabelled(others[0].agent);
  }

  /** Of any object whatever, a build leaves the agent's container with the image and resources of the spec, and the
      credential's with the copy image. */
  lemma AnyBuildSetsTheImages(cfg: Images, agent: Agent, s: StatefulSet)
    ensures
      var t := Render(cfg, agent, s);
      && Has(t.containers, "agent") && Has(t.inits, "credentials")
      && (var a, c := t.containers[IndexOf(t.containers, "agent")], t.inits[IndexOf(t.inits, "credentials")];
          && a.image == agent.spec.image && a.resources == agent.spec.resources && Confined(a)
          && c.image == cfg.copy && Confined(c))
      && (cfg.workspace != "" ==>
            Has(t.containers, "workspace") && t.containers[IndexOf(t.containers, "workspace")].image == cfg.workspace)
      && (cfg.workspace == "" ==> !Has(t.containers, "workspace"))
  {
    assert AGENT == "agent" && CREDENTIALS == "credentials" && WORKSPACE == "workspace";
    assert |AGENT| == 5 && |WORKSPACE| == 9 && |CREDENTIALS| == 11 && |CONFIG| == 6;
    RenderedCarries(s.containers, AGENT, AgentOverlay(cfg, agent.spec), WORKSPACE,
      if cfg.workspace != "" then Some(WorkspaceOverlay(cfg)) else None);
    RenderedCarries(s.inits, CREDENTIALS, CredentialsOverlay(cfg), CONFIG,
      if |agent.spec.pins| != 0 then Some(ConfigOverlay(cfg, ConfigText(cfg, agent.spec))) else None);
  }
}
