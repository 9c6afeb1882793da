/** The stack's entry program: three required environment variables are checked in order,
    then the components are declared one after another under names derived from the
    project and stack. The environment is a map; an absent or empty variable is missing. */
module Deployment {
  import opened Strings
  import opened Naming
  import opened Resources
  import opened Fleet
  import opened LoadBalancer
  import JenkinsInstance

  type Env = map<string, string>

  /** A variable is set when it is defined and not the empty string. */
  predicate Present(env: Env, key: string)
  {
    key in env && env[key] != ""
  }

  /** The variables checked, in the order they are checked. */
  const Required: seq<string> := ["GOOGLE_APPLICATION_CREDENTIALS", "GITHUB_TOKEN", "JENKINS_PASSWORD"]

  function MissingMessage(key: string): string
  {
    "Missing required environment variable: " + key
  }

  /** The base names passed to the components, in declaration order. */
  const BaseNames: seq<string> := [
    "github-token", "jenkins-password", "allow-http", "allow-lb-to-instances",
    "instance-template", "instance-group", "autoscaler", "load-balancer",
    "jenkins-instance", "assets-bucket"
  ]

  function Name(cfg: Config, base: string): string
  {
    ResourceName(cfg.project, cfg.stack, base)
  }

  /** The names of the components in the order the program declares them. */
  function Declarations(cfg: Config): (names: seq<string>)
    ensures |names| == |BaseNames|
    ensures forall i :: 0 <= i < |BaseNames| ==> names[i] == Name(cfg, BaseNames[i])
  {
    seq(|BaseNames|, i requires 0 <= i < |BaseNames| => Name(cfg, BaseNames[i]))
  }

  /** A secret declared with its ID and value. */
  datatype Secret = Secret(secretId: string, value: string)

  /** The stack outputs. */
  datatype Exports = Exports(
    loadBalancerIp: Ref,
    instanceGroupName: Ref,
    instanceTemplateName: Ref,
    stackName: string,
    jenkinsPublicIp: Ref)

  /** What the program declares once the checks pass. */
  datatype Stack = Stack(
    githubSecret: Secret,
    jenkinsSecret: Secret,
    template: FleetTemplate,
    group: GroupManager,
    balancer: Balancer,
    jenkins: JenkinsInstance.JenkinsNode,
    exports: Exports)

  datatype Outcome = Thrown(message: string) | Deployed(stack: Stack)

  /** The stack that the program declares for an environment whose checks pass. */
  predicate Declares(env: Env, cfg: Config, t: JenkinsInstance.Templates, centralJobConfig: string,
                     userScript: string, providerProject: string, s: Stack)
  {
    DeclaresNamed(Declarations(cfg), env, cfg, t, centralJobConfig, userScript, providerProject, s)
  }

  /** The same, over the ten component names in declaration order. */
  predicate DeclaresNamed(names: seq<string>, env: Env, cfg: Config, t: JenkinsInstance.Templates,
                          centralJobConfig: string, userScript: string, providerProject: string, s: Stack)
  {
    && |names| == 10
    && SecretsDeclared(names, env, s.githubSecret, s.jenkinsSecret)
    && FleetDeclared(names, cfg, s.template, s.group, s.balancer)
    && JenkinsDeclared(names, cfg, t, centralJobConfig, userScript, s.jenkins)
    && s.exports == Exports(s.balancer.ip, Ref(s.group.name, "name"), Ref(s.template.template.name, "name"),
                            cfg.stack, Ref(s.jenkins.instance.name, "natIp"))
  }

  /** The two secrets hold the two variables' values under the first two names. */
  predicate SecretsDeclared(names: seq<string>, env: Env, github: Secret, jenkins: Secret)
  {
    && |names| == 10
    && "GITHUB_TOKEN" in env && "JENKINS_PASSWORD" in env
    && github == Secret(names[0], env["GITHUB_TOKEN"])
    && jenkins == Secret(names[1], env["JENKINS_PASSWORD"])
  }

  /** The template, the group of three over it, and the balancer over the group. */
  predicate FleetDeclared(names: seq<string>, cfg: Config, template: FleetTemplate, group: GroupManager,
                          balancer: Balancer)
  {
    && GroupDeclared(names, cfg, template, group)
    && balancer == CreateLoadBalancer(cfg, names[7], group)
  }

  /** The template and the group of three over it. */
  predicate GroupDeclared(names: seq<string>, cfg: Config, template: FleetTemplate, group: GroupManager)
  {
    && |names| == 10
    && template == CreateInstanceTemplate(cfg, names[4])
    && group == CreateInstanceGroup(cfg, names[5], template, cfg.region, 3)
  }

  /** The CI node, with the fields its own declaration promises. */
  predicate JenkinsDeclared(names: seq<string>, cfg: Config, t: JenkinsInstance.Templates,
                            centralJobConfig: string, userScript: string, node: JenkinsInstance.JenkinsNode)
  {
    && |names| == 10
    && node.account == JenkinsInstance.JenkinsAccount(names[8])
    && node.instance.name == names[8]
    && node.instance.zone == "us-central1-f"
    && node.instance.script == JenkinsInstance.ScriptSettings(cfg, t, centralJobConfig, userScript)
    && |node.bindings| == |JenkinsInstance.Roles|
  }

  /** The entry program. `declared` lists the components declared, in order. */
  method Deploy(env: Env, cfg: Config, t: JenkinsInstance.Templates, built: JenkinsInstance.BuildArtifacts,
                providerProject: string) returns (out: Outcome, declared: seq<string>)
    ensures out.Thrown? <==> exists k :: 0 <= k < |Required| && !Present(env, Required[k])
    ensures out.Thrown? ==> exists k :: (0 <= k < |Required| && !Present(env, Required[k]) &&
      (forall j :: 0 <= j < k ==> Present(env, Required[j])) && out.message == MissingMessage(Required[k]))
    ensures out.Thrown? ==> declared == []
    ensures out.Deployed? ==> (declared == Declarations(cfg) &&
      Declares(env, cfg, t, built.centralJobConfig, built.userScript, providerProject, out.stack))
  {
    declared := [];
    if !Present(env, "GOOGLE_APPLICATION_CREDENTIALS") {
      assert !Present(env, Required[0]);
      return Thrown(MissingMessage("GOOGLE_APPLICATION_CREDENTIALS")), declared;
    }
    if !Present(env, "GITHUB_TOKEN") {
      assert Present(env, Required[0]) && !Present(env, Required[1]);
      return Thrown(MissingMessage("GITHUB_TOKEN")), declared;
    }
    if !Present(env, "JENKINS_PASSWORD") {
      assert Present(env, Required[0]) && Present(env, Required[1]) && !Present(env, Required[2]);
      return Thrown(MissingMessage("JENKINS_PASSWORD")), declared;
    }
    assert forall k :: 0 <= k < |Required| ==> Present(env, Required[k]);
    var stack;
    stack, declared := DeclareAll(Declarations(cfg), env, cfg, t, built, providerProject);
    out := Deployed(stack);
  }

  /** The declarations, in program order, once the checks have passed. */
  method DeclareAll(names: seq<string>, env: Env, cfg: Config, t: JenkinsInstance.Templates,
                    built: JenkinsInstance.BuildArtifacts, providerProject: string)
      returns (stack: Stack, declared: seq<string>)
    requires |names| == 10
    requires "GITHUB_TOKEN" in env && "JENKINS_PASSWORD" in env
    ensures declared == names
    ensures DeclaresNamed(names, env, cfg, t, built.centralJobConfig, built.userScript, providerProject, stack)
  {
    // each declaration extends `declared` by the next name
    declared := [];
    var githubSecret, jenkinsSecret := DeclareSecrets(names, env);
    Declared(names, 0, declared);
    declared := declared + [names[0]];
    Declared(names, 1, declared);
    declared := declared + [names[1]];
    // the two firewall rules
    Declared(names, 2, declared);
    declared := declared + [names[2]];
    Declared(names, 3, declared);
    declared := declared + [names[3]];
    var template, group := DeclareFleet(names, cfg);
    Declared(names, 4, declared);
    declared := declared + [names[4]];
    Declared(names, 5, declared);
    declared := declared + [names[5]];
    // the autoscaler
    Declared(names, 6, declared);
    declared := declared + [names[6]];
    var balancer := DeclareBalancer(names, cfg, template, group);
    Declared(names, 7, declared);
    declared := declared + [names[7]];
    var jenkins := DeclareJenkins(names, cfg, t, built, providerProject);
    Declared(names, 8, declared);
    declared := declared + [names[8]];
    // the assets bucket
    Declared(names, 9, declared);
    declared := declared + [names[9]];
    assert declared == names[..10] == names;
    var exports := Exports(balancer.ip, Ref(group.name, "name"), Ref(template.template.name, "name"),
                           cfg.stack, Ref(jenkins.instance.name, "natIp"));
    stack := Stack(githubSecret, jenkinsSecret, template, group, balancer, jenkins, exports);
  }

  lemma Declared(names: seq<string>, k: nat, declared: seq<string>)
    requires k < |names| && (k == 0 ==> declared == []) && (k > 0 ==> declared == names[..k])
    ensures declared + [names[k]] == names[..k + 1]
  {
    PrefixExtend(names, k);
  }

  method DeclareSecrets(names: seq<string>, env: Env) returns (github: Secret, jenkins: Secret)
    requires |names| == 10
    requires "GITHUB_TOKEN" in env && "JENKINS_PASSWORD" in env
    ensures SecretsDeclared(names, env, github, jenkins)
    ensures github.secretId == names[0] && jenkins.secretId == names[1]
  {
    github := Secret(names[0], env["GITHUB_TOKEN"]);
    jenkins := Secret(names[1], env["JENKINS_PASSWORD"]);
  }

  method DeclareFleet(names: seq<string>, cfg: Config) returns (template: FleetTemplate, group: GroupManager)
    requires |names| == 10
    ensures GroupDeclared(names, cfg, template, group)
    ensures template.template.name == names[4] && group.name == names[5]
  {
    template := CreateInstanceTemplate(cfg, names[4]);
    group := CreateInstanceGroup(cfg, names[5], template, cfg.region, 3);
  }

  method DeclareBalancer(names: seq<string>, cfg: Config, template: FleetTemplate, group: GroupManager)
      returns (balancer: Balancer)
    requires |names| == 10
    requires GroupDeclared(names, cfg, template, group)
    ensures FleetDeclared(names, cfg, template, group, balancer)
  {
    balancer := CreateLoadBalancer(cfg, names[7], group);
  }

  method DeclareJenkins(names: seq<string>, cfg: Config, t: JenkinsInstance.Templates,
                        built: JenkinsInstance.BuildArtifacts, providerProject: string)
      returns (node: JenkinsInstance.JenkinsNode)
    requires |names| == 10
    ensures JenkinsDeclared(names, cfg, t, built.centralJobConfig, built.userScript, node)
    ensures node.instance.name == names[8]
  {
    node := JenkinsInstance.CreateJenkinsInstance(cfg, t, built, providerProject, names[8], "us-central1-f");
  }

  /** The components the wiring lemmas are about, by position. */
  lemma NamesAt(cfg: Config)
    ensures var names := Declarations(cfg);
      && names[0] == Name(cfg, "github-token") && names[1] == Name(cfg, "jenkins-password")
      && names[4] == Name(cfg, "instance-template") && names[8] == Name(cfg, "jenkins-instance")
  {
    assert BaseNames[0] == "github-token" && BaseNames[1] == "jenkins-password";
    assert BaseNames[4] == "instance-template" && BaseNames[8] == "jenkins-instance";
  }

  lemma BaseNamesDistinct()
    ensures forall i, j :: 0 <= i < j < |BaseNames| ==> BaseNames[i] != BaseNames[j]
  {
  }

  /** No two components of one deployment share a name. */
  lemma DeclarationsDistinct(cfg: Config)
    ensures var names := Declarations(cfg);
      forall i, j :: 0 <= i < j < |names| ==> names[i] != names[j]
  {
    var names := Declarations(cfg);
    forall i, j | 0 <= i < j < |names|
      ensures names[i] != names[j]
    {
      BaseNamesDistinct();
      ResourceNameInjective(cfg.project, cfg.stack, BaseNames[i], BaseNames[j]);
    }
  }

  /** The secrets are declared under the IDs the two startup scripts read: the fleet
      fetches the token secret by its ID, and the CI node reads both. */
  lemma SecretsWired(env: Env, cfg: Config, t: JenkinsInstance.Templates, centralJobConfig: string,
                     userScript: string, providerProject: string, s: Stack)
    requires Declares(env, cfg, t, centralJobConfig, userScript, providerProject, s)
    ensures FetchToken(s.githubSecret.secretId) in s.template.template.startup
    ensures s.jenkins.instance.script.githubSecretId == s.githubSecret.secretId
    ensures s.jenkins.instance.script.jenkinsSecretId == s.jenkinsSecret.secretId
  {
    NamesAt(cfg);
    InstanceTemplateWired(cfg, Name(cfg, "instance-template"));
  }

  /** The fleet's and the CI node's service accounts get different account IDs. */
  lemma AccountIdsDistinct(env: Env, cfg: Config, t: JenkinsInstance.Templates, centralJobConfig: string,
                           userScript: string, providerProject: string, s: Stack)
    requires Declares(env, cfg, t, centralJobConfig, userScript, providerProject, s)
    ensures s.template.account.accountId != s.jenkins.account.accountId
  {
    NamesAt(cfg);
    ServiceAccountIdsDistinct(cfg.project, cfg.stack);
  }

  /** The secret values reach only the secrets: two environments that differ in the token
      and the password declare the same template, startup scripts, group and balancer. */
  lemma SecretsOnlyInSecrets(env1: Env, env2: Env, cfg: Config, t: JenkinsInstance.Templates,
                             centralJobConfig: string, userScript: string, providerProject: string,
                             s1: Stack, s2: Stack)
    requires Declares(env1, cfg, t, centralJobConfig, userScript, providerProject, s1)
    requires Declares(env2, cfg, t, centralJobConfig, userScript, providerProject, s2)
    ensures s1.template == s2.template && s1.group == s2.group && s1.balancer == s2.balancer
    ensures s1.jenkins.instance.script == s2.jenkins.instance.script
    ensures s1.githubSecret.secretId == s2.githubSecret.secretId
  {
  }

  /** The balancer sends traffic to the port the fleet's group publishes, and the stack
      exports the balancer's address. */
  lemma TrafficWired(env: Env, cfg: Config, t: JenkinsInstance.Templates, centralJobConfig: string,
                     userScript: string, providerProject: string, s: Stack)
    requires Declares(env, cfg, t, centralJobConfig, userScript, providerProject, s)
    ensures s.group.namedPorts[0].name == s.balancer.backend.portName
    ensures s.balancer.backend.groups == [Ref(s.group.name, "instanceGroup")]
    ensures s.group.versions == [Ref(s.template.template.name, "selfLink")]
    ensures s.exports.loadBalancerIp == Ref(s.balancer.address.name, "address")
  {
  }
}
