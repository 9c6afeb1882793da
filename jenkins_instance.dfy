/** The CI node component: the build-time rendering of the files its startup script
    writes, the node's service account and role bindings, and the settings the startup
    script (module `Bootstrap`) is rendered with. The template files are read from disk
    at build time; here they are the fields of a `Templates` value. */
module JenkinsInstance {
  import opened Strings
  import opened XmlEscape
  import opened Templating
  import opened Naming
  import opened Resources
  import Bootstrap

  /** The files read at build time. */
  datatype Templates = Templates(
    centralJobXml: string,
    venueJobXml: string,
    credentialsXml: string,
    userGroovy: string,
    centralJenkinsfile: string)

  // ----- Build-time rendering -----

  /** The central job configuration with the escaped pipeline definition put in. */
  function RenderJobConfig(template: string, jenkinsfile: string): string
  {
    ReplaceAll(template, JenkinsfileContent, Escape(jenkinsfile))
  }

  /** The user-creation script with the new user name put in. */
  function RenderUserScript(template: string, username: string): string
  {
    ReplaceAll(template, NewUsername, username)
  }

  /** The two module-level variables that the build reassigns: the central job
      configuration and the user-creation script. */
  class BuildArtifacts {
    var centralJobConfig: string
    var userScript: string

    /** The variables as first read from the template files. */
    constructor (t: Templates)
      ensures centralJobConfig == t.centralJobXml && userScript == t.userGroovy
    {
      centralJobConfig := t.centralJobXml;
      userScript := t.userGroovy;
    }

    /** The global replacement of the pipeline placeholder by the escaped Jenkinsfile. */
    method InsertJenkinsfile(jenkinsfile: string)
      modifies this
      ensures centralJobConfig == RenderJobConfig(old(centralJobConfig), jenkinsfile)
      ensures userScript == old(userScript)
    {
      var content := Escape(jenkinsfile);
      centralJobConfig := ReplaceAll(centralJobConfig, JenkinsfileContent, content);
    }

    /** The global replacement of the user-name placeholder. */
    method InsertUsername(username: string)
      modifies this
      ensures userScript == RenderUserScript(old(userScript), username)
      ensures centralJobConfig == old(centralJobConfig)
    {
      userScript := ReplaceAll(userScript, NewUsername, username);
    }
  }

  /** The build-time statements in order: read, put the pipeline in, put the user name in. */
  method Build(t: Templates, username: string) returns (a: BuildArtifacts)
    ensures fresh(a)
    ensures a.centralJobConfig == RenderJobConfig(t.centralJobXml, t.centralJenkinsfile)
    ensures a.userScript == RenderUserScript(t.userGroovy, username)
  {
    a := new BuildArtifacts(t);
    a.InsertJenkinsfile(t.centralJenkinsfile);
    a.InsertUsername(username);
  }

  lemma JenkinsfilePlaceholderPlain()
    ensures PlainText(JenkinsfileContent)
  {
  }

  /** No pipeline placeholder is left in the central job configuration, when the
      Jenkinsfile does not itself contain the placeholder and neither starts nor ends
      with one of its characters. */
  lemma JobConfigComplete(template: string, jenkinsfile: string)
    requires jenkinsfile != [] && !Contains(jenkinsfile, JenkinsfileContent)
    requires jenkinsfile[0] !in JenkinsfileContent
    requires jenkinsfile[|jenkinsfile| - 1] !in JenkinsfileContent
    ensures !Contains(RenderJobConfig(template, jenkinsfile), JenkinsfileContent)
  {
    var p, r := JenkinsfileContent, Escape(jenkinsfile);
    JenkinsfilePlaceholderPlain();
    assert !Contains(r, p) by {
      if Contains(r, p) {
        EscapeContainsPlain(jenkinsfile, p);
      }
    }
    EscapeFirst(jenkinsfile);
    EscapeLast(jenkinsfile);
    assert '&' !in p && ';' !in p;
    ReplaceLeavesNone(template, p, r);
  }

  /** No runtime placeholder holds the letter `J`, so none contains the pipeline
      placeholder. */
  lemma RuntimeLacksJenkinsfilePlaceholder(q: string)
    requires q in RuntimePlaceholders
    ensures !Contains(q, JenkinsfileContent)
  {
    assert JenkinsfileContent[2] == 'J';
    assert 'J' !in q;
    MissingChar(q, JenkinsfileContent, 2);
  }

  /** A runtime placeholder of the job template, delimited by characters outside the
      pipeline placeholder, is left for the script to substitute. */
  lemma JobConfigKeepsRuntime(template: string, jenkinsfile: string, q: string, i: nat)
    requires q in RuntimePlaceholders && OccursAt(template, q, i)
    requires i == 0 || template[i - 1] !in JenkinsfileContent
    requires i + |q| == |template| || template[i + |q|] !in JenkinsfileContent
    ensures Contains(RenderJobConfig(template, jenkinsfile), q)
  {
    RuntimeLacksJenkinsfilePlaceholder(q);
    ReplaceKeepsDelimited(template, JenkinsfileContent, Escape(jenkinsfile), q, i);
  }

  /** The script writes the central job configuration inside single quotes; the escaped
      Jenkinsfile brings no `'` into it. */
  lemma JobConfigQuoteFree(template: string, jenkinsfile: string)
    requires '\'' !in template
    ensures '\'' !in RenderJobConfig(template, jenkinsfile)
  {
    var r := Escape(jenkinsfile);
    assert forall k :: 0 <= k < |r| ==> r[k] != '\'';
    ReplaceKeepsCharAbsent(template, JenkinsfileContent, r, '\'');
  }

  /** No user-name placeholder is left in the user-creation script, under the same
      conditions on the user name. */
  lemma UserScriptComplete(template: string, username: string)
    requires username != [] && !Contains(username, NewUsername)
    requires username[0] !in NewUsername && username[|username| - 1] !in NewUsername
    ensures !Contains(RenderUserScript(template, username), NewUsername)
  {
    ReplaceLeavesNone(template, NewUsername, username);
  }

  /** A delimited password placeholder is left for the script to substitute. */
  lemma UserScriptKeepsPassword(template: string, username: string, i: nat)
    requires OccursAt(template, NewPassword, i)
    requires i == 0 || template[i - 1] !in NewUsername
    requires i + |NewPassword| == |template| || template[i + |NewPassword|] !in NewUsername
    ensures Contains(RenderUserScript(template, username), NewPassword)
  {
    assert NewUsername[6] == 'U' && 'U' !in NewPassword;
    MissingChar(NewPassword, NewUsername, 6);
    ReplaceKeepsDelimited(template, NewUsername, username, NewPassword, i);
  }

  // ----- The node's resources -----

  /** The roles bound to the node's service account, in declaration order. */
  const Roles: seq<string> := [
    "roles/compute.admin",
    "roles/storage.admin",
    "roles/iam.serviceAccountUser",
    "roles/secretmanager.secretAccessor"
  ]

  /** The service account, with the corrected account ID rule. */
  function JenkinsAccount(name: string): (a: ServiceAccount)
    ensures 3 <= |a.accountId| <= 27 && a.accountId[|a.accountId| - 3..] == "-sa"
    ensures a.accountId == ServiceAccountId(name)
    ensures |name| <= 24 ==> a.accountId == SliceAccountId(name) == name + "-sa"
    ensures a.resourceName != name
  {
    assert |name + "-sa"| != |name|;
    ServiceAccount(name + "-sa", ServiceAccountId(name), "Jenkins Service Account")
  }

  /** The binding of one role; the project is the provider's. */
  function RoleBinding(name: string, project: string, account: ServiceAccount, role: string): IamMember
  {
    IamMember(name + "-sa-" + role, project, role, MemberOf(account))
  }

  /** `roles.forEach`: one binding per role, in order. */
  method DeclareRoleBindings(name: string, project: string, account: ServiceAccount, roles: seq<string>)
      returns (bindings: seq<IamMember>)
    ensures |bindings| == |roles|
    ensures forall i :: 0 <= i < |roles| ==>
      bindings[i].role == roles[i] && bindings[i].member == MemberOf(account) &&
      bindings[i].resourceName == name + "-sa-" + roles[i] && bindings[i].project == project
  {
    bindings := [];
    for i := 0 to |roles|
      invariant |bindings| == i
      invariant forall j :: 0 <= j < i ==> bindings[j] == RoleBinding(name, project, account, roles[j])
    {
      bindings := bindings + [RoleBinding(name, project, account, roles[i])];
    }
  }

  /** Distinct roles give bindings of distinct names. */
  lemma BindingNamesDistinct(name: string, r1: string, r2: string)
    ensures name + "-sa-" + r1 == name + "-sa-" + r2 <==> r1 == r2
  {
    if name + "-sa-" + r1 == name + "-sa-" + r2 {
      AppendCancel(name + "-sa-", r1, r2);
    }
  }

  lemma RolesDistinct()
    ensures forall i, j :: 0 <= i < j < |Roles| ==> Roles[i] != Roles[j]
  {
  }

  datatype Network = Network(name: string, autoCreateSubnetworks: bool)

  datatype Firewall = Firewall(
    name: string,
    network: Ref,
    protocol: string,
    ports: seq<string>,
    sourceRanges: seq<string>,
    targetTags: seq<string>)

  datatype Instance = Instance(
    name: string,
    machineType: string,
    zone: string,
    network: Ref,
    account: Ref,
    script: Bootstrap.Settings,
    tags: seq<string>)

  datatype JenkinsNode = JenkinsNode(
    account: ServiceAccount,
    bindings: seq<IamMember>,
    network: Network,
    firewall: Firewall,
    instance: Instance)

  /** The values the startup script is rendered with. */
  function ScriptSettings(cfg: Config, t: Templates, centralJobConfig: string, userScript: string): (s: Bootstrap.Settings)
    ensures s.githubSecretId == ResourceName(cfg.project, cfg.stack, "github-token")
    ensures s.jenkinsSecretId == ResourceName(cfg.project, cfg.stack, "jenkins-password")
  {
    SecretIdsAgree(cfg.project, cfg.stack);
    Bootstrap.Settings(
      credentialsXml := t.credentialsXml,
      centralJobXml := centralJobConfig,
      venueJobXml := t.venueJobXml,
      groovyScript := userScript,
      githubSecretId := GithubSecretId(cfg.project, cfg.stack),
      jenkinsSecretId := JenkinsSecretId(cfg.project, cfg.stack),
      centralRepoUrl := cfg.central.url,
      venueRepoUrl := cfg.venue.url,
      centralRepo := RepoPath(cfg.central),
      venueRepo := RepoPath(cfg.venue))
  }

  /** `createJenkinsInstance(name, zone)`. */
  method CreateJenkinsInstance(cfg: Config, t: Templates, built: BuildArtifacts, providerProject: string,
                               name: string, zone: string) returns (node: JenkinsNode)
    ensures node.account == JenkinsAccount(name)
    ensures |node.bindings| == |Roles|
    ensures forall i :: 0 <= i < |Roles| ==> node.bindings[i] == RoleBinding(name, providerProject, node.account, Roles[i])
    ensures node.instance.name == name && node.instance.zone == zone
    ensures node.instance.script == ScriptSettings(cfg, t, built.centralJobConfig, built.userScript)
    ensures node.instance.account == MemberOf(node.account)
    ensures node.firewall.network == node.instance.network == Ref(node.network.name, "selfLink")
    ensures node.firewall.targetTags == node.instance.tags
  {
    var account := JenkinsAccount(name);
    var bindings := DeclareRoleBindings(name, providerProject, account, Roles);
    var network := Network(name + "-network", true);
    var link := Ref(network.name, "selfLink");
    var firewall := Firewall(name + "-firewall", link, "tcp", ["22", "8080"], ["0.0.0.0/0"], ["jenkins"]);
    var settings := ScriptSettings(cfg, t, built.centralJobConfig, built.userScript);
    var instance := Instance(name, "n1-standard-1", zone, link, MemberOf(account), settings, ["jenkins"]);
    node := JenkinsNode(account, bindings, network, firewall, instance);
  }

  /** Both jobs the script creates carry the credential ID, when the central template
      names the credential placeholder at a delimited position and the venue template
      names it anywhere. */
  lemma JobsCarryCredential(cfg: Config, t: Templates, username: string, i: nat)
    requires OccursAt(t.centralJobXml, GithubCredentialsId, i)
    requires i == 0 || t.centralJobXml[i - 1] !in JenkinsfileContent
    requires i + |GithubCredentialsId| == |t.centralJobXml| ||
             t.centralJobXml[i + |GithubCredentialsId|] !in JenkinsfileContent
    requires Contains(t.venueJobXml, GithubCredentialsId)
    ensures var s := ScriptSettings(cfg, t, RenderJobConfig(t.centralJobXml, t.centralJenkinsfile),
                                     RenderUserScript(t.userGroovy, username));
      && Bootstrap.ValidEdits(Bootstrap.CentralJobFile(s).edits) && Bootstrap.ValidEdits(Bootstrap.VenueJobFile(s).edits)
      && Contains(Bootstrap.Contents(Bootstrap.CentralJobFile(s)), Bootstrap.CredentialsId)
      && Contains(Bootstrap.Contents(Bootstrap.VenueJobFile(s)), Bootstrap.CredentialsId)
  {
    var central := RenderJobConfig(t.centralJobXml, t.centralJenkinsfile);
    JobConfigKeepsRuntime(t.centralJobXml, t.centralJenkinsfile, GithubCredentialsId, i);
    Bootstrap.JobUsesCredential(central, CentralRepoUrl, cfg.central.url);
    Bootstrap.JobUsesCredential(t.venueJobXml, VenueRepoUrl, cfg.venue.url);
  }
}
