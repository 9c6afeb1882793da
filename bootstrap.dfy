/** The startup script of the CI node: a bash program that installs and starts the
    automation server, waits for it, installs four plugins with retries, creates the
    source-control credentials and two jobs, creates the administrator user, registers
    two webhooks and restarts the server.

    The environment is explicit. `answers` is the sequence of outcomes of the commands
    whose result the script tests, consumed in order: each readiness poll, the CLI file
    test, each plugin installation attempt and each job creation. Commands whose result
    the script ignores consume no answer. The run is `Pending` when the answers run out
    before the script ends, which is how a server that never comes up is represented.
    Every command the script runs becomes an `Event` of the trace. */
module Bootstrap {
  import opened Strings
  import opened Templating

  const CredentialsId: string := "github-token-v1"
  const CentralJob: string := "nodejs-central-server-deployment-job"
  const VenueJob: string := "nodejs-venue-server-deployment-job"
  /** The plugins, in the order the script installs them. */
  const Plugins: seq<string> := ["workflow-job", "git", "github", "github-branch-source"]
  /** The initial value of the `retries` counter of `install_plugin`. */
  const Retries: nat := 5
  /** Seconds of each fixed wait and of each wait between two readiness polls. */
  const WaitSeconds: nat := 60
  /** Seconds of the wait after a failed plugin installation attempt. */
  const RetrySeconds: nat := 30

  /** What the script text fixes at build time: the rendered templates it writes out, the
      secret IDs it reads and the repository coordinates it substitutes. */
  datatype Settings = Settings(
    credentialsXml: string,
    centralJobXml: string,
    venueJobXml: string,
    groovyScript: string,
    githubSecretId: string,
    jenkinsSecretId: string,
    centralRepoUrl: string,
    venueRepoUrl: string,
    centralRepo: string,
    venueRepo: string)

  /** What the node's environment supplies at run time. */
  datatype World = World(
    answers: seq<bool>,
    initialAdminPassword: string,
    secrets: map<string, string>,
    externalIp: string)

  /** `gcloud secrets versions access latest`: a failed read leaves the variable empty. */
  function Secret(w: World, id: string): string
  {
    if id in w.secrets then w.secrets[id] else ""
  }

  datatype Event =
    | InstallPackages
    | StartService
    | Sleep(seconds: nat)
    | Poll(up: bool)
    | DownloadCli
    | CheckCli(found: bool)
    | PluginAttempt(plugin: string, ok: bool)
    | CreateCredentials(xml: File)
    | CreateJob(job: string, config: File, ok: bool)
    | RunGroovy(script: File)
    | SaveAdminPassword(password: string)
    | Webhook(repo: string, token: string, url: string)
    | Restart

  datatype Stage = CliMissing | PluginInstall(plugin: string) | CentralJobCreation | VenueJobCreation

  /** `Failed` is an `exit 1`; `Completed` is the end of the script. */
  datatype Status = Completed | Failed(stage: Stage) | Pending

  /** Result of one `install_plugin` call. */
  datatype Attempt = Installed | GaveUp | Exhausted

  // ----- Rendered files -----

  function Token(s: Settings, w: World): string
  {
    Secret(w, s.githubSecretId)
  }

  /** One `sed -i 's|placeholder|value|g'` on a written file. */
  datatype Edit = Edit(placeholder: string, value: string)

  /** A file the script writes with `echo` from a template and then edits in place, one
      edit after another; its text is `Contents`. */
  datatype File = File(template: string, edits: seq<Edit>)

  predicate ValidEdits(edits: seq<Edit>)
  {
    forall i :: 0 <= i < |edits| ==> |edits[i].placeholder| > 0
  }

  /** The text after the edits, applied in order. */
  function Apply(text: string, edits: seq<Edit>): string
    requires ValidEdits(edits)
    decreases |edits|
  {
    if edits == [] then text
    else Apply(ReplaceAll(text, edits[0].placeholder, edits[0].value), edits[1..])
  }

  /** Applying edits one after another is applying the first, then the rest. */
  lemma ApplyCons(text: string, e: Edit, rest: seq<Edit>)
    requires |e.placeholder| > 0 && ValidEdits(rest)
    ensures ValidEdits([e] + rest)
    ensures Apply(text, [e] + rest) == Apply(ReplaceAll(text, e.placeholder, e.value), rest)
  {
    assert ([e] + rest)[0] == e && ([e] + rest)[1..] == rest;
  }

  function Contents(f: File): string
    requires ValidEdits(f.edits)
  {
    Apply(f.template, f.edits)
  }

  /** The credentials file: the token goes in. */
  function CredentialsFile(s: Settings, w: World): File
  {
    File(s.credentialsXml, [Edit(GithubToken, Token(s, w))])
  }

  /** A job file: the credential ID goes in, then the repository URL. */
  function JobFile(xml: string, urlPlaceholder: string, url: string): File
  {
    File(xml, [Edit(GithubCredentialsId, CredentialsId), Edit(urlPlaceholder, url)])
  }

  function CentralJobFile(s: Settings): File
  {
    JobFile(s.centralJobXml, CentralRepoUrl, s.centralRepoUrl)
  }

  function VenueJobFile(s: Settings): File
  {
    JobFile(s.venueJobXml, VenueRepoUrl, s.venueRepoUrl)
  }

  /** The user-creation script: the new password goes in. */
  function GroovyFile(s: Settings, w: World): File
  {
    File(s.groovyScript, [Edit(NewPassword, Secret(w, s.jenkinsSecretId))])
  }

  /** The webhook URL built from the external IP the metadata server reports. */
  function WebhookUrl(ip: string): string
  {
    "http://" + ip + ":8080/github-webhook/"
  }

  // ----- Traces -----

  /** The commands with a lasting effect, in the order a complete run performs them. */
  predicate IsMilestone(e: Event)
  {
    || (e.PluginAttempt? && e.ok) || e.CreateCredentials? || (e.CreateJob? && e.ok)
    || e.RunGroovy? || e.SaveAdminPassword? || e.Webhook? || e.Restart?
  }

  /** The commands that go through the server's CLI and so need it to be up. */
  predicate IsCliCall(e: Event)
  {
    e.PluginAttempt? || e.CreateCredentials? || e.CreateJob? || e.RunGroovy?
  }

  /** The commands that configure the server after the plugins are in. */
  predicate IsSetup(e: Event)
  {
    e.CreateCredentials? || e.CreateJob? || e.RunGroovy? || e.Webhook?
  }

  /** The milestones of a trace, in order. */
  function Milestones(t: seq<Event>): seq<Event>
  {
    if t == [] then []
    else Milestones(t[..|t| - 1]) + (if IsMilestone(t[|t| - 1]) then [t[|t| - 1]] else [])
  }

  /** The webhook registrations of a trace, in order. */
  function Webhooks(t: seq<Event>): seq<Event>
  {
    if t == [] then []
    else Webhooks(t[..|t| - 1]) + (if t[|t| - 1].Webhook? then [t[|t| - 1]] else [])
  }

  /** The milestones of the four plugin installations. */
  const PluginsInstalled: seq<Event> :=
    [ PluginAttempt(Plugins[0], true), PluginAttempt(Plugins[1], true),
      PluginAttempt(Plugins[2], true), PluginAttempt(Plugins[3], true) ]

  /** The milestones of the two job creations. */
  function JobsCreated(s: Settings): seq<Event>
  {
    [CreateJob(CentralJob, CentralJobFile(s), true), CreateJob(VenueJob, VenueJobFile(s), true)]
  }

  /** The milestones of the commands after the jobs, whose results the script ignores. */
  function Finished(s: Settings, w: World): seq<Event>
  {
    [ RunGroovy(GroovyFile(s, w)),
      SaveAdminPassword(w.initialAdminPassword),
      Webhook(s.centralRepo, Token(s, w), WebhookUrl(w.externalIp)),
      Webhook(s.venueRepo, Token(s, w), WebhookUrl(w.externalIp)),
      Restart ]
  }

  /** The milestones of a complete run. */
  function Expected(s: Settings, w: World): seq<Event>
  {
    PluginsInstalled + [CreateCredentials(CredentialsFile(s, w))] + JobsCreated(s) + Finished(s, w)
  }

  /** Every CLI call comes after a poll that found the server up. */
  predicate ReadyBeforeCli(t: seq<Event>)
  {
    forall i :: 0 <= i < |t| && IsCliCall(t[i]) ==> Poll(true) in t[..i]
  }

  /** Every creation of the venue job comes after a successful creation of the central job. */
  predicate CentralFirst(s: Settings, t: seq<Event>)
  {
    forall i :: 0 <= i < |t| && t[i].CreateJob? && t[i].job == VenueJob ==>
      CreateJob(CentralJob, CentralJobFile(s), true) in t[..i]
  }

  /** Neither a milestone nor a CLI call. */
  predicate Quiet(t: seq<Event>)
  {
    forall i :: 0 <= i < |t| ==> !IsMilestone(t[i]) && !IsCliCall(t[i])
  }

  /** No job creation. */
  predicate NoJobs(t: seq<Event>)
  {
    forall i :: 0 <= i < |t| ==> !t[i].CreateJob?
  }

  /** No plugin installation attempt. */
  predicate NoAttempts(t: seq<Event>)
  {
    forall i :: 0 <= i < |t| ==> !t[i].PluginAttempt?
  }

  /** No setup command. */
  predicate NoSetup(t: seq<Event>)
  {
    forall i :: 0 <= i < |t| ==> !IsSetup(t[i])
  }

  /** The trace splits into a part without setup commands and a part without plugin
      attempts in which every CLI call follows a poll of its own that found the server
      up: the setup waits for the server to answer again after the last plugin attempt. */
  predicate SetupAfterReady(t: seq<Event>)
  {
    exists k :: 0 <= k <= |t| && NoSetup(t[..k]) && NoAttempts(t[k..]) && ReadyBeforeCli(t[k..])
  }

  /** Only waits and installation attempts of the first `k` plugins. */
  predicate PluginsOnly(t: seq<Event>, k: nat)
    requires k <= |Plugins|
  {
    forall i :: 0 <= i < |t| ==> t[i].Sleep? || (t[i].PluginAttempt? && t[i].plugin in Plugins[..k])
  }

  /** Installation attempts, if any, only of the first `k` plugins. */
  predicate AttemptsAmong(t: seq<Event>, k: nat)
    requires k <= |Plugins|
  {
    forall i :: 0 <= i < |t| && t[i].PluginAttempt? ==> t[i].plugin in Plugins[..k]
  }

  /** `n` polls that found the server down, each followed by a wait. */
  function Waits(n: nat): (t: seq<Event>)
    ensures |t| == 2 * n
    ensures forall i :: 0 <= i < |t| ==> t[i] == Poll(false) || t[i] == Sleep(WaitSeconds)
  {
    if n == 0 then [] else Waits(n - 1) + [Poll(false), Sleep(WaitSeconds)]
  }

  /** `n` failed installation attempts of `plugin`, each followed by a wait. */
  function FailedAttempts(plugin: string, n: nat): (t: seq<Event>)
    ensures |t| == 2 * n
    ensures forall i :: 0 <= i < |t| ==> t[i] == PluginAttempt(plugin, false) || t[i] == Sleep(RetrySeconds)
  {
    if n == 0 then [] else FailedAttempts(plugin, n - 1) + [PluginAttempt(plugin, false), Sleep(RetrySeconds)]
  }

  /** The waits alternate: poll first, then its wait. */
  lemma {:induction false} WaitsAlternate(n: nat)
    ensures forall j :: 0 <= j < n ==> Waits(n)[2 * j] == Poll(false) && Waits(n)[2 * j + 1] == Sleep(WaitSeconds)
  {
    if n > 0 {
      WaitsAlternate(n - 1);
      assert forall j :: 0 <= j < n - 1 ==> Waits(n)[2 * j] == Waits(n - 1)[2 * j] && Waits(n)[2 * j + 1] == Waits(n - 1)[2 * j + 1];
    }
  }

  /** The failed attempts alternate: attempt first, then its wait. */
  lemma {:induction false} FailedAttemptsAlternate(plugin: string, n: nat)
    ensures forall j :: 0 <= j < n ==>
      FailedAttempts(plugin, n)[2 * j] == PluginAttempt(plugin, false) && FailedAttempts(plugin, n)[2 * j + 1] == Sleep(RetrySeconds)
  {
    if n > 0 {
      FailedAttemptsAlternate(plugin, n - 1);
      assert forall j :: 0 <= j < n - 1 ==>
        FailedAttempts(plugin, n)[2 * j] == FailedAttempts(plugin, n - 1)[2 * j] && FailedAttempts(plugin, n)[2 * j + 1] == FailedAttempts(plugin, n - 1)[2 * j + 1];
    }
  }

  /** Index of the first success in `s`, or `|s|` when every outcome is a failure. */
  function FirstTrue(s: seq<bool>): (k: nat)
    ensures k <= |s|
    ensures forall i :: 0 <= i < k ==> !s[i]
    ensures k < |s| ==> s[k]
  {
    if s == [] || s[0] then 0 else 1 + FirstTrue(s[1..])
  }

  // ----- Where the script stops, as a function of the outcomes -----

  /** How far a phase gets: to the next phase, which reads the outcomes from `pos` on, or
      to the end of the script with `status`. */
  datatype Progress = Continue(pos: nat) | Stop(status: Status)

  /** A readiness loop reading the outcomes from `pos`: it goes on after the first
      success, and the script never ends while no success comes. */
  function Await(answers: seq<bool>, pos: nat): (r: Progress)
    requires pos <= |answers|
    ensures r.Continue? ==> pos < r.pos <= |answers| && answers[r.pos - 1]
    ensures r.Stop? ==> r.status == Pending && forall i :: pos <= i < |answers| ==> !answers[i]
  {
    var k := FirstTrue(answers[pos..]);
    if pos + k < |answers| then Continue(pos + k + 1) else Stop(Pending)
  }

  /** One checked command reading the outcome at `pos`, failing the script at `stage`. */
  function Check(answers: seq<bool>, pos: nat, stage: Stage): (r: Progress)
    requires pos <= |answers|
    ensures r.Continue? <==> pos < |answers| && answers[pos]
    ensures r.Continue? ==> r.pos == pos + 1
    ensures r == Stop(Failed(stage)) <==> pos < |answers| && !answers[pos]
  {
    if pos == |answers| then Stop(Pending)
    else if answers[pos] then Continue(pos + 1)
    else Stop(Failed(stage))
  }

  /** One `install_plugin` call reading the outcomes from `pos`. */
  function PluginOutcome(plugin: string, answers: seq<bool>, pos: nat): (r: Progress)
    requires pos <= |answers|
    ensures r.Continue? ==> pos < r.pos <= |answers|
    ensures r.Stop? ==> r.status == Pending || r.status == Failed(PluginInstall(plugin))
  {
    var k := FirstTrue(answers[pos..]);
    if k >= Retries then Stop(Failed(PluginInstall(plugin)))
    else if pos + k < |answers| then Continue(pos + k + 1)
    else Stop(Pending)
  }

  /** The `install_plugin` calls from the `i`-th plugin on. */
  function PluginsFrom(answers: seq<bool>, pos: nat, i: nat): (r: Progress)
    requires pos <= |answers| && i <= |Plugins|
    ensures r.Continue? ==> pos <= r.pos <= |answers|
    ensures r.Stop? ==> r.status == Pending || (r.status.Failed? && r.status.stage.PluginInstall?
                                                && r.status.stage.plugin in Plugins[i..])
    decreases |Plugins| - i
  {
    if i == |Plugins| then Continue(pos)
    else match PluginOutcome(Plugins[i], answers, pos)
      case Stop(status) => Stop(status)
      case Continue(next) => PluginsFrom(answers, next, i + 1)
  }

  /** Up to the CLI check: the first readiness loop, then the test for the CLI file. */
  function Prepared(answers: seq<bool>): (r: Progress)
    ensures r.Continue? ==> r.pos <= |answers|
    ensures r.Stop? ==> r.status == Pending || r.status == Failed(CliMissing)
  {
    match Await(answers, 0)
    case Stop(status) => Stop(status)
    case Continue(next) => Check(answers, next, CliMissing)
  }

  /** The central job, then the venue job. */
  function JobsOutcome(answers: seq<bool>, pos: nat): (r: Progress)
    requires pos <= |answers|
    ensures r.Continue? ==> r.pos == pos + 2 <= |answers|
    ensures r.Stop? ==> r.status in {Pending, Failed(CentralJobCreation), Failed(VenueJobCreation)}
  {
    match Check(answers, pos, CentralJobCreation)
    case Stop(status) => Stop(status)
    case Continue(next) => Check(answers, next, VenueJobCreation)
  }

  /** After the plugins: the second readiness loop, then the two jobs. */
  function Configured(answers: seq<bool>, pos: nat): (r: Progress)
    requires pos <= |answers|
    ensures r.Continue? ==> pos < r.pos <= |answers|
    ensures r.Stop? ==> r.status in {Pending, Failed(CentralJobCreation), Failed(VenueJobCreation)}
  {
    match Await(answers, pos)
    case Stop(status) => Stop(status)
    case Continue(next) => JobsOutcome(answers, next)
  }

  /** The status the script ends with once the plugins are in and it reads from `pos`. */
  function AfterPlugins(answers: seq<bool>, pos: nat): (r: Status)
    requires pos <= |answers|
  {
    match Configured(answers, pos)
    case Stop(status) => status
    case Continue(_) => Completed
  }

  /** The status of the whole script. */
  function Outcome(answers: seq<bool>): (r: Status)
  {
    match Prepared(answers)
    case Stop(status) => status
    case Continue(p) =>
      match PluginsFrom(answers, p, 0)
      case Stop(status) => status
      case Continue(q) => AfterPlugins(answers, q)
  }

  /** How many of the plugins from the `i`-th on get installed; when the calls stop with
      a failure, it is the failure of the plugin after those. */
  function InstalledFrom(answers: seq<bool>, pos: nat, i: nat): (n: nat)
    requires pos <= |answers| && i <= |Plugins|
    ensures i + n <= |Plugins|
    ensures i + n == |Plugins| <==> PluginsFrom(answers, pos, i).Continue?
    ensures PluginsFrom(answers, pos, i).Stop? && PluginsFrom(answers, pos, i).status.Failed? ==>
              i + n < |Plugins| && PluginsFrom(answers, pos, i).status == Failed(PluginInstall(Plugins[i + n]))
    decreases |Plugins| - i
  {
    if i == |Plugins| then 0
    else match PluginOutcome(Plugins[i], answers, pos)
      case Stop(_) => 0
      case Continue(next) => 1 + InstalledFrom(answers, next, i + 1)
  }

  /** How many of the two jobs get created. */
  function JobsReached(answers: seq<bool>, pos: nat): (n: nat)
    requires pos <= |answers|
    ensures n <= 2 && (n == 2 <==> JobsOutcome(answers, pos).Continue?)
    ensures JobsOutcome(answers, pos) == Stop(Failed(CentralJobCreation)) ==> n == 0
    ensures JobsOutcome(answers, pos) == Stop(Failed(VenueJobCreation)) ==> n == 1
  {
    match Check(answers, pos, CentralJobCreation)
    case Stop(_) => 0
    case Continue(next) => if Check(answers, next, VenueJobCreation).Continue? then 2 else 1
  }

  /** How many of the credentials and the two jobs get created after the plugins. */
  function ConfiguredReached(answers: seq<bool>, pos: nat): (n: nat)
    requires pos <= |answers|
    ensures n <= 3 && (n == 3 <==> Configured(answers, pos).Continue?)
    ensures Configured(answers, pos) == Stop(Failed(CentralJobCreation)) ==> n == 1
    ensures Configured(answers, pos) == Stop(Failed(VenueJobCreation)) ==> n == 2
  {
    match Await(answers, pos)
    case Stop(_) => 0
    case Continue(next) => 1 + JobsReached(answers, next)
  }

  /** How many milestones follow the plugins: the commands after the jobs are unchecked,
      so all five of them follow once both jobs are in. */
  function AfterPluginsReached(answers: seq<bool>, pos: nat): (n: nat)
    requires pos <= |answers|
  {
    var c := ConfiguredReached(answers, pos);
    if c == 3 then 8 else c
  }

  /** How many milestones of a complete run the script reaches. */
  function Reached(answers: seq<bool>): (n: nat)
  {
    match Prepared(answers)
    case Stop(_) => 0
    case Continue(p) =>
      match PluginsFrom(answers, p, 0)
      case Stop(_) => InstalledFrom(answers, p, 0)
      case Continue(q) => |Plugins| + AfterPluginsReached(answers, q)
  }

  /** The milestones reached against the status: none before the plugins, the plugins
      installed before the one given up on, the plugins and the credentials when the
      central job fails, one job more when the venue job fails, and all twelve exactly
      when the script completes. */
  lemma ReachedByOutcome(answers: seq<bool>)
    ensures Reached(answers) <= 12
    ensures Outcome(answers) == Completed <==> Reached(answers) == 12
    ensures Outcome(answers) == Failed(CliMissing) ==> Reached(answers) == 0
    ensures forall p :: Outcome(answers) == Failed(PluginInstall(p)) ==>
              Reached(answers) < |Plugins| && p == Plugins[Reached(answers)]
    ensures Outcome(answers) == Failed(CentralJobCreation) ==> Reached(answers) == 5
    ensures Outcome(answers) == Failed(VenueJobCreation) ==> Reached(answers) == 6
  {
    match Prepared(answers)
    case Stop(_) =>
    case Continue(p) =>
      match PluginsFrom(answers, p, 0)
      case Stop(_) =>
      case Continue(q) =>
        var c := Configured(answers, q);
        assert Outcome(answers) == AfterPlugins(answers, q);
  }

  /** A first success at `pos` ends a readiness loop or an `install_plugin` call there. */
  lemma SuccessAt(answers: seq<bool>, pos: nat)
    requires pos < |answers| && answers[pos]
    ensures Await(answers, pos) == Continue(pos + 1)
    ensures forall plugin :: PluginOutcome(plugin, answers, pos) == Continue(pos + 1)
  {
    assert answers[pos..][0] == answers[pos];
  }

  /** Five failures in a row from `pos` make `install_plugin` give up. */
  lemma FiveFailures(plugin: string, answers: seq<bool>, pos: nat)
    requires pos + Retries <= |answers|
    requires forall j :: pos <= j < pos + Retries ==> !answers[j]
    ensures PluginOutcome(plugin, answers, pos) == Stop(Failed(PluginInstall(plugin)))
  {
  }

  /** Nine successes in a row complete the script: two readiness polls, the CLI test, one
      attempt per plugin and the two jobs. */
  lemma NineSuccessesComplete(answers: seq<bool>)
    requires |answers| >= 9 && forall j :: 0 <= j < 9 ==> answers[j]
    ensures Outcome(answers) == Completed
  {
    SuccessAt(answers, 0);
    assert Prepared(answers) == Continue(2);
    SuccessAt(answers, 2);
    SuccessAt(answers, 3);
    SuccessAt(answers, 4);
    SuccessAt(answers, 5);
    assert PluginsFrom(answers, 6, 4) == Continue(6);
    assert PluginsFrom(answers, 2, 0) == Continue(6);
    SuccessAt(answers, 6);
    assert Configured(answers, 6) == Continue(9);
  }

  /** The script fails at the CLI test exactly when the outcome just after the first
      successful poll is a failure. */
  lemma CliMissingFatal(answers: seq<bool>)
    ensures var k := FirstTrue(answers);
      Outcome(answers) == Failed(CliMissing) <==> k + 1 < |answers| && !answers[k + 1]
  {
    OnlyPrepareMissesCli(answers);
    PreparedMissesCli(answers);
  }

  lemma PreparedMissesCli(answers: seq<bool>)
    ensures var k := FirstTrue(answers);
      Prepared(answers) == Stop(Failed(CliMissing)) <==> k + 1 < |answers| && !answers[k + 1]
  {
    var k := FirstTrue(answers);
    assert answers[0..] == answers;
    assert Await(answers, 0) == if k < |answers| then Continue(k + 1) else Stop(Pending);
  }

  /** No phase after the CLI test fails with a missing CLI. */
  lemma OnlyPrepareMissesCli(answers: seq<bool>)
    ensures Outcome(answers) == Failed(CliMissing) <==> Prepared(answers) == Stop(Failed(CliMissing))
  {
    match Prepared(answers)
    case Stop(_) =>
    case Continue(p) =>
      match PluginsFrom(answers, p, 0)
      case Stop(status) =>
        assert status != Failed(CliMissing);
      case Continue(q) =>
        assert AfterPlugins(answers, q) != Failed(CliMissing);
  }

  /** Five failed attempts at a plugin's installation end the script with that plugin's
      failure, whichever plugin it is. */
  lemma PluginGiveUpFatal(answers: seq<bool>, pos: nat, i: nat)
    requires i < |Plugins| && pos + Retries <= |answers|
    requires forall j :: pos <= j < pos + Retries ==> !answers[j]
    ensures PluginsFrom(answers, pos, i) == Stop(Failed(PluginInstall(Plugins[i])))
  {
    FiveFailures(Plugins[i], answers, pos);
  }

  /** Once the server is up and the CLI is there, five failed attempts at the first plugin
      end the script. */
  lemma FirstPluginGiveUp(answers: seq<bool>)
    requires |answers| >= 7 && answers[0] && answers[1]
    requires forall j :: 2 <= j < 7 ==> !answers[j]
    ensures Outcome(answers) == Failed(PluginInstall("workflow-job"))
  {
    SuccessAt(answers, 0);
    assert Prepared(answers) == Continue(2);
    PluginGiveUpFatal(answers, 2, 0);
  }

  /** After the plugins, a failed creation of either job ends the script with that job's
      failure, and nothing else does. */
  lemma JobFailureFatal(answers: seq<bool>, pos: nat)
    requires pos <= |answers|
    ensures var k := FirstTrue(answers[pos..]);
      && (AfterPlugins(answers, pos) == Failed(CentralJobCreation) <==>
            pos + k + 1 < |answers| && !answers[pos + k + 1])
      && (AfterPlugins(answers, pos) == Failed(VenueJobCreation) <==>
            pos + k + 2 < |answers| && answers[pos + k + 1] && !answers[pos + k + 2])
      && (AfterPlugins(answers, pos) == Completed <==>
            pos + k + 2 < |answers| && answers[pos + k + 1] && answers[pos + k + 2])
  {
  }

  /** A completed run read at least nine outcomes. */
  lemma CompletedReadsNine(answers: seq<bool>)
    requires Outcome(answers) == Completed
    ensures |answers| >= 9
  {
    match Prepared(answers)
    case Continue(p) =>
      PluginsAdvance(answers, p, 0);
  }

  lemma {:induction false} PluginsAdvance(answers: seq<bool>, pos: nat, i: nat)
    requires pos <= |answers| && i <= |Plugins|
    ensures PluginsFrom(answers, pos, i).Continue? ==> pos + |Plugins| - i <= PluginsFrom(answers, pos, i).pos
    decreases |Plugins| - i
  {
    if i < |Plugins| {
      match PluginOutcome(Plugins[i], answers, pos)
      case Stop(_) =>
      case Continue(next) =>
        PluginsAdvance(answers, next, i + 1);
    }
  }

  // ----- Facts about traces -----

  lemma {:induction false} MilestonesAppend(a: seq<Event>, b: seq<Event>)
    ensures Milestones(a + b) == Milestones(a) + Milestones(b)
    decreases |b|
  {
    if b == [] {
      assert a + b == a;
    } else {
      var b' := b[..|b| - 1];
      assert (a + b)[..|a + b| - 1] == a + b';
      assert (a + b)[|a + b| - 1] == b[|b| - 1];
      MilestonesAppend(a, b');
    }
  }

  lemma {:induction false} WebhooksAppend(a: seq<Event>, b: seq<Event>)
    ensures Webhooks(a + b) == Webhooks(a) + Webhooks(b)
    decreases |b|
  {
    if b == [] {
      assert a + b == a;
    } else {
      var b' := b[..|b| - 1];
      assert (a + b)[..|a + b| - 1] == a + b';
      assert (a + b)[|a + b| - 1] == b[|b| - 1];
      WebhooksAppend(a, b');
    }
  }

  /** Only milestones register webhooks, so a trace and its milestones have the same ones. */
  lemma {:induction false} WebhooksOfMilestones(t: seq<Event>)
    ensures Webhooks(Milestones(t)) == Webhooks(t)
    decreases |t|
  {
    if t != [] {
      var init, last := t[..|t| - 1], t[|t| - 1];
      WebhooksOfMilestones(init);
      var tail := if IsMilestone(last) then [last] else [];
      WebhooksAppend(Milestones(init), tail);
      assert Webhooks(tail) == if last.Webhook? then [last] else [] by {
        if tail != [] { assert tail[..|tail| - 1] == []; }
      }
    }
  }

  lemma MilestonesSingle(x: Event)
    ensures Milestones([x]) == if IsMilestone(x) then [x] else []
  {
    assert [x][..0] == [];
  }

  /** A trace without milestones has none to report. */
  lemma {:induction false} QuietMilestones(t: seq<Event>)
    requires forall i :: 0 <= i < |t| ==> !IsMilestone(t[i])
    ensures Milestones(t) == []
    decreases |t|
  {
    if t != [] {
      QuietMilestones(t[..|t| - 1]);
    }
  }

  /** A trace of milestones only is its own list of milestones. */
  lemma {:induction false} AllMilestones(t: seq<Event>)
    requires forall i :: 0 <= i < |t| ==> IsMilestone(t[i])
    ensures Milestones(t) == t
    decreases |t|
  {
    if t != [] {
      var init := t[..|t| - 1];
      AllMilestones(init);
      assert t == init + [t[|t| - 1]];
    }
  }

  /** A trace without webhook registrations has none to report. */
  lemma {:induction false} NoWebhooks(t: seq<Event>)
    requires forall i :: 0 <= i < |t| ==> !t[i].Webhook?
    ensures Webhooks(t) == []
    decreases |t|
  {
    if t != [] {
      NoWebhooks(t[..|t| - 1]);
    }
  }

  /** Appending a trace whose milestones are the next expected ones extends the run of
      expected milestones that the trace has reached. */
  lemma Advance(t: seq<Event>, u: seq<Event>, e: seq<Event>, done: nat, d: nat)
    requires done + d <= |e|
    requires Milestones(t) == e[..done] && Milestones(u) == e[done..done + d]
    ensures Milestones(t + u) == e[..done + d]
  {
    MilestonesAppend(t, u);
    assert e[..done] + e[done..done + d] == e[..done + d];
  }

  lemma QuietAppend(t: seq<Event>, u: seq<Event>)
    requires Quiet(t) && Quiet(u)
    ensures Quiet(t + u)
  {
    assert forall i :: |t| <= i < |t + u| ==> (t + u)[i] == u[i - |t|];
  }

  lemma PluginsOnlyAppend(t: seq<Event>, u: seq<Event>, k: nat)
    requires k <= |Plugins| && PluginsOnly(t, k) && PluginsOnly(u, k)
    ensures PluginsOnly(t + u, k)
  {
    assert forall i :: |t| <= i < |t + u| ==> (t + u)[i] == u[i - |t|];
  }

  /** The milestone of the `i`-th plugin, as a slice of the expected plugin milestones. */
  lemma PluginSlices(i: nat)
    requires i < 4
    ensures PluginsInstalled[i..i + 1] == [PluginAttempt(Plugins[i], true)]
    ensures PluginsInstalled[i..i] == []
  {
  }

  lemma OnePluginOnly(t: seq<Event>, k: nat)
    requires k < |Plugins|
    requires forall i :: 0 <= i < |t| ==> t[i].Sleep? || (t[i].PluginAttempt? && t[i].plugin == Plugins[k])
    ensures PluginsOnly(t, k + 1)
  {
    assert Plugins[..k + 1][k] == Plugins[k];
  }

  /** A bound on the plugins attempted can be loosened. */
  lemma Widen(t: seq<Event>, j: nat, k: nat)
    requires j <= k <= |Plugins| && PluginsOnly(t, j)
    ensures PluginsOnly(t, k)
  {
    assert forall x :: x in Plugins[..j] ==> x in Plugins[..k] by {
      assert Plugins[..j] == Plugins[..k][..j];
    }
  }

  /** Quiet commands before plugin installations add no attempt. */
  lemma AttemptsAfterQuiet(pre: seq<Event>, t: seq<Event>, k: nat)
    requires k <= |Plugins| && Quiet(pre) && PluginsOnly(t, k)
    ensures AttemptsAmong(pre + t, k)
  {
    assert forall i :: |pre| <= i < |pre + t| ==> (pre + t)[i] == t[i - |pre|];
  }

  lemma ReadyIn(a: seq<Event>, u: seq<Event>, b: seq<Event>)
    requires u != [] && u[|u| - 1] == Poll(true)
    ensures Poll(true) in a + u + b
  {
    assert (a + u + b)[|a| + |u| - 1] == Poll(true);
  }

  lemma InPrefix(t: seq<Event>, u: seq<Event>, x: Event)
    requires x in t
    ensures x in t + u
  {
    var i :| 0 <= i < |t| && t[i] == x;
    assert (t + u)[i] == x;
  }

  /** Stopping inside a block leaves a strict prefix of the whole. */
  lemma PrefixOf(p: seq<Event>, a: seq<Event>, b: seq<Event>, m: nat)
    requires m < |a|
    ensures p + a[..m] <= p + a + b && p + a[..m] != p + a + b
    ensures (p + a + b)[..|p| + m] == p + a[..m]
  {
    assert (p + a + b)[..|p| + m] == p + a[..m];
  }

  /** Once the server answered, anything may follow. */
  lemma ReadyAfter(t: seq<Event>, u: seq<Event>)
    requires ReadyBeforeCli(t) && Poll(true) in t
    ensures ReadyBeforeCli(t + u) && Poll(true) in t + u
  {
    var v := t + u;
    forall i | 0 <= i < |v| && IsCliCall(v[i]) ensures Poll(true) in v[..i] {
      if i < |t| {
        assert v[..i] == t[..i];
      } else {
        assert v[..i] == t + u[..i - |t|];
      }
    }
  }

  /** A setup command whose only successful poll came before a plugin attempt, as when
      the second readiness loop is skipped, breaks `SetupAfterReady`. */
  lemma SkippedLoopRejected(p: string, f: File)
    ensures !SetupAfterReady([Poll(true), PluginAttempt(p, true), CreateCredentials(f)])
  {
    var t := [Poll(true), PluginAttempt(p, true), CreateCredentials(f)];
    forall k | 0 <= k <= 1 ensures !NoAttempts(t[k..]) {
      assert t[k..][1 - k] == t[1];
    }
    assert t[2..] == [CreateCredentials(f)] && t[2..][..0] == [];
    assert t[..3][2] == t[2];
  }

  /** A split point witnessing `SetupAfterReady`. */
  lemma SetupAfterReadyAt(t: seq<Event>, k: nat)
    requires k <= |t| && NoSetup(t[..k]) && NoAttempts(t[k..]) && ReadyBeforeCli(t[k..])
    ensures SetupAfterReady(t)
  {
  }

  /** A trace without CLI calls needs no answer from the server. */
  lemma NoCliReady(t: seq<Event>)
    requires forall i :: 0 <= i < |t| ==> !IsCliCall(t[i])
    ensures ReadyBeforeCli(t)
  {
  }

  /** Job creations after a trace without any keep their order. */
  lemma JobsAfter(s: Settings, t: seq<Event>, u: seq<Event>)
    requires NoJobs(t) && CentralFirst(s, u)
    ensures CentralFirst(s, t + u)
  {
    var v := t + u;
    forall i | 0 <= i < |v| && v[i].CreateJob? && v[i].job == VenueJob
      ensures CreateJob(CentralJob, CentralJobFile(s), true) in v[..i]
    {
      assert v[i] == u[i - |t|];
      assert v[..i] == t + u[..i - |t|];
    }
  }

  /** Commands without job creations after a trace keep its order of job creations. */
  lemma JobsBefore(s: Settings, t: seq<Event>, u: seq<Event>)
    requires CentralFirst(s, t) && NoJobs(u)
    ensures CentralFirst(s, t + u)
  {
    var v := t + u;
    forall i | 0 <= i < |v| && v[i].CreateJob? && v[i].job == VenueJob
      ensures CreateJob(CentralJob, CentralJobFile(s), true) in v[..i]
    {
      assert i < |t| && v[..i] == t[..i];
    }
  }

  // ----- The script -----

  /** A readiness loop, `while ! curl -s http://localhost:8080; do sleep 60; done`. It
      ends with the server up exactly when a success comes before the answers run out,
      after one failed poll and one wait for each failure before it. */
  method AwaitReady(answers: seq<bool>, pos: nat) returns (next: nat, up: bool, trace: seq<Event>)
    requires pos <= |answers|
    ensures pos <= next <= |answers|
    ensures var k := FirstTrue(answers[pos..]);
      && (up <==> pos + k < |answers|)
      && (up ==> next == pos + k + 1 && trace == Waits(k) + [Poll(true)])
      && (!up ==> next == |answers| && trace == Waits(k))
    ensures Await(answers, pos) == if up then Continue(next) else Stop(Pending)
  {
    next, up, trace := pos, false, [];
    while !up && next < |answers|
      invariant pos <= next <= |answers|
      invariant !up ==> (forall i :: pos <= i < next ==> !answers[i]) && trace == Waits(next - pos)
      invariant up ==> (pos < next && answers[next - 1] && (forall i :: pos <= i < next - 1 ==> !answers[i])
                        && trace == Waits(next - 1 - pos) + [Poll(true)])
      decreases |answers| - next
    {
      up := answers[next];
      next := next + 1;
      if up {
        trace := trace + [Poll(true)];
      } else {
        trace := trace + [Poll(false), Sleep(WaitSeconds)];
      }
    }
    ghost var rest := answers[pos..];
    assert forall i :: 0 <= i < |rest| ==> rest[i] == answers[pos + i];
  }

  /** `install_plugin`: at most `Retries` attempts. With `k` failures before the first
      success, the plugin is installed after exactly `k + 1` attempts when `k < 5`; five
      failures in a row make the script give up. A wait follows every failed attempt and
      never a successful one. */
  method InstallPlugin(plugin: string, answers: seq<bool>, pos: nat) returns (next: nat, result: Attempt, trace: seq<Event>)
    requires pos <= |answers|
    ensures pos <= next <= |answers|
    ensures var k := FirstTrue(answers[pos..]);
      && (result == Installed <==> k < Retries && pos + k < |answers|)
      && (result == GaveUp <==> k >= Retries)
      && (result == Installed ==> next == pos + k + 1
                                  && trace == FailedAttempts(plugin, k) + [PluginAttempt(plugin, true)])
      && (result == GaveUp ==> next == pos + Retries && trace == FailedAttempts(plugin, Retries))
      && (result == Exhausted ==> next == |answers| && trace == FailedAttempts(plugin, k))
    ensures forall i :: 0 <= i < |trace| ==> trace[i].Sleep? || (trace[i].PluginAttempt? && trace[i].plugin == plugin)
    ensures PluginOutcome(plugin, answers, pos) ==
      match result
      case Installed => Continue(next)
      case GaveUp => Stop(Failed(PluginInstall(plugin)))
      case Exhausted => Stop(Pending)
  {
    ghost var rest := answers[pos..];
    assert forall i :: 0 <= i < |rest| ==> rest[i] == answers[pos + i];
    var retries := Retries;
    next, trace := pos, [];
    while retries > 0
      invariant 0 <= retries <= Retries
      invariant next == pos + (Retries - retries) <= |answers|
      invariant forall i :: pos <= i < next ==> !answers[i]
      invariant trace == FailedAttempts(plugin, Retries - retries)
      invariant forall i :: 0 <= i < |trace| ==> trace[i].Sleep? || (trace[i].PluginAttempt? && trace[i].plugin == plugin)
    {
      if next == |answers| {
        result := Exhausted;
        return;
      }
      var ok := answers[next];
      next := next + 1;
      trace := trace + [PluginAttempt(plugin, ok)];
      if ok {
        break;
      }
      retries := retries - 1;
      trace := trace + [Sleep(RetrySeconds)];
    }
    if retries == 0 {
      result := GaveUp;
    } else {
      result := Installed;
    }
  }

  /** From the package installation to the CLI check: one readiness loop, then the test
      that the downloaded CLI exists, which is fatal when it fails. */
  method Prepare(w: World) returns (cont: bool, status: Status, next: nat, trace: seq<Event>)
    ensures next <= |w.answers|
    ensures Quiet(trace) && Milestones(trace) == []
    ensures cont ==> Poll(true) in trace
    ensures Prepared(w.answers) == if cont then Continue(next) else Stop(status)
  {
    cont, status := false, Pending;
    var up;
    next, up, trace := StartServer(w.answers);
    if up && next < |w.answers| {
      var found := w.answers[next];
      next := next + 1;
      var check := [CheckCli(found)] + (if found then [Sleep(WaitSeconds)] else []);
      QuietAppend(trace, check);
      InPrefix(trace, check, Poll(true));
      trace := trace + check;
      cont := found;
      status := if found then Pending else Failed(CliMissing);
    }
    QuietMilestones(trace);
  }

  /** Installation, service start, the first wait and readiness loop, and the CLI
      download, none of which has a lasting effect or goes through the CLI. */
  method StartServer(answers: seq<bool>) returns (next: nat, up: bool, trace: seq<Event>)
    ensures next <= |answers|
    ensures Quiet(trace)
    ensures up ==> Poll(true) in trace
    ensures Await(answers, 0) == if up then Continue(next) else Stop(Pending)
    ensures var k := FirstTrue(answers);
      trace == Opening + Waits(k) + (if up then [Poll(true), DownloadCli] else [])
  {
    var waits;
    next, up, waits := AwaitReady(answers, 0);
    assert answers[0..] == answers;
    QuietAppend(Opening, waits);
    trace := Opening + waits;
    if up {
      QuietAppend(Opening + waits, [DownloadCli]);
      ReadyIn(Opening, waits, [DownloadCli]);
      trace := trace + [DownloadCli];
    }
  }

  /** The package installation, the service start and the first fixed wait. */
  const Opening: seq<Event> := [InstallPackages, StartService, Sleep(WaitSeconds)]

  /** One `install_plugin` call and the `exit 1` when it gives up. */
  method PluginStep(plugin: string, answers: seq<bool>, pos: nat) returns (cont: bool, status: Status, next: nat, trace: seq<Event>)
    requires pos <= |answers|
    ensures pos <= next <= |answers|
    ensures Milestones(trace) == if cont then [PluginAttempt(plugin, true)] else []
    ensures forall i :: 0 <= i < |trace| ==> trace[i].Sleep? || (trace[i].PluginAttempt? && trace[i].plugin == plugin)
    ensures PluginOutcome(plugin, answers, pos) == if cont then Continue(next) else Stop(status)
  {
    var result;
    next, result, trace := InstallPlugin(plugin, answers, pos);
    cont := result == Installed;
    status := if result == GaveUp then Failed(PluginInstall(plugin)) else Pending;
    var k := FirstTrue(answers[pos..]);
    if cont {
      var f, x := FailedAttempts(plugin, k), PluginAttempt(plugin, true);
      QuietMilestones(f);
      MilestonesAppend(f, [x]);
      MilestonesSingle(x);
    } else if result == GaveUp {
      QuietMilestones(FailedAttempts(plugin, Retries));
    } else {
      QuietMilestones(FailedAttempts(plugin, k));
    }
  }

  /** The next `install_plugin` call, after the first `i` plugins are in. */
  method InstallNext(i: nat, answers: seq<bool>, pos: nat, before: seq<Event>)
      returns (cont: bool, status: Status, next: nat, trace: seq<Event>)
    requires i < 4 && pos <= |answers|
    requires Milestones(before) == PluginsInstalled[..i]
    requires PluginsOnly(before, i)
    ensures pos <= next <= |answers|
    ensures Milestones(trace) == PluginsInstalled[..if cont then i + 1 else i]
    ensures PluginsOnly(trace, i + 1)
    ensures PluginOutcome(Plugins[i], answers, pos) == if cont then Continue(next) else Stop(status)
  {
    var t;
    cont, status, next, t := PluginStep(Plugins[i], answers, pos);
    PluginSlices(i);
    OnePluginOnly(t, i);
    Widen(before, i, i + 1);
    Advance(before, t, PluginsInstalled, i, if cont then 1 else 0);
    PluginsOnlyAppend(before, t, i + 1);
    trace := before + t;
  }

  /** The four `install_plugin` calls, in order; the first that gives up ends the script. */
  method InstallPlugins(answers: seq<bool>, pos: nat) returns (cont: bool, status: Status, next: nat, trace: seq<Event>, ghost m: nat)
    requires pos <= |answers|
    ensures next <= |answers|
    ensures m <= 4 && (cont <==> m == 4)
    ensures m == InstalledFrom(answers, pos, 0)
    ensures Milestones(trace) == PluginsInstalled[..m]
    ensures PluginsOnly(trace, if m < 4 then m + 1 else 4)
    ensures !cont ==> status == Pending || (m < 4 && status == Failed(PluginInstall(Plugins[m])))
    ensures PluginsFrom(answers, pos, 0) == if cont then Continue(next) else Stop(status)
  {
    m, trace, next := 0, [], pos;
    cont, status, next, trace := InstallNext(0, answers, next, trace);
    if !cont {
      return;
    }
    m := 1;
    cont, status, next, trace := InstallNext(1, answers, next, trace);
    if !cont {
      return;
    }
    m := 2;
    cont, status, next, trace := InstallNext(2, answers, next, trace);
    if !cont {
      return;
    }
    m := 3;
    cont, status, next, trace := InstallNext(3, answers, next, trace);
    if !cont {
      return;
    }
    m := 4;
  }

  /** The fixed wait for the restart after the plugin installations, then the second
      readiness loop. */
  method Restarted(answers: seq<bool>, pos: nat) returns (next: nat, up: bool, trace: seq<Event>)
    requires pos <= |answers|
    ensures pos <= next <= |answers|
    ensures Quiet(trace) && Milestones(trace) == []
    ensures up ==> Poll(true) in trace
    ensures Await(answers, pos) == if up then Continue(next) else Stop(Pending)
  {
    var waits;
    next, up, waits := AwaitReady(answers, pos);
    assert Quiet(waits);
    trace := [Sleep(WaitSeconds)] + waits;
    if up {
      assert trace[|waits|] == Poll(true);
    }
    QuietMilestones(trace);
  }

  /** The two job creations; a failed creation is fatal. */
  method CreateJobs(s: Settings, answers: seq<bool>, pos: nat) returns (cont: bool, status: Status, next: nat, trace: seq<Event>, ghost m: nat)
    requires pos <= |answers|
    ensures next <= |answers|
    ensures m <= 2 && (cont <==> m == 2)
    ensures Milestones(trace) == JobsCreated(s)[..m]
    ensures !cont ==> status == Pending || status == Failed(CentralJobCreation) || status == Failed(VenueJobCreation)
    ensures forall i :: 0 <= i < |trace| ==> trace[i].CreateJob?
    ensures CentralFirst(s, trace)
    ensures JobsOutcome(answers, pos) == if cont then Continue(next) else Stop(status)
    ensures m == JobsReached(answers, pos)
  {
    cont, status, next, trace, m := false, Pending, pos, [], 0;
    if next == |answers| {
      return;
    }
    var central := answers[next];
    next := next + 1;
    var x := CreateJob(CentralJob, CentralJobFile(s), central);
    MilestonesSingle(x);
    trace := [x];
    if !central {
      status := Failed(CentralJobCreation);
      return;
    }
    m := 1;
    if next == |answers| {
      return;
    }
    var venue := answers[next];
    next := next + 1;
    var y := CreateJob(VenueJob, VenueJobFile(s), venue);
    MilestonesSingle(y);
    MilestonesAppend(trace, [y]);
    trace := trace + [y];
    assert trace[..1] == [x];
    if !venue {
      status := Failed(VenueJobCreation);
      return;
    }
    m := 2;
    cont := true;
  }

  /** After the plugins: the second readiness loop, the credentials, and the two jobs. */
  method Configure(s: Settings, w: World, pos: nat) returns (cont: bool, status: Status, next: nat, trace: seq<Event>, ghost m: nat)
    requires pos <= |w.answers|
    ensures next <= |w.answers|
    ensures m <= 3 && (cont <==> m == 3)
    ensures Milestones(trace) == ([CreateCredentials(CredentialsFile(s, w))] + JobsCreated(s))[..m]
    ensures !cont ==> status == Pending || status == Failed(CentralJobCreation) || status == Failed(VenueJobCreation)
    ensures CentralFirst(s, trace) && ReadyBeforeCli(trace)
    ensures NoAttempts(trace) && (cont ==> Poll(true) in trace)
    ensures Configured(w.answers, pos) == if cont then Continue(next) else Stop(status)
    ensures m == ConfiguredReached(w.answers, pos)
  {
    cont, status, m := false, Pending, 0;
    var up;
    next, up, trace := Restarted(w.answers, pos);
    NoCliReady(trace);
    if !up {
      JobsAfter(s, trace, []);
      assert trace + [] == trace;
      return;
    }
    var x := CreateCredentials(CredentialsFile(s, w));
    var jobs;
    ghost var j;
    cont, status, next, jobs, j := CreateJobs(s, w.answers, next);
    m := 1 + j;
    CredentialsThenJobs(s, trace, x, jobs, j);
    CredentialsThenJobsOrder(s, trace, x, jobs);
    trace := trace + [x] + jobs;
  }

  /** The milestones of the credentials and the jobs after the second readiness loop. */
  lemma CredentialsThenJobs(s: Settings, pre: seq<Event>, x: Event, jobs: seq<Event>, j: nat)
    requires j <= 2 && x.CreateCredentials? && Milestones(pre) == []
    requires Milestones(jobs) == JobsCreated(s)[..j]
    ensures Milestones(pre + [x] + jobs) == ([x] + JobsCreated(s))[..1 + j]
  {
    MilestonesSingle(x);
    MilestonesAppend(pre, [x]);
    MilestonesAppend(pre + [x], jobs);
    TakeAppend([x], JobsCreated(s), j);
  }

  lemma TakeAppend(a: seq<Event>, b: seq<Event>, k: nat)
    requires k <= |b|
    ensures (a + b)[..|a| + k] == a + b[..k]
  {
  }

  /** The order of the credentials and the jobs after the second readiness loop. */
  lemma CredentialsThenJobsOrder(s: Settings, pre: seq<Event>, x: Event, jobs: seq<Event>)
    requires x.CreateCredentials? && Quiet(pre) && Poll(true) in pre && CentralFirst(s, jobs)
    requires forall i :: 0 <= i < |jobs| ==> jobs[i].CreateJob?
    ensures CentralFirst(s, pre + [x] + jobs) && ReadyBeforeCli(pre + [x] + jobs)
    ensures NoAttempts(pre + [x] + jobs) && Poll(true) in pre + [x] + jobs
  {
    InPrefix(pre, [x] + jobs, Poll(true));
    NoCliReady(pre);
    ReadyAfter(pre, [x] + jobs);
    assert pre + [x] + jobs == pre + ([x] + jobs);
    assert NoJobs(pre + [x]);
    JobsAfter(s, pre + [x], jobs);
  }

  /** The unchecked commands at the end: user creation, password file, webhooks, and
      the restart after a fixed wait. */
  method Finish(s: Settings, w: World) returns (trace: seq<Event>)
    ensures Milestones(trace) == Finished(s, w)
    ensures NoJobs(trace) && NoAttempts(trace)
  {
    var token, url := Token(s, w), WebhookUrl(w.externalIp);
    var t := [ RunGroovy(GroovyFile(s, w)), SaveAdminPassword(w.initialAdminPassword),
               Webhook(s.centralRepo, token, url), Webhook(s.venueRepo, token, url) ];
    trace := t + [Sleep(WaitSeconds), Restart];
    AllMilestones(t);
    WaitThenRestart();
    MilestonesAppend(t, [Sleep(WaitSeconds), Restart]);
  }

  lemma WaitThenRestart()
    ensures Milestones([Sleep(WaitSeconds), Restart]) == [Restart]
  {
    MilestonesSingle(Sleep(WaitSeconds));
    MilestonesSingle(Restart);
    MilestonesAppend([Sleep(WaitSeconds)], [Restart]);
    assert [Sleep(WaitSeconds)] + [Restart] == [Sleep(WaitSeconds), Restart];
  }

  /** The whole script. Its status is `Outcome` of the outcomes, and its milestones are the
      first `Reached` of those of a complete run, all of them exactly when it completes; a
      plugin given up on is the one after those installed, and no later plugin is
      attempted; a missing CLI stops it before any plugin
      attempt, a plugin given up on stops it before any credentials, job, user or
      webhook, the venue job is only created once the central job was, and every CLI
      call comes after the server answered, the setup calls after it answered again
      following the last plugin attempt. */
  method Run(s: Settings, w: World) returns (status: Status, trace: seq<Event>)
    ensures Milestones(trace) <= Expected(s, w)
    ensures status == Completed <==> Milestones(trace) == Expected(s, w)
    ensures status == Failed(CliMissing) ==> NoAttempts(trace)
    ensures status.Failed? && status.stage.PluginInstall? ==> status.stage.plugin in Plugins && NoSetup(trace)
    ensures CentralFirst(s, trace)
    ensures ReadyBeforeCli(trace) && SetupAfterReady(trace)
    ensures status == Outcome(w.answers)
    ensures Milestones(trace) == Expected(s, w)[..Reached(w.answers)]
    ensures status.Failed? && status.stage.PluginInstall? ==>
              Reached(w.answers) < |Plugins| && status.stage.plugin == Plugins[Reached(w.answers)]
              && AttemptsAmong(trace, Reached(w.answers) + 1)
  {
    var cont, next, t;
    cont, status, next, trace := Prepare(w);
    NoCliReady(trace);
    JobsAfter(s, trace, []);
    assert trace + [] == trace;
    if !cont {
      assert Outcome(w.answers) == status && Reached(w.answers) == 0;
      AllBeforeSetup(trace);
      return;
    }
    ghost var m;
    cont, status, next, t, m := InstallPlugins(w.answers, next);
    Widen(t, if m < 4 then m + 1 else 4, 4);
    AttemptsAfterQuiet(trace, t, if m < 4 then m + 1 else 4);
    PluginsThenRest(s, trace, t, m);
    trace := trace + t;
    if !cont {
      assert Outcome(w.answers) == status && Reached(w.answers) == m;
      PluginsPrefix(s, w, m);
      AllBeforeSetup(trace);
      return;
    }
    assert Outcome(w.answers) == AfterPlugins(w.answers, next);
    assert Reached(w.answers) == |Plugins| + AfterPluginsReached(w.answers, next);
    ghost var pre := trace;
    status, trace := Complete(s, w, next, trace);
    SetupAfterPre(pre, trace);
  }

  /** A trace without setup commands splits at its end. */
  lemma AllBeforeSetup(t: seq<Event>)
    requires NoSetup(t)
    ensures SetupAfterReady(t)
  {
    assert t[..|t|] == t;
    SetupAfterReadyAt(t, |t|);
  }

  /** The script after the plugin installations: the credentials and jobs, then the
      unchecked commands. */
  method Complete(s: Settings, w: World, pos: nat, pre: seq<Event>) returns (status: Status, trace: seq<Event>)
    requires pos <= |w.answers|
    requires Milestones(pre) == PluginsInstalled && NoJobs(pre) && ReadyBeforeCli(pre) && Poll(true) in pre
    ensures Milestones(trace) <= Expected(s, w)
    ensures status == Completed <==> Milestones(trace) == Expected(s, w)
    ensures !status.Failed? || status.stage == CentralJobCreation || status.stage == VenueJobCreation
    ensures CentralFirst(s, trace) && ReadyBeforeCli(trace)
    ensures |pre| <= |trace| && trace[..|pre|] == pre
    ensures NoAttempts(trace[|pre|..]) && ReadyBeforeCli(trace[|pre|..])
    ensures status == AfterPlugins(w.answers, pos)
    ensures Milestones(trace) == Expected(s, w)[..|Plugins| + AfterPluginsReached(w.answers, pos)]
  {
    var cont, next, t;
    ghost var m;
    cont, status, next, t, m := Configure(s, w, pos);
    ConfigureThenRest(s, w, pre, t, m);
    trace := pre + t;
    if !cont {
      ConfigurePrefix(s, w, m);
      SetupAfter(pre, t, []);
      assert trace + [] == trace;
      return;
    }
    var f := Finish(s, w);
    FinishLast(s, w, trace, f);
    SetupAfter(pre, t, f);
    trace := trace + f;
    status := Completed;
    assert |Expected(s, w)| == 12;
  }

  // ----- Composing the phases of `Run` -----

  /** Stopping during the plugin installations leaves a strict prefix of a complete run. */
  lemma PluginsPrefix(s: Settings, w: World, m: nat)
    requires m < 4
    ensures PluginsInstalled[..m] <= Expected(s, w) && PluginsInstalled[..m] != Expected(s, w)
    ensures PluginsInstalled[..m] == Expected(s, w)[..m]
  {
    var rest := [CreateCredentials(CredentialsFile(s, w))] + JobsCreated(s) + Finished(s, w);
    PrefixOf([], PluginsInstalled, rest, m);
    assert [] + PluginsInstalled + rest == Expected(s, w);
    assert [] + PluginsInstalled[..m] == PluginsInstalled[..m];
  }

  /** The run after the plugin installations, given what `Prepare` left. */
  lemma PluginsThenRest(s: Settings, pre: seq<Event>, t: seq<Event>, m: nat)
    requires Quiet(pre) && Milestones(pre) == [] && Poll(true) in pre
    requires m <= 4 && Milestones(t) == PluginsInstalled[..m]
    requires PluginsOnly(t, |Plugins|)
    ensures Milestones(pre + t) == PluginsInstalled[..m]
    ensures NoSetup(pre + t)
    ensures NoJobs(pre + t) && ReadyBeforeCli(pre + t) && Poll(true) in pre + t
  {
    MilestonesAppend(pre, t);
    NoCliReady(pre);
    ReadyAfter(pre, t);
  }

  /** Stopping during the credentials and jobs leaves a strict prefix of a complete run. */
  lemma ConfigurePrefix(s: Settings, w: World, m: nat)
    requires m < 3
    ensures var c := [CreateCredentials(CredentialsFile(s, w))] + JobsCreated(s);
      && PluginsInstalled + c[..m] <= Expected(s, w) && PluginsInstalled + c[..m] != Expected(s, w)
      && PluginsInstalled + c[..m] == Expected(s, w)[..|PluginsInstalled| + m]
  {
    var c := [CreateCredentials(CredentialsFile(s, w))] + JobsCreated(s);
    PrefixOf(PluginsInstalled, c, Finished(s, w), m);
    assert PluginsInstalled + c + Finished(s, w) == Expected(s, w);
  }

  /** The run after the credentials and the jobs, given what the plugins left. */
  lemma ConfigureThenRest(s: Settings, w: World, pre: seq<Event>, t: seq<Event>, m: nat)
    requires Milestones(pre) == PluginsInstalled && NoJobs(pre) && ReadyBeforeCli(pre) && Poll(true) in pre
    requires m <= 3 && Milestones(t) == ([CreateCredentials(CredentialsFile(s, w))] + JobsCreated(s))[..m]
    requires CentralFirst(s, t)
    ensures Milestones(pre + t) == PluginsInstalled + ([CreateCredentials(CredentialsFile(s, w))] + JobsCreated(s))[..m]
    ensures CentralFirst(s, pre + t) && ReadyBeforeCli(pre + t) && Poll(true) in pre + t
  {
    MilestonesAppend(pre, t);
    ReadyAfter(pre, t);
    JobsAfter(s, pre, t);
  }

  /** The setup after the second readiness loop, then the unchecked commands `f`, if
      the setup went through. */
  lemma SetupAfter(pre: seq<Event>, t: seq<Event>, f: seq<Event>)
    requires NoAttempts(t) && ReadyBeforeCli(t) && NoAttempts(f)
    requires f != [] ==> Poll(true) in t
    ensures var v := pre + t + f;
      && |pre| <= |v| && v[..|pre|] == pre
      && NoAttempts(v[|pre|..]) && ReadyBeforeCli(v[|pre|..])
  {
    var v := pre + t + f;
    assert v[|pre|..] == t + f;
    if f != [] {
      ReadyAfter(t, f);
    } else {
      assert t + f == t;
    }
    assert forall i :: |t| <= i < |t + f| ==> (t + f)[i] == f[i - |t|];
  }

  /** The run after the plugins, split where `Complete` began. */
  lemma SetupAfterPre(pre: seq<Event>, t: seq<Event>)
    requires NoSetup(pre) && |pre| <= |t| && t[..|pre|] == pre
    requires NoAttempts(t[|pre|..]) && ReadyBeforeCli(t[|pre|..])
    ensures SetupAfterReady(t)
  {
    SetupAfterReadyAt(t, |pre|);
  }

  /** The complete run, given what the jobs left. */
  lemma FinishLast(s: Settings, w: World, pre: seq<Event>, t: seq<Event>)
    requires Milestones(pre) == PluginsInstalled + ([CreateCredentials(CredentialsFile(s, w))] + JobsCreated(s))
    requires CentralFirst(s, pre) && ReadyBeforeCli(pre) && Poll(true) in pre
    requires Milestones(t) == Finished(s, w) && NoJobs(t)
    ensures Milestones(pre + t) == Expected(s, w)
    ensures CentralFirst(s, pre + t) && ReadyBeforeCli(pre + t)
  {
    MilestonesAppend(pre, t);
    ReadyAfter(pre, t);
    JobsBefore(s, pre, t);
  }

  // ----- Webhooks -----

  /** Five commands of which the middle ones register webhooks. */
  lemma WebhooksOfFive(x0: Event, x1: Event, x2: Event, x3: Event, x4: Event)
    requires !x0.Webhook? && !x1.Webhook? && x2.Webhook? && x3.Webhook? && !x4.Webhook?
    ensures Webhooks([x0, x1, x2, x3, x4]) == [x2, x3]
  {
    assert [x0][..0] == [];
    assert Webhooks([x0]) == [];
    assert [x0, x1][..1] == [x0];
    assert Webhooks([x0, x1]) == [];
    assert [x0, x1, x2][..2] == [x0, x1];
    assert Webhooks([x0, x1, x2]) == [x2];
    assert [x0, x1, x2, x3][..3] == [x0, x1, x2];
    assert Webhooks([x0, x1, x2, x3]) == [x2, x3];
    assert [x0, x1, x2, x3, x4][..4] == [x0, x1, x2, x3];
  }

  /** The webhooks of a complete run's milestones are the two registrations. */
  lemma ExpectedWebhooks(s: Settings, w: World)
    ensures Webhooks(Expected(s, w)) == Finished(s, w)[2..4]
  {
    var p, c, j, f := PluginsInstalled, [CreateCredentials(CredentialsFile(s, w))], JobsCreated(s), Finished(s, w);
    NoWebhooks(p);
    NoWebhooks(c);
    NoWebhooks(j);
    WebhooksAppend(p, c);
    WebhooksAppend(p + c, j);
    WebhooksAppend(p + c + j, f);
    WebhooksOfFive(f[0], f[1], f[2], f[3], f[4]);
  }

  /** A complete run registers exactly two webhooks, the central repository's and then the
      venue repository's, with one token and one URL. */
  lemma CompletedWebhooks(s: Settings, w: World, t: seq<Event>)
    requires Milestones(t) == Expected(s, w)
    ensures Webhooks(t) == [Webhook(s.centralRepo, Token(s, w), WebhookUrl(w.externalIp)),
                            Webhook(s.venueRepo, Token(s, w), WebhookUrl(w.externalIp))]
  {
    WebhooksOfMilestones(t);
    ExpectedWebhooks(s, w);
  }

  // ----- What the written files carry -----

  /** A job template that names the credential ID placeholder yields a job file that
      carries the credential ID `github-token-v1`, whatever the repository URL: the ID has
      no character in common with either URL placeholder, so the second edit keeps it. */
  lemma JobUsesCredential(xml: string, urlPlaceholder: string, url: string)
    requires urlPlaceholder == CentralRepoUrl || urlPlaceholder == VenueRepoUrl
    requires Contains(xml, GithubCredentialsId)
    ensures ValidEdits(JobFile(xml, urlPlaceholder, url).edits)
    ensures Contains(Contents(JobFile(xml, urlPlaceholder, url)), CredentialsId)
  {
    var first := ReplaceAll(xml, GithubCredentialsId, CredentialsId);
    var e1, e2 := Edit(GithubCredentialsId, CredentialsId), Edit(urlPlaceholder, url);
    ApplyCons(first, e2, []);
    ApplyCons(xml, e1, [e2]);
    assert [e2] + [] == [e2] && [e1] + [e2] == JobFile(xml, urlPlaceholder, url).edits;
    ReplaceInserts(xml, GithubCredentialsId, CredentialsId);
    CredentialsIdForeign();
    ReplaceKeepsForeign(first, urlPlaceholder, url, CredentialsId);
  }

  /** The credential ID shares no character with the repository URL placeholders. */
  lemma CredentialsIdForeign()
    ensures CharsDisjoint(CredentialsId, CentralRepoUrl) && CharsDisjoint(CredentialsId, VenueRepoUrl)
  {
    CredentialsIdLower();
    RepoUrlPlaceholdersUpper();
    LowerUpperDisjoint(CredentialsId, CentralRepoUrl);
    LowerUpperDisjoint(CredentialsId, VenueRepoUrl);
  }

  lemma CredentialsIdLower()
    ensures LowerText(CredentialsId)
  {
  }

  lemma RepoUrlPlaceholdersUpper()
    ensures UpperText(CentralRepoUrl) && UpperText(VenueRepoUrl)
  {
    CentralRepoUrlUpper();
  }

  lemma CentralRepoUrlUpper()
    ensures UpperText(CentralRepoUrl)
  {
  }

  /** The credentials file carries the token read from the secret store, and the
      user-creation script the password read from it, once their templates name the
      placeholders. */
  lemma SecretsInserted(s: Settings, w: World)
    ensures Contains(s.credentialsXml, GithubToken) ==>
      Contains(Contents(CredentialsFile(s, w)), Secret(w, s.githubSecretId))
    ensures Contains(s.groovyScript, NewPassword) ==>
      Contains(Contents(GroovyFile(s, w)), Secret(w, s.jenkinsSecretId))
  {
    var c, g := CredentialsFile(s, w), GroovyFile(s, w);
    ApplyCons(s.credentialsXml, c.edits[0], []);
    ApplyCons(s.groovyScript, g.edits[0], []);
    assert [c.edits[0]] + [] == c.edits && [g.edits[0]] + [] == g.edits;
    if Contains(s.credentialsXml, GithubToken) {
      ReplaceInserts(s.credentialsXml, GithubToken, Token(s, w));
    }
    if Contains(s.groovyScript, NewPassword) {
      ReplaceInserts(s.groovyScript, NewPassword, Secret(w, s.jenkinsSecretId));
    }
  }
}
