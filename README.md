# Infrastructure stack for a Node.js fleet and its CI node, modelled in Dafny

The stack is a Pulumi program for Google Cloud. It checks three required environment
variables. Then it declares, under names of the form `project-stack-base`:

- two Secret Manager secrets (the GitHub token and the Jenkins password);
- an instance template whose startup script clones, installs and starts the central
  server;
- a regional managed instance group of three over that template, with a rolling-update
  policy;
- an external HTTP load balancer over the group;
- a Jenkins VM whose startup script installs and configures Jenkins end to end.

That script installs plugins with retries, creates credentials and two jobs, creates the
admin user, registers two webhooks and restarts Jenkins.

The model covers the logic in that program:

- XML escaping of the pipeline definition (`XmlEscape`).
- Two-phase placeholder templating (`Templating`): global replacement at build time
  in TypeScript, and `sed .../g` at run time on the VM.
- Deterministic naming (`Naming`): resource names, secret IDs and service-account IDs.
- The Jenkins VM's build-time artifacts and resources (`JenkinsInstance`).
- The Jenkins bootstrap script's control flow (`Bootstrap`). It is modelled as methods
  over an explicit stream of command outcomes, so polling loops, the plugin retry loop
  and fatal `exit 1` checks become loops and early returns with their contracts.
- The fleet (`Fleet`): the instance template, its startup script, the instance group,
  its named port and update policy, and an abstract rolling-update model.
- The load balancer's reference chain (`LoadBalancer`).
- The entry program (`Deployment`): the environment checks, the declaration order and
  the wiring between components.

`Strings` holds shared sequence lemmas, and `Resources` holds the configuration and
reference records.

Configuration (`GCP_CONFIG`, `STACK_NAME`, `CENTRAL_SERVER`, ...) is an explicit
`Config` value. An output of another resource is a `Ref(resource, output)`. File
contents read at build time are a `Templates` value. Secret values, the initial admin
password, the external IP and command outcomes on the VM are a `World` value.

## Model

| member | source | states |
|---|---|---|
| XmlEscape.Entity | src/utils/index.ts:3-10 | The callback yields the empty string exactly for characters outside the five. Each of the five maps to a text that starts with `&` and ends with `;`. So the `default` branch is reached only by characters the class never passes. |
| XmlEscape.Escape | src/utils/index.ts:1-12 | The output holds no raw `<`, `>`, `'` or `"`, and it is never shorter than the input. |
| XmlEscape.EscapeIsEscaped | src/utils/index.ts:2-8 | The output is well-formed escaped text: no raw markup, and every `&` begins one of the five predefined entities. |
| XmlEscape.UnescapeEscape | src/utils/index.ts:2-8 | Decoding the five entities in the output gives back the input exactly. |
| XmlEscape.EscapeUnescape | src/utils/index.ts:2-8 | Conversely, escaping the decoding of any well-formed escaped text gives that text back, so escaping is a bijection onto well-formed escaped text. |
| XmlEscape.EntityDecodes | src/utils/index.ts:4-8 | Each of the five characters' entities decodes to exactly that character. |
| XmlEscape.UnescapePiece | src/utils/index.ts:2-8 | Decoding the replacement of one character, followed by any text, yields that character followed by the decoding of the text. |
| XmlEscape.EscapeAppend | src/utils/index.ts:2 | Escaping distributes over concatenation. |
| XmlEscape.EscapeLength | src/utils/index.ts:4-8 | Output length = input length + 3·#`<` + 3·#`>` + 4·#`&` + 5·#`'` + 5·#`"`. |
| XmlEscape.EscapeIdentity | src/utils/index.ts:2 | A string is returned unchanged if and only if it contains none of the five characters. |
| XmlEscape.PieceShape | src/utils/index.ts:2-8 | An unmatched character is copied; a matched one becomes an entity made only of entity characters, from `&` to `;`. |
| XmlEscape.EscapeStartsWith | src/utils/index.ts:2 | Escaped text that begins with plain text comes from an input that begins with that text. |
| XmlEscape.EscapeContainsPlain | src/utils/index.ts:2 | Escaping never forms a plain text, such as a placeholder, that the input did not contain. |
| XmlEscape.EscapeFirst | src/utils/index.ts:2-8 | The first output character is the first input character or the `&` of an entity. |
| XmlEscape.EscapeLast | src/utils/index.ts:2-8 | The last output character is the last input character or the `;` of an entity. |
| Templating.IndexOf | src/jenkins/jenkinsInstance.ts:26 | The search result is -1 or a position at which the placeholder fits in the text. |
| Templating.IndexOfSpec | src/jenkins/jenkinsInstance.ts:26 | The search index is the leftmost occurrence of the placeholder, and it is -1 if and only if there is none. |
| Templating.ReplaceAbsent | src/jenkins/jenkinsInstance.ts:26 | A text without the placeholder is returned unchanged. |
| Templating.ReplaceLeavesNone | src/jenkins/jenkinsInstance.ts:26 | No occurrence of the placeholder is left, provided the replacement is nonempty, does not contain the placeholder, and neither begins nor ends with one of its characters. |
| Templating.ReplaceInserts | src/jenkins/jenkinsInstance.ts:26 | If the input contains the placeholder, the output contains the replacement. |
| Templating.ReplaceKeeps | src/jenkins/jenkinsInstance.ts:26 | An occurrence of another text that no occurrence of the placeholder overlaps survives the replacement. |
| Templating.ReplaceKeepsPast | src/jenkins/jenkinsInstance.ts:26 | The case of `ReplaceKeeps` in which the first occurrence of the placeholder lies before the kept text. |
| Templating.ReplaceKeepsForeign | src/jenkins/jenkinsInstance.ts:26 | A text sharing no character with the placeholder survives the replacement. |
| Templating.ReplaceKeepsDelimited | src/jenkins/jenkinsInstance.ts:215 | A placeholder-free text bounded on both sides by characters outside the placeholder, or by a text end, survives the replacement. |
| Templating.ReplaceKeepsCharAbsent | src/jenkins/jenkinsInstance.ts:26 | A character absent from both the text and the replacement is absent from the output. |
| Naming.ResourceName | index.ts:37 | The name has length project + stack + base + 2 and ends with the base name. |
| Naming.ResourceNameInjective | index.ts:37 | Within one project and stack, two base names give the same resource name if and only if they are equal. |
| Naming.SecretIdsAgree | src/jenkins/jenkinsInstance.ts:35-36 | The secret IDs, written out separately in the component files, are the resource names of `github-token` and `jenkins-password`. |
| Naming.SliceAccountId | src/jenkins/jenkinsInstance.ts:46 | The account ID as written is the first min(length, 24) characters of the name followed by `-sa`, so it has exactly min(length, 24) + 3 characters. A name of at most 24 characters is kept whole. |
| Naming.SliceAccountIdsCollide | src/compute/instanceGroup.ts:10 | With the rule as written, whenever project and stack together have at least 22 characters, the fleet's and the CI node's account IDs coincide. |
| Naming.SliceAccountIdsCollideExample | src/jenkins/jenkinsInstance.ts:46 | A concrete collision: project `my-company-platform`, stack `dev`, both IDs `my-company-platform-dev--sa`. |
| Naming.ServiceAccountId | src/jenkins/jenkinsInstance.ts:46 | The corrected rule: 3 to 27 characters ending in `-sa`. It keeps the first 12 characters and the last 12, and agrees with the rule as written on names of at most 24 characters. |
| Naming.ServiceAccountIdsDiffer | src/compute/instanceGroup.ts:10 | Names that differ in their last 12 characters get different corrected IDs. |
| Naming.ServiceAccountIdsDistinct | src/compute/instanceGroup.ts:10 | With the corrected rule, the fleet's and the CI node's account IDs differ for every project and stack. |
| JenkinsInstance.BuildArtifacts.constructor | src/jenkins/jenkinsInstance.ts:15-22 | The two mutable module variables start as the central job template and the user-creation script template. |
| JenkinsInstance.BuildArtifacts.InsertJenkinsfile | src/jenkins/jenkinsInstance.ts:25-26 | The central job configuration becomes the global replacement of `__JENKINSFILE_CONTENT__` by the escaped Jenkinsfile; the user script is unchanged. |
| JenkinsInstance.BuildArtifacts.InsertUsername | src/jenkins/jenkinsInstance.ts:32-33 | The user script becomes the global replacement of `__NEW_USERNAME__` by the user name; the job configuration is unchanged. |
| JenkinsInstance.Build | src/jenkins/jenkinsInstance.ts:15-33 | Module load renders both artifacts from their templates, in source order. |
| JenkinsInstance.JobConfigComplete | src/jenkins/jenkinsInstance.ts:25-26 | No `__JENKINSFILE_CONTENT__` is left in the central job configuration, provided the Jenkinsfile is nonempty, does not contain the placeholder, and neither begins nor ends with an underscore or a letter of it. Escaping cannot create the placeholder. |
| JenkinsInstance.RuntimeLacksJenkinsfilePlaceholder | src/jenkins/jenkinsInstance.ts:215 | None of the runtime placeholders contains the build-time pipeline placeholder. |
| JenkinsInstance.JobConfigKeepsRuntime | src/jenkins/jenkinsInstance.ts:225-226 | A delimited runtime placeholder in the job template, such as the credentials ID or a repository URL, survives the build-time replacement and is left for `sed`. |
| JenkinsInstance.JobConfigQuoteFree | src/jenkins/jenkinsInstance.ts:224 | The script writes the job configuration inside single quotes; the escaped Jenkinsfile brings no `'` into it. |
| JenkinsInstance.UserScriptComplete | src/jenkins/jenkinsInstance.ts:32-33 | No `__NEW_USERNAME__` is left, under the same conditions on the user name. |
| JenkinsInstance.UserScriptKeepsPassword | src/jenkins/jenkinsInstance.ts:242 | A delimited `__NEW_PASSWORD__` survives the build-time replacement for the runtime `sed`. |
| JenkinsInstance.JenkinsAccount | src/jenkins/jenkinsInstance.ts:46-51 | The CI node's account ID follows the corrected rule. For a name of at most 24 characters it is the source's `name-sa`. It has 3 to 27 characters and ends in `-sa`, under a resource name different from the instance's. |
| JenkinsInstance.DeclareRoleBindings | src/jenkins/jenkinsInstance.ts:60-66 | One IAM binding per role, in order, each named `name-sa-role` and bound to the account's email. |
| JenkinsInstance.BindingNamesDistinct | src/jenkins/jenkinsInstance.ts:61 | Two role bindings get the same name if and only if their roles are equal. |
| JenkinsInstance.RolesDistinct | src/jenkins/jenkinsInstance.ts:53-58 | The four roles are pairwise distinct, so the four binding names are too. |
| JenkinsInstance.ScriptSettings | src/jenkins/jenkinsInstance.ts:35-36 | The script reads the token and password secrets under the resource names of `github-token` and `jenkins-password`. |
| JenkinsInstance.CreateJenkinsInstance | src/jenkins/jenkinsInstance.ts:43-100 | The node has its account, four bindings in role order, its name and zone, and the rendered script. It runs as its account. The firewall is on the node's network and targets the node's tag. |
| JenkinsInstance.JobsCarryCredential | src/jenkins/jenkinsInstance.ts:204 | After both phases, both job files contain the credential ID `github-token-v1`, provided their templates name the placeholder (the central one at a delimited position). |
| Bootstrap.FirstTrue | src/jenkins/jenkinsInstance.ts:139 | The index of the first success: every earlier outcome is a failure. |
| Bootstrap.MilestonesAppend | src/jenkins/jenkinsInstance.ts:101-274 | The lasting effects of two consecutive stretches of the script are those of the first, then those of the second. |
| Bootstrap.WebhooksAppend | src/jenkins/jenkinsInstance.ts:266-267 | Webhook registrations of consecutive stretches concatenate. |
| Bootstrap.AwaitReady | src/jenkins/jenkinsInstance.ts:139-142 | The readiness loop polls until the first success, with k failed polls each followed by a 60-second wait. It ends with the server up if and only if a poll succeeded, and its result is the one `Await` gives. |
| Bootstrap.InstallPlugin | src/jenkins/jenkinsInstance.ts:167-182 | With k leading failures and k < 5, exactly k+1 attempts are made and the plugin is installed. A 30-second wait follows each failure and none follows the success. With k ≥ 5, exactly five failed attempts are made and the function gives up. The result is the one `PluginOutcome` gives. |
| Bootstrap.StartServer | src/jenkins/jenkinsInstance.ts:103-154 | The exact trace: installation, service start, the first wait, one failed poll and wait per leading failure, then a successful poll and the CLI download only when the server came up. None of these has a lasting effect or goes through the CLI. |
| Bootstrap.Prepare | src/jenkins/jenkinsInstance.ts:103-164 | Everything up to the plugins has no lasting effect and makes no CLI call. Whether it continues, and where, is what `Prepared` gives: only after a successful poll and a found CLI file. A missing file is fatal. |
| Bootstrap.PluginStep | src/jenkins/jenkinsInstance.ts:177-189 | One `install_plugin` call: success adds exactly that plugin's installation, and giving up is fatal for that plugin, as `PluginOutcome` gives. |
| Bootstrap.InstallNext | src/jenkins/jenkinsInstance.ts:186-189 | After the first i plugins are installed, installing plugin i extends the installed prefix by one or stops as `PluginOutcome` gives for that plugin. No plugin after plugin i is attempted. |
| Bootstrap.InstallPlugins | src/jenkins/jenkinsInstance.ts:184-190 | The four plugins are installed in the fixed order. The number installed is `InstalledFrom` of the outcomes. A stop after m plugins leaves exactly the first m installed, attempts none after plugin m, and a fatal failure names plugin m. The result is the one `PluginsFrom` gives. |
| Bootstrap.Restarted | src/jenkins/jenkinsInstance.ts:192-201 | The wait and the second readiness loop have no lasting effect. They report the server up as `Await` gives, and then the trace holds a successful poll. |
| Bootstrap.CreateJobs | src/jenkins/jenkinsInstance.ts:222-236 | The central job is created first. A failure of either creation is fatal, and the venue job is attempted only after the central job was created. The result is the one `JobsOutcome` gives, and the number of jobs created is `JobsReached`. |
| Bootstrap.Configure | src/jenkins/jenkinsInstance.ts:192-236 | After the restart wait come the credentials, created from the token-filled file, and then the two jobs, as a prefix of that sequence whose length is `ConfiguredReached`. Every CLI call follows a successful poll of this phase, which makes no plugin attempt, and a phase that goes on holds that poll. The result is the one `Configured` gives. |
| Bootstrap.Await | src/jenkins/jenkinsInstance.ts:139-142 | A readiness loop goes on right after the first success; when it does not, every remaining outcome is a failure and the script never ends. |
| Bootstrap.Check | src/jenkins/jenkinsInstance.ts:157-160 | A checked command goes on if and only if its outcome is a success, and fails at its stage if and only if the outcome is a failure. |
| Bootstrap.PluginOutcome | src/jenkins/jenkinsInstance.ts:167-182 | One `install_plugin` call goes on past its outcomes or stops, either pending or with that plugin's failure. |
| Bootstrap.PluginsFrom | src/jenkins/jenkinsInstance.ts:184-190 | The remaining plugin calls go on or stop, pending or with the failure of one of the remaining plugins. |
| Bootstrap.Prepared | src/jenkins/jenkinsInstance.ts:139-160 | The first readiness loop and the CLI test stop, if at all, pending or with a missing CLI. |
| Bootstrap.JobsOutcome | src/jenkins/jenkinsInstance.ts:222-236 | The two job creations read exactly two outcomes when they go on, and otherwise stop pending or with one job's failure. |
| Bootstrap.Configured | src/jenkins/jenkinsInstance.ts:192-236 | After the plugins, the script stops, if at all, pending or at one of the two job creations. |
| Bootstrap.InstalledFrom | src/jenkins/jenkinsInstance.ts:184-190 | The number of plugins installed from plugin i on is the rest of the list exactly when the calls go on; when they stop with a failure, it is the failure of the plugin right after those installed. |
| Bootstrap.JobsReached | src/jenkins/jenkinsInstance.ts:222-236 | Both jobs are created exactly when the job phase goes on; a central failure creates none, and a venue failure creates one. |
| Bootstrap.ConfiguredReached | src/jenkins/jenkinsInstance.ts:192-236 | The credentials and both jobs are created exactly when the phase goes on; a central failure leaves only the credentials, and a venue failure one job more. |
| Bootstrap.ReachedByOutcome | src/jenkins/jenkinsInstance.ts:101-274 | The milestones reached against the status: at most twelve, all twelve if and only if the run completes, none after a missing CLI, the plugins before the failed one after a plugin failure, five after a central job failure and six after a venue job failure. |
| Bootstrap.Waits | src/jenkins/jenkinsInstance.ts:139-142 | n unsuccessful polls give 2·n events, each a failed poll or a 60-second wait. |
| Bootstrap.WaitsAlternate | src/jenkins/jenkinsInstance.ts:139-142 | Those events alternate: each failed poll is followed by its 60-second wait. |
| Bootstrap.FailedAttempts | src/jenkins/jenkinsInstance.ts:170-176 | n failed plugin attempts give 2·n events, each a failed attempt or a 30-second wait. |
| Bootstrap.FailedAttemptsAlternate | src/jenkins/jenkinsInstance.ts:170-176 | Those events alternate: each failed attempt is followed by its 30-second wait. |
| Bootstrap.NineSuccessesComplete | src/jenkins/jenkinsInstance.ts:101-274 | Nine successes in a row complete the script: two polls, the CLI test, four plugin attempts and two jobs. |
| Bootstrap.CliMissingFatal | src/jenkins/jenkinsInstance.ts:157-160 | The script fails at the CLI test if and only if the outcome just after the first successful poll is a failure. |
| Bootstrap.OnlyPrepareMissesCli | src/jenkins/jenkinsInstance.ts:157-160 | No phase after the CLI test fails with a missing CLI. |
| Bootstrap.FiveFailures | src/jenkins/jenkinsInstance.ts:169-180 | Five failures in a row make `install_plugin` give up. |
| Bootstrap.PluginGiveUpFatal | src/jenkins/jenkinsInstance.ts:177-189 | Five failed attempts at any plugin end the script with that plugin's failure. |
| Bootstrap.FirstPluginGiveUp | src/jenkins/jenkinsInstance.ts:139-189 | With the server up and the CLI found, five failures at `workflow-job` end the script with that failure. |
| Bootstrap.JobFailureFatal | src/jenkins/jenkinsInstance.ts:197-236 | After the plugins, the script fails at the central job if and only if the outcome after the second successful poll is a failure, and at the venue job if and only if the next one is. It completes if and only if both are successes. |
| Bootstrap.CompletedReadsNine | src/jenkins/jenkinsInstance.ts:101-274 | A completed run read at least nine outcomes. |
| Bootstrap.Finish | src/jenkins/jenkinsInstance.ts:238-273 | The user-creation script, admin password save, the two webhooks and the restart, with no job creation. |
| Bootstrap.Run | src/jenkins/jenkinsInstance.ts:101-274 | The status is `Outcome` of the command outcomes. The lasting effects are exactly the first `Reached` milestones of a complete run, all of them if and only if it completes. A plugin given up on is the one after those installed, and no later plugin is attempted. A run that fails at the CLI test made no plugin attempt, and a plugin failure means no credential, job or webhook step. The central job always precedes the venue job, and every CLI call follows a successful poll. The run splits into a part with no credentials, job, groovy or webhook step and a part with no plugin attempt (`SetupAfterReady`). In the second part every CLI call follows a successful poll of that part: the setup comes after the second readiness loop, not just after the first. |
| Bootstrap.SkippedLoopRejected | src/jenkins/jenkinsInstance.ts:192-220 | A trace whose credentials step follows a plugin attempt with no successful poll in between breaks `SetupAfterReady`, so `Run`'s contract rules out skipping the second readiness loop. |
| Bootstrap.Complete | src/jenkins/jenkinsInstance.ts:192-273 | Once the plugins are in, the status is `AfterPlugins` and the lasting effects are the plugins followed by the next `AfterPluginsReached` milestones of a complete run. A failed job creation therefore stops before the user script, password, webhooks and restart. The trace extends the one the plugins left. Its new part makes no plugin attempt, and in that part every CLI call (credentials, both jobs, the groovy script) follows a successful poll of the second readiness loop. |
| Bootstrap.ExpectedWebhooks | src/jenkins/jenkinsInstance.ts:266-267 | A complete run registers exactly the two webhooks. |
| Bootstrap.CompletedWebhooks | src/jenkins/jenkinsInstance.ts:260-267 | Any completed run registers exactly two webhooks, central repository then venue repository, both with the same token and the URL built from the external IP. |
| Bootstrap.JobUsesCredential | src/jenkins/jenkinsInstance.ts:225-226 | A job file whose template names the credential placeholder contains `github-token-v1` after its two `sed` edits. |
| Bootstrap.SecretsInserted | src/jenkins/jenkinsInstance.ts:211-215 | If the credentials template names `__GITHUB_TOKEN__`, the credentials file holds the secret read under the token's ID; likewise the groovy script holds the password secret (241-242). |
| Bootstrap.CredentialsIdForeign | src/jenkins/jenkinsInstance.ts:204 | The credential ID shares no character with the repository-URL placeholders, so the second `sed` cannot disturb it. |
| Fleet.Executed | src/compute/instanceGroup.ts:69 | What runs is a prefix of the script. |
| Fleet.ExecutedAll | src/compute/instanceGroup.ts:39-84 | With a successful clone, every step runs. |
| Fleet.ExecutedUntilClone | src/compute/instanceGroup.ts:69 | With a failed clone, the run stops right after the first clone. |
| Fleet.StartupPrefix | src/compute/instanceGroup.ts:42-69 | The script's first six steps: package update, git, Node.js, pm2, token fetch by secret ID, then the clone into `/home/ubuntu/<repo>`. |
| Fleet.StartupRuns | src/compute/instanceGroup.ts:56-81 | A successful clone runs the full script. A failed one runs six steps, including the token fetch, and no checkout, dependency installation or server start. |
| Fleet.InstanceTemplateWired | src/compute/instanceGroup.ts:6-38 | The template is named `name` and runs as its own account. The account ID follows the corrected rule, fits 27 characters, and is the source's `name-sa` for a name of at most 24 characters. That account is granted secret access on the project. The template fetches the token from the secret named `github-token`. |
| Fleet.PortNameInjective | src/compute/instanceGroup.ts:98 | Two ports get the same port name `http-<port>` if and only if they are equal. |
| Fleet.CreateInstanceGroup | src/compute/instanceGroup.ts:88-108 | The group and its instances take the given name; its one version is the template's self link. It has the given size and region, and one named port `http-<nodePort>`. The policy allows a surge of 3 and no unavailable instance. |
| Fleet.RolloutBounds | src/compute/instanceGroup.ts:101-107 | During any rollout the policy admits, every intermediate pool stays between target−maxUnavailable and target+maxSurge; with maxUnavailable 0, at least the target size keeps running. |
| Fleet.SurgePlanCompletes | src/compute/instanceGroup.ts:101-107 | With a positive surge, surge-then-retire steps are admitted and end with only new instances at the target size. |
| Fleet.NoSlackNoMove | src/compute/instanceGroup.ts:104-105 | With neither surge nor unavailability no move is admitted, so the surge is what makes a replacement possible. |
| Fleet.FleetRollout | src/compute/instanceGroup.ts:101-107 | The fleet's own policy replaces a full group of any size without dropping below it. |
| LoadBalancer.CreateLoadBalancer | src/compute/loadBalancer.ts:6-53 | The backend points at the instance group and the health check. The URL map points at the backend, the proxy at the map, and the forwarding rule at the proxy, on TCP port 80. The exported IP is the global address. The health check probes the node port and path; the port name is `http-<nodePort>`. |
| LoadBalancer.DeclaredInOrder | src/compute/loadBalancer.ts:8-43 | Each of the six resources refers only to the instance group or to resources declared before it. |
| LoadBalancer.SuffixesDistinct | src/compute/loadBalancer.ts:8-38 | The six name suffixes are pairwise distinct. |
| LoadBalancer.NamesDistinct | src/compute/loadBalancer.ts:8-38 | The six resources get six distinct names. |
| LoadBalancer.PortNamesMatch | src/compute/loadBalancer.ts:24 | The backend's port name is the instance group's named port (instanceGroup.ts:98), whose port is the health-check port and the node port. |
| Deployment.Declarations | index.ts:37-68 | The ten component names, in declaration order, are `project-stack-base` of the ten base names. |
| Deployment.Deploy | index.ts:9-73 | The program throws if and only if some required variable is absent or empty. It names the first such variable in the message and declares nothing. Otherwise it declares the ten components in order, with the stack that `Declares` describes. |
| Deployment.DeclareAll | index.ts:40-73 | The declarations, in program order, produce the described stack. |
| Deployment.DeclareSecrets | index.ts:40-41 | The two secrets get the first two names and the two variables' values. |
| Deployment.DeclareFleet | index.ts:51-54 | The template and the group of three over it, in the program's region. |
| Deployment.DeclareBalancer | index.ts:60 | The load balancer over the group. |
| Deployment.DeclareJenkins | index.ts:65 | The CI node, named `jenkins-instance`, in zone `us-central1-f`. |
| Deployment.BaseNamesDistinct | index.ts:40-68 | The ten base names are pairwise distinct. |
| Deployment.DeclarationsDistinct | index.ts:37-68 | No two components of one deployment share a name. |
| Deployment.SecretsWired | index.ts:40-65 | The fleet fetches the token from the declared token secret by its ID, and the CI node reads both declared secrets by their IDs. |
| Deployment.AccountIdsDistinct | index.ts:51-65 | The fleet's and the CI node's service accounts get different account IDs (corrected rule). |
| Deployment.SecretsOnlyInSecrets | index.ts:40-65 | Secret values reach only the secrets: two environments declare the same template, group, balancer and CI script. |
| Deployment.TrafficWired | index.ts:51-62 | The balancer's port name is the group's named port, and its backend is the group. The group runs the template, and the exported IP is the balancer's address. |

Definitions without a contract of their own are stated through the members above:

- Templating.ReplaceAll (src/jenkins/jenkinsInstance.ts:26, 215, 225-226): `ReplaceAbsent`,
  `ReplaceLeavesNone`, `ReplaceInserts` and the `ReplaceKeeps` lemmas.
- XmlEscape.Piece (src/utils/index.ts:3-10): `PieceShape`, `Entity` and `UnescapePiece`.
- JenkinsInstance.RenderJobConfig (src/jenkins/jenkinsInstance.ts:25-26):
  `JobConfigComplete`, `JobConfigKeepsRuntime` and `JobConfigQuoteFree`.
- JenkinsInstance.RoleBinding (src/jenkins/jenkinsInstance.ts:60-66): `DeclareRoleBindings`
  and `BindingNamesDistinct`.
- Bootstrap.Apply, Bootstrap.CredentialsFile, Bootstrap.JobFile and Bootstrap.GroovyFile
  (src/jenkins/jenkinsInstance.ts:214-215, 224-226, 232-234, 239-242): `ApplyCons`,
  `JobUsesCredential` and `SecretsInserted`.
- Bootstrap.Secret (src/jenkins/jenkinsInstance.ts:212, 241) and Bootstrap.WebhookUrl
  (src/jenkins/jenkinsInstance.ts:262): `SecretsInserted` and `CompletedWebhooks`.
- Bootstrap.AfterPlugins and Bootstrap.Outcome (src/jenkins/jenkinsInstance.ts:101-274):
  `Run`, `Complete` and the outcome lemmas.
- Bootstrap.AfterPluginsReached and Bootstrap.Reached (src/jenkins/jenkinsInstance.ts:101-274):
  `Run`, `Complete` and `ReachedByOutcome`.
- Bootstrap.SetupAfterReady (src/jenkins/jenkinsInstance.ts:192-246): `Run` and
  `SkippedLoopRejected`.
- Fleet.StartupScript (src/compute/instanceGroup.ts:39-84): `StartupPrefix` and `StartupRuns`.
- Fleet.CreateInstanceTemplate (src/compute/instanceGroup.ts:6-38): `InstanceTemplateWired`.
- Fleet.PortName (src/compute/instanceGroup.ts:98): `PortNameInjective`.
- Deployment.Present (index.ts:13-23): `Deploy`.

## Left out

- Pulumi's output and resource semantics: asynchronous resolution, the provider,
  retries and state. An output is a `Ref` naming a resource and an output field, and
  declaration order is the order of the program.
- Reading the template files (`fs.readFileSync`), the environment (`dotenv`) and
  Pulumi configuration. They are inputs: `Templates`, `Env` and `Config`.
- Base64 encoding of the webhook script. The template files and the webhook script are
  opaque inputs, and their contents are not modelled.
- The effects of the bootstrap commands on the VM: package installation, `systemctl`,
  the CLI download, `gcloud` secret reads and the metadata query. Their outcomes are
  inputs: the `answers` stream, `World.secrets` and `World.externalIp`. Commands whose
  status the script ignores always count as done.
- Timing: each `sleep` is a `Sleep(seconds)` event, and waiting itself is not modelled.
  An endless polling loop shows up as a `Pending` run once the answers run out.
- The `-restart` flag of `install-plugin`, and the server restarts that flag triggers:
  only the second readiness loop is modelled.
- Logging: the `echo` lines and the `&>> log` redirection. That includes the echo of the
  token into the log (jenkinsInstance.ts:213, instanceGroup.ts:58); the model does not
  state anything about log secrecy.
- The special meaning of `$&`, `$1`, ... in a JavaScript string replacement and of `&`
  and `\` in a `sed` replacement. Both are modelled as literal replacement, the intended
  use. A Jenkinsfile or secret containing those characters is outside the model.
- The shell quoting of the `echo '...'` lines. `JobConfigQuoteFree` proves that the part
  the build inserts brings no single quote; the templates' own quotes are outside the
  model.
- The firewall rules, the autoscaler, the bucket and the Jenkins secret component.
  `src/network/firewallRules.ts`, `src/compute/autoscaler.ts` and
  `src/storage/bucket.ts` only declare resources. `src/secrets/jenkinsSecret.ts` is not
  part of this model. The ten names are still declared in order. `index.ts:40` calls
  `createGithubTokenSecret` with three arguments where `src/secrets/githubSecret.ts:3`
  takes two; the model keeps the two that are used.
- The fleet's rolling update is an abstract pool model of the policy's surge and
  unavailability bounds, not GCP's actual update algorithm. The comments at
  `instanceGroup.ts:104-105` ("one instance at a time", "at least one") do not match
  the values 3 and 0; the model follows the values.
- The other fields of the declared resources (machine type, disks, scopes, the Jenkins
  firewall's ports and ranges) are carried as data and not stated in contracts.
- Deployment.Declares: pins the CI node's account, name, zone, script and number of
  bindings. The rest of the node is described by `CreateJenkinsInstance`'s own contract.
- JenkinsInstance.JobConfigComplete: "no placeholder left" is proved only under
  conditions on the Jenkinsfile: nonempty, not containing the placeholder, and not
  starting or ending with one of its characters. Without them the claim is false. The
  template `__JENKINSFILE_CONTENT___CONTENT__` with the Jenkinsfile `__JENKINSFILE`
  renders to `__JENKINSFILE_CONTENT__`.
- JenkinsInstance.UserScriptComplete: the same conditions on the user name.
- Templating.ReplaceLeavesNone: the same conditions on the replacement text.
- JenkinsInstance.JobConfigKeepsRuntime: a runtime placeholder is kept only when it is
  delimited by characters outside `__JENKINSFILE_CONTENT__`. The placeholders can
  overlap: in `__GITHUB_CREDENTIALS_ID__JENKINSFILE_CONTENT__` the build-time
  replacement consumes the two underscores they share.
- JenkinsInstance.UserScriptKeepsPassword: the password placeholder is kept only when
  delimited, for the same reason.
- Templating.ReplaceKeepsDelimited: the general form of that condition.
- Deployment.Deploy: the if-and-only-if covers the three checks of `index.ts:13-23`
  only. The program also stops with an error when `src/config/provider.ts:10-12` finds
  `GOOGLE_PROJECT`, `GOOGLE_REGION` or `GOOGLE_APPLICATION_CREDENTIALS` missing, when the
  credentials file cannot be read (`provider.ts:15`), or when a required configuration
  value is missing (`src/config/constant.ts`). Those modules load through the imports at
  `index.ts:3` and `index.ts:27`; the provider and the configuration are inputs here.
- Deployment.SecretsWired: the password secret is taken to be declared from
  `JENKINS_PASSWORD` under the second name, the way `src/secrets/githubSecret.ts`
  declares the token. `src/secrets/jenkinsSecret.ts` is not part of this model, so that
  declaration (`DeclareSecrets`) is assumed, not derived.
- Resources.Config: `nodePort` is a `nat`, while `requireNumber` accepts any JavaScript
  number (`src/config/constant.ts:53`). A negative or fractional port, which would give a
  port name such as `http-8080.5`, is outside the model.
- JenkinsInstance.JenkinsAccount: uses the corrected account ID rule. For names longer
  than 24 characters the ID differs from the source's: `my-proj-dev-jenkins-instance`
  gets `my-proj-dev-ins-instance-sa`, where the source gives `my-proj-dev-jenkins-inst-sa`.
- JenkinsInstance.CreateJenkinsInstance: its account is `JenkinsAccount`'s, with the same
  difference for long names.
- Fleet.InstanceTemplateWired: the template's account ID likewise follows the corrected
  rule; it equals the source's only for names of at most 24 characters.
- Naming.ServiceAccountId: the components use the corrected account ID rule rather than
  the one in the source (see Findings). The rule as written is `Naming.SliceAccountId`.

## Findings

| source | as written | input that shows it | evidently intended | confidence | as-written member | corrected member |
|---|---|---|---|---|---|---|
| src/jenkins/jenkinsInstance.ts:46, src/compute/instanceGroup.ts:10 | The account ID is ``${name.slice(0, 24)}-sa`` for both the fleet's and the CI node's service account. | Project `my-company-platform`, stack `dev`: both names start with the 24 characters `my-company-platform-dev-`, so both IDs are `my-company-platform-dev--sa`. The same happens whenever project and stack total 22 characters or more. | Each service account gets its own ID within the 27-character limit. | not executed | Naming.SliceAccountIdsCollideExample | Naming.ServiceAccountIdsDistinct |
