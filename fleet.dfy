/** The application fleet: the instance template with its service account and startup
    script, and the regional instance group manager with its named port and update policy.
    The startup script is a list of steps; only the clone's failure stops it. */
module Fleet {
  import opened Strings
  import opened Naming
  import opened Resources

  // ----- Instance template -----

  /** The commands of the fleet's startup script that do something, in order. */
  datatype Step =
    | UpdatePackages
    | InstallGit
    | InstallNode
    | InstallPm2
    | FetchToken(secretId: string)
    | Clone(url: string, dir: string)
    | Checkout(branch: string)
    | InstallDependencies
    | StartServer

  /** The startup script rendered for one secret ID and one repository. */
  function StartupScript(secretId: string, repo: Repo): seq<Step>
  {
    [ UpdatePackages, InstallGit, InstallNode, InstallPm2, FetchToken(secretId),
      Clone(repo.url, "/home/ubuntu/" + repo.name), Checkout(repo.branch),
      InstallDependencies, StartServer ]
  }

  /** The steps that run: all of them in order, except that a failed clone (`|| exit 1`)
      ends the script right after it. */
  function Executed(script: seq<Step>, cloneOk: bool): (run: seq<Step>)
    ensures run <= script
    decreases |script|
  {
    if script == [] then []
    else if script[0].Clone? && !cloneOk then [script[0]]
    else [script[0]] + Executed(script[1..], cloneOk)
  }

  /** When the clone succeeds every step runs. */
  lemma {:induction false} ExecutedAll(script: seq<Step>)
    ensures Executed(script, true) == script
    decreases |script|
  {
    if script != [] {
      ExecutedAll(script[1..]);
    }
  }

  /** When the clone fails the run stops at the first clone: nothing after it runs. */
  lemma {:induction false} ExecutedUntilClone(script: seq<Step>, k: nat)
    requires k < |script| && script[k].Clone?
    requires forall j :: 0 <= j < k ==> !script[j].Clone?
    ensures Executed(script, false) == script[..k + 1]
    decreases k
  {
    if k > 0 {
      ExecutedUntilClone(script[1..], k - 1);
      assert script[..k + 1] == [script[0]] + script[1..][..k];
    }
  }

  /** The steps the rendered script runs up to and including its clone. */
  lemma StartupPrefix(secretId: string, repo: Repo)
    ensures var script := StartupScript(secretId, repo);
      && script[5].Clone?
      && (forall j :: 0 <= j < 5 ==> !script[j].Clone?)
      && script[..6] == [UpdatePackages, InstallGit, InstallNode, InstallPm2, FetchToken(secretId),
                         Clone(repo.url, "/home/ubuntu/" + repo.name)]
  {
  }

  /** With the rendered script: a successful clone runs every step; a failed one runs the
      token fetch (by secret ID) and the clone, and no checkout, installation or start. */
  lemma StartupRuns(secretId: string, repo: Repo)
    ensures var script := StartupScript(secretId, repo);
      && Executed(script, true) == script
      && Executed(script, false) == script[..6]
      && Executed(script, false)[4] == FetchToken(secretId)
      && forall j :: 0 <= j < |Executed(script, false)| ==>
           var e := Executed(script, false)[j];
           !e.Checkout? && e != InstallDependencies && e != StartServer
  {
    var script := StartupScript(secretId, repo);
    ExecutedAll(script);
    StartupPrefix(secretId, repo);
    ExecutedUntilClone(script, 5);
  }

  datatype InstanceTemplate = InstanceTemplate(
    name: string,
    machineType: string,
    account: Ref,
    scopes: seq<string>,
    sourceImage: string,
    tags: seq<string>,
    startup: seq<Step>)

  /** What `createInstanceTemplate` declares. */
  datatype FleetTemplate = FleetTemplate(account: ServiceAccount, secretAccess: IamMember, template: InstanceTemplate)

  const SecretAccessor: string := "roles/secretmanager.secretAccessor"
  const MachineType: string := "f1-micro"
  const CloudPlatformScope: string := "https://www.googleapis.com/auth/cloud-platform"
  const SourceImage: string := "ubuntu-os-cloud/ubuntu-2004-lts"
  /** The network tag the firewall rule for load-balancer traffic targets. */
  const LbTag: string := "allow-lb"

  /** `createInstanceTemplate(name)`, with the corrected account ID rule. */
  function CreateInstanceTemplate(cfg: Config, name: string): FleetTemplate
  {
    var account := ServiceAccount(name + "-sa", ServiceAccountId(name), name + " Service Account");
    var access := IamMember(name + "-secret-access", cfg.project, SecretAccessor, MemberOf(account));
    FleetTemplate(account, access,
      InstanceTemplate(name, MachineType, MemberOf(account), [CloudPlatformScope], SourceImage, [LbTag],
                       StartupScript(GithubSecretId(cfg.project, cfg.stack), cfg.central)))
  }

  /** The template runs as its own service account, which may read secrets in the
      project; its account ID fits the 27-character limit; and its startup script fetches
      the token from the secret the stack declares as `github-token`. */
  lemma InstanceTemplateWired(cfg: Config, name: string)
    ensures var t := CreateInstanceTemplate(cfg, name);
      && t.template.name == name
      && 3 <= |t.account.accountId| <= 27 && t.account.accountId[|t.account.accountId| - 3..] == "-sa"
      && t.account.accountId == ServiceAccountId(name)
      && (|name| <= 24 ==> t.account.accountId == SliceAccountId(name) == name + "-sa")
      && t.template.account == t.secretAccess.member == MemberOf(t.account)
      && t.secretAccess.role == SecretAccessor && t.secretAccess.project == cfg.project
      && FetchToken(ResourceName(cfg.project, cfg.stack, "github-token")) in t.template.startup
  {
    SecretIdsAgree(cfg.project, cfg.stack);
    var script := StartupScript(GithubSecretId(cfg.project, cfg.stack), cfg.central);
    assert script[4] == FetchToken(GithubSecretId(cfg.project, cfg.stack));
  }

  // ----- Instance group manager -----

  datatype NamedPort = NamedPort(name: string, port: nat)

  datatype UpdatePolicy = UpdatePolicy(
    kind: string,
    minimalAction: string,
    maxSurge: nat,
    maxUnavailable: nat,
    replacementMethod: string)

  datatype GroupManager = GroupManager(
    name: string,
    baseInstanceName: string,
    versions: seq<Ref>,
    region: string,
    targetSize: nat,
    namedPorts: seq<NamedPort>,
    policy: UpdatePolicy)

  /** `http-<port>`, the named port's name. */
  function PortName(port: nat): string
  {
    "http-" + Decimal(port)
  }

  /** The name determines the port: distinct ports have distinct names. */
  lemma PortNameInjective(p1: nat, p2: nat)
    ensures PortName(p1) == PortName(p2) <==> p1 == p2
  {
    if PortName(p1) == PortName(p2) {
      AppendCancel("http-", Decimal(p1), Decimal(p2));
      DecimalRoundTrip(p1);
      DecimalRoundTrip(p2);
    }
  }

  const Policy: UpdatePolicy := UpdatePolicy("PROACTIVE", "REPLACE", 3, 0, "SUBSTITUTE")

  /** `createInstanceGroup(name, instanceTemplate, region, size)`. */
  function CreateInstanceGroup(cfg: Config, name: string, template: FleetTemplate, region: string, size: nat): (g: GroupManager)
    ensures g.name == name && g.baseInstanceName == name
    ensures g.versions == [Ref(template.template.name, "selfLink")]
    ensures g.targetSize == size && g.region == region
    ensures |g.namedPorts| == 1 && g.namedPorts[0].port == cfg.nodePort
    ensures g.namedPorts[0].name == PortName(cfg.nodePort)
    ensures g.policy.maxSurge == 3 && g.policy.maxUnavailable == 0
  {
    GroupManager(name, name, [Ref(template.template.name, "selfLink")], region, size,
                 [NamedPort(PortName(cfg.nodePort), cfg.nodePort)], Policy)
  }

  // ----- An abstract rolling update -----

  /** Instances running the previous template and instances running the new one. */
  datatype Pool = Pool(previous: nat, current: nat)

  function Size(p: Pool): nat
  {
    p.previous + p.current
  }

  /** Start `n` new instances, or retire `n` previous ones. */
  datatype Move = Add(n: nat) | Retire(n: nat)

  /** A move the policy admits: never more than `maxSurge` above the target size and never
      more than `maxUnavailable` below it. */
  predicate Admits(policy: UpdatePolicy, target: nat, p: Pool, m: Move)
  {
    match m
    case Add(n) => 0 < n && Size(p) + n <= target + policy.maxSurge
    case Retire(n) => 0 < n <= p.previous && Size(p) - n + policy.maxUnavailable >= target
  }

  function Apply(p: Pool, m: Move): Pool
    requires m.Retire? ==> m.n <= p.previous
  {
    match m
    case Add(n) => Pool(p.previous, p.current + n)
    case Retire(n) => Pool(p.previous - n, p.current)
  }

  /** Every move of the sequence is admitted in the pool it applies to. */
  predicate Rollout(policy: UpdatePolicy, target: nat, p: Pool, moves: seq<Move>)
    decreases |moves|
  {
    moves == [] || (Admits(policy, target, p, moves[0]) && Rollout(policy, target, Apply(p, moves[0]), moves[1..]))
  }

  function After(policy: UpdatePolicy, target: nat, p: Pool, moves: seq<Move>): Pool
    requires Rollout(policy, target, p, moves)
    decreases |moves|
  {
    if moves == [] then p else After(policy, target, Apply(p, moves[0]), moves[1..])
  }

  /** During an admitted rollout that starts within the bounds, every pool it passes
      through stays within them; with no unavailability allowed, at least the target
      size is running throughout. */
  lemma {:induction false} RolloutBounds(policy: UpdatePolicy, target: nat, p: Pool, moves: seq<Move>, k: nat)
    requires Rollout(policy, target, p, moves) && k <= |moves|
    requires target <= Size(p) + policy.maxUnavailable && Size(p) <= target + policy.maxSurge
    ensures Rollout(policy, target, p, moves[..k])
    ensures var q := After(policy, target, p, moves[..k]);
      target <= Size(q) + policy.maxUnavailable && Size(q) <= target + policy.maxSurge
    decreases k
  {
    if k > 0 {
      assert moves[..k][0] == moves[0] && moves[..k][1..] == moves[1..][..k - 1];
      RolloutBounds(policy, target, Apply(p, moves[0]), moves[1..], k - 1);
    }
  }

  /** Surge by up to `step` instances, then retire as many, until no previous instance is
      left. */
  function SurgePlan(previous: nat, step: nat): seq<Move>
    requires step > 0
    decreases previous
  {
    if previous == 0 then []
    else
      var n := if previous < step then previous else step;
      [Add(n), Retire(n)] + SurgePlan(previous - n, step)
  }

  /** The fleet's policy can replace every instance without ever running fewer than the
      target size: the surge plan is admitted and ends with only new instances. */
  lemma {:induction false} SurgePlanCompletes(policy: UpdatePolicy, target: nat, previous: nat)
    requires policy.maxSurge > 0 && previous <= target
    ensures Rollout(policy, target, Pool(previous, target - previous), SurgePlan(previous, policy.maxSurge))
    ensures After(policy, target, Pool(previous, target - previous), SurgePlan(previous, policy.maxSurge)) == Pool(0, target)
    decreases previous
  {
    if previous > 0 {
      var step := policy.maxSurge;
      var n := if previous < step then previous else step;
      var p := Pool(previous, target - previous);
      var rest := SurgePlan(previous - n, step);
      var moves := [Add(n), Retire(n)] + rest;
      SurgePlanCompletes(policy, target, previous - n);
      var mid := Pool(previous, target - previous + n);
      var next := Pool(previous - n, target - previous + n);
      assert moves[0] == Add(n) && moves[1..] == [Retire(n)] + rest;
      assert ([Retire(n)] + rest)[0] == Retire(n) && ([Retire(n)] + rest)[1..] == rest;
      assert Apply(p, Add(n)) == mid && Apply(mid, Retire(n)) == next;
      assert Rollout(policy, target, mid, [Retire(n)] + rest);
    }
  }

  /** Without surge and without unavailability no move is admitted at the target size, so
      a rollout could never begin. */
  lemma NoSlackNoMove(policy: UpdatePolicy, target: nat, m: Move)
    requires policy.maxSurge == 0 && policy.maxUnavailable == 0
    ensures !Admits(policy, target, Pool(target, 0), m)
  {
  }

  /** The fleet's own policy, replacing a full group of any size. */
  lemma FleetRollout(target: nat)
    ensures var start := Pool(target, 0);
      && Rollout(Policy, target, start, SurgePlan(target, 3))
      && After(Policy, target, start, SurgePlan(target, 3)) == Pool(0, target)
  {
    SurgePlanCompletes(Policy, target, target);
  }
}
