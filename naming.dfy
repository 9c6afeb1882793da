/** Deterministic names: the resource names of the stack, the secret IDs that the
    startup scripts read, and service-account IDs. Project and stack identifiers are
    explicit parameters instead of configuration reads. */
module Naming {
  import opened Strings

  /** `resourceName(baseName)`: project, stack and base name joined by dashes. */
  function ResourceName(project: string, stack: string, base: string): (r: string)
    ensures |r| == |project| + |stack| + |base| + 2
    ensures r[|r| - |base|..] == base
  {
    project + "-" + stack + "-" + base
  }

  /** For one project and stack, distinct base names give distinct resource names. */
  lemma ResourceNameInjective(project: string, stack: string, b1: string, b2: string)
    ensures ResourceName(project, stack, b1) == ResourceName(project, stack, b2) <==> b1 == b2
  {
    if ResourceName(project, stack, b1) == ResourceName(project, stack, b2) {
      AppendCancel(project + "-" + stack + "-", b1, b2);
    }
  }

  /** The ID of the source-control token secret as the two startup scripts spell it. */
  function GithubSecretId(project: string, stack: string): string
  {
    project + "-" + stack + "-github-token"
  }

  /** The ID of the administrator-password secret as the CI startup script spells it. */
  function JenkinsSecretId(project: string, stack: string): string
  {
    project + "-" + stack + "-jenkins-password"
  }

  /** The IDs the scripts read are the IDs under which the stack declares the secrets. */
  lemma SecretIdsAgree(project: string, stack: string)
    ensures GithubSecretId(project, stack) == ResourceName(project, stack, "github-token")
    ensures JenkinsSecretId(project, stack) == ResourceName(project, stack, "jenkins-password")
  {
    var prefix := project + "-" + stack;
    assert prefix + "-github-token" == prefix + "-" + "github-token";
    assert prefix + "-jenkins-password" == prefix + "-" + "jenkins-password";
  }

  /** The service-account ID rule as written: `${name.slice(0, 24)}-sa`. */
  function SliceAccountId(name: string): (r: string)
    ensures |r| == (if |name| <= 24 then |name| else 24) + 3
    ensures r[..|r| - 3] <= name && r[|r| - 3..] == "-sa"
    ensures |name| <= 24 ==> r == name + "-sa"
  {
    Take(name, 24) + "-sa"
  }

  /** With the rule as written, once project and stack fill the first 24 characters the
      fleet's and the CI node's service accounts get one and the same account ID. */
  lemma SliceAccountIdsCollide(project: string, stack: string)
    requires |project| + |stack| >= 22
    ensures SliceAccountId(ResourceName(project, stack, "instance-template"))
         == SliceAccountId(ResourceName(project, stack, "jenkins-instance"))
  {
    var prefix := project + "-" + stack + "-";
    var a, b := ResourceName(project, stack, "instance-template"), ResourceName(project, stack, "jenkins-instance");
    assert a[..24] == prefix[..24] == b[..24];
  }

  /** A concrete case: project `my-company-platform`, stack `dev`. */
  lemma SliceAccountIdsCollideExample()
    ensures SliceAccountId(ResourceName("my-company-platform", "dev", "instance-template"))
         == SliceAccountId(ResourceName("my-company-platform", "dev", "jenkins-instance"))
         == "my-company-platform-dev--sa"
  {
    var a := ResourceName("my-company-platform", "dev", "instance-template");
    SliceAccountIdsCollide("my-company-platform", "dev");
    assert a[..24] == "my-company-platform-dev-";
  }

  /** The corrected service-account ID rule: a name of at most 24 characters is kept
      whole, a longer one keeps its first 12 characters (where the project begins) and
      its last 12 (where the role is), so the ID still fits in 27 characters. */
  function ServiceAccountId(name: string): (r: string)
    ensures 3 <= |r| <= 27 && r[|r| - 3..] == "-sa"
    ensures Take(name, 12) <= r
    ensures |name| >= 12 ==> |r| >= 15 && r[|r| - 15..|r| - 3] == TakeLast(name, 12)
    ensures |name| <= 24 ==> r == SliceAccountId(name)
  {
    if |name| <= 24 then name + "-sa" else name[..12] + name[|name| - 12..] + "-sa"
  }

  /** Names that differ in their last 12 characters get different account IDs. */
  lemma ServiceAccountIdsDiffer(n1: string, n2: string)
    requires |n1| >= 12 && |n2| >= 12 && TakeLast(n1, 12) != TakeLast(n2, 12)
    ensures ServiceAccountId(n1) != ServiceAccountId(n2)
  {
    var a, b := ServiceAccountId(n1), ServiceAccountId(n2);
    assert a[|a| - 15..|a| - 3] != b[|b| - 15..|b| - 3];
  }

  /** With the corrected rule the fleet's and the CI node's service accounts never share
      an account ID, whatever the project and stack. */
  lemma ServiceAccountIdsDistinct(project: string, stack: string)
    ensures ServiceAccountId(ResourceName(project, stack, "instance-template"))
         != ServiceAccountId(ResourceName(project, stack, "jenkins-instance"))
  {
    var prefix := project + "-" + stack + "-";
    var a, b := ResourceName(project, stack, "instance-template"), ResourceName(project, stack, "jenkins-instance");
    TakeLastOfSuffix(prefix, "instance-template", 12);
    TakeLastOfSuffix(prefix, "jenkins-instance", 12);
    assert TakeLast("instance-template", 12) == "nce-template";
    assert TakeLast("jenkins-instance", 12) == "ins-instance";
    ServiceAccountIdsDiffer(a, b);
  }

  /** The last `n` characters of a concatenation come from its second part when that is
      long enough. */
  lemma TakeLastOfSuffix(a: string, b: string, n: nat)
    requires |b| >= n
    ensures TakeLast(a + b, n) == TakeLast(b, n)
  {
    assert (a + b)[|a + b| - n..] == b[|b| - n..];
  }
}
