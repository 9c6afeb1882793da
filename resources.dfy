/** Records shared by the components: the deployment configuration, which the stack reads
    from its configuration store and is here an explicit value, and the cloud resources
    that more than one component declares. A reference to another resource's output
    (an `id`, a `selfLink`, an `email`, an `address`) is a `Ref` naming that resource. */
module Resources {

  /** The coordinates of one source repository. */
  datatype Repo = Repo(url: string, branch: string, name: string, owner: string)

  /** The configuration values the components read. */
  datatype Config = Config(
    project: string,
    region: string,
    stack: string,
    central: Repo,
    venue: Repo,
    nodePort: nat,
    healthCheckPath: string,
    jenkinsUsername: string)

  /** An output of a declared resource, by resource name and output name. */
  datatype Ref = Ref(resource: string, output: string)

  datatype ServiceAccount = ServiceAccount(resourceName: string, accountId: string, displayName: string)

  /** A role binding for a service account, whose member is `serviceAccount:<email>`. */
  datatype IamMember = IamMember(resourceName: string, project: string, role: string, member: Ref)

  /** The member string of a service account's bindings is built from its `email` output. */
  function MemberOf(account: ServiceAccount): Ref
  {
    Ref(account.resourceName, "email")
  }

  /** `owner/name`, as the webhook script expects a repository. */
  function RepoPath(r: Repo): string
  {
    r.owner + "/" + r.name
  }
}
