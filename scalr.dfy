/**
 * The values the provider receives from the Scalr API client. The client
 * itself (HTTP, JSON, authentication) is not part of this model: every
 * handler takes the client's answers as parameters.
 */
module Scalr {
  import opened Wrappers

  /** The two error kinds the handlers tell apart: ErrResourceNotFound and any other error. */
  datatype ApiError = NotFound | Other

  datatype Organization = Organization(name: string)

  datatype Account = Account(id: string)

  datatype SshKey = SshKey(id: string)

  datatype User = User(id: string, username: string, email: string, fullName: string)

  datatype VcsRepo = VcsRepo(identifier: string, branch: string, ingressSubmodules: bool, oauthTokenId: string)

  datatype Workspace = Workspace(
    id: string,
    name: string,
    organization: Option<Organization>,
    autoApply: bool,
    operations: bool,
    queueAllRuns: bool,
    terraformVersion: string,
    workingDirectory: string,
    sshKey: Option<SshKey>,
    createdBy: Option<User>,
    vcsRepo: Option<VcsRepo>)

  datatype Variable = Variable(id: string, key: string, value: string, category: string, hcl: bool, sensitive: bool)

  datatype Team = Team(
    id: string,
    name: string,
    description: string,
    identityProviderId: string,
    account: Option<Account>,
    users: seq<User>)

  datatype TeamAccess = TeamAccess(id: string, access: string, team: Option<Team>)

  datatype AgentPoolToken = AgentPoolToken(id: string, description: string, token: string)

  /** One page of a list call, with the pagination fields the loops read. */
  datatype Page<T> = Page(items: seq<T>, currentPage: int, totalPages: int, nextPage: int)

  /** The answer to one list call. */
  type Response<T> = Result<Page<T>, ApiError>

  /** A team list answer: the items and the total number of matches. */
  datatype TeamList = TeamList(items: seq<Team>, totalCount: int)

  function WorkspaceKey(w: Workspace): string
  {
    w.id
  }

  function TokenKey(t: AgentPoolToken): string
  {
    t.id
  }
}
