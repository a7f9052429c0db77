/** The scalr_workspace resource (resource_scalr_workspace.go). */
module WorkspaceResource {
  import opened Wrappers
  import opened Scalr
  import opened Diagnostics
  import opened Paging
  import opened WorkspaceId
  import opened Schema

  /** The created_by block of the state. */
  datatype CreatedByBlock = CreatedByBlock(username: string, email: string, fullName: string)

  /** The resource's Terraform state; vcs_repo and created_by hold at most one block. */
  class WorkspaceState {
    var id: string
    var name: string
    var organization: string
    var autoApply: bool
    var operations: bool
    var queueAllRuns: bool
    var sshKeyId: string
    var terraformVersion: string
    var workingDirectory: string
    var vcsRepo: Option<VcsRepo>
    var createdBy: Option<CreatedByBlock>
    var externalId: string

    constructor (id: string, name: string, organization: string)
      ensures this.id == id && this.name == name && this.organization == organization
      ensures !autoApply && operations && queueAllRuns && sshKeyId == ""
      ensures terraformVersion == "" && workingDirectory == "" && vcsRepo.None? && createdBy.None? && externalId == ""
    {
      this.id, this.name, this.organization := id, name, organization;
      autoApply, operations, queueAllRuns, sshKeyId := false, true, true, "";
      terraformVersion, workingDirectory, vcsRepo, createdBy, externalId := "", "", None, None, "";
    }

    /** Every field but the ID is as it was. */
    twostate predicate SameAttributes()
      reads this
    {
      name == old(name) && organization == old(organization) && autoApply == old(autoApply) &&
      operations == old(operations) && queueAllRuns == old(queueAllRuns) && sshKeyId == old(sshKeyId) &&
      terraformVersion == old(terraformVersion) && workingDirectory == old(workingDirectory) &&
      vcsRepo == old(vcsRepo) && createdBy == old(createdBy) && externalId == old(externalId)
    }

    /**
     * The state shows the workspace `w` as Read writes it back; its ID is the
     * packed ID of `w`, or is kept with the error when `w` has no organization.
     */
    twostate predicate Shows(new w: Workspace, new err: Option<Error>)
      reads this
    {
      name == w.name && autoApply == w.autoApply && operations == w.operations &&
      queueAllRuns == w.queueAllRuns && terraformVersion == w.terraformVersion &&
      workingDirectory == w.workingDirectory && externalId == w.id &&
      organization == (if w.organization.Some? then w.organization.value.name else old(organization)) &&
      sshKeyId == (if w.sshKey.Some? then w.sshKey.value.id else "") &&
      createdBy == CreatedByOf(w.createdBy) &&
      vcsRepo == VcsRepoOf(w.vcsRepo, old(vcsRepo)) &&
      match Pack(w)
      case Failure(e) => err == Some(e) && id == old(id)
      case Success(packed) => err.None? && id == packed
    }
  }

  function CreatedByOf(u: Option<User>): Option<CreatedByBlock>
  {
    match u
    case None => None
    case Some(u) => Some(CreatedByBlock(u.username, u.email, u.fullName))
  }

  /**
   * The vcs_repo block Read writes for the workspace's repository: the
   * branch is copied only when the configured block has a non-empty branch.
   */
  function VcsRepoOf(remote: Option<VcsRepo>, configured: Option<VcsRepo>): (r: Option<VcsRepo>)
    ensures r.Some? <==> remote.Some?
    ensures r.Some? ==>
      && r.value.identifier == remote.value.identifier
      && r.value.ingressSubmodules == remote.value.ingressSubmodules
      && r.value.oauthTokenId == remote.value.oauthTokenId
      && r.value.branch == (if configured.Some? && configured.value.branch != "" then remote.value.branch else "")
  {
    match remote
    case None => None
    case Some(repo) =>
      var branch := if configured.Some? && configured.value.branch != "" then repo.branch else "";
      Some(repo.(branch := branch))
  }

  datatype VcsRepoOptions = VcsRepoOptions(identifier: string, branch: Option<string>, ingressSubmodules: bool, oauthTokenId: string)

  /** WorkspaceCreateOptions and WorkspaceUpdateOptions; None is a field left out of the request. */
  datatype Options = Options(
    name: string,
    autoApply: bool,
    operations: bool,
    queueAllRuns: bool,
    terraformVersion: Option<string>,
    workingDirectory: Option<string>,
    vcsRepo: Option<VcsRepoOptions>)

  /** The request of Create: the VCS branch is sent only when one is configured and non-empty. */
  function CreateOptions(d: WorkspaceState): (o: Options)
    reads d
    ensures o.vcsRepo.Some? <==> d.vcsRepo.Some?
    ensures o.vcsRepo.Some? ==> (o.vcsRepo.value.branch.Some? <==> d.vcsRepo.value.branch != "")
  {
    Options(d.name, d.autoApply, d.operations, d.queueAllRuns, IfSet(d.terraformVersion), IfSet(d.workingDirectory),
      match d.vcsRepo
      case None => None
      case Some(repo) => Some(VcsRepoOptions(repo.identifier, IfSet(repo.branch), repo.ingressSubmodules, repo.oauthTokenId)))
  }

  /** The request of Update: as Create's, except that the branch is always sent. */
  function UpdateOptions(d: WorkspaceState): (o: Options)
    reads d
    ensures o.vcsRepo.Some? <==> d.vcsRepo.Some?
    ensures o.vcsRepo.Some? ==> o.vcsRepo.value.branch == Some(d.vcsRepo.value.branch)
  {
    Options(d.name, d.autoApply, d.operations, d.queueAllRuns, IfSet(d.terraformVersion), IfSet(d.workingDirectory),
      match d.vcsRepo
      case None => None
      case Some(repo) => Some(VcsRepoOptions(repo.identifier, Some(repo.branch), repo.ingressSubmodules, repo.oauthTokenId)))
  }

  /** The two requests differ at most in the branch, and only when the configured branch is empty. */
  lemma CreateAndUpdateOptions(d: WorkspaceState)
    ensures CreateOptions(d).(vcsRepo := None) == UpdateOptions(d).(vcsRepo := None)
    ensures CreateOptions(d) != UpdateOptions(d) <==> d.vcsRepo.Some? && d.vcsRepo.value.branch == ""
  {
  }

  /** The attributes whose change makes Update send the update request. */
  const UpdateFields: set<string> :=
    {"name", "auto_apply", "queue_all_runs", "terraform_version", "working_directory", "vcs_repo", "operations"}

  function NeedsUpdate(changed: set<string>): bool
  {
    changed * UpdateFields != {}
  }

  /** The API calls the handlers issue. */
  datatype Call =
    | CreateWorkspace(organization: string, options: Options)
    | ReadWorkspace(organization: string, name: string)
    | ListWorkspaces(organization: string, page: int)
    | UpdateWorkspace(organization: string, name: string, options: Options)
    | AssignSshKey(workspaceId: string, sshKeyId: string)
    | UnassignSshKey(workspaceId: string)
    | DeleteWorkspace(organization: string, name: string)

  /** The SSH key call for a changed ssh_key_id: assign a non-empty key, unassign an empty one. */
  function SshKeyCall(sshKeyId: string, workspaceId: string): (c: Call)
    ensures sshKeyId != "" ==> c == AssignSshKey(workspaceId, sshKeyId)
    ensures sshKeyId == "" ==> c == UnassignSshKey(workspaceId)
  {
    if sshKeyId != "" then AssignSshKey(workspaceId, sshKeyId) else UnassignSshKey(workspaceId)
  }

  /** One workspace list call per page number. */
  function ListCalls(organization: string, pages: seq<int>): (calls: seq<Call>)
    ensures |calls| == |pages|
    ensures forall k :: 0 <= k < |pages| ==> calls[k] == ListWorkspaces(organization, pages[k])
  {
    seq(|pages|, k requires 0 <= k < |pages| => ListWorkspaces(organization, pages[k]))
  }

  /**
   * resourceTFEWorkspaceCreate: create the workspace, keep its packed ID and
   * assign the SSH key when one is set.
   */
  method Create(d: WorkspaceState, created: Result<Workspace, ApiError>, keyAssigned: Option<ApiError>)
    returns (step: Step, calls: seq<Call>)
    modifies d
    ensures d.SameAttributes()
    ensures var first := [CreateWorkspace(old(d.organization), old(CreateOptions(d)))];
      match created
      case Failure(e) => step == Stop(Remote(e)) && calls == first && d.id == old(d.id)
      case Success(ws) =>
        match Pack(ws)
        case Failure(e) => step == Stop(e) && calls == first && d.id == old(d.id)
        case Success(packed) =>
          d.id == packed &&
          if d.sshKeyId != "" then
            calls == first + [AssignSshKey(ws.id, d.sshKeyId)] &&
            step == (if keyAssigned.Some? then Stop(Remote(keyAssigned.value)) else ThenRead)
          else
            calls == first && step == ThenRead
  {
    calls := [CreateWorkspace(d.organization, CreateOptions(d))];
    if created.Failure? {
      return Stop(Remote(created.error)), calls;
    }
    var ws := created.value;
    var packed := Pack(ws);
    if packed.Failure? {
      return Stop(packed.error), calls;
    }
    d.id := packed.value;
    step := ThenRead;
    if d.sshKeyId != "" {
      calls := calls + [AssignSshKey(ws.id, d.sshKeyId)];
      if keyAssigned.Some? {
        step := Stop(Remote(keyAssigned.value));
      }
    }
  }

  /** Write the workspace back into the state, as the second half of Read does. */
  method Show(d: WorkspaceState, w: Workspace) returns (err: Option<Error>)
    modifies d
    ensures d.Shows(w, err)
  {
    d.name, d.autoApply, d.operations, d.queueAllRuns := w.name, w.autoApply, w.operations, w.queueAllRuns;
    d.terraformVersion, d.workingDirectory, d.externalId := w.terraformVersion, w.workingDirectory, w.id;
    if w.organization.Some? {
      d.organization := w.organization.value.name;
    }
    d.sshKeyId := if w.sshKey.Some? then w.sshKey.value.id else "";
    d.createdBy := CreatedByOf(w.createdBy);
    d.vcsRepo := VcsRepoOf(w.vcsRepo, d.vcsRepo);
    var packed := Pack(w);
    if packed.Failure? {
      return Some(packed.error);
    }
    d.id := packed.value;
    err := None;
  }

  /**
   * resourceTFEWorkspaceRead: read the workspace named by the ID. When the
   * API does not know that name, list the organization's workspaces page by
   * page for the stored external_id (the workspace may have been renamed);
   * found nowhere, the ID is emptied without error. A found workspace is
   * written back and the ID re-packed, which turns a legacy ID into the
   * current form.
   */
  method Read(d: WorkspaceState, response: Result<Workspace, ApiError>, rs: seq<Response<Workspace>>)
    returns (err: Option<Error>, calls: seq<Call>)
    modifies d
    ensures Unpack(old(d.id)).Failure? ==> err == Some(Unpack(old(d.id)).error) && calls == [] && unchanged(d)
    ensures Unpack(old(d.id)).Success? ==>
      var (org, name) := Unpack(old(d.id)).value;
      match response
      case Success(ws) => calls == [ReadWorkspace(org, name)] && d.Shows(ws, err)
      case Failure(Other) => calls == [ReadWorkspace(org, name)] && err == Some(Remote(Other)) && unchanged(d)
      case Failure(NotFound) =>
        calls == [ReadWorkspace(org, name)] +
          ListCalls(org, PageNumbers(rs, ScanCalls(rs, WorkspaceKey, old(d.externalId)))) &&
        match Scan(rs, WorkspaceKey, old(d.externalId))
        case Found(w) => d.Shows(w, err)
        case Absent => err.None? && d.id == "" && d.SameAttributes()
        case ListFailed(e) => err == Some(Remote(e)) && unchanged(d)
  {
    var unpacked := Unpack(d.id);
    if unpacked.Failure? {
      return Some(unpacked.error), [];
    }
    var (org, name) := unpacked.value;
    calls := [ReadWorkspace(org, name)];
    match response
    case Success(ws) =>
      err := Show(d, ws);
    case Failure(Other) =>
      err := Some(Remote(Other));
    case Failure(NotFound) =>
      var lookup, pages := FindByKey(rs, WorkspaceKey, d.externalId);
      calls := calls + ListCalls(org, pages);
      match lookup
      case Found(w) =>
        err := Show(d, w);
      case Absent =>
        d.id := "";
        err := None;
      case ListFailed(e) =>
        err := Some(Remote(e));
  }

  /**
   * resourceTFEWorkspaceUpdate: send the update request only when one of
   * UpdateFields changed, and re-pack the ID from the answer; when
   * ssh_key_id changed, assign or unassign the key on the workspace with the
   * prior external_id.
   */
  method Update(d: WorkspaceState, changed: set<string>, priorExternalId: string,
                updated: Result<Workspace, ApiError>, keyCall: Option<ApiError>)
    returns (step: Step, calls: seq<Call>)
    modifies d
    ensures d.SameAttributes()
    ensures Unpack(old(d.id)).Failure? ==> step == Stop(Unpack(old(d.id)).error) && calls == [] && d.id == old(d.id)
    ensures Unpack(old(d.id)).Success? ==>
      var (org, name) := Unpack(old(d.id)).value;
      var update := NeedsUpdate(changed);
      var first := if update then [UpdateWorkspace(org, name, old(UpdateOptions(d)))] else [];
      if update && updated.Failure? then
        step == Stop(Remote(updated.error)) && calls == first && d.id == old(d.id)
      else if update && Pack(updated.value).Failure? then
        step == Stop(NoOrganization) && calls == first && d.id == old(d.id)
      else
        d.id == (if update then Pack(updated.value).value else old(d.id)) &&
        if "ssh_key_id" in changed then
          calls == first + [SshKeyCall(d.sshKeyId, priorExternalId)] &&
          step == (if keyCall.Some? then Stop(Remote(keyCall.value)) else ThenRead)
        else
          calls == first && step == ThenRead
  {
    var unpacked := Unpack(d.id);
    if unpacked.Failure? {
      return Stop(unpacked.error), [];
    }
    var (org, name) := unpacked.value;
    calls := [];
    if NeedsUpdate(changed) {
      calls := [UpdateWorkspace(org, name, UpdateOptions(d))];
      if updated.Failure? {
        return Stop(Remote(updated.error)), calls;
      }
      var packed := Pack(updated.value);
      if packed.Failure? {
        return Stop(packed.error), calls;
      }
      d.id := packed.value;
    }
    step := ThenRead;
    if "ssh_key_id" in changed {
      calls := calls + [SshKeyCall(d.sshKeyId, priorExternalId)];
      if keyCall.Some? {
        step := Stop(Remote(keyCall.value));
      }
    }
  }

  /** resourceTFEWorkspaceDelete: a workspace that is already gone counts as deleted. */
  method Delete(d: WorkspaceState, response: Option<ApiError>) returns (err: Option<Error>, calls: seq<Call>)
    ensures Unpack(d.id).Failure? ==> err == Some(InvalidWorkspaceId(d.id)) && calls == []
    ensures Unpack(d.id).Success? ==>
      calls == [DeleteWorkspace(Unpack(d.id).value.0, Unpack(d.id).value.1)] &&
      (err.None? <==> response.None? || response == Some(NotFound)) &&
      (response == Some(Other) ==> err == Some(Remote(Other)))
  {
    var unpacked := Unpack(d.id);
    if unpacked.Failure? {
      return Some(unpacked.error), [];
    }
    calls := [DeleteWorkspace(unpacked.value.0, unpacked.value.1)];
    err := DeleteOutcome(response);
  }
}
