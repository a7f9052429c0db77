/** The scalr_team_access resource (resource_scalr_team_access.go). */
module TeamAccessResource {
  import opened Wrappers
  import opened Scalr
  import opened Diagnostics
  import WorkspaceId
  import ImportId

  /** The resource's Terraform state. */
  class TeamAccessState {
    var id: string
    var access: string
    var teamId: string
    var workspaceId: string

    constructor (id: string, access: string, teamId: string, workspaceId: string)
      ensures this.id == id && this.access == access && this.teamId == teamId && this.workspaceId == workspaceId
    {
      this.id, this.access, this.teamId, this.workspaceId := id, access, teamId, workspaceId;
    }
  }

  /** The API calls the handlers issue. */
  datatype Call =
    | ReadTeam(teamId: string)
    | ReadWorkspace(organization: string, name: string)
    | AddTeamAccess(access: string, team: Team, workspace: Workspace)
    | ReadTeamAccess(id: string)
    | RemoveTeamAccess(id: string)

  /**
   * resourceTFETeamAccessCreate: read the team, read the workspace named by
   * workspace_id, grant the access and keep the grant's ID. A workspace_id
   * that does not unpack stops the handler before any call.
   */
  method Create(d: TeamAccessState, teamRead: Result<Team, ApiError>, workspaceRead: Result<Workspace, ApiError>,
                added: Result<TeamAccess, ApiError>)
    returns (step: Step, calls: seq<Call>)
    modifies d
    ensures WorkspaceId.Unpack(old(d.workspaceId)).Failure? ==>
      step == Stop(WorkspaceId.Unpack(old(d.workspaceId)).error) && calls == [] && unchanged(d)
    ensures WorkspaceId.Unpack(old(d.workspaceId)).Success? ==>
      var (org, name) := WorkspaceId.Unpack(old(d.workspaceId)).value;
      match teamRead
      case Failure(e) => step == Stop(Remote(e)) && calls == [ReadTeam(d.teamId)] && unchanged(d)
      case Success(team) =>
        match workspaceRead
        case Failure(e) =>
          step == Stop(Remote(e)) && calls == [ReadTeam(d.teamId), ReadWorkspace(org, name)] && unchanged(d)
        case Success(ws) =>
          calls == [ReadTeam(old(d.teamId)), ReadWorkspace(org, name), AddTeamAccess(old(d.access), team, ws)] &&
          match added
          case Failure(e) => step == Stop(Remote(e)) && unchanged(d)
          case Success(grant) =>
            step == ThenRead && d.id == grant.id &&
            d.access == old(d.access) && d.teamId == old(d.teamId) && d.workspaceId == old(d.workspaceId)
  {
    var unpacked := WorkspaceId.Unpack(d.workspaceId);
    if unpacked.Failure? {
      return Stop(unpacked.error), [];
    }
    var (org, name) := unpacked.value;
    calls := [ReadTeam(d.teamId)];
    if teamRead.Failure? {
      return Stop(Remote(teamRead.error)), calls;
    }
    calls := calls + [ReadWorkspace(org, name)];
    if workspaceRead.Failure? {
      return Stop(Remote(workspaceRead.error)), calls;
    }
    calls := calls + [AddTeamAccess(d.access, teamRead.value, workspaceRead.value)];
    if added.Failure? {
      return Stop(Remote(added.error)), calls;
    }
    d.id := added.value.id;
    step := ThenRead;
  }

  /**
   * resourceTFETeamAccessRead: a grant the API no longer knows leaves the
   * state with an empty ID and no error; another error is returned. A found
   * grant's access is written back, and team_id becomes the grant's team's
   * ID, or "" when the grant names no team.
   */
  method Read(d: TeamAccessState, response: Result<TeamAccess, ApiError>) returns (err: Option<Error>, calls: seq<Call>)
    modifies d
    ensures calls == [ReadTeamAccess(old(d.id))]
    ensures d.workspaceId == old(d.workspaceId)
    ensures response == Failure(NotFound) ==>
      err.None? && d.id == "" && d.access == old(d.access) && d.teamId == old(d.teamId)
    ensures response == Failure(Other) ==> err == Some(Remote(Other)) && unchanged(d)
    ensures response.Success? ==>
      var grant := response.value;
      err.None? && d.id == old(d.id) && d.access == grant.access &&
      d.teamId == (if grant.team.Some? then grant.team.value.id else "")
  {
    calls := [ReadTeamAccess(d.id)];
    match response
    case Failure(NotFound) =>
      d.id := "";
      return None, calls;
    case Failure(e) =>
      return Some(Remote(e)), calls;
    case Success(grant) =>
      d.access := grant.access;
      if grant.team.Some? {
        d.teamId := grant.team.value.id;
      } else {
        d.teamId := "";
      }
      err := None;
  }

  /** resourceTFETeamAccessDelete: a grant that is already gone counts as removed. */
  method Delete(d: TeamAccessState, response: Option<ApiError>) returns (err: Option<Error>, calls: seq<Call>)
    ensures calls == [RemoveTeamAccess(d.id)]
    ensures err.None? <==> response.None? || response == Some(NotFound)
    ensures response == Some(Other) ==> err == Some(Remote(Other))
  {
    calls := [RemoveTeamAccess(d.id)];
    err := DeleteOutcome(response);
  }

  /**
   * resourceTFETeamAccessImporter: the import ID `<ORG>/<WORKSPACE>/<ID>`
   * sets workspace_id to `<ORG>/<WORKSPACE>` and the ID to `<ID>`; any other
   * form is an error and changes nothing.
   */
  method Import(d: TeamAccessState) returns (err: Option<Error>)
    modifies d
    ensures ImportId.Parse(old(d.id)).Failure? ==> err == Some(InvalidImportId(old(d.id))) && unchanged(d)
    ensures ImportId.Parse(old(d.id)).Success? ==>
      err.None? && d.workspaceId + "/" + d.id == old(d.id) &&
      (d.workspaceId, d.id) == ImportId.Parse(old(d.id)).value &&
      d.access == old(d.access) && d.teamId == old(d.teamId)
  {
    var parsed := ImportId.Parse(d.id);
    if parsed.Failure? {
      return Some(parsed.error);
    }
    d.workspaceId, d.id := parsed.value.0, parsed.value.1;
    err := None;
  }
}
