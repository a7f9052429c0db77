/** The scalr_variable resource (resource_scalr_variable.go). */
module VariableResource {
  import opened Wrappers
  import opened Scalr
  import opened Diagnostics
  import WorkspaceId
  import ImportId

  /** The resource's Terraform state. */
  class VariableState {
    var id: string
    var key: string
    var value: string
    var category: string
    var hcl: bool
    var sensitive: bool
    var workspaceId: string

    constructor (id: string, key: string, value: string, category: string, hcl: bool, sensitive: bool, workspaceId: string)
      ensures this.id == id && this.key == key && this.value == value && this.category == category
      ensures this.hcl == hcl && this.sensitive == sensitive && this.workspaceId == workspaceId
    {
      this.id, this.key, this.value, this.category := id, key, value, category;
      this.hcl, this.sensitive, this.workspaceId := hcl, sensitive, workspaceId;
    }
  }

  datatype CreateOptions = CreateOptions(key: string, value: string, category: string, hcl: bool, sensitive: bool, workspace: Workspace)

  datatype UpdateOptions = UpdateOptions(key: string, value: string, hcl: bool, sensitive: bool)

  /** The API calls the handlers issue. */
  datatype Call =
    | ReadWorkspace(organization: string, name: string)
    | CreateVariable(options: CreateOptions)
    | ReadVariable(id: string)
    | UpdateVariable(id: string, update: UpdateOptions)
    | DeleteVariable(id: string)

  /**
   * resourceTFEVariableCreate: find the workspace named by workspace_id, create
   * the variable in it and keep its ID. A workspace_id that does not unpack
   * stops the handler before any call.
   */
  method Create(d: VariableState, workspaceRead: Result<Workspace, ApiError>, created: Result<Variable, ApiError>)
    returns (step: Step, calls: seq<Call>)
    modifies d
    ensures WorkspaceId.Unpack(old(d.workspaceId)).Failure? ==>
      step == Stop(WorkspaceId.Unpack(old(d.workspaceId)).error) && calls == [] && unchanged(d)
    ensures WorkspaceId.Unpack(old(d.workspaceId)).Success? ==>
      var (org, name) := WorkspaceId.Unpack(old(d.workspaceId)).value;
      match workspaceRead
      case Failure(e) => step == Stop(Remote(e)) && calls == [ReadWorkspace(org, name)] && unchanged(d)
      case Success(ws) =>
        var options := CreateOptions(d.key, d.value, d.category, d.hcl, d.sensitive, ws);
        calls == [ReadWorkspace(org, name), CreateVariable(options)] &&
        match created
        case Failure(e) => step == Stop(Remote(e)) && unchanged(d)
        case Success(v) =>
          step == ThenRead && d.id == v.id &&
          d.key == old(d.key) && d.value == old(d.value) && d.category == old(d.category) &&
          d.hcl == old(d.hcl) && d.sensitive == old(d.sensitive) && d.workspaceId == old(d.workspaceId)
  {
    match WorkspaceId.Unpack(d.workspaceId)
    case Failure(e) =>
      return Stop(e), [];
    case Success((org, name)) =>
      calls := [ReadWorkspace(org, name)];
      if workspaceRead.Failure? {
        return Stop(Remote(workspaceRead.error)), calls;
      }
      var options := CreateOptions(d.key, d.value, d.category, d.hcl, d.sensitive, workspaceRead.value);
      calls := calls + [CreateVariable(options)];
      if created.Failure? {
        return Stop(Remote(created.error)), calls;
      }
      d.id := created.value.id;
      step := ThenRead;
  }

  /**
   * resourceTFEVariableRead: a variable the API no longer knows leaves the
   * state with an empty ID and no error; another error is returned. A found
   * variable's key, category, hcl and sensitive are written back, and its
   * value only when it is not sensitive.
   */
  method Read(d: VariableState, response: Result<Variable, ApiError>) returns (err: Option<Error>, calls: seq<Call>)
    modifies d
    ensures calls == [ReadVariable(old(d.id))]
    ensures d.workspaceId == old(d.workspaceId)
    ensures response == Failure(NotFound) ==>
      err.None? && d.id == "" &&
      d.key == old(d.key) && d.value == old(d.value) && d.category == old(d.category) &&
      d.hcl == old(d.hcl) && d.sensitive == old(d.sensitive)
    ensures response == Failure(Other) ==> err == Some(Remote(Other)) && unchanged(d)
    ensures response.Success? ==>
      var v := response.value;
      err.None? && d.id == old(d.id) &&
      d.key == v.key && d.category == v.category && d.hcl == v.hcl && d.sensitive == v.sensitive &&
      d.value == (if v.sensitive then old(d.value) else v.value)
  {
    calls := [ReadVariable(d.id)];
    match response
    case Failure(NotFound) =>
      d.id := "";
      return None, calls;
    case Failure(e) =>
      return Some(Remote(e)), calls;
    case Success(v) =>
      d.key := v.key;
      d.category := v.category;
      d.hcl := v.hcl;
      d.sensitive := v.sensitive;
      if !v.sensitive {
        d.value := v.value;
      }
      err := None;
  }

  /** resourceTFEVariableUpdate: send key, value, hcl and sensitive; on success go on with Read. */
  method Update(d: VariableState, updated: Option<ApiError>) returns (step: Step, calls: seq<Call>)
    ensures calls == [UpdateVariable(d.id, UpdateOptions(d.key, d.value, d.hcl, d.sensitive))]
    ensures step == (if updated.Some? then Stop(Remote(updated.value)) else ThenRead)
  {
    calls := [UpdateVariable(d.id, UpdateOptions(d.key, d.value, d.hcl, d.sensitive))];
    step := if updated.Some? then Stop(Remote(updated.value)) else ThenRead;
  }

  /** resourceTFEVariableDelete: a variable that is already gone counts as deleted. */
  method Delete(d: VariableState, response: Option<ApiError>) returns (err: Option<Error>, calls: seq<Call>)
    ensures calls == [DeleteVariable(d.id)]
    ensures err.None? <==> response.None? || response == Some(NotFound)
    ensures response == Some(Other) ==> err == Some(Remote(Other))
  {
    calls := [DeleteVariable(d.id)];
    err := DeleteOutcome(response);
  }

  /**
   * resourceTFEVariableImporter: the import ID `<ORG>/<WORKSPACE>/<ID>` sets
   * workspace_id to `<ORG>/<WORKSPACE>` and the ID to `<ID>`; any other form
   * is an error and changes nothing.
   */
  method Import(d: VariableState) returns (err: Option<Error>)
    modifies d
    ensures ImportId.Parse(old(d.id)).Failure? ==> err == Some(InvalidImportId(old(d.id))) && unchanged(d)
    ensures ImportId.Parse(old(d.id)).Success? ==>
      err.None? && (d.workspaceId, d.id) == ImportId.Parse(old(d.id)).value &&
      d.key == old(d.key) && d.value == old(d.value) && d.category == old(d.category) &&
      d.hcl == old(d.hcl) && d.sensitive == old(d.sensitive)
  {
    var parsed := ImportId.Parse(d.id);
    if parsed.Failure? {
      return Some(parsed.error);
    }
    d.workspaceId, d.id := parsed.value.0, parsed.value.1;
    err := None;
  }
}
