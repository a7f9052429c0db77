/** The scalr_agent_pool_token resource (resource_scalr_agent_pool_token.go). */
module AgentPoolTokenResource {
  import opened Wrappers
  import opened Scalr
  import opened Diagnostics
  import opened Paging
  import opened Schema

  /** The resource's Terraform state. */
  class AgentPoolTokenState {
    var id: string
    var description: string
    var agentPoolId: string
    var token: string

    constructor (id: string, description: string, agentPoolId: string, token: string)
      ensures this.id == id && this.description == description && this.agentPoolId == agentPoolId && this.token == token
    {
      this.id, this.description, this.agentPoolId, this.token := id, description, agentPoolId, token;
    }
  }

  /** The API calls the handlers issue. */
  datatype Call =
    | CreateToken(agentPoolId: string, newDescription: Option<string>)
    | ListTokens(agentPoolId: string, page: int)
    | UpdateAccessToken(id: string, description: string)
    | DeleteAccessToken(id: string)

  /** One token list call per page number. */
  function ListCalls(agentPoolId: string, pages: seq<int>): (calls: seq<Call>)
    ensures |calls| == |pages|
    ensures forall k :: 0 <= k < |pages| ==> calls[k] == ListTokens(agentPoolId, pages[k])
  {
    seq(|pages|, k requires 0 <= k < |pages| => ListTokens(agentPoolId, pages[k]))
  }

  /**
   * resourceScalrAgentPoolTokenCreate: create a token in the pool, with the
   * description only when one is set; keep the new token's ID and its secret,
   * which the API returns only here.
   */
  method Create(d: AgentPoolTokenState, created: Result<AgentPoolToken, ApiError>) returns (step: Step, calls: seq<Call>)
    modifies d
    ensures calls == [CreateToken(old(d.agentPoolId), IfSet(old(d.description)))]
    ensures created.Failure? ==> step == Stop(Remote(created.error)) && unchanged(d)
    ensures created.Success? ==>
      step == ThenRead && d.id == created.value.id && d.token == created.value.token &&
      d.description == old(d.description) && d.agentPoolId == old(d.agentPoolId)
  {
    var description := IfSet(d.description);
    calls := [CreateToken(d.agentPoolId, description)];
    if created.Failure? {
      return Stop(Remote(created.error)), calls;
    }
    d.id, d.token := created.value.id, created.value.token;
    step := ThenRead;
  }

  /**
   * resourceScalrAgentPoolTokenRead: without an agent_pool_id (an import) the
   * handler fails before any call. Otherwise it lists the pool's tokens page
   * by page looking for its own ID: a token found sets the description and
   * keeps the ID; a pool the API does not know, or a token on none of the
   * pages, empties the ID without error; any other list error is returned.
   */
  method Read(d: AgentPoolTokenState, rs: seq<Response<AgentPoolToken>>) returns (err: Option<Error>, calls: seq<Call>)
    modifies d
    ensures d.agentPoolId == old(d.agentPoolId) && d.token == old(d.token)
    ensures old(d.agentPoolId) == "" ==> err == Some(ImportNotSupported) && calls == [] && unchanged(d)
    ensures old(d.agentPoolId) != "" ==>
      calls == ListCalls(old(d.agentPoolId), PageNumbers(rs, ScanCalls(rs, TokenKey, old(d.id)))) &&
      match Scan(rs, TokenKey, old(d.id))
      case Found(t) => err.None? && d.id == old(d.id) && d.description == t.description
      case Absent => err.None? && d.id == "" && d.description == old(d.description)
      case ListFailed(NotFound) => err.None? && d.id == "" && d.description == old(d.description)
      case ListFailed(e) => err == Some(Remote(e)) && unchanged(d)
  {
    if d.agentPoolId == "" {
      return Some(ImportNotSupported), [];
    }
    var lookup, pages := FindByKey(rs, TokenKey, d.id);
    calls := ListCalls(d.agentPoolId, pages);
    match lookup
    case Found(t) =>
      d.description := t.description;
      err := None;
    case Absent =>
      d.id := "";
      err := None;
    case ListFailed(NotFound) =>
      d.id := "";
      err := None;
    case ListFailed(e) =>
      err := Some(Remote(e));
  }

  /** resourceScalrAgentPoolTokenUpdate: the update call is made only when the description changed. */
  method Update(d: AgentPoolTokenState, descriptionChanged: bool, updated: Option<ApiError>) returns (step: Step, calls: seq<Call>)
    ensures calls == (if descriptionChanged then [UpdateAccessToken(d.id, d.description)] else [])
    ensures step == (if descriptionChanged && updated.Some? then Stop(Remote(updated.value)) else ThenRead)
  {
    calls := [];
    step := ThenRead;
    if descriptionChanged {
      calls := [UpdateAccessToken(d.id, d.description)];
      if updated.Some? {
        step := Stop(Remote(updated.value));
      }
    }
  }

  /** resourceScalrAgentPoolTokenDelete: a token that is already gone counts as deleted. */
  method Delete(d: AgentPoolTokenState, response: Option<ApiError>) returns (err: Option<Error>, calls: seq<Call>)
    ensures calls == [DeleteAccessToken(d.id)]
    ensures err.None? <==> response.None? || response == Some(NotFound)
    ensures response == Some(Other) ==> err == Some(Remote(Other))
  {
    calls := [DeleteAccessToken(d.id)];
    err := DeleteOutcome(response);
  }
}
