/** The errors the handlers return to Terraform (their message texts are not modelled). */
module Diagnostics {
  import opened Wrappers
  import opened Scalr

  datatype Error =
    | Remote(cause: ApiError)          // an API error passed on
    | NoOrganization                   // a workspace response without an organization
    | InvalidWorkspaceId(id: string)   // neither <ORGANIZATION>/<WORKSPACE> nor the legacy form
    | InvalidImportId(id: string)      // not <ORGANIZATION>/<WORKSPACE>/<ID>
    | ImportNotSupported               // agent pool token read without agent_pool_id
    | TeamNotFound(name: string, accountId: string)  // the team query matched nothing
    | TeamNotUnique                    // the team query matched more than one team
    | MissingTeamItem                  // one match reported but no item listed

  /**
   * How a Create or Update handler ends: with an error, or by handing over to
   * the resource's Read handler (`return resourceXRead(d, meta)`).
   */
  datatype Step = Stop(error: Error) | ThenRead

  /** A Delete handler's answer to the API's answer: a missing resource is already deleted. */
  function DeleteOutcome(response: Option<ApiError>): (r: Option<Error>)
    ensures r.None? <==> response.None? || response == Some(NotFound)
    ensures r.Some? ==> r.value == Remote(response.value)
  {
    match response
    case None => None
    case Some(NotFound) => None
    case Some(e) => Some(Remote(e))
  }
}
