# terraform-provider-scalr: a Dafny model of its resource handlers

This project models in Dafny the core of the Scalr Terraform provider. It covers:

- the workspace's composite ID `<ORGANIZATION>/<WORKSPACE>`, including its legacy form `<WORKSPACE>|<ORGANIZATION>`;
- the three-part import ID `<ORGANIZATION>/<WORKSPACE>/<ID>` of the variable and team-access resources;
- the page-by-page scans that look for a workspace by its external ID and for an agent pool token by its ID;
- the `scalr_workspace_ids` data source, which builds `ids` and `external_ids` across pages;
- the `scalr_iam_team` data source, which expects exactly one result;
- the create / read / update / delete / import handlers of `scalr_workspace`, `scalr_variable`, `scalr_team_access` and `scalr_agent_pool_token`.

The Scalr API is not called. Each API answer a handler would receive is a parameter:

- a `Result` with an `ApiError` of `NotFound` or `Other`;
- for paged listings, the sequence of page answers in call order.

Each handler that calls the API also returns the sequence of calls it issues. A page answer carries `currentPage`, `totalPages` and `nextPage`. The loop stops:

- after an error;
- after a page with `currentPage >= totalPages`;
- when the sequence runs out.

The first list call asks for page 0. Every later call asks for the previous answer's `nextPage`.

The Terraform state `d` of each resource is a class with one field per attribute, plus `id`. Handlers that write the state (`d.Set`, `d.SetId`) are methods with `modifies d`. Their postconditions give the whole new state in terms of the old state and the API answers. Create and Update end by calling Read. Here they return a `Step`: either `Stop(error)` or `ThenRead`, meaning Read is the next handler to run.

Modules:

| file | module | contents |
|---|---|---|
| wrappers.dfy | Wrappers | `Option`, `Result` |
| strings.dfy | Strings | `IndexOf`, Go's `strings.SplitN`, `Join`, `%d` formatting as `Decimal`, cut lemmas |
| scalr.dfy | Scalr | API records (`Workspace`, `Variable`, `Team`, `TeamAccess`, `AgentPoolToken`, `Page`) |
| diagnostics.dfy | Diagnostics | handler errors, `Step`, the NotFound-is-success rule of Delete |
| schema.dfy | Schema | `d.GetOk` on a string attribute |
| paging.dfy | Paging | the scan-and-match loop and the collect-all loop over page answers |
| workspace_id.dfy | WorkspaceId | `packWorkspaceID`, `unpackWorkspaceID` |
| import_id.dfy | ImportId | the importers' `SplitN(id, "/", 3)` |
| workspace.dfy | WorkspaceResource | `scalr_workspace` handlers |
| variable.dfy | VariableResource | `scalr_variable` handlers |
| team_access.dfy | TeamAccessResource | `scalr_team_access` handlers |
| agent_pool_token.dfy | AgentPoolTokenResource | `scalr_agent_pool_token` handlers |
| workspace_ids.dfy | WorkspaceIdsDataSource | `scalr_workspace_ids` data source |
| iam_team.dfy | IamTeamDataSource | `scalr_iam_team` data source |

## Model

| member | source | states |
|---|---|---|
| Strings.SplitN | scalr/resource_scalr_workspace.go:427-431 | Go's `SplitN` with a one-character separator gives `min(n, count + 1)` parts. Joining them with the separator gives back the input. No part except the last contains the separator. |
| Strings.FirstCutUnique | scalr/resource_scalr_workspace.go:427-437 | Cutting a string at the first occurrence of a separator is unambiguous: two cuts whose front parts lack the separator are the same cut. |
| WorkspaceId.Pack | scalr/resource_scalr_workspace.go:418-423 | Packing fails exactly when the workspace has no organization. Otherwise the ID is the organization name, `/`, the workspace name. |
| WorkspaceId.Unpack | scalr/resource_scalr_workspace.go:425-438 | Decoding fails exactly when the ID has neither `\|` nor `/`. An ID with `\|` decodes as legacy `name\|org`, split at its first `\|`, and this wins over `/`. Otherwise the organization is the part before the first `/` and the name is the whole rest. Both halves rebuild the ID. |
| WorkspaceId.LegacyDecodes | scalr/resource_scalr_workspace.go:426-429 | A legacy ID `name\|org` whose name has no `\|` decodes to exactly `(org, name)`. |
| WorkspaceId.RoundTrip | scalr/resource_scalr_workspace.go:418-438 | Unpacking a packed workspace gives back its organization and name when the organization has no `/` and neither part has a `\|`. |
| WorkspaceId.BarInNameBreaksRoundTrip | scalr/resource_scalr_workspace.go:418-429 | The side conditions of the round trip are needed. A name `a\|b` packs to an ID that decodes to `(b, org/a)`, not to the packed parts. |
| ImportId.Parse | scalr/resource_scalr_variable.go:175-185 | Import succeeds exactly when the ID has at least two `/`. The workspace_id is the first two parts joined by `/` (so it has exactly one `/`); the id is the rest. `workspace_id + "/" + id` rebuilds the import ID. |
| ImportId.ParseBuilt | scalr/resource_scalr_team_access.go:140-150 | An ID `org/workspace/id` with no `/` in org and workspace parses to `(org/workspace, id)`, whatever the id holds. |
| ImportId.AcceptanceTestPrefix | scalr/resource_scalr_team_access_test.go:47 | An ID with the team access test's prefix `tst-terraform/workspace-test/` imports the workspace_id `tst-terraform/workspace-test` and the rest as the id. |
| Strings.Decimal | scalr/data_source_workspace_ids.go:82 | `%d` of a natural number is a non-empty string of decimal digits. It has no leading zero and reads back as the number. |
| Schema.IfSet | scalr/resource_scalr_workspace.go:146-152 | `d.GetOk` on a string attribute reports it exactly when it is non-empty. |
| Diagnostics.DeleteOutcome | scalr/resource_scalr_variable.go:163-171 | A delete succeeds exactly when the API answers without error or with NotFound; any other error is returned. |
| Paging.PageNumbers | scalr/resource_scalr_workspace.go:219-241 | The k-th list call asks for page 0 when k is 0, and for the `nextPage` of answer k - 1 otherwise. |
| Paging.FirstMatch | scalr/resource_scalr_workspace.go:227-232 | The inner loop finds the first item with the wanted key, and finds none exactly when no item has it. |
| Paging.ScanCalls | scalr/resource_scalr_agent_pool_token.go:77-103 | The scan makes at most one call per answer it is given. |
| Paging.ScanStops | scalr/resource_scalr_agent_pool_token.go:77-103 | The scan reads a prefix of the answers. Every answer before the last read was a successful page that neither held the item nor was the last page. The outcome is decided by the last answer read. |
| Paging.ScanFindsFirst | scalr/resource_scalr_workspace.go:221-241 | The scan finds an item exactly when some item on a page it reads has the wanted key. The item found is the first one on the first page that holds one. |
| Paging.ScanFailsOnError | scalr/resource_scalr_agent_pool_token.go:78-87 | The scan fails with an error exactly when one of the answers it reads is that error. |
| Paging.FindByKey | scalr/resource_scalr_workspace.go:219-241 | The nested scan loop's result is `Scan`, and the page numbers it requests are `PageNumbers` of the calls it makes. |
| Paging.WalkCalls | scalr/data_source_workspace_ids.go:58-78 | The collect-all loop makes at most one call per answer it is given. |
| Paging.WalkStops | scalr/data_source_workspace_ids.go:58-78 | The collect-all loop continues past every successful page that is not the last. It stops early only after an error or a last page ("seen all pages"). It fails exactly when an answer it reads is an error, and that answer is the last one read. |
| Paging.WalkReadsAll | scalr/data_source_workspace_ids.go:58-78 | Without an error, the items the loop keeps are all the items of the pages it reads, in order. |
| WorkspaceResource.WorkspaceState.constructor | scalr/resource_scalr_workspace.go:34-56 | Fresh state has the schema defaults: auto_apply false, operations and queue_all_runs true, ssh_key_id empty. |
| WorkspaceResource.VcsRepoOf | scalr/resource_scalr_workspace.go:280-301 | Read writes a vcs_repo block exactly when the workspace has a repository. The block holds the repository's identifier, ingress_submodules and oauth_token_id. The branch is copied only when the configured block has a non-empty branch; otherwise it is empty. |
| WorkspaceResource.CreateOptions | scalr/resource_scalr_workspace.go:138-168 | The create request holds a VCS repository exactly when one is configured. It sends the branch exactly when the configured branch is non-empty. |
| WorkspaceResource.UpdateOptions | scalr/resource_scalr_workspace.go:327-353 | The update request holds a VCS repository exactly when one is configured, and always sends its branch. |
| WorkspaceResource.CreateAndUpdateOptions | scalr/resource_scalr_workspace.go:138-168 | The create and update requests agree except for the VCS block. They differ exactly when a repository is configured with an empty branch. |
| WorkspaceResource.SshKeyCall | scalr/resource_scalr_workspace.go:370-391 | A changed ssh_key_id is assigned when non-empty and unassigned when empty, on the workspace with the prior external_id. |
| WorkspaceResource.ListCalls | scalr/resource_scalr_workspace.go:222 | One list call per page number, in order, for the organization. |
| WorkspaceResource.Create | scalr/resource_scalr_workspace.go:130-194 | Creates with CreateOptions, then packs the answer into the ID: a missing organization stops with an error and leaves the ID alone. The SSH key is assigned only when set, and its failure stops. Nothing but the ID changes. |
| WorkspaceResource.Show | scalr/resource_scalr_workspace.go:251-311 | Writes the workspace back into the state: organization only when the workspace has one, ssh_key_id empty without a key, created_by, vcs_repo as VcsRepoOf says. The ID becomes the packed ID, or is kept with the error. |
| WorkspaceResource.Read | scalr/resource_scalr_workspace.go:196-312 | A bad ID fails before any call. A non-NotFound read error is returned with the state unchanged. On NotFound the organization is scanned page by page for the stored external_id. If it is found it is shown; if nothing is found the ID is emptied with no error; a list error is returned. |
| WorkspaceResource.Update | scalr/resource_scalr_workspace.go:314-394 | A bad ID fails before any call. The update request is sent exactly when one of name, auto_apply, queue_all_runs, terraform_version, working_directory, vcs_repo or operations changed, and the ID is re-packed from its answer. A changed ssh_key_id issues SshKeyCall. Only the ID changes. |
| WorkspaceResource.Delete | scalr/resource_scalr_workspace.go:396-416 | A bad ID fails before any call. Otherwise it deletes the unpacked workspace; NotFound counts as success. |
| VariableResource.VariableState.constructor | scalr/resource_scalr_variable.go:13-68 | The state holds the given attributes. |
| VariableResource.Create | scalr/resource_scalr_variable.go:70-109 | A bad workspace_id fails before any call. A failed workspace read stops before the create call. The created variable's ID becomes the ID. |
| VariableResource.Read | scalr/resource_scalr_variable.go:111-137 | NotFound empties the ID with no error; other errors are returned with the state unchanged. Otherwise key, category, hcl and sensitive are always written, and value only when the variable is not sensitive. |
| VariableResource.Update | scalr/resource_scalr_variable.go:139-157 | Sends key, value, hcl and sensitive; an error stops, otherwise Read follows. |
| VariableResource.Delete | scalr/resource_scalr_variable.go:159-172 | Deletes the ID; NotFound counts as success. |
| VariableResource.Import | scalr/resource_scalr_variable.go:174-188 | A malformed import ID is an error and changes nothing. Otherwise workspace_id and id become the two halves of `ImportId.Parse`, and nothing else changes. |
| TeamAccessResource.TeamAccessState.constructor | scalr/resource_scalr_team_access.go:13-51 | The state holds the given attributes. |
| TeamAccessResource.Create | scalr/resource_scalr_team_access.go:53-96 | A bad workspace_id fails before any call. Team read, workspace read and add are issued in order, each failure stopping there. The new access's ID becomes the ID. |
| TeamAccessResource.Read | scalr/resource_scalr_team_access.go:98-122 | NotFound empties the ID with no error; other errors are returned. Otherwise access is written, and team_id is the team's ID, or empty when there is no team. |
| TeamAccessResource.Delete | scalr/resource_scalr_team_access.go:124-137 | Removes the ID; NotFound counts as success. |
| TeamAccessResource.Import | scalr/resource_scalr_team_access.go:139-153 | A malformed import ID is an error and changes nothing. Otherwise workspace_id and id become the two halves of `ImportId.Parse`. |
| AgentPoolTokenResource.AgentPoolTokenState.constructor | scalr/resource_scalr_agent_pool_token.go:12-36 | The state holds the given attributes. |
| AgentPoolTokenResource.ListCalls | scalr/resource_scalr_agent_pool_token.go:78 | One token list call per page number, in order, for the pool. |
| AgentPoolTokenResource.Create | scalr/resource_scalr_agent_pool_token.go:38-63 | The description is sent only when non-empty. On success the ID and the token, which only the create answer carries, are written. |
| AgentPoolTokenResource.Read | scalr/resource_scalr_agent_pool_token.go:65-109 | An empty agent_pool_id is an error before any call. Otherwise the pool's tokens are scanned page by page for the ID. A token found sets the description and keeps the ID. A pool the API does not know, or a token on no page, empties the ID with no error. Any other list error is returned with the state unchanged. |
| AgentPoolTokenResource.Update | scalr/resource_scalr_agent_pool_token.go:111-132 | The update call is made exactly when the description changed; its error stops. |
| AgentPoolTokenResource.Delete | scalr/resource_scalr_agent_pool_token.go:134-149 | Deletes the ID; NotFound counts as success. |
| WorkspaceIdsDataSource.WorkspaceIdsState.constructor | scalr/data_source_workspace_ids.go:10-37 | The state starts with the configured names and organization and empty maps. |
| WorkspaceIdsDataSource.ConcatAppend | scalr/data_source_workspace_ids.go:46-51 | The pre-hash ID string of a concatenation of name lists is the concatenation of theirs. |
| WorkspaceIdsDataSource.IdsKeys | scalr/data_source_workspace_ids.go:54-68 | A name is a key of `ids` exactly when some listed workspace has it and is included. `ids` and `external_ids` have the same keys. `ids[name]` is `organization/name`. |
| WorkspaceIdsDataSource.OnlyRequested | scalr/data_source_workspace_ids.go:65 | Without `*`, every key of both maps is a requested name. |
| WorkspaceIdsDataSource.LastWins | scalr/data_source_workspace_ids.go:64-68 | `external_ids[name]` is the ID of the last included workspace with that name. |
| WorkspaceIdsDataSource.IdsArePackedIds | scalr/data_source_workspace_ids.go:66 | For an included workspace of the data source's organization, `ids[name]` is the packed workspace ID `WorkspaceId.Pack`. |
| WorkspaceIdsDataSource.CollectNames | scalr/data_source_workspace_ids.go:46-51 | The loop returns the in-order concatenation of the names and the set of requested names. |
| WorkspaceIdsDataSource.EnterPage | scalr/data_source_workspace_ids.go:64-69 | Entering a page's items leaves the maps those of all items seen so far followed by the page's. |
| WorkspaceIdsDataSource.CollectIds | scalr/data_source_workspace_ids.go:57-78 | The paging loop fails exactly when the collect-all walk fails. It asks for the walk's page numbers. Without failure its maps are those of all items of the pages read, in order. |
| WorkspaceIdsDataSource.Read | scalr/data_source_workspace_ids.go:39-85 | The list calls ask for the walk's page numbers. A list error is returned with the state unchanged. Otherwise ids and external_ids are built from every item of the pages read. The ID is the organization, `/`, the decimal hash of the concatenated names. |
| IamTeamDataSource.IamTeamState.constructor | scalr/data_source_scalr_iam_team.go:10-42 | The state starts with the configured name and account_id and nothing read. |
| IamTeamDataSource.Select | scalr/data_source_scalr_iam_team.go:63-73 | A total count of 0 is a not-found error naming the query's name and account. A count above 1 is an error. Otherwise the result is the first listed team. Selection succeeds exactly then, provided a team is listed; with no team listed it is `MissingTeamItem`. |
| IamTeamDataSource.SelectAsWritten | scalr/data_source_scalr_iam_team.go:46-65 | Selection as written: the not-found error always reports an empty account_id. |
| IamTeamDataSource.AsWrittenLosesAccount | scalr/data_source_scalr_iam_team.go:54-64 | With account_id set and no team found, the error as written differs from the intended one and reports an empty account_id. |
| IamTeamDataSource.UserIds | scalr/data_source_scalr_iam_team.go:82-88 | The users attribute is the team's user IDs, in order. |
| IamTeamDataSource.Read | scalr/data_source_scalr_iam_team.go:44-93 | The list query carries the account filter exactly when account_id is non-empty. A list error or a selection error is returned with the state unchanged. Otherwise description, identity_provider_id, users and the ID are written, and account_id only when the team has an account. |

## Left out

- The `go-scalr` / `go-tfe` HTTP clients: each answer is a parameter of the handler that would receive it.
- The Terraform SDK: schema declarations, Default/Computed/ForceNew, validation and `ImportStatePassthrough` are not modelled. The state is a plain field record. `d.GetOk` on a string is "non-empty" (`Schema.IfSet`); on a block it is "present". `d.HasChange` is an input: a set of changed attribute names, or a flag. `d.GetChange("external_id")` is the parameter `priorExternalId`.
- `schema.HashString` (a CRC32 of the concatenated names) is the function parameter `hash` of `WorkspaceIdsDataSource.Read`.
- Logging and the wording of error messages. Errors are `Diagnostics.Error` values naming their cause.
- Server-side pagination: the answers are a finite sequence, and the loop also stops when it runs out. This models the assumption that the server eventually reports its last page.
- The trailing `return resourceXRead(d, meta)` of Create and Update is the step `ThenRead`, not a nested call.
- IamTeamDataSource.Select: a total count of 1 with no listed item would make the source index past the end of `Items`. It is modelled as the error `MissingTeamItem`.
- IamTeamDataSource.Read: a team without an identity provider would make the source dereference nil. The identity provider ID is modelled as a plain string of the team.
- Go's `[]interface{}` type assertions on the vcs_repo block are not modelled. A block is a value or absent.
- The acceptance tests need a live API. Only the import prefix of the team access test is used, in `ImportId.AcceptanceTestPrefix`.

## Findings

| source | as written | input that shows it | evidently intended | confidence | as-written member | corrected member |
|---|---|---|---|---|---|---|
| scalr/data_source_scalr_iam_team.go:46-64 | `if accID, ok := d.GetOk("account_id")` declares a new `accID` that shadows the one at line 46. The not-found error therefore prints the outer, always empty, `accID`. | account_id `"acc-1"`, a team list with total count 0 | the error reports the configured account_id | high; not executed | IamTeamDataSource.AsWrittenLosesAccount | IamTeamDataSource.Read |
