/** The scalr_iam_team data source (data_source_scalr_iam_team.go). */
module IamTeamDataSource {
  import opened Wrappers
  import opened Scalr
  import opened Diagnostics
  import opened Schema

  /** The data source's Terraform state. */
  class IamTeamState {
    var id: string
    var name: string
    var description: string
    var accountId: string
    var identityProviderId: string
    var users: seq<string>

    constructor (name: string, accountId: string)
      ensures id == "" && this.name == name && this.accountId == accountId
      ensures description == "" && identityProviderId == "" && users == []
    {
      id, this.name, this.accountId := "", name, accountId;
      description, identityProviderId, users := "", "", [];
    }
  }

  /** The one API call: list teams by name, and by account when account_id is set. */
  datatype Call = ListTeams(name: string, account: Option<string>)

  /**
   * The team a list answer stands for: none matching and more than one
   * matching are errors; otherwise the first item. A count of one with no
   * item listed would make the source index past the end of the list. The
   * not-found error names the query's name and account.
   */
  function Select(name: string, accountId: string, list: TeamList): (r: Result<Team, Error>)
    ensures list.totalCount == 0 ==> r == Failure(TeamNotFound(name, accountId))
    ensures list.totalCount > 1 ==> r == Failure(TeamNotUnique)
    ensures list.totalCount != 0 && list.totalCount <= 1 && |list.items| == 0 ==> r == Failure(MissingTeamItem)
    ensures r.Success? <==> list.totalCount != 0 && list.totalCount <= 1 && |list.items| > 0
    ensures r.Success? ==> r.value == list.items[0]
  {
    if list.totalCount == 0 then Failure(TeamNotFound(name, accountId))
    else if list.totalCount > 1 then Failure(TeamNotUnique)
    else if |list.items| == 0 then Failure(MissingTeamItem)
    else Success(list.items[0])
  }

  /**
   * Selection as written: the account reported in the not-found error is the
   * `accID` declared at the top of the handler, which the `if accID, ok :=`
   * that reads account_id shadows instead of assigning, so it is always "".
   */
  function SelectAsWritten(name: string, list: TeamList): (r: Result<Team, Error>)
    ensures list.totalCount == 0 ==> r == Failure(TeamNotFound(name, ""))
  {
    Select(name, "", list)
  }

  /** With account_id set and no team found, the error as written loses the account. */
  lemma AsWrittenLosesAccount(name: string, accountId: string, list: TeamList)
    requires accountId != "" && list.totalCount == 0
    ensures SelectAsWritten(name, list) != Select(name, accountId, list)
    ensures SelectAsWritten(name, list).error.accountId == ""
  {
  }

  /** The loop that collects the team's user IDs. */
  method UserIds(users: seq<User>) returns (ids: seq<string>)
    ensures |ids| == |users|
    ensures forall i :: 0 <= i < |users| ==> ids[i] == users[i].id
  {
    ids := [];
    for i := 0 to |users|
      invariant |ids| == i
      invariant forall j :: 0 <= j < i ==> ids[j] == users[j].id
    {
      ids := ids + [users[i].id];
    }
  }

  /**
   * dataSourceScalrIamTeamRead: find the one team with the name (in the
   * account, when account_id is set) and write its description, identity
   * provider, account (when it has one), user IDs in order, and its ID. The
   * not-found error reports the configured account_id (see SelectAsWritten).
   */
  method Read(d: IamTeamState, response: Result<TeamList, ApiError>) returns (err: Option<Error>, calls: seq<Call>)
    modifies d
    ensures calls == [ListTeams(old(d.name), IfSet(old(d.accountId)))]
    ensures d.name == old(d.name)
    ensures response.Failure? ==> err == Some(Remote(response.error)) && unchanged(d)
    ensures response.Success? && Select(old(d.name), old(d.accountId), response.value).Failure? ==>
      err == Some(Select(old(d.name), old(d.accountId), response.value).error) && unchanged(d)
    ensures response.Success? && Select(old(d.name), old(d.accountId), response.value).Success? ==>
      var t := Select(old(d.name), old(d.accountId), response.value).value;
      err.None? && d.id == t.id && d.description == t.description &&
      d.identityProviderId == t.identityProviderId &&
      d.accountId == (if t.account.Some? then t.account.value.id else old(d.accountId)) &&
      |d.users| == |t.users| && (forall i :: 0 <= i < |t.users| ==> d.users[i] == t.users[i].id)
  {
    calls := [ListTeams(d.name, IfSet(d.accountId))];
    if response.Failure? {
      return Some(Remote(response.error)), calls;
    }
    var selected := Select(d.name, d.accountId, response.value);
    if selected.Failure? {
      return Some(selected.error), calls;
    }
    var t := selected.value;
    d.description := t.description;
    d.identityProviderId := t.identityProviderId;
    if t.account.Some? {
      d.accountId := t.account.value.id;
    }
    d.users := UserIds(t.users);
    d.id := t.id;
    err := None;
  }
}
