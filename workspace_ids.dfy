/** The scalr_workspace_ids data source (data_source_workspace_ids.go). */
module WorkspaceIdsDataSource {
  import opened Wrappers
  import opened Strings
  import opened Scalr
  import opened Diagnostics
  import opened Paging
  import WorkspaceId
  import WorkspaceResource

  /** The data source's Terraform state. */
  class WorkspaceIdsState {
    var id: string
    var names: seq<string>
    var organization: string
    var ids: map<string, string>
    var externalIds: map<string, string>

    constructor (names: seq<string>, organization: string)
      ensures id == "" && this.names == names && this.organization == organization
      ensures ids == map[] && externalIds == map[]
    {
      id, this.names, this.organization, ids, externalIds := "", names, organization, map[], map[];
    }
  }

  /** The requested names written one after the other, in order. */
  function Concat(names: seq<string>): string
  {
    if names == [] then "" else Concat(names[..|names| - 1]) + names[|names| - 1]
  }

  lemma {:induction false} ConcatAppend(a: seq<string>, b: seq<string>)
    ensures Concat(a + b) == Concat(a) + Concat(b)
    decreases |b|
  {
    if b != [] {
      var c := a + b;
      assert c[..|c| - 1] == a + b[..|b| - 1];
      assert c[|c| - 1] == b[|b| - 1];
      ConcatAppend(a, b[..|b| - 1]);
      calc {
        Concat(c);
        Concat(a + b[..|b| - 1]) + b[|b| - 1];
        Concat(a) + Concat(b[..|b| - 1]) + b[|b| - 1];
        Concat(a) + Concat(b);
      }
    } else {
      assert a + b == a;
    }
  }

  /** A workspace is reported when `*` or its own name is requested. */
  predicate Included(requested: set<string>, name: string)
  {
    "*" in requested || name in requested
  }

  /** The ids map after the loop has seen `items`, in order. */
  function IdsOf(organization: string, requested: set<string>, items: seq<Workspace>): map<string, string>
  {
    if items == [] then map[]
    else
      var m := IdsOf(organization, requested, items[..|items| - 1]);
      var w := items[|items| - 1];
      if Included(requested, w.name) then m[w.name := organization + "/" + w.name] else m
  }

  /** The external_ids map after the loop has seen `items`, in order. */
  function ExternalIdsOf(requested: set<string>, items: seq<Workspace>): map<string, string>
  {
    if items == [] then map[]
    else
      var m := ExternalIdsOf(requested, items[..|items| - 1]);
      var w := items[|items| - 1];
      if Included(requested, w.name) then m[w.name := w.id] else m
  }

  /**
   * Both maps have as keys exactly the included names of the workspaces
   * seen, and ids maps each to `<ORGANIZATION>/<NAME>`.
   */
  lemma {:induction false} IdsKeys(organization: string, requested: set<string>, items: seq<Workspace>)
    ensures forall n :: n in IdsOf(organization, requested, items) <==>
      Included(requested, n) && exists i :: 0 <= i < |items| && items[i].name == n
    ensures IdsOf(organization, requested, items).Keys == ExternalIdsOf(requested, items).Keys
    ensures forall n :: n in IdsOf(organization, requested, items) ==> IdsOf(organization, requested, items)[n] == organization + "/" + n
    decreases |items|
  {
    if items != [] {
      var init := items[..|items| - 1];
      IdsKeys(organization, requested, init);
      assert forall i :: 0 <= i < |init| ==> init[i] == items[i];
      assert items[|items| - 1] in items;
    }
  }

  /** Without `*`, every key is a requested name. */
  lemma OnlyRequested(organization: string, requested: set<string>, items: seq<Workspace>)
    requires "*" !in requested
    ensures IdsOf(organization, requested, items).Keys <= requested
    ensures ExternalIdsOf(requested, items).Keys <= requested
  {
    IdsKeys(organization, requested, items);
  }

  /**
   * external_ids keeps, for each name, the ID of the last workspace seen
   * with that name: a later workspace overwrites an earlier one.
   */
  lemma {:induction false} LastWins(requested: set<string>, items: seq<Workspace>, n: string)
    requires n in ExternalIdsOf(requested, items)
    ensures exists i :: (0 <= i < |items| && items[i].name == n && ExternalIdsOf(requested, items)[n] == items[i].id &&
      (forall j :: i < j < |items| ==> items[j].name != n))
    decreases |items|
  {
    IdsKeys("", requested, items);
    var init := items[..|items| - 1];
    var w := items[|items| - 1];
    if Included(requested, w.name) && w.name == n {
      assert items[|items| - 1].name == n;
    } else {
      LastWins(requested, init, n);
      var i :| 0 <= i < |init| && init[i].name == n && ExternalIdsOf(requested, init)[n] == init[i].id &&
        (forall j :: i < j < |init| ==> init[j].name != n);
      assert items[i] == init[i];
      forall j | i < j < |items|
        ensures items[j].name != n
      {
        if j < |init| { assert items[j] == init[j]; }
      }
    }
  }

  /** The ids written are the workspace codec's IDs of the workspaces reported. */
  lemma IdsArePackedIds(organization: string, requested: set<string>, items: seq<Workspace>, i: nat)
    requires i < |items| && items[i].organization == Some(Organization(organization))
    requires Included(requested, items[i].name)
    ensures items[i].name in IdsOf(organization, requested, items)
    ensures WorkspaceId.Pack(items[i]) == Success(IdsOf(organization, requested, items)[items[i].name])
  {
    IdsKeys(organization, requested, items);
  }

  /** The loop over the name list: the ID text and the set of requested names. */
  method CollectNames(names: seq<string>) returns (concat: string, requested: set<string>)
    ensures concat == Concat(names)
    ensures forall n :: n in requested <==> n in names
  {
    concat, requested := "", {};
    for i := 0 to |names|
      invariant concat == Concat(names[..i])
      invariant forall n :: n in requested <==> n in names[..i]
    {
      assert names[..i + 1][..i] == names[..i];
      concat := concat + names[i];
      requested := requested + {names[i]};
    }
    assert names[..|names|] == names;
  }

  /** The loop over one page's items: enter each included workspace in both maps. */
  method EnterPage(organization: string, requested: set<string>, ghost seen: seq<Workspace>,
                   ids: map<string, string>, externalIds: map<string, string>, items: seq<Workspace>)
    returns (ids': map<string, string>, externalIds': map<string, string>)
    requires ids == IdsOf(organization, requested, seen) && externalIds == ExternalIdsOf(requested, seen)
    ensures ids' == IdsOf(organization, requested, seen + items)
    ensures externalIds' == ExternalIdsOf(requested, seen + items)
  {
    ids', externalIds' := ids, externalIds;
    assert seen + items[..0] == seen;
    for i := 0 to |items|
      invariant ids' == IdsOf(organization, requested, seen + items[..i])
      invariant externalIds' == ExternalIdsOf(requested, seen + items[..i])
    {
      var w := items[i];
      assert (seen + items[..i + 1])[..|seen| + i] == seen + items[..i];
      if "*" in requested || w.name in requested {
        ids' := ids'[w.name := organization + "/" + w.name];
        externalIds' := externalIds'[w.name := w.id];
      }
    }
    assert items[..|items|] == items;
  }

  /**
   * The paging loop: every page up to the last, each included workspace
   * entered in both maps; a list error ends it.
   */
  method CollectIds(organization: string, requested: set<string>, rs: seq<Response<Workspace>>)
    returns (failure: Option<ApiError>, ids: map<string, string>, externalIds: map<string, string>, pages: seq<int>)
    ensures failure == WalkFailure(rs)
    ensures pages == PageNumbers(rs, WalkCalls(rs))
    ensures failure.None? ==>
      ids == IdsOf(organization, requested, WalkItems(rs)) && externalIds == ExternalIdsOf(requested, WalkItems(rs))
    ensures failure.None? ==> WalkItems(rs) == PageItems(rs[..WalkCalls(rs)])
  {
    WalkReadsAll(rs);
    ids, externalIds := map[], map[];
    pages := [];
    var k := 0;
    var pageNumber := 0;
    ghost var seen: seq<Workspace> := [];
    while k < |rs|
      invariant 0 <= k <= |rs|
      invariant WalkItems(rs) == seen + WalkItems(rs[k..])
      invariant WalkFailure(rs) == WalkFailure(rs[k..])
      invariant WalkCalls(rs) == k + WalkCalls(rs[k..])
      invariant pages == PageNumbers(rs, k)
      invariant pageNumber == PageNumber(rs, k)
      invariant ids == IdsOf(organization, requested, seen)
      invariant externalIds == ExternalIdsOf(requested, seen)
      decreases |rs| - k
    {
      pages := pages + [pageNumber];
      var response := rs[k];
      assert rs[k..][0] == response;
      if response.Failure? {
        return Some(response.error), ids, externalIds, pages;
      }
      var p := response.value;
      ids, externalIds := EnterPage(organization, requested, seen, ids, externalIds, p.items);
      assert WalkItems(rs[k..]) == if IsLastPage(p) then p.items else p.items + WalkItems(rs[k..][1..]);
      seen := seen + p.items;
      if IsLastPage(p) {
        return None, ids, externalIds, pages;
      }
      pageNumber := p.nextPage;
      assert rs[k..][1..] == rs[k + 1..];
      k := k + 1;
    }
    assert rs[k..] == [];
    assert WalkItems(rs) == seen;
    failure := None;
  }

  /**
   * dataSourceTFEWorkspaceIDsRead: report the requested workspaces of the
   * organization; the data source's ID is `<ORGANIZATION>/<hash>` of the
   * requested names written one after the other. The maps hold the
   * workspaces of every page read. A list error is returned and nothing is
   * written.
   */
  method Read(d: WorkspaceIdsState, rs: seq<Response<Workspace>>, hash: string -> nat)
    returns (err: Option<Error>, calls: seq<WorkspaceResource.Call>)
    modifies d
    ensures d.names == old(d.names) && d.organization == old(d.organization)
    ensures calls == WorkspaceResource.ListCalls(old(d.organization), PageNumbers(rs, WalkCalls(rs)))
    ensures WalkFailure(rs).Some? ==> err == Some(Remote(WalkFailure(rs).value)) && unchanged(d)
    ensures WalkFailure(rs).None? ==>
      var requested := set n | n in old(d.names);
      err.None? &&
      d.ids == IdsOf(old(d.organization), requested, PageItems(rs[..WalkCalls(rs)])) &&
      d.externalIds == ExternalIdsOf(requested, PageItems(rs[..WalkCalls(rs)])) &&
      d.id == old(d.organization) + "/" + Decimal(hash(Concat(old(d.names))))
  {
    var concat, requested := CollectNames(d.names);
    assert requested == set n | n in d.names;
    var failure, ids, externalIds, pages;
    failure, ids, externalIds, pages := CollectIds(d.organization, requested, rs);
    calls := WorkspaceResource.ListCalls(d.organization, pages);
    if failure.Some? {
      return Some(Remote(failure.value)), calls;
    }
    d.ids, d.externalIds := ids, externalIds;
    d.id := d.organization + "/" + Decimal(hash(concat));
    err := None;
  }
}
