/**
 * The import ID `<ORGANIZATION>/<WORKSPACE>/<ID>` read by the importers of
 * resource_scalr_variable.go and resource_scalr_team_access.go, which are
 * the same code.
 */
module ImportId {
  import opened Wrappers
  import opened Strings
  import opened Diagnostics

  /**
   * The (workspace_id, id) an import ID stands for: it is cut at its first
   * two `/`; the workspace_id is the first two parts joined by `/` and the
   * id is everything after the second `/`.
   */
  function Parse(importId: string): (r: Result<(string, string), Error>)
    ensures r.Success? <==> Count(importId, '/') >= 2
    ensures r.Failure? ==> r.error == InvalidImportId(importId)
    ensures r.Success? ==> r.value.0 + "/" + r.value.1 == importId
    ensures r.Success? ==> Count(r.value.0, '/') == 1
  {
    var s := SplitN(importId, '/', 3);
    if |s| != 3 then Failure(InvalidImportId(importId))
    else
      ThreeParts(importId, s);
      Success((s[0] + "/" + s[1], s[2]))
  }

  lemma ThreeParts(importId: string, s: seq<string>)
    requires s == SplitN(importId, '/', 3) && |s| == 3
    ensures s[0] + "/" + s[1] + "/" + s[2] == importId
    ensures Count(s[0] + "/" + s[1], '/') == 1
  {
    assert '/' !in s[0] && '/' !in s[1];
    JoinThree(s, '/');
    CountCut(s[0], s[1], '/', '/');
  }

  /**
   * An ID built from an organization and a workspace without `/` and any
   * resource id parses back into the workspace_id `org/workspace` and that
   * resource id.
   */
  lemma ParseBuilt(org: string, workspace: string, id: string)
    requires '/' !in org && '/' !in workspace
    ensures Parse(org + "/" + workspace + "/" + id) == Success((org + "/" + workspace, id))
  {
    var rest := workspace + ['/'] + id;
    var importId := org + ['/'] + rest;
    assert org + "/" + workspace + "/" + id == importId;
    CountCut(org, rest, '/', '/');
    CountCut(workspace, id, '/', '/');
    var s := SplitN(importId, '/', 3);
    ThreeParts(importId, s);
    assert s[0] + ['/'] + (s[1] + ['/'] + s[2]) == importId;
    FirstCutUnique(s[0], s[1] + ['/'] + s[2], org, rest, '/');
    FirstCutUnique(s[1], s[2], workspace, id, '/');
  }

  /**
   * The import step of the team access acceptance test: the ID is the
   * resource id after the prefix `tst-terraform/workspace-test/`.
   */
  lemma AcceptanceTestPrefix(id: string)
    ensures Parse("tst-terraform/workspace-test/" + id) == Success(("tst-terraform/workspace-test", id))
  {
    var org, workspace := "tst-terraform", "workspace-test";
    assert '/' !in org && '/' !in workspace;
    assert org + "/" + workspace == "tst-terraform/workspace-test";
    assert (org + "/" + workspace) + "/" == "tst-terraform/workspace-test/";
    ParseBuilt(org, workspace, id);
  }
}
