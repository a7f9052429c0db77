/**
 * The composite workspace ID of resource_scalr_workspace.go: `<ORGANIZATION>/<WORKSPACE>`,
 * decoded also from the legacy form `<WORKSPACE>|<ORGANIZATION>`.
 */
module WorkspaceId {
  import opened Wrappers
  import opened Strings
  import opened Scalr
  import opened Diagnostics

  /** packWorkspaceID: a workspace's ID is its organization's name, `/`, its name. */
  function Pack(w: Workspace): (r: Result<string, Error>)
    ensures r.Failure? <==> w.organization.None?
    ensures r.Failure? ==> r.error == NoOrganization
    ensures r.Success? ==> r.value == w.organization.value.name + "/" + w.name
  {
    match w.organization
    case None => Failure(NoOrganization)
    case Some(org) => Success(org.name + "/" + w.name)
  }

  /**
   * unpackWorkspaceID: the (organization, name) an ID stands for. An ID with
   * a `|` is read in the legacy form, cut at its first `|`; otherwise it is
   * cut at its first `/`, the name being all that follows. An ID with
   * neither is refused.
   */
  function Unpack(id: string): (r: Result<(string, string), Error>)
    ensures r.Failure? <==> '|' !in id && '/' !in id
    ensures r.Failure? ==> r.error == InvalidWorkspaceId(id)
    ensures '|' in id ==> r.Success? && '|' !in r.value.1 && r.value.1 + "|" + r.value.0 == id
    ensures '|' !in id && '/' in id ==> r.Success? && '/' !in r.value.0 && r.value.0 + "/" + r.value.1 == id
  {
    var legacy := SplitN(id, '|', 2);
    if |legacy| == 2 then
      Success((legacy[1], legacy[0]))
    else
      var s := SplitN(id, '/', 2);
      if |s| != 2 then Failure(InvalidWorkspaceId(id))
      else Success((s[0], s[1]))
  }

  /** The legacy ID `name|org` decodes to (org, name) whenever the name has no `|`. */
  lemma LegacyDecodes(org: string, name: string)
    requires '|' !in name
    ensures Unpack(name + "|" + org) == Success((org, name))
  {
    var id := name + "|" + org;
    assert id == name + ['|'] + org;
    var r := Unpack(id);
    assert r.value.1 + ['|'] + r.value.0 == id;
    FirstCutUnique(r.value.1, r.value.0, name, org, '|');
  }

  /**
   * Round trip: a packed ID decodes to the organization and name it was
   * packed from, when the organization has no `/` and neither part has a `|`.
   */
  lemma RoundTrip(w: Workspace)
    requires w.organization.Some?
    requires '/' !in w.organization.value.name && '|' !in w.organization.value.name && '|' !in w.name
    ensures Pack(w).Success? && Unpack(Pack(w).value) == Success((w.organization.value.name, w.name))
  {
    var org := w.organization.value.name;
    var id := org + "/" + w.name;
    assert id == org + ['/'] + w.name;
    var r := Unpack(id);
    assert r.value.0 + ['/'] + r.value.1 == id;
    FirstCutUnique(r.value.0, r.value.1, org, w.name, '/');
  }

  /**
   * The side conditions of RoundTrip are needed: a `|` in the name sends the
   * packed ID down the legacy path, and it decodes to other parts than the
   * ones packed.
   */
  lemma BarInNameBreaksRoundTrip(w: Workspace, a: string, b: string)
    requires w.organization.Some? && '|' !in w.organization.value.name
    requires '|' !in a && w.name == a + "|" + b
    ensures Pack(w).Success?
    ensures Unpack(Pack(w).value) == Success((b, w.organization.value.name + "/" + a))
    ensures Unpack(Pack(w).value) != Success((w.organization.value.name, w.name))
  {
    var org := w.organization.value.name;
    var front := org + "/" + a;
    assert '|' !in front;
    assert Pack(w).value == front + "|" + b;
    LegacyDecodes(b, front);
    assert w.name[|a|] == '|';
  }
}
