/** What the handlers rely on from Terraform's ResourceData beyond plain fields. */
module Schema {
  import opened Wrappers

  /** d.GetOk on a string attribute: reported only when set to a non-empty string. */
  function IfSet(s: string): (r: Option<string>)
    ensures r.Some? <==> s != ""
    ensures r.Some? ==> r.value == s
  {
    if s != "" then Some(s) else None
  }
}
