/** The link resolver (`getPowerBILink`). */
module Links {
  import opened Wrappers
  import opened Catalog

  /** `powerBILinks[name] || null`: the configured URL, or null for a name
      with no entry (or, by JavaScript truthiness, an empty URL). */
  function GetPowerBILink(name: string): (r: Option<string>)
    ensures r.Some? <==> name in {"sales_revenue", "production", "cost_analysis", "raw_material"}
    ensures r.Some? ==> r.value == PowerBILinks[name] && r.value != ""
  {
    if name in PowerBILinks && PowerBILinks[name] != "" then Some(PowerBILinks[name]) else None
  }
}
