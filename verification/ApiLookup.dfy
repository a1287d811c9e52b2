/** The runtime decision, read from the API tables, is the lookup that resolving a resource relies on. */
module ApiLookup {
  import ApiTables
  import ApiService
  import opened Lists
  import opened Resource

  method LookUp(api: ApiService.Service, client: string, audience: string, subject: ApiTables.Subject) returns (l: Lookup)
    requires ApiTables.Valid(api.Snapshot())
    ensures Answers(api.Snapshot(), client, audience, subject, l) && NoDuplicates(l.scopes)
  {
    var scopes, apiExists, hasAccess := api.AllowedScopesForAudience(client, audience, subject);
    l := Lookup(scopes, apiExists, hasAccess);
  }
}
