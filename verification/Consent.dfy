/**
 What a user has consented to. The table stores flat strings; the theorems say that these strings are a
 faithful record of identity scopes, permissions of one audience, and audiences reached.
 */
module Consent {
  import opened Lists
  import ApiTables

  const STANDARD_SCOPES: seq<string> := ["openid", "profile", "email", "groups", "offline_access"]

  const SEPARATOR: char := '\U{001F}'

  predicate IsStandard(scope: string) {
    scope in STANDARD_SCOPES
  }

  // ---------------------------------------------------------------- flat keys

  function ScopeKey(audience: string, scope: string): string {
    if IsStandard(scope) then scope else audience + [SEPARATOR] + scope
  }

  function ScopeKeys(audience: string, scopes: seq<string>): (r: seq<string>)
    ensures |r| == |scopes| && forall i :: 0 <= i < |r| ==> r[i] == ScopeKey(audience, scopes[i])
  {
    seq(|scopes|, i requires 0 <= i < |scopes| => ScopeKey(audience, scopes[i]))
  }

  function AudienceKey(audience: string): string {
    audience + [SEPARATOR]
  }

  // Everything a grant has to be consented to
  function KeysForGrant(audience: string, resource: string, scopes: seq<string>): seq<string> {
    ScopeKeys(audience, scopes) + if resource != "" then [AudienceKey(audience)] else []
  }

  // ---------------------------------------------------------------- what the keys mean

  datatype Item =
    | Identity(scope: string)
    | PermissionOn(audience: string, key: string)
    | Reach(audience: string)

  function ItemOf(audience: string, scope: string): Item {
    if IsStandard(scope) then Identity(scope) else PermissionOn(audience, scope)
  }

  function Items(audience: string, resource: string, scopes: seq<string>): set<Item> {
    (set s | s in scopes :: ItemOf(audience, s)) + if resource != "" then {Reach(audience)} else {}
  }

  function Encode(x: Item): string {
    match x
    case Identity(scope) => scope
    case PermissionOn(audience, key) => audience + [SEPARATOR] + key
    case Reach(audience) => audience + [SEPARATOR]
  }

  function Encodings(items: set<Item>): set<string> {
    set x | x in items :: Encode(x)
  }

  // Valid URIs and scope tokens hold no control characters
  predicate Plain(s: string) {
    SEPARATOR !in s
  }

  predicate WellFormed(x: Item) {
    match x
    case Identity(scope) => IsStandard(scope)
    case PermissionOn(audience, key) => Plain(audience) && key != "" && Plain(key)
    case Reach(audience) => Plain(audience)
  }

  lemma SeparatorSplitsOnce(a: string, s: string, b: string, t: string)
    requires Plain(a) && Plain(b) && a + [SEPARATOR] + s == b + [SEPARATOR] + t
    ensures a == b && s == t
  {
    var whole := a + [SEPARATOR] + s;
    assert whole[|a|] == SEPARATOR && whole[|b|] == SEPARATOR;
    assert whole[..|a|] == a && whole[..|b|] == b;
    assert whole[|a| + 1..] == s && whole[|b| + 1..] == t;
  }

  /** No two items share a key: the separator is in no audience and no permission key, and keys are not empty. */
  lemma EncodingIsInjective(x: Item, y: Item)
    requires WellFormed(x) && WellFormed(y) && Encode(x) == Encode(y)
    ensures x == y
  {
    assert forall s | s in STANDARD_SCOPES :: Plain(s);
    assert !x.Identity? ==> Encode(x)[|x.audience|] == SEPARATOR;
    assert !y.Identity? ==> Encode(y)[|y.audience|] == SEPARATOR;
    if !x.Identity? && !y.Identity? {
      var s, t := if x.PermissionOn? then x.key else "", if y.PermissionOn? then y.key else "";
      assert Encode(x) == x.audience + [SEPARATOR] + s && Encode(y) == y.audience + [SEPARATOR] + t;
      SeparatorSplitsOnce(x.audience, s, y.audience, t);
    }
  }

  lemma KeysAreEncodings(audience: string, resource: string, scopes: seq<string>, k: string)
    ensures k in KeysForGrant(audience, resource, scopes) <==> k in Encodings(Items(audience, resource, scopes))
  {
    var keys, items := KeysForGrant(audience, resource, scopes), Items(audience, resource, scopes);
    forall i | 0 <= i < |scopes| ensures Encode(ItemOf(audience, scopes[i])) == keys[i] {
    }
    if i :| 0 <= i < |keys| && keys[i] == k {
      var x := if i < |scopes| then ItemOf(audience, scopes[i]) else Reach(audience);
      assert x in items && Encode(x) == k;
    }
    if x :| x in items && Encode(x) == k {
      if s :| s in scopes && x == ItemOf(audience, s) {
        var i :| 0 <= i < |scopes| && scopes[i] == s;
        assert keys[i] == k;
      } else {
        assert keys[|scopes|] == k;
      }
    }
  }

  // ---------------------------------------------------------------- the table

  type Rows = map<(string, string), seq<string>>  // by client and user

  predicate Includes(authorized: seq<string>, requested: seq<string>) {
    forall k :: k in requested ==> k in authorized
  }

  predicate HasAuthorized(rows: Rows, client: string, user: string, keys: seq<string>) {
    (client, user) in rows && Includes(rows[(client, user)], keys)
  }

  function Merge(authorized: seq<string>, requested: seq<string>): seq<string> {
    Dedup(authorized + requested)
  }

  function Record(rows: Rows, client: string, user: string, keys: seq<string>): Rows {
    if HasAuthorized(rows, client, user, keys) then rows
    else if (client, user) in rows then rows[(client, user) := Merge(rows[(client, user)], keys)]
    else rows[(client, user) := Merge([], keys)]
  }

  lemma RecordCovers(rows: Rows, client: string, user: string, keys: seq<string>)
    ensures HasAuthorized(Record(rows, client, user, keys), client, user, keys)
  {
  }

  // No consent is ever lost
  ghost predicate Grows(rows: Rows, rows': Rows) {
    forall p | p in rows :: p in rows' && Includes(rows'[p], rows[p])
  }

  lemma RecordGrows(rows: Rows, client: string, user: string, keys: seq<string>)
    ensures Grows(rows, Record(rows, client, user, keys))
  {
  }

  // ---------------------------------------------------------------- runs

  // A consent to a resolved grant
  datatype Consented = Consented(client: string, user: string, audience: string, resource: string, scopes: seq<string>)

  function KeysOf(e: Consented): seq<string> {
    KeysForGrant(e.audience, e.resource, e.scopes)
  }

  function ItemsOf(e: Consented): set<Item> {
    Items(e.audience, e.resource, e.scopes)
  }

  predicate WellFormedGrant(e: Consented) {
    && (e.resource != "" ==> Plain(e.audience))
    && (forall s | s in e.scopes :: IsStandard(s) || (e.resource != "" && s != "" && Plain(s)))
  }

  function RecordAll(rows: Rows, events: seq<Consented>): Rows
    decreases |events|
  {
    if events == [] then rows
    else
      var e := Last(events);
      Record(RecordAll(rows, Init(events)), e.client, e.user, KeysOf(e))
  }

  // The keys one user consented to for one client, in the order of the consents
  function Log(events: seq<Consented>, client: string, user: string): seq<string>
    decreases |events|
  {
    if events == [] then []
    else
      var e := Last(events);
      Log(Init(events), client, user) + if e.client == client && e.user == user then KeysOf(e) else []
  }

  predicate Consulted(events: seq<Consented>, client: string, user: string) {
    exists e :: e in events && e.client == client && e.user == user
  }

  function ConsentedItems(events: seq<Consented>, client: string, user: string): set<Item> {
    set e, x | e in events && e.client == client && e.user == user && x in ItemsOf(e) :: x
  }

  lemma RecordExtendsRow(rows: Rows, e: Consented, client: string, user: string, log: seq<string>)
    requires (client, user) in rows ==> rows[(client, user)] == Dedup(log)
    requires (client, user) !in rows ==> log == []
    ensures
      var rows' := Record(rows, e.client, e.user, KeysOf(e));
      var matches := e.client == client && e.user == user;
      && ((client, user) in rows' <==> (client, user) in rows || matches)
      && ((client, user) in rows' ==> rows'[(client, user)] == Dedup(log + if matches then KeysOf(e) else []))
  {
    var keys := KeysOf(e);
    hide KeysOf;
    DedupOfConcat(log, keys);
    assert [] + keys == keys && log + [] == log;
    if (client, user) in rows && Includes(Dedup(log), keys) {
      MergingNothingNew(Dedup(log), keys);
    }
  }

  /** The row of a pair is the list of everything consented to for it, each key once, in order of first consent. */
  lemma {:induction false} RowsAreExact(events: seq<Consented>, client: string, user: string)
    ensures
      var rows := RecordAll(map[], events);
      && ((client, user) in rows <==> Consulted(events, client, user))
      && ((client, user) in rows ==> rows[(client, user)] == Dedup(Log(events, client, user)))
      && ((client, user) !in rows ==> Log(events, client, user) == [])
    decreases |events|
  {
    if events == [] {
    } else {
      var e, before := Last(events), Init(events);
      var rows, log := RecordAll(map[], before), Log(before, client, user);
      RowsAreExact(before, client, user);
      RecordExtendsRow(rows, e, client, user, log);
      ConsultedSnoc(before, e, client, user);
      assert RecordAll(map[], events) == Record(rows, e.client, e.user, KeysOf(e));
      assert Log(events, client, user) == log + if e.client == client && e.user == user then KeysOf(e) else [];
      assert events == before + [e];
      hide Record, RecordAll, Log, KeysOf, Dedup, Consulted;
    }
  }

  lemma ConsultedSnoc(before: seq<Consented>, e: Consented, client: string, user: string)
    ensures Consulted(before + [e], client, user) <==> Consulted(before, client, user) || (e.client == client && e.user == user)
  {
  }

  lemma {:induction false} MergingNothingNew(authorized: seq<string>, keys: seq<string>)
    requires NoDuplicates(authorized) && Includes(authorized, keys)
    ensures Merge(authorized, keys) == authorized
    decreases |keys|
  {
    if keys == [] {
      assert authorized + keys == authorized;
      DedupKeepsOrder(authorized);
    } else {
      assert keys == Init(keys) + [Last(keys)];
      MergingNothingNew(authorized, Init(keys));
      assert authorized + keys == (authorized + Init(keys)) + [Last(keys)];
      DedupSnoc(authorized + Init(keys), Last(keys));
    }
  }

  lemma ConsentedItemsSnoc(before: seq<Consented>, e: Consented, client: string, user: string)
    ensures ConsentedItems(before + [e], client, user) ==
      ConsentedItems(before, client, user) + if e.client == client && e.user == user then ItemsOf(e) else {}
  {
  }

  lemma EncodingsOfUnion(a: set<Item>, b: set<Item>)
    ensures Encodings(a + b) == Encodings(a) + Encodings(b)
  {
  }

  lemma {:induction false} LogHoldsItems(events: seq<Consented>, client: string, user: string, k: string)
    ensures k in Log(events, client, user) <==> k in Encodings(ConsentedItems(events, client, user))
    decreases |events|
  {
    hide Encodings, Items, KeysForGrant;
    if events == [] {
      assert ConsentedItems(events, client, user) == {};
      NothingEncodesNothing();
    } else {
      var e, before := Last(events), Init(events);
      LogHoldsItems(before, client, user, k);
      KeysAreEncodings(e.audience, e.resource, e.scopes, k);
      ConsentedItemsSnoc(before, e, client, user);
      assert events == before + [e];
      hide ConsentedItems;
      EncodingsOfUnion(ConsentedItems(before, client, user), ItemsOf(e));
      NothingEncodesNothing();
      EncodingsOfUnion(ConsentedItems(before, client, user), {});
    }
  }

  lemma NothingEncodesNothing()
    ensures Encodings({}) == {}
  {
  }

  lemma ItemsAreWellFormed(e: Consented)
    requires WellFormedGrant(e)
    ensures forall x :: x in ItemsOf(e) ==> WellFormed(x)
  {
  }

  /**
   After any sequence of consents, a request counts as authorized exactly when the pair consented before
   and every item of the request was consented to by this user for this client.
   */
  lemma AuthorizedExactlyWhenConsented(events: seq<Consented>, q: Consented)
    requires WellFormedGrant(q) && forall e :: e in events ==> WellFormedGrant(e)
    ensures HasAuthorized(RecordAll(map[], events), q.client, q.user, KeysOf(q)) <==>
      Consulted(events, q.client, q.user) && ItemsOf(q) <= ConsentedItems(events, q.client, q.user)
  {
    var items := ConsentedItems(events, q.client, q.user);
    RowsAreExact(events, q.client, q.user);
    if Consulted(events, q.client, q.user) {
      forall k ensures k in Log(events, q.client, q.user) <==> k in Encodings(items) {
        LogHoldsItems(events, q.client, q.user, k);
      }
      ItemsAreWellFormed(q);
      forall e | e in events ensures forall x :: x in ItemsOf(e) ==> WellFormed(x) {
        ItemsAreWellFormed(e);
      }
      KeysCoveredIffItemsAre(q, items, Log(events, q.client, q.user));
    }
  }

  lemma KeysCoveredIffItemsAre(q: Consented, items: set<Item>, log: seq<string>)
    requires forall x :: x in items || x in ItemsOf(q) ==> WellFormed(x)
    requires forall k :: k in log <==> k in Encodings(items)
    ensures Includes(log, KeysOf(q)) <==> ItemsOf(q) <= items
  {
    forall k ensures k in KeysOf(q) <==> k in Encodings(ItemsOf(q)) {
      KeysAreEncodings(q.audience, q.resource, q.scopes, k);
    }
    if Includes(log, KeysOf(q)) {
      forall x | x in ItemsOf(q) ensures x in items {
        assert Encode(x) in Encodings(ItemsOf(q));
        var y :| y in items && Encode(y) == Encode(x);
        EncodingIsInjective(x, y);
      }
    }
  }

  /**
   The keys the API tables accept are the keys the encoding needs: a permission never looks like an identity scope.
   */
  lemma PermissionKeysAreEncodable(db: ApiTables.Db, p: string)
    requires ApiTables.Valid(db) && p in db.permissions
    ensures
      var key := db.permissions[p].key;
      key != "" && Plain(key) && !IsStandard(key)
  {
    var key := db.permissions[p].key;
    if IsStandard(key) {
      StandardScopesAreReserved(key);
    }
  }

  lemma StandardScopesAreReserved(scope: string)
    requires IsStandard(scope)
    ensures ApiTables.IsReserved(scope)
  {
    var lower := ApiTables.Lower(scope);
    assert forall c | c in scope :: 'a' <= c <= 'z' || c == '_';
    assert lower == scope by {
      forall i | 0 <= i < |scope| ensures lower[i] == scope[i] {
        assert scope[i] in scope;
      }
    }
  }

  // ---------------------------------------------------------------- the loops

  method ConsentScopesInclude(authorized: seq<string>, requested: seq<string>) returns (included: bool)
    ensures included == Includes(authorized, requested)
  {
    for i := 0 to |requested|
      invariant forall j :: 0 <= j < i ==> requested[j] in authorized
    {
      if requested[i] !in authorized {
        return false;
      }
    }
    included := true;
  }

  // The list so far and the set of what it holds
  ghost predicate Merged(merged: seq<string>, seen: set<string>, all: seq<string>, n: nat) {
    n <= |all| && merged == Dedup(all[..n]) && forall x :: x in seen <==> x in merged
  }

  lemma MergedStep(merged: seq<string>, seen: set<string>, all: seq<string>, n: nat)
    requires Merged(merged, seen, all, n) && n < |all|
    ensures if all[n] in seen then Merged(merged, seen, all, n + 1) else Merged(merged + [all[n]], seen + {all[n]}, all, n + 1)
  {
    DedupStep(all, n);
    hide Dedup;
  }

  // Two passes over one set of seen scopes
  method MergeConsentScopes(authorized: seq<string>, requested: seq<string>) returns (merged: seq<string>)
    ensures merged == Merge(authorized, requested)
  {
    var seen: set<string> := {};
    merged := [];
    ghost var all := authorized + requested;
    assert Merged(merged, seen, all, 0);
    for i := 0 to |authorized|
      invariant Merged(merged, seen, all, i)
    {
      MergedStep(merged, seen, all, i);
      if authorized[i] in seen {
        continue;
      }
      seen := seen + {authorized[i]};
      merged := merged + [authorized[i]];
    }
    for i := 0 to |requested|
      invariant Merged(merged, seen, all, |authorized| + i)
    {
      MergedStep(merged, seen, all, |authorized| + i);
      if requested[i] in seen {
        continue;
      }
      seen := seen + {requested[i]};
      merged := merged + [requested[i]];
    }
    assert all[..|authorized| + |requested|] == all;
  }

  method ConsentScopeKeys(audience: string, scopes: seq<string>) returns (keys: seq<string>)
    ensures keys == ScopeKeys(audience, scopes)
  {
    keys := [];
    for i := 0 to |scopes|
      invariant |keys| == i && forall j :: 0 <= j < i ==> keys[j] == ScopeKey(audience, scopes[j])
    {
      keys := keys + [ScopeKey(audience, scopes[i])];
    }
  }

  method ConsentKeysForGrant(audience: string, resource: string, scopes: seq<string>) returns (keys: seq<string>)
    ensures keys == KeysForGrant(audience, resource, scopes)
  {
    keys := ConsentScopeKeys(audience, scopes);
    if resource != "" {
      keys := keys + [AudienceKey(audience)];
    }
  }
}
