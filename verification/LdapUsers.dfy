/** What a sync does to users, over one run and over many. */
module LdapUsers {
  import opened Common
  import opened LdapTables

  // Rows the directory does not name keep everything; named rows keep their LDAP ID and are only ever enabled
  ghost predicate Preserved(before: map<string, User>, after: map<string, User>, touched: set<string>) {
    forall u :: u in before ==>
      && u in after && after[u].ldapID == before[u].ldapID
      && (after[u].disabled ==> before[u].disabled)
      && (before[u].ldapID.None? || before[u].ldapID.value !in touched ==> after[u] == before[u])
  }

  lemma SyncUserPreserves(cfg: Config, users: map<string, User>, d: DesiredUser, newID: string)
    requires UsersUnique(users) && newID !in users
    ensures
      var after := SyncUser(cfg, users, d, newID);
      && UsersUnique(after) && Preserved(users, after, {d.ldapID}) && after.Keys <= users.Keys + {newID}
      && (newID in after ==> after[newID].ldapID == Some(d.ldapID) && !after[newID].disabled)
  {
    var row := UserRow(d);
    match FindUser(users, d.ldapID)
    case Some(u) =>
      var enabled := users[u := users[u].(disabled := false)];
      assert UsersUnique(enabled);
      if !UserInUse(cfg, enabled, u, d) {
        forall v | v in enabled && v != u
          ensures enabled[v].username != d.username && enabled[v].ldapID != Some(d.ldapID)
          ensures d.email.Some? ==> enabled[v].email != d.email
        {
          assert !UserInUse(cfg, enabled, u, d);
        }
        assert UsersUnique(enabled[u := row]);
      }
    case None =>
      if !UserInUse(cfg, users, newID, d) {
        forall v | v in users && v != newID
          ensures users[v].username != d.username && (d.email.Some? ==> users[v].email != d.email)
        {
          assert !UserInUse(cfg, users, newID, d);
        }
        assert UsersUnique(users[newID := row]);
      }
  }

  lemma LdapIDsSnoc(desired: seq<DesiredUser>)
    requires desired != []
    ensures LdapIDs(desired) == LdapIDs(desired[..|desired| - 1]) + {desired[|desired| - 1].ldapID}
  {
  }

  lemma PreservedComposes(a: map<string, User>, b: map<string, User>, c: map<string, User>, s: set<string>,
          t: set<string>)
    requires Preserved(a, b, s) && Preserved(b, c, t)
    ensures Preserved(a, c, s + t)
  {
  }

  // Every new row is enabled and belongs to an entry
  ghost predicate CreatedFor(before: map<string, User>, after: map<string, User>, newIDs: seq<string>, ids: set<string>) {
    forall u :: u in after && u !in before ==>
      u in newIDs && after[u].ldapID.Some? && after[u].ldapID.value in ids && !after[u].disabled
  }

  lemma CreatedForMore(a: map<string, User>, b: map<string, User>, c: map<string, User>, newIDs: seq<string>,
          ids: set<string>, newID: string, id: string)
    requires CreatedFor(a, b, newIDs, ids) && Preserved(b, c, {id}) && c.Keys <= b.Keys + {newID}
    requires newID in c ==> c[newID].ldapID == Some(id) && !c[newID].disabled
    ensures CreatedFor(a, c, newIDs + [newID], ids + {id})
  {
  }

  lemma FreshPrefix<T>(newIDs: seq<string>, rows: map<string, T>)
    requires newIDs != [] && Fresh(newIDs, rows)
    ensures
      var n := |newIDs| - 1;
      Fresh(newIDs[..n], rows) && newIDs[n] !in rows && newIDs[n] !in newIDs[..n] && newIDs[..n] + [newIDs[n]] == newIDs
  {
  }

  lemma {:induction false} SyncUsersPreserves(cfg: Config, users: map<string, User>, desired: seq<DesiredUser>,
          newIDs: seq<string>)
    requires |desired| == |newIDs| && UsersUnique(users) && Fresh(newIDs, users)
    ensures
      var after := SyncUsers(cfg, users, desired, newIDs);
      && UsersUnique(after) && Preserved(users, after, LdapIDs(desired))
      && CreatedFor(users, after, newIDs, LdapIDs(desired))
  {
    if desired == [] {
      hide UsersUnique;
    } else {
      var n := |desired| - 1;
      var front := SyncUsers(cfg, users, desired[..n], newIDs[..n]);
      FreshPrefix(newIDs, users);
      hide UsersUnique, SyncUser, Fresh, Preserved;
      SyncUsersPreserves(cfg, users, desired[..n], newIDs[..n]);
      assert newIDs[n] !in front;
      SyncUserPreserves(cfg, front, desired[n], newIDs[n]);
      hide CreatedFor;
      LdapIDsSnoc(desired);
      var after := SyncUser(cfg, front, desired[n], newIDs[n]);
      PreservedComposes(users, front, after, LdapIDs(desired[..n]), {desired[n].ldapID});
      CreatedForMore(users, front, after, newIDs[..n], LdapIDs(desired[..n]), newIDs[n], desired[n].ldapID);
    }
  }

  // Nobody but self has the name or the address of the entry
  ghost predicate NobodyElseHas(cfg: Config, users: map<string, User>, self: string, d: DesiredUser) {
    forall v :: v in users && v != self ==>
      && cfg.collate(users[v].username) != cfg.collate(d.username)
      && (d.email.Some? ==> users[v].email != d.email)
  }

  lemma InUseIffSomebodyHas(cfg: Config, users: map<string, User>, self: string, d: DesiredUser)
    ensures UserInUse(cfg, users, self, d) <==> !NobodyElseHas(cfg, users, self, d)
  {
    if !NobodyElseHas(cfg, users, self, d) {
      var v :| v in users && v != self
               && !(cfg.collate(users[v].username) != cfg.collate(d.username) && (d.email.Some? ==> users[v].email != d.email));
      assert cfg.collate(users[v].username) == cfg.collate(d.username) || (d.email.Some? && users[v].email == d.email);
    }
  }

  lemma EnablingTakesNoName(cfg: Config, users: map<string, User>, u: string, d: DesiredUser)
    requires u in users
    ensures NobodyElseHas(cfg, users[u := users[u].(disabled := false)], u, d) <==> NobodyElseHas(cfg, users, u, d)
  {
    var enabled := users[u := users[u].(disabled := false)];
    forall v | v in users && v != u
      ensures v in enabled && cfg.collate(enabled[v].username) == cfg.collate(users[v].username)
    {
    }
  }

  /**
   An entry gives its name, address and admin flag to the row with its LDAP ID, or creates that row, exactly when
   nobody else has the name or the address. Otherwise an existing row is only enabled. No other row changes.
   */
  lemma EntryWritesItsRow(cfg: Config, users: map<string, User>, d: DesiredUser, newID: string, u: string)
    requires UsersUnique(users) && newID !in users
    requires u == newID || u in users
    ensures
      var after := SyncUser(cfg, users, d, newID);
      var row := User(d.username, d.email, Some(d.ldapID), false, d.isAdmin);
      if u in users && users[u].ldapID == Some(d.ldapID) then
        u in after && after[u] == if NobodyElseHas(cfg, users, u, d) then row else users[u].(disabled := false)
      else if u in users then u in after && after[u] == users[u]
      else if NobodyElseHas(cfg, users, newID, d) && forall v :: v in users ==> users[v].ldapID != Some(d.ldapID) then
        u in after && after[u] == row
      else u !in after
  {
    if u in users && users[u].ldapID == Some(d.ldapID) {
      assert FindUser(users, d.ldapID) == Some(u);
      var enabled := users[u := users[u].(disabled := false)];
      InUseIffSomebodyHas(cfg, enabled, u, d);
      EnablingTakesNoName(cfg, users, u, d);
    }
    InUseIffSomebodyHas(cfg, users, newID, d);
    hide UserInUse, NobodyElseHas;
  }

  /** After the last entry with its ID, a row is not touched again: what that entry left is what the sync leaves. */
  lemma {:induction false} TheLastEntryDecides(cfg: Config, users: map<string, User>, desired: seq<DesiredUser>,
          newIDs: seq<string>, j: nat, u: string)
    requires |desired| == |newIDs| && UsersUnique(users) && Fresh(newIDs, users) && j < |desired|
    requires forall k :: j < k < |desired| ==> desired[k].ldapID != desired[j].ldapID
    requires u in users && users[u].ldapID == Some(desired[j].ldapID)
    ensures
      var turn := SyncUsers(cfg, users, desired[..j], newIDs[..j]);
      var after := SyncUsers(cfg, users, desired, newIDs);
      && u in turn && u in after
      && var d := desired[j];
         after[u] == if NobodyElseHas(cfg, turn, u, d) then User(d.username, d.email, Some(d.ldapID), false, d.isAdmin)
                     else turn[u].(disabled := false)
  {
    var n := |desired| - 1;
    FreshPrefix(newIDs, users);
    SyncUsersPreserves(cfg, users, desired[..n], newIDs[..n]);
    var front := SyncUsers(cfg, users, desired[..n], newIDs[..n]);
    assert newIDs[n] !in front;
    hide UsersUnique, SyncUser, NobodyElseHas;
    EntryWritesItsRow(cfg, front, desired[n], newIDs[n], u);
    if j < n {
      assert desired[..n][j] == desired[j];
      TheLastEntryDecides(cfg, users, desired[..n], newIDs[..n], j, u);
      assert desired[..n][..j] == desired[..j] && newIDs[..n][..j] == newIDs[..j];
    }
  }

  /** The row of a valid directory entry ends up enabled, even when its new name or address is taken. */
  lemma {:induction false} DesiredUserIsEnabled(cfg: Config, users: map<string, User>, desired: seq<DesiredUser>,
          newIDs: seq<string>, u: string)
    requires |desired| == |newIDs| && UsersUnique(users) && Fresh(newIDs, users)
    requires u in users && users[u].ldapID.Some? && users[u].ldapID.value in LdapIDs(desired)
    ensures
      var after := SyncUsers(cfg, users, desired, newIDs);
      u in after && !after[u].disabled
  {
    var n := |desired| - 1;
    var front := SyncUsers(cfg, users, desired[..n], newIDs[..n]);
    FreshPrefix(newIDs, users);
    LdapIDsSnoc(desired);
    SyncUsersPreserves(cfg, users, desired[..n], newIDs[..n]);
    assert newIDs[n] !in front && u in front && front[u].ldapID == users[u].ldapID;
    hide UsersUnique, SyncUser, NobodyElseHas, Fresh, Preserved, CreatedFor, LdapIDs;
    EntryWritesItsRow(cfg, front, desired[n], newIDs[n], u);
    if users[u].ldapID.value != desired[n].ldapID {
      DesiredUserIsEnabled(cfg, users, desired[..n], newIDs[..n], u);
    }
  }

  ghost predicate HasEnabledUser(users: map<string, User>, id: string) {
    exists u :: u in users && users[u].ldapID == Some(id) && !users[u].disabled
  }

  // At its turn, entry i finds its name and its address free
  ghost predicate IsFree(cfg: Config, users: map<string, User>, desired: seq<DesiredUser>, newIDs: seq<string>, i: nat)
    requires |desired| == |newIDs| && i < |desired|
  {
    !UserInUse(cfg, SyncUsers(cfg, users, desired[..i], newIDs[..i]), newIDs[i], desired[i])
  }

  lemma CreatedExactlyWhenFree(cfg: Config, users: map<string, User>, d: DesiredUser, newID: string, id: string)
    requires UsersUnique(users) && newID !in users
    requires HasEnabledUser(users, id) || forall u :: u in users ==> users[u].ldapID != Some(id)
    ensures HasEnabledUser(SyncUser(cfg, users, d, newID), id) <==>
      HasEnabledUser(users, id) || (d.ldapID == id && !UserInUse(cfg, users, newID, d))
  {
    var after := SyncUser(cfg, users, d, newID);
    SyncUserPreserves(cfg, users, d, newID);
    hide UsersUnique, UserInUse;
    if HasEnabledUser(users, id) {
      var u :| u in users && users[u].ldapID == Some(id) && !users[u].disabled;
      assert u in after;
    } else if d.ldapID == id && !UserInUse(cfg, users, newID, d) {
      assert newID in after;
    }
  }

  ghost predicate SomeEntryIsFree(cfg: Config, users: map<string, User>, desired: seq<DesiredUser>, newIDs: seq<string>,
          id: string)
    requires |desired| == |newIDs|
  {
    exists i :: 0 <= i < |desired| && desired[i].ldapID == id && IsFree(cfg, users, desired, newIDs, i)
  }

  lemma SomeEntryOrTheLastIsFree(cfg: Config, users: map<string, User>, desired: seq<DesiredUser>, newIDs: seq<string>,
          id: string)
    requires |desired| == |newIDs| && desired != []
    ensures
      var n := |desired| - 1;
      SomeEntryIsFree(cfg, users, desired, newIDs, id) <==>
        || SomeEntryIsFree(cfg, users, desired[..n], newIDs[..n], id)
        || (desired[n].ldapID == id && IsFree(cfg, users, desired, newIDs, n))
  {
    var n := |desired| - 1;
    forall i | 0 <= i < n
      ensures desired[..n][i] == desired[i]
      ensures IsFree(cfg, users, desired[..n], newIDs[..n], i) == IsFree(cfg, users, desired, newIDs, i)
    {
      assert desired[..n][..i] == desired[..i] && newIDs[..n][..i] == newIDs[..i];
    }
    hide IsFree;
  }

  /**
   An ID that has no row yet gets an enabled user exactly when one of its entries finds its name and its
   address free at its turn.
   */
  lemma {:induction false} NewEntryIsCreatedExactlyWhen(cfg: Config, users: map<string, User>, desired: seq<DesiredUser>,
          newIDs: seq<string>, id: string)
    requires |desired| == |newIDs| && UsersUnique(users) && Fresh(newIDs, users)
    requires forall u :: u in users ==> users[u].ldapID != Some(id)
    ensures HasEnabledUser(SyncUsers(cfg, users, desired, newIDs), id) <==> SomeEntryIsFree(cfg, users, desired, newIDs, id)
  {
    if desired == [] {
    } else {
      var n := |desired| - 1;
      var front := SyncUsers(cfg, users, desired[..n], newIDs[..n]);
      SyncUsersPreserves(cfg, users, desired[..n], newIDs[..n]);
      NewEntryIsCreatedExactlyWhen(cfg, users, desired[..n], newIDs[..n], id);
      SomeEntryOrTheLastIsFree(cfg, users, desired, newIDs, id);
      hide UsersUnique, UserInUse, SomeEntryIsFree;
      assert newIDs[n] !in front;
      CreatedExactlyWhenFree(cfg, front, desired[n], newIDs[n], id);
      hide HasEnabledUser, Preserved;
    }
  }

  /**
   A user whose LDAP ID is in the directory is never disabled nor deleted, even when the entry was
   invalid and so is not among the desired users; and users not managed by LDAP keep their row.
   */
  lemma PresentUsersAreSafe(cfg: Config, db: Db, desired: seq<DesiredUser>, newIDs: seq<string>,
          directory: set<string>, u: string)
    requires Constraints(db) && |desired| == |newIDs| && Fresh(newIDs, db.users) && LdapIDs(desired) <= directory
    requires u in db.users && (db.users[u].ldapID.Some? ==> db.users[u].ldapID.value in directory)
    ensures
      var after := ReconcileUsers(cfg, db, desired, newIDs, directory);
      && u in after.users && (after.users[u].disabled ==> db.users[u].disabled)
      && (db.users[u].ldapID.None? ==> after.users[u] == db.users[u])
      && (forall g :: (g, u) in db.members <==> (g, u) in after.members)
      && (forall c :: (u, c) in db.authorized <==> (u, c) in after.authorized)
  {
    SyncUsersPreserves(cfg, db.users, desired, newIDs);
  }

  /** An LDAP user who left the directory is disabled with an otherwise unchanged row, or deleted with every trace. */
  lemma GoneUsersAreDeprovisioned(cfg: Config, db: Db, desired: seq<DesiredUser>, newIDs: seq<string>,
          directory: set<string>, u: string)
    requires Constraints(db) && |desired| == |newIDs| && Fresh(newIDs, db.users) && LdapIDs(desired) <= directory
    requires u in db.users && db.users[u].ldapID.Some? && db.users[u].ldapID.value !in directory
    ensures
      var after := ReconcileUsers(cfg, db, desired, newIDs, directory);
      if cfg.softDelete then
        && u in after.users && after.users[u] == db.users[u].(disabled := true)
        && after.members == db.members && after.authorized == db.authorized
      else
        && u !in after.users && (forall g :: (g, u) !in after.members) && (forall c :: (u, c) !in after.authorized)
  {
    SyncUsersPreserves(cfg, db.users, desired, newIDs);
  }

  lemma ReconcileUsersKeepsConstraints(cfg: Config, db: Db, desired: seq<DesiredUser>, newIDs: seq<string>,
          directory: set<string>)
    requires Constraints(db) && |desired| == |newIDs| && Fresh(newIDs, db.users)
    ensures Constraints(ReconcileUsers(cfg, db, desired, newIDs, directory))
  {
    SyncUsersPreserves(cfg, db.users, desired, newIDs);
  }

  // ---------------------------------------------------------------- many soft-delete syncs

  datatype Sync = Sync(desired: seq<DesiredUser>, newIDs: seq<string>, directory: set<string>)

  datatype Event =
    | RunSync(sync: Sync)
    | Edit(after: Db)   // anything else that changes the tables

  ghost predicate Applicable(db: Db, e: Event) {
    match e
    case RunSync(s) => |s.desired| == |s.newIDs| && Fresh(s.newIDs, db.users) && LdapIDs(s.desired) <= s.directory
    case Edit(after) => Constraints(after)
  }

  ghost function Next(cfg: Config, db: Db, e: Event): Db
    requires Applicable(db, e)
  {
    match e
    case RunSync(s) => ReconcileUsers(cfg, db, s.desired, s.newIDs, s.directory)
    case Edit(after) => after
  }

  // In how many syncs of the run notifications were prepared for u: none when back-channel logout is off
  ghost function Notifications(cfg: Config, db: Db, events: seq<Event>, u: string): nat
    decreases |events|
  {
    if events == [] || !Applicable(db, events[0]) then 0
    else
      (if cfg.notifies && events[0].RunSync? && u in Deprovisioned(cfg, db.users, events[0].sync.directory) then 1 else 0)
      + Notifications(cfg, Next(cfg, db, events[0]), events[1..], u)
  }

  // How often a sync of the run turned u from enabled to disabled
  ghost function Disablings(cfg: Config, db: Db, events: seq<Event>, u: string): nat
    decreases |events|
  {
    if events == [] || !Applicable(db, events[0]) then 0
    else
      var after := Next(cfg, db, events[0]);
      (if events[0].RunSync? && u in db.users && !db.users[u].disabled && u in after.users && after.users[u].disabled then 1 else 0)
      + Disablings(cfg, after, events[1..], u)
  }

  lemma SoftSyncNotifiesDisablings(cfg: Config, db: Db, s: Sync, u: string)
    requires cfg.softDelete && Constraints(db) && Applicable(db, RunSync(s))
    ensures
      var after := ReconcileUsers(cfg, db, s.desired, s.newIDs, s.directory);
      u in Deprovisioned(cfg, db.users, s.directory) <==>
        u in db.users && !db.users[u].disabled && u in after.users && after.users[u].disabled
  {
    SyncUsersPreserves(cfg, db.users, s.desired, s.newIDs);
  }

  /**
   Over any sequence of soft-delete syncs and other edits, and with back-channel logout on, a user is notified
   exactly as often as a sync turned the user from enabled to disabled: never twice for one, and never missed.
   */
  lemma {:induction false} NotificationsEqualDisablings(cfg: Config, db: Db, events: seq<Event>, u: string)
    requires cfg.softDelete && Constraints(db)
    ensures Notifications(cfg, db, events, u) == if cfg.notifies then Disablings(cfg, db, events, u) else 0
    decreases |events|
  {
    if events == [] || !Applicable(db, events[0]) {
    } else {
      match events[0] {
        case RunSync(s) =>
          SoftSyncNotifiesDisablings(cfg, db, s, u);
          ReconcileUsersKeepsConstraints(cfg, db, s.desired, s.newIDs, s.directory);
        case Edit(after) =>
      }
      NotificationsEqualDisablings(cfg, Next(cfg, db, events[0]), events[1..], u);
    }
  }
}
