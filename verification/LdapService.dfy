/** The sync loops over the tables. Rows come back from the database in no particular order. */
module LdapService {
  import opened Common
  import opened LdapTables
  import opened LdapUsers
  import opened LdapGroups
  import opened Backchannel

  // What the sync remembers of a user it loaded or created
  datatype Known = Known(id: string, disabled: bool)

  // A row as it was when the sync began
  datatype Loaded = Loaded(ldapID: string, disabled: bool)

  ghost predicate KnowsUsers(byID: map<string, Known>, users: map<string, User>) {
    && (forall id :: id in byID ==>
          byID[id].id in users && users[byID[id].id].ldapID == Some(id) && users[byID[id].id].disabled == byID[id].disabled)
    && (forall u :: u in users && users[u].ldapID.Some? ==> users[u].ldapID.value in byID)
  }

  lemma KnownIsFound(byID: map<string, Known>, users: map<string, User>, id: string)
    requires KnowsUsers(byID, users) && UsersUnique(users)
    ensures FindUser(users, id) == if id in byID then Some(byID[id].id) else None
  {
  }

  // Remembering the outcome of one upsert

  lemma KnownUser(byID: map<string, Known>, users: map<string, User>, id: string)
    requires KnowsUsers(byID, users) && id in byID
    ensures
      var u := byID[id].id;
      u in users && users[u].disabled == byID[id].disabled && users[u].ldapID == Some(id)
  {
  }

  lemma EnabledStaysKnown(byID: map<string, Known>, users: map<string, User>, id: string)
    requires KnowsUsers(byID, users) && UsersUnique(users) && id in byID
    ensures
      var u := byID[id].id;
      u in users && KnowsUsers(byID[id := Known(u, false)], users[u := users[u].(disabled := false)])
  {
  }

  lemma UpdatedStaysKnown(byID: map<string, Known>, users: map<string, User>, d: DesiredUser)
    requires KnowsUsers(byID, users) && UsersUnique(users) && d.ldapID in byID && !byID[d.ldapID].disabled
    ensures KnowsUsers(byID, users[byID[d.ldapID].id := UserRow(d)])
  {
  }

  lemma CreatedIsKnown(byID: map<string, Known>, users: map<string, User>, d: DesiredUser, newID: string)
    requires KnowsUsers(byID, users) && newID !in users && d.ldapID !in byID
    ensures KnowsUsers(byID[d.ldapID := Known(newID, false)], users[newID := UserRow(d)])
  {
  }

  lemma KnownStaysKnown(byID: map<string, Known>, users: map<string, User>, d: DesiredUser, newID: string)
    requires KnowsUsers(byID, users) && UsersUnique(users) && newID !in users
    ensures d.ldapID in byID ==>
      var u := byID[d.ldapID].id;
      var enabled := users[u := users[u].(disabled := false)];
      var byID' := byID[d.ldapID := Known(u, false)];
      && u in users && users[u].disabled == byID[d.ldapID].disabled && users[u].ldapID == Some(d.ldapID)
      && KnowsUsers(byID', enabled) && KnowsUsers(byID', enabled[u := UserRow(d)])
    ensures d.ldapID !in byID ==> KnowsUsers(byID[d.ldapID := Known(newID, false)], users[newID := UserRow(d)])
  {
    if d.ldapID in byID {
      var u := byID[d.ldapID].id;
      KnownUser(byID, users, d.ldapID);
      EnabledStaysKnown(byID, users, d.ldapID);
      EnablingKeepsUnique(users, u);
      hide UsersUnique, KnowsUsers;
      UpdatedStaysKnown(byID[d.ldapID := Known(u, false)], users[u := users[u].(disabled := false)], d);
    } else {
      CreatedIsKnown(byID, users, d, newID);
      hide UsersUnique, KnowsUsers;
    }
  }

  lemma EnablingKeepsUnique(users: map<string, User>, u: string)
    requires UsersUnique(users) && u in users
    ensures UsersUnique(users[u := users[u].(disabled := false)])
  {
  }

  // Admin flags come from the membership of the configured group
  predicate NamedAdmin(groups: seq<DesiredGroup>, adminGroup: string, username: string) {
    adminGroup != "" && exists i :: 0 <= i < |groups| && groups[i].name == adminGroup && username in groups[i].memberUsernames
  }

  method ApplyAdminGroupMembership(users: array<DesiredUser>, groups: seq<DesiredGroup>, adminGroup: string)
    modifies users
    ensures forall i :: 0 <= i < users.Length ==>
      users[i] == old(users[i]).(isAdmin := old(users[i].isAdmin) || NamedAdmin(groups, adminGroup, old(users[i].username)))
    ensures forall i :: 0 <= i < users.Length ==>
      (users[i].isAdmin <==>
         || old(users[i].isAdmin)
         || (adminGroup != "" && exists k :: 0 <= k < |groups| && groups[k].name == adminGroup
                                             && old(users[i].username) in groups[k].memberUsernames))
  {
    if adminGroup == "" {
      return;
    }
    var admins: set<string> := {};
    for i := 0 to |groups|
      invariant forall name :: name in admins <==>
        exists k :: 0 <= k < i && groups[k].name == adminGroup && name in groups[k].memberUsernames
    {
      if groups[i].name != adminGroup {
        continue;
      }
      ghost var before := admins;
      for j := 0 to |groups[i].memberUsernames|
        invariant admins == before + set name | name in groups[i].memberUsernames[..j]
      {
        assert groups[i].memberUsernames[..j + 1] == groups[i].memberUsernames[..j] + [groups[i].memberUsernames[j]];
        admins := admins + {groups[i].memberUsernames[j]};
      }
      assert groups[i].memberUsernames[..|groups[i].memberUsernames|] == groups[i].memberUsernames;
    }
    for i := 0 to users.Length
      invariant forall k :: 0 <= k < i ==>
        users[k] == old(users[k]).(isAdmin := old(users[k].isAdmin) || NamedAdmin(groups, adminGroup, old(users[k].username)))
      invariant forall k :: i <= k < users.Length ==> users[k] == old(users[k])
    {
      users[i] := users[i].(isAdmin := users[i].isAdmin || users[i].username in admins);
    }
  }

  class Sync {
    var users: map<string, User>
    var groups: map<string, Group>
    var members: set<(string, string)>
    var clients: map<string, Client>
    var authorized: set<(string, string)>

    constructor (db: Db)
      ensures Snapshot() == db
    {
      users, groups, members, clients, authorized := db.users, db.groups, db.members, db.clients, db.authorized;
    }

    function Snapshot(): Db
      reads this
    {
      Db(users, groups, members, clients, authorized)
    }

    // Creates or updates one desired user; a taken name or address skips the write but not the enabling
    method UpsertUser(cfg: Config, d: DesiredUser, newID: string, byID: map<string, Known>)
      returns (byID': map<string, Known>)
      requires UsersUnique(users) && KnowsUsers(byID, users) && newID !in users
      modifies this`users
      ensures users == SyncUser(cfg, old(users), d, newID)
      ensures KnowsUsers(byID', users)
    {
      ghost var before := users;
      KnownIsFound(byID, users, d.ldapID);
      KnownStaysKnown(byID, users, d, newID);
      hide UsersUnique, KnowsUsers;
      byID' := byID;
      if d.ldapID in byID' {
        var u := byID'[d.ldapID].id;
        if byID'[d.ldapID].disabled {
          users := users[u := users[u].(disabled := false)];
          byID' := byID'[d.ldapID := Known(u, false)];
        }
        assert users == before[u := before[u].(disabled := false)];
        assert byID' == byID[d.ldapID := Known(u, false)];
        if UserInUse(cfg, users, u, d) {
          return;
        }
        users := users[u := UserRow(d)];
      } else {
        if UserInUse(cfg, users, newID, d) {
          return;
        }
        users := users[newID := UserRow(d)];
        byID' := byID'[d.ldapID := Known(newID, false)];
      }
    }

    method UpsertUsers(cfg: Config, desired: seq<DesiredUser>, newIDs: seq<string>)
      requires UsersUnique(users) && |desired| == |newIDs| && Fresh(newIDs, users)
      modifies this`users
      ensures users == SyncUsers(cfg, old(users), desired, newIDs)
    {
      ghost var before := users;
      var byID := IndexUsers();
      hide UsersUnique, KnowsUsers, SyncUser, Preserved;
      for i := 0 to |desired|
        invariant users == SyncUsers(cfg, before, desired[..i], newIDs[..i])
        invariant UsersUnique(users) && KnowsUsers(byID, users)
        invariant forall k :: i <= k < |newIDs| ==> newIDs[k] !in users
      {
        NextUser(cfg, before, desired, newIDs, i);
        SyncUserPreserves(cfg, users, desired[i], newIDs[i]);
        byID := UpsertUser(cfg, desired[i], newIDs[i], byID);
      }
      assert desired[..|desired|] == desired && newIDs[..|newIDs|] == newIDs;
    }

    // Disables or deletes the loaded users whose LDAP ID is not in the directory
    method DeprovisionUsers(cfg: Config, loaded: map<string, Loaded>, directory: set<string>)
      requires loaded.Keys <= users.Keys
      modifies this`users, this`members, this`authorized
      ensures Snapshot() == Deprovision(cfg, old(Snapshot()), set u | u in loaded && loaded[u].ldapID !in directory)
    {
      ghost var before := Snapshot();
      ghost var done: set<string> := {};
      EmptyDeprovision(cfg, before);
      var todo := loaded.Keys;
      while todo != {}
        invariant todo <= loaded.Keys && done == set u | u in loaded && u !in todo && loaded[u].ldapID !in directory
        invariant Snapshot() == Deprovision(cfg, before, done)
      {
        var u :| u in todo;
        todo := todo - {u};
        if loaded[u].ldapID in directory {
          continue;
        }
        DeprovisionOneMore(cfg, before, done, u);
        done := done + {u};
        if cfg.softDelete {
          // Only a user that is still enabled is written
          if !users[u].disabled {
            users := users[u := users[u].(disabled := true)];
          }
        } else {
          users := users - {u};
          members := set m | m in members && m.1 != u;
          authorized := set a | a in authorized && a.0 != u;
        }
      }
    }

    /** Users first: upserts, then the notifications to prepare, then disabling or deleting who is gone. */
    method ReconcileUserTable(cfg: Config, desired: seq<DesiredUser>, newIDs: seq<string>, directory: set<string>)
      returns (targets: set<Target>)
      requires Constraints(Snapshot()) && |desired| == |newIDs| && Fresh(newIDs, users)
      modifies this`users, this`members, this`authorized
      ensures Snapshot() == ReconcileUsers(cfg, old(Snapshot()), desired, newIDs, directory)
      ensures targets ==
        if cfg.notifies then
          TargetsForUsers(old(Snapshot()).(users := SyncUsers(cfg, old(users), desired, newIDs)), Deprovisioned(cfg, old(users), directory))
        else {}
    {
      // The rows as they were loaded: later decisions look at these, not at the updated table
      var loaded := map u | u in users && users[u].ldapID.Some? :: Loaded(users[u].ldapID.value, users[u].disabled);
      SyncUsersPreserves(cfg, users, desired, newIDs);
      ghost var before := users;
      UpsertUsers(cfg, desired, newIDs);
      targets := {};
      if cfg.notifies {
        var deprovisioned := set u | u in loaded && loaded[u].ldapID !in directory && !(cfg.softDelete && loaded[u].disabled);
        assert deprovisioned == Deprovisioned(cfg, before, directory);
        targets := TargetsForUsers(Snapshot(), deprovisioned);
      }
      DeprovisionUsers(cfg, loaded, directory);
      assert (set u | u in loaded && loaded[u].ldapID !in directory) == Gone(before, directory);
    }

    method IndexUsers() returns (byID: map<string, Known>)
      requires UsersUnique(users)
      ensures KnowsUsers(byID, users)
    {
      byID := map[];
      var todo := set u | u in users && users[u].ldapID.Some?;
      while todo != {}
        invariant todo <= users.Keys
        invariant forall id :: id in byID ==>
          byID[id].id in users && users[byID[id].id].ldapID == Some(id) && users[byID[id].id].disabled == byID[id].disabled
        invariant forall u :: u in users && users[u].ldapID.Some? && u !in todo ==> users[u].ldapID.value in byID
      {
        var u :| u in todo;
        todo := todo - {u};
        if users[u].ldapID.Some? {
          byID := byID[users[u].ldapID.value := Known(u, users[u].disabled)];
        }
      }
    }
  
    // LDAP users by their exact username
    method IndexUsernames() returns (byName: map<string, string>)
      requires UsersUnique(users)
      ensures KnowsNames(byName, users)
    {
      byName := map[];
      var todo := set u | u in users && users[u].ldapID.Some?;
      while todo != {}
        invariant todo <= set u | u in users && users[u].ldapID.Some?
        invariant forall n :: n in byName ==> byName[n] in users && users[byName[n]].username == n && users[byName[n]].ldapID.Some?
        invariant forall u :: u in users && users[u].ldapID.Some? && u !in todo ==> users[u].username in byName
      {
        var u :| u in todo;
        todo := todo - {u};
        byName := byName[users[u].username := u];
      }
    }

    method IndexGroups() returns (byID: map<string, string>)
      requires GroupsUnique(groups)
      ensures KnowsGroups(byID, groups)
    {
      byID := map[];
      var todo := set g | g in groups && groups[g].ldapID.Some?;
      while todo != {}
        invariant todo <= set g | g in groups && groups[g].ldapID.Some?
        invariant forall id :: id in byID ==> byID[id] in groups && groups[byID[id]].ldapID == Some(id)
        invariant forall g :: g in groups && groups[g].ldapID.Some? && g !in todo ==> groups[g].ldapID.value in byID
      {
        var g :| g in todo;
        todo := todo - {g};
        byID := byID[groups[g].ldapID.value := g];
      }
    }

    // The IDs of the users a desired group names; unknown names are skipped
    method ResolveMembers(d: DesiredGroup, byName: map<string, string>) returns (us: set<string>)
      requires UsersUnique(users) && KnowsNames(byName, users)
      ensures us == MemberIDs(users, d)
    {
      us := {};
      for i := 0 to |d.memberUsernames|
        invariant us == set u | u in users && users[u].ldapID.Some? && users[u].username in d.memberUsernames[..i]
      {
        var name := d.memberUsernames[i];
        assert d.memberUsernames[..i + 1] == d.memberUsernames[..i] + [name];
        if name !in byName {
          continue;
        }
        us := us + {byName[name]};
      }
      assert d.memberUsernames[..|d.memberUsernames|] == d.memberUsernames;
    }

    // Creates or renames one group and replaces its members; false when the name is taken
    method UpsertGroup(d: DesiredGroup, newID: string, us: set<string>, byID: map<string, string>)
      returns (ok: bool, byID': map<string, string>, existed: Option<string>)
      requires GroupsUnique(groups) && KnowsGroups(byID, groups) && newID !in groups
      modifies this`groups, this`members
      ensures existed == FindGroup(old(groups), d.ldapID)
      ensures
        var g := TargetGroup(old(groups), d, newID);
        && (ok <==> !NameInUse(old(groups), g, d.name))
        && (ok ==>
              && Snapshot() == ReplaceMembers(old(Snapshot()).(groups := old(groups)[g := Group(d.name, Some(d.ldapID))]), g, us)
              && GroupsUnique(groups) && KnowsGroups(byID', groups))
    {
      KnownGroupIsFound(byID, groups, d.ldapID);
      RenameKeepsUnique(groups, d, TargetGroup(groups, d, newID));
      byID', existed := byID, None;
      if d.ldapID !in byID' {
        if NameInUse(groups, newID, d.name) {
          return false, byID', existed;
        }
        groups := groups[newID := Group(d.name, Some(d.ldapID))];
        byID' := byID'[d.ldapID := newID];
        members := (set m | m in members && m.0 != newID) + set u | u in us :: (newID, u);
        return true, byID', existed;
      }
      var g := byID'[d.ldapID];
      existed := Some(g);
      if NameInUse(groups, g, d.name) {
        return false, byID', existed;
      }
      groups := groups[g := groups[g].(name := d.name)];
      members := (set m | m in members && m.0 != g) + set u | u in us :: (g, u);
      ok := true;
    }

    method UpsertGroups(cfg: Config, desired: seq<DesiredGroup>, newIDs: seq<string>, tracked: map<string, set<string>>)
      returns (removed: Option<set<string>>)
      requires Constraints(Snapshot()) && |desired| == |newIDs| && Fresh(newIDs, groups) && tracked == Tracked(cfg, Snapshot())
      modifies this`groups, this`members
      ensures match SyncGroups(old(Snapshot()), desired, newIDs)
        case None => removed == None
        case Some(p) => Snapshot() == p.db && removed == Some(if cfg.notifies then p.removed else {})
    {
      ghost var start := Snapshot();
      ghost var p := Progress(start, {});
      var byName := IndexUsernames();
      var byID := IndexGroups();
      var lost: set<string> := {};
      assert SyncGroups(start, desired[..0], newIDs[..0]) == Some(p);
      hide UsersUnique, KnowsNames, GroupsUnique, KnowsGroups, SyncGroup, SyncGroups, Tracked;
      for i := 0 to |desired|
        invariant SyncGroups(start, desired[..i], newIDs[..i]) == Some(p)
        invariant Snapshot() == p.db && lost == if cfg.notifies then p.removed else {}
        invariant users == start.users && GroupsUnique(groups) && KnowsGroups(byID, groups)
        invariant forall k :: i <= k < |newIDs| ==> newIDs[k] !in groups
      {
        NextGroup(start, desired, newIDs, i);
        var ok, nextLost, nextByID := SyncOneGroup(cfg, desired[i], newIDs[i], byName, byID, tracked, lost, start, p);
        if !ok {
          FailureStays(start, desired, newIDs, i + 1);
          return None;
        }
        p := SyncGroup(start, p, desired[i], newIDs[i]).value;
        lost, byID := nextLost, nextByID;
      }
      assert desired[..|desired|] == desired && newIDs[..|newIDs|] == newIDs;
      removed := Some(lost);
    }

    // One entry: its members are resolved, the group is written, and those who lost it are collected
    method SyncOneGroup(cfg: Config, d: DesiredGroup, newID: string, byName: map<string, string>, byID: map<string, string>,
                        tracked: map<string, set<string>>, lost: set<string>, ghost start: Db, ghost p: Progress)
      returns (ok: bool, lost': set<string>, byID': map<string, string>)
      requires UsersUnique(users) && users == start.users && KnowsNames(byName, users)
      requires GroupsUnique(groups) && KnowsGroups(byID, groups) && newID !in groups
      requires Snapshot() == p.db && tracked == Tracked(cfg, start)
      requires lost == if cfg.notifies then p.removed else {}
      modifies this`groups, this`members
      ensures match SyncGroup(start, p, d, newID)
        case None => !ok
        case Some(q) =>
          && ok && Snapshot() == q.db && lost' == (if cfg.notifies then q.removed else {})
          && GroupsUnique(groups) && KnowsGroups(byID', groups) && groups.Keys <= old(groups).Keys + {newID}
    {
      lost' := lost;
      TargetIsFree(groups, d, newID);
      UpsertIsSyncGroup(start, p, d, newID);
      hide UsersUnique, KnowsNames, GroupsUnique, KnowsGroups, SyncGroup, MemberIDs, MembersOf, Lost;
      var us := ResolveMembers(d, byName);
      var written, next, existed := UpsertGroup(d, newID, us, byID);
      if !written {
        return false, lost, byID;
      }
      if existed.Some? {
        TrackedAreLost(cfg, start, tracked, existed.value, us);
      }
      hide Tracked;
      if existed.Some? && existed.value in tracked {
        lost' := CollectRemovedMembers(lost, tracked[existed.value], us);
      }
      ok, byID' := true, next;
    }

    method DeleteGoneGroups(gone: set<string>)
      requires gone <= groups.Keys
      modifies this`groups, this`members, this`clients
      ensures Snapshot() == DeleteGroups(old(Snapshot()), gone)
    {
      ghost var before := Snapshot();
      EmptyDeleteGroups(before);
      ghost var done: set<string> := {};
      var todo := gone;
      while todo != {}
        invariant todo <= gone && done == gone - todo
        invariant Snapshot() == DeleteGroups(before, done)
      {
        var g :| g in todo;
        todo := todo - {g};
        DeleteOneMoreGroup(before, done, g);
        done := done + {g};
        groups := groups - {g};
        members := set m | m in members && m.0 != g;
        clients := map c | c in clients :: clients[c].(allowedGroups := clients[c].allowedGroups - {g});
      }
      assert gone - {} == gone;
    }

    /** Then groups: the result is the users who were removed from one, or nothing when a name collides. */
    method ReconcileGroupTable(cfg: Config, desired: seq<DesiredGroup>, newIDs: seq<string>, directory: set<string>)
      returns (removed: Option<set<string>>)
      requires Constraints(Snapshot()) && |desired| == |newIDs| && Fresh(newIDs, groups)
      modifies this`groups, this`members, this`clients
      ensures match ReconcileGroups(old(Snapshot()), desired, newIDs, directory)
        case None => removed == None
        case Some(p) => Snapshot() == p.db && removed == Some(if cfg.notifies then p.removed else {})
    {
      ghost var start := Snapshot();
      var gone := GoneGroups(groups, directory);
      var tracked := Tracked(cfg, Snapshot());
      if SyncGroups(start, desired, newIDs).Some? {
        SyncGroupsArePartial(start, desired, newIDs);
        assert gone <= SyncGroups(start, desired, newIDs).value.db.groups.Keys;
      }
      if cfg.notifies {
        TrackedAddsUp(start, tracked, gone);
      }
      hide Constraints, Partial, GroupsUnique;
      removed := UpsertGroups(cfg, desired, newIDs, tracked);
      if removed.None? {
        return;
      }
      DeleteGoneGroups(gone);
      var lost := ReportGoneGroups(removed.value, gone, tracked);
      assert !cfg.notifies ==> lost == {};
      removed := Some(lost);
    }

    /** One transaction: a failing sync leaves the tables as they were and notifies nobody. */
    method SyncAllTables(cfg: Config, s: SyncInput) returns (targets: Option<set<Target>>)
      requires Constraints(Snapshot()) && ValidInput(Snapshot(), s)
      modifies this
      ensures match SyncAll(cfg, old(Snapshot()), s)
        case None => targets == None && Snapshot() == old(Snapshot())
        case Some(r) => targets == Some(r.targets) && Snapshot() == r.db && Constraints(r.db)
    {
      var before := Snapshot();
      ReconcileUsersKeepsConstraints(cfg, before, s.users, s.newUserIDs, s.userIDs);
      var userTargets := ReconcileUserTable(cfg, s.users, s.newUserIDs, s.userIDs);
      ghost var afterUsers := Snapshot();
      var removed := ReconcileGroupTable(cfg, s.groups, s.newGroupIDs, s.groupIDs);
      if removed.None? {
        users, groups, members, clients, authorized :=
          before.users, before.groups, before.members, before.clients, before.authorized;
        return None;
      }
      ReconcileGroupsKeepsConstraints(afterUsers, s.groups, s.newGroupIDs, s.groupIDs);
      var groupTargets := if cfg.notifies then TargetsForLostGroupAccess(Snapshot(), removed.value, "") else {};
      assert !cfg.notifies ==> userTargets + groupTargets == {};
      targets := Some(userTargets + groupTargets);
    }
  }

  // Previous members that are not members any more
  method CollectRemovedMembers(removed: set<string>, previous: set<string>, current: set<string>)
    returns (r: set<string>)
    ensures r == removed + (previous - current)
  {
    r := removed;
    var todo := previous;
    while todo != {}
      invariant todo <= previous && r == removed + (previous - todo - current)
    {
      var u :| u in todo;
      todo := todo - {u};
      if u !in current {
        r := r + {u};
      }
    }
  }

  // Deleting a group removes every member it had
  method ReportGoneGroups(removed: set<string>, gone: set<string>, tracked: map<string, set<string>>)
    returns (r: set<string>)
    ensures r == removed + set g, u | g in gone && g in tracked && u in tracked[g] :: u
  {
    r := removed;
    var todo := gone;
    while todo != {}
      invariant todo <= gone
      invariant r == removed + set g, u | g in gone && g !in todo && g in tracked && u in tracked[g] :: u
    {
      var g :| g in todo;
      todo := todo - {g};
      if g in tracked {
        r := CollectRemovedMembers(r, tracked[g], {});
      }
    }
  }

  lemma NextUser(cfg: Config, start: map<string, User>, desired: seq<DesiredUser>, newIDs: seq<string>, i: nat)
    requires |desired| == |newIDs| && i < |desired|
    ensures SyncUsers(cfg, start, desired[..i + 1], newIDs[..i + 1]) ==
      SyncUser(cfg, SyncUsers(cfg, start, desired[..i], newIDs[..i]), desired[i], newIDs[i])
  {
    assert desired[..i + 1][..i] == desired[..i] && newIDs[..i + 1][..i] == newIDs[..i];
  }

  // The current members of every LDAP group, when anyone is going to be notified
  function Tracked(cfg: Config, db: Db): map<string, set<string>> {
    if cfg.notifies then map g | g in db.groups && db.groups[g].ldapID.Some? :: MembersOf(db, g) else map[]
  }

  // The members a group is tracked with are those it can lose
  lemma TrackedAreLost(cfg: Config, start: Db, tracked: map<string, set<string>>, g: string, us: set<string>)
    requires tracked == Tracked(cfg, start)
    ensures (if g in tracked then tracked[g] - us else {}) == if cfg.notifies then Lost(start, g, us) else {}
  {
  }

  lemma NextGroup(start: Db, desired: seq<DesiredGroup>, newIDs: seq<string>, i: nat)
    requires |desired| == |newIDs| && i < |desired| && SyncGroups(start, desired[..i], newIDs[..i]).Some?
    ensures SyncGroups(start, desired[..i + 1], newIDs[..i + 1]) ==
      SyncGroup(start, SyncGroups(start, desired[..i], newIDs[..i]).value, desired[i], newIDs[i])
  {
    assert desired[..i + 1][..i] == desired[..i] && newIDs[..i + 1][..i] == newIDs[..i];
  }

  // A group that is found and one that is created are written in the same way
  lemma UpsertIsSyncGroup(start: Db, p: Progress, d: DesiredGroup, newID: string)
    ensures
      var g, us := TargetGroup(p.db.groups, d, newID), MemberIDs(start.users, d);
      SyncGroup(start, p, d, newID) ==
        if NameInUse(p.db.groups, g, d.name) then None
        else Some(Progress(ReplaceMembers(p.db.(groups := p.db.groups[g := Group(d.name, Some(d.ldapID))]), g, us),
                           if FindGroup(p.db.groups, d.ldapID).Some? then p.removed + Lost(start, g, us) else p.removed))
  {
  }

  lemma TrackedAddsUp(start: Db, tracked: map<string, set<string>>, gone: set<string>)
    requires forall g :: g in gone ==> g in tracked && tracked[g] == MembersOf(start, g)
    ensures (set g, u | g in gone && g in tracked && u in tracked[g] :: u) == set m | m in start.members && m.0 in gone :: m.1
  {
    forall m | m in start.members && m.0 in gone ensures m.1 in tracked[m.0] {
    }
    forall g, u | g in gone && u in tracked[g] ensures (g, u) in start.members {
    }
    var lost := set m | m in start.members && m.0 in gone :: m.1;
    forall g, u | g in gone && u in tracked[g] ensures u in lost {
      assert (g, u).1 in lost;
    }
  }

  ghost predicate KnowsNames(byName: map<string, string>, users: map<string, User>) {
    && (forall n :: n in byName ==> byName[n] in users && users[byName[n]].username == n && users[byName[n]].ldapID.Some?)
    && (forall u :: u in users && users[u].ldapID.Some? ==> users[u].username in byName)
  }

  ghost predicate KnowsGroups(byID: map<string, string>, groups: map<string, Group>) {
    && (forall id :: id in byID ==> byID[id] in groups && groups[byID[id]].ldapID == Some(id))
    && (forall g :: g in groups && groups[g].ldapID.Some? ==> groups[g].ldapID.value in byID)
  }

  lemma KnownGroupIsFound(byID: map<string, string>, groups: map<string, Group>, id: string)
    requires KnowsGroups(byID, groups) && GroupsUnique(groups)
    ensures FindGroup(groups, id) == if id in byID then Some(byID[id]) else None
  {
  }

  lemma {:induction false} FailureStays(start: Db, desired: seq<DesiredGroup>, newIDs: seq<string>, i: nat)
    requires |desired| == |newIDs| && i <= |desired| && SyncGroups(start, desired[..i], newIDs[..i]).None?
    ensures SyncGroups(start, desired, newIDs).None?
    decreases |desired| - i
  {
    if i == |desired| {
      assert desired[..i] == desired && newIDs[..i] == newIDs;
    } else {
      assert desired[..i + 1][..i] == desired[..i] && newIDs[..i + 1][..i] == newIDs[..i];
      FailureStays(start, desired, newIDs, i + 1);
    }
  }

  lemma EmptyDeleteGroups(db: Db)
    ensures DeleteGroups(db, {}) == db
  {
    assert DeleteGroups(db, {}).members == db.members;
    forall c | c in db.clients ensures db.clients[c].allowedGroups - {} == db.clients[c].allowedGroups {
    }
    assert DeleteGroups(db, {}).clients == db.clients;
  }

  lemma DeleteOneMoreGroup(db: Db, done: set<string>, g: string)
    ensures
      var d := DeleteGroups(db, done);
      DeleteGroups(db, done + {g}) ==
        d.(groups := d.groups - {g},
           members := (set m | m in d.members && m.0 != g),
           clients := map c | c in d.clients :: d.clients[c].(allowedGroups := d.clients[c].allowedGroups - {g}))
  {
    var d, e := DeleteGroups(db, done), DeleteGroups(db, done + {g});
    assert e.groups == d.groups - {g};
    assert e.members == set m | m in d.members && m.0 != g;
    forall c | c in db.clients
      ensures e.clients[c].allowedGroups == d.clients[c].allowedGroups - {g}
    {
    }
    assert e.clients == map c | c in d.clients :: d.clients[c].(allowedGroups := d.clients[c].allowedGroups - {g});
  }

  lemma EmptyDeprovision(cfg: Config, db: Db)
    ensures Deprovision(cfg, db, {}) == db
  {
  }

  lemma DeprovisionOneMore(cfg: Config, db: Db, done: set<string>, u: string)
    requires u in db.users && u !in done
    ensures
      var d := Deprovision(cfg, db, done);
      Deprovision(cfg, db, done + {u}) ==
        if cfg.softDelete then d.(users := d.users[u := d.users[u].(disabled := true)])
        else d.(users := d.users - {u},
                members := (set m | m in d.members && m.1 != u),
                authorized := (set a | a in d.authorized && a.0 != u))
  {
  }
}
