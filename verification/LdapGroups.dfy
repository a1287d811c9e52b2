/** What a sync does to groups and their members, and whom it reports as removed. */
module LdapGroups {
  import opened Common
  import opened LdapTables

  function GroupIDs(desired: seq<DesiredGroup>): set<string> {
    set i | 0 <= i < |desired| :: desired[i].ldapID
  }

  ghost predicate DistinctIDs(desired: seq<DesiredGroup>) {
    forall i, j :: 0 <= i < j < |desired| ==> desired[i].ldapID != desired[j].ldapID
  }

  lemma GroupIDsSnoc(desired: seq<DesiredGroup>)
    requires desired != []
    ensures GroupIDs(desired) == GroupIDs(desired[..|desired| - 1]) + {desired[|desired| - 1].ldapID}
  {
  }

  function IDSet(ids: seq<string>): set<string> {
    set i | 0 <= i < |ids| :: ids[i]
  }

  lemma IDSetSnoc(ids: seq<string>)
    requires ids != []
    ensures IDSet(ids) == IDSet(ids[..|ids| - 1]) + {ids[|ids| - 1]}
  {
  }

  // The group a desired group is written to
  ghost function TargetGroup(groups: map<string, Group>, d: DesiredGroup, newID: string): string {
    match FindGroup(groups, d.ldapID)
    case Some(g) => g
    case None => newID
  }

  // One step rewrites one group's row and members, and nothing else
  ghost predicate Rewrote(start: Db, p: Progress, q: Progress, d: DesiredGroup, g: string) {
    && q.db.users == p.db.users && q.db.clients == p.db.clients && q.db.authorized == p.db.authorized
    && q.db.groups == p.db.groups[g := Group(d.name, Some(d.ldapID))]
    && (forall m :: m in q.db.members <==> if m.0 == g then m.1 in MemberIDs(start.users, d) else m in p.db.members)
    && q.removed == p.removed + (if g in p.db.groups then Lost(start, g, MemberIDs(start.users, d)) else {})
  }

  lemma SyncGroupRewrites(start: Db, p: Progress, d: DesiredGroup, newID: string)
    requires SyncGroup(start, p, d, newID).Some? && newID !in p.db.groups
    ensures Rewrote(start, p, SyncGroup(start, p, d, newID).value, d, TargetGroup(p.db.groups, d, newID))
  {
  }

  // What holds of the tables after any prefix of the desired groups
  ghost predicate Partial(start: Db, p: Progress, ids: set<string>, newIDs: set<string>) {
    && p.db.users == start.users && p.db.clients == start.clients && p.db.authorized == start.authorized
    && GroupsUnique(p.db.groups)
    && (forall g :: g in p.db.groups ==>
          g in start.groups || (g in newIDs && p.db.groups[g].ldapID.Some? && p.db.groups[g].ldapID.value in ids))
    && (forall g :: g in start.groups ==>
          && g in p.db.groups && p.db.groups[g].ldapID == start.groups[g].ldapID
          && (start.groups[g].ldapID.None? || start.groups[g].ldapID.value !in ids ==>
                p.db.groups[g] == start.groups[g] && forall u :: (g, u) in p.db.members <==> (g, u) in start.members))
    && (forall m :: m in p.db.members ==> m.0 in p.db.groups && m.1 in start.users)
  }

  lemma RenameKeepsUnique(groups: map<string, Group>, d: DesiredGroup, g: string)
    requires GroupsUnique(groups)
    requires forall h :: h in groups && h != g ==> groups[h].ldapID != Some(d.ldapID)
    ensures !NameInUse(groups, g, d.name) ==> GroupsUnique(groups[g := Group(d.name, Some(d.ldapID))])
  {
  }

  lemma TargetIsFree(groups: map<string, Group>, d: DesiredGroup, newID: string)
    requires GroupsUnique(groups) && newID !in groups
    ensures
      var g := TargetGroup(groups, d, newID);
      && (forall h :: h in groups && h != g ==> groups[h].ldapID != Some(d.ldapID))
      && (g in groups ==> groups[g].ldapID == Some(d.ldapID)) && (g !in groups ==> g == newID)
  {
  }

  lemma RewriteKeepsPartial(start: Db, p: Progress, d: DesiredGroup, newID: string, ids: set<string>,
          newIDs: set<string>)
    requires Constraints(start) && Partial(start, p, ids, newIDs) && newID !in p.db.groups
    requires SyncGroup(start, p, d, newID).Some?
    ensures Partial(start, SyncGroup(start, p, d, newID).value, ids + {d.ldapID}, newIDs + {newID})
  {
    var g := TargetGroup(p.db.groups, d, newID);
    SyncGroupRewrites(start, p, d, newID);
    TargetIsFree(p.db.groups, d, newID);
    RenameKeepsUnique(p.db.groups, d, g);
    assert !NameInUse(p.db.groups, g, d.name);
    hide GroupsUnique, UsersUnique, NameInUse, SyncGroup, TargetGroup, Lost;
    RewriteKeepsRows(start, p, SyncGroup(start, p, d, newID).value, d, g, newID, ids, newIDs);
  }

  lemma RewriteKeepsRows(start: Db, p: Progress, q: Progress, d: DesiredGroup, g: string, newID: string, ids: set<string>,
          newIDs: set<string>)
    requires Constraints(start) && Partial(start, p, ids, newIDs) && Rewrote(start, p, q, d, g) && GroupsUnique(q.db.groups)
    requires g in p.db.groups ==> p.db.groups[g].ldapID == Some(d.ldapID)
    requires g !in p.db.groups ==> g == newID
    ensures Partial(start, q, ids + {d.ldapID}, newIDs + {newID})
  {
    hide GroupsUnique, UsersUnique;
  }

  lemma {:induction false} SyncGroupsArePartial(start: Db, desired: seq<DesiredGroup>, newIDs: seq<string>)
    requires |desired| == |newIDs| && Constraints(start) && Fresh(newIDs, start.groups)
    requires SyncGroups(start, desired, newIDs).Some?
    ensures Partial(start, SyncGroups(start, desired, newIDs).value, GroupIDs(desired), IDSet(newIDs))
  {
    if desired == [] {
    } else {
      var n := |desired| - 1;
      var front := SyncGroups(start, desired[..n], newIDs[..n]).value;
      SyncGroupsArePartial(start, desired[..n], newIDs[..n]);
      assert newIDs[n] !in IDSet(newIDs[..n]);
      assert newIDs[n] !in front.db.groups;
      RewriteKeepsPartial(start, front, desired[n], newIDs[n], GroupIDs(desired[..n]), IDSet(newIDs[..n]));
      hide Partial;
      GroupIDsSnoc(desired);
      IDSetSnoc(newIDs);
    }
  }

  // The fold, its last step and what is known before that step
  lemma LastStep(start: Db, desired: seq<DesiredGroup>, newIDs: seq<string>)
    requires |desired| == |newIDs| && desired != [] && Constraints(start) && Fresh(newIDs, start.groups)
    requires SyncGroups(start, desired, newIDs).Some?
    ensures
      var n := |desired| - 1;
      var front := SyncGroups(start, desired[..n], newIDs[..n]);
      && front.Some? && newIDs[n] !in front.value.db.groups
      && Partial(start, front.value, GroupIDs(desired[..n]), IDSet(newIDs[..n]))
      && Rewrote(start, front.value, SyncGroups(start, desired, newIDs).value, desired[n],
                 TargetGroup(front.value.db.groups, desired[n], newIDs[n]))
      && Fresh(newIDs[..n], start.groups)
      && (DistinctIDs(desired) ==> DistinctIDs(desired[..n]) && desired[n].ldapID !in GroupIDs(desired[..n]))
  {
    var n := |desired| - 1;
    var front := SyncGroups(start, desired[..n], newIDs[..n]).value;
    SyncGroupsArePartial(start, desired[..n], newIDs[..n]);
    assert newIDs[n] !in IDSet(newIDs[..n]);
    SyncGroupRewrites(start, front, desired[n], newIDs[n]);
    assert forall i :: 0 <= i < n ==> desired[..n][i] == desired[i];
  }

  // ---------------------------------------------------------------- who is reported, and who lost a membership

  // u is managed by the directory and the entry lists the name u has here
  predicate IsNamed(users: map<string, User>, d: DesiredGroup, u: string) {
    u in users && users[u].ldapID.Some? && users[u].username in d.memberUsernames
  }

  // Entry j is for u's group g and leaves u out
  ghost predicate DropsAt(db: Db, desired: seq<DesiredGroup>, g: string, u: string, j: int) {
    && (g, u) in db.members && g in db.groups && 0 <= j < |desired|
    && db.groups[g].ldapID == Some(desired[j].ldapID) && !IsNamed(db.users, desired[j], u)
  }

  predicate IsLast(desired: seq<DesiredGroup>, j: int) {
    0 <= j < |desired| && forall k :: j < k < |desired| ==> desired[k].ldapID != desired[j].ldapID
  }

  // Some entry of one of u's groups leaves u out
  ghost predicate Dropped(db: Db, desired: seq<DesiredGroup>, u: string) {
    exists g, j :: DropsAt(db, desired, g, u, j)
  }

  // The last entry of u's group g leaves u out
  ghost predicate DroppedFrom(db: Db, desired: seq<DesiredGroup>, g: string, u: string) {
    exists j :: DropsAt(db, desired, g, u, j) && IsLast(desired, j)
  }

  ghost predicate DroppedLast(db: Db, desired: seq<DesiredGroup>, u: string) {
    exists g :: DroppedFrom(db, desired, g, u)
  }

  // u is in a group that is gone from the directory
  ghost predicate InGoneGroup(db: Db, directory: set<string>, u: string) {
    exists g :: (g, u) in db.members && g in GoneGroups(db.groups, directory)
  }

  function LostMembers(db: Db, after: Db): set<string> {
    set m | m in db.members && m !in after.members :: m.1
  }

  // A group of the start is the target of an entry exactly when it has the entry's ID
  lemma TargetOfStart(start: Db, p: Progress, d: DesiredGroup, newID: string, ids: set<string>, newIDs: set<string>,
          g: string)
    requires Partial(start, p, ids, newIDs) && g in start.groups && newID !in p.db.groups
    ensures g == TargetGroup(p.db.groups, d, newID) <==> start.groups[g].ldapID == Some(d.ldapID)
    ensures g in p.db.groups
  {
  }

  lemma DropsAtLast(start: Db, desired: seq<DesiredGroup>, g: string, u: string)
    requires desired != []
    ensures
      var n := |desired| - 1;
      forall j :: DropsAt(start, desired, g, u, j) <==>
        DropsAt(start, desired[..n], g, u, j) || (j == n && DropsAt(start, desired, g, u, n))
  {
  }

  lemma {:induction false} ReportedAreDropped(start: Db, desired: seq<DesiredGroup>, newIDs: seq<string>, u: string)
    requires |desired| == |newIDs| && Constraints(start) && Fresh(newIDs, start.groups)
    requires SyncGroups(start, desired, newIDs).Some?
    ensures u in SyncGroups(start, desired, newIDs).value.removed <==> Dropped(start, desired, u)
  {
    if desired == [] {
    } else {
      var n := |desired| - 1;
      LastStep(start, desired, newIDs);
      var front := SyncGroups(start, desired[..n], newIDs[..n]).value;
      var target := TargetGroup(front.db.groups, desired[n], newIDs[n]);
      ReportedAreDropped(start, desired[..n], newIDs[..n], u);
      forall g ensures DropsAt(start, desired, g, u, n) <==>
        g == target && g in front.db.groups && u in Lost(start, g, MemberIDs(start.users, desired[n]))
      {
        if g in start.groups {
          TargetOfStart(start, front, desired[n], newIDs[n], GroupIDs(desired[..n]), IDSet(newIDs[..n]), g);
        }
        assert u in MembersOf(start, g) <==> (g, u) in start.members by {
          assert (g, u).1 == u;
        }
      }
      forall g ensures forall j :: DropsAt(start, desired, g, u, j) <==>
        DropsAt(start, desired[..n], g, u, j) || (j == n && DropsAt(start, desired, g, u, n))
      {
        DropsAtLast(start, desired, g, u);
      }
      hide Partial, Constraints, DropsAt, Lost, TargetGroup, MemberIDs, SyncGroups;
    }
  }

  lemma DroppedFromByLast(db: Db, desired: seq<DesiredGroup>, g: string, u: string)
    requires desired != [] && (g, u) in db.members && g in db.groups
    ensures
      var n := |desired| - 1;
      DroppedFrom(db, desired, g, u) <==>
        if db.groups[g].ldapID == Some(desired[n].ldapID) then !IsNamed(db.users, desired[n], u)
        else DroppedFrom(db, desired[..n], g, u)
  {
    var n := |desired| - 1;
    DropsAtLast(db, desired, g, u);
    assert IsLast(desired, n);
    hide MemberIDs;
    forall j | 0 <= j < n ensures IsLast(desired, j) <==> IsLast(desired[..n], j) && desired[j].ldapID != desired[n].ldapID {
    }
  }

  // What a group has lost in the end is up to its last entry
  lemma {:induction false} LostToTheLastEntry(start: Db, desired: seq<DesiredGroup>, newIDs: seq<string>, g: string, u: string)
    requires |desired| == |newIDs| && Constraints(start) && Fresh(newIDs, start.groups)
    requires SyncGroups(start, desired, newIDs).Some? && (g, u) in start.members
    ensures (g, u) !in SyncGroups(start, desired, newIDs).value.db.members <==> DroppedFrom(start, desired, g, u)
  {
    if desired == [] {
    } else {
      var n := |desired| - 1;
      LastStep(start, desired, newIDs);
      var front := SyncGroups(start, desired[..n], newIDs[..n]).value;
      LostToTheLastEntry(start, desired[..n], newIDs[..n], g, u);
      TargetOfStart(start, front, desired[n], newIDs[n], GroupIDs(desired[..n]), IDSet(newIDs[..n]), g);
      DroppedFromByLast(start, desired, g, u);
      hide Partial, Constraints, TargetGroup, MemberIDs, SyncGroups, DroppedFrom;
    }
  }

  ghost predicate HasGroup(db: Db, d: DesiredGroup, us: set<string>) {
    exists g :: g in db.groups && db.groups[g] == Group(d.name, Some(d.ldapID))
                && forall u :: (g, u) in db.members <==> u in us
  }

  // A rewrite of some other group leaves the group in place
  lemma RewriteKeepsGroup(start: Db, p: Progress, q: Progress, d: DesiredGroup, target: string, kept: DesiredGroup,
          us: set<string>)
    requires Rewrote(start, p, q, d, target) && HasGroup(p.db, kept, us) && kept.ldapID != d.ldapID
    requires target in p.db.groups ==> p.db.groups[target].ldapID == Some(d.ldapID)
    ensures HasGroup(q.db, kept, us)
  {
    var g :| g in p.db.groups && p.db.groups[g] == Group(kept.name, Some(kept.ldapID))
             && forall u :: (g, u) in p.db.members <==> u in us;
    assert g != target && q.db.groups[g] == p.db.groups[g];
    forall u ensures (g, u) in q.db.members <==> u in us {
      assert (g, u).0 != target;
    }
  }

  lemma {:induction false} DesiredGroupsMatch(start: Db, desired: seq<DesiredGroup>, newIDs: seq<string>, i: nat)
    requires |desired| == |newIDs| && Constraints(start) && Fresh(newIDs, start.groups) && DistinctIDs(desired)
    requires SyncGroups(start, desired, newIDs).Some? && i < |desired|
    ensures HasGroup(SyncGroups(start, desired, newIDs).value.db, desired[i], MemberIDs(start.users, desired[i]))
  {
    var n := |desired| - 1;
    LastStep(start, desired, newIDs);
    hide Partial, Constraints;
    var front := SyncGroups(start, desired[..n], newIDs[..n]).value;
    var target := TargetGroup(front.db.groups, desired[n], newIDs[n]);
    var p := SyncGroups(start, desired, newIDs).value;
    if i < n {
      assert desired[..n][i] == desired[i];
      DesiredGroupsMatch(start, desired[..n], newIDs[..n], i);
      RewriteKeepsGroup(start, front, p, desired[n], target, desired[i], MemberIDs(start.users, desired[i]));
    } else {
      assert p.db.groups[target] == Group(desired[n].name, Some(desired[n].ldapID));
      assert forall u :: (target, u) in p.db.members <==> u in MemberIDs(start.users, desired[n]);
    }
  }

  // ---------------------------------------------------------------- the whole reconciliation

  // A group with the entry's name and ID, the one that had the ID before if there was one, whose members are exactly
  // the users that are managed by the directory and listed in the entry
  ghost predicate Matches(before: Db, after: Db, d: DesiredGroup) {
    exists g ::
      && g in after.groups && after.groups[g] == Group(d.name, Some(d.ldapID))
      && (forall old_ :: old_ in before.groups && before.groups[old_].ldapID == Some(d.ldapID) ==> old_ == g)
      && (forall u :: (g, u) in after.members <==>
            u in before.users && before.users[u].ldapID.Some? && before.users[u].username in d.memberUsernames)
  }

  lemma DesiredGroupMatches(db: Db, desired: seq<DesiredGroup>, newIDs: seq<string>, directory: set<string>, i: nat)
    requires |desired| == |newIDs| && Constraints(db) && Fresh(newIDs, db.groups) && DistinctIDs(desired)
    requires GroupIDs(desired) <= directory && i < |desired|
    requires ReconcileGroups(db, desired, newIDs, directory).Some?
    ensures Matches(db, ReconcileGroups(db, desired, newIDs, directory).value.db, desired[i])
  {
    var p := SyncGroups(db, desired, newIDs).value;
    var d := desired[i];
    SyncGroupsArePartial(db, desired, newIDs);
    DesiredGroupsMatch(db, desired, newIDs, i);
    var g :| g in p.db.groups && p.db.groups[g] == Group(d.name, Some(d.ldapID))
             && forall u :: (g, u) in p.db.members <==> u in MemberIDs(db.users, d);
    assert d.ldapID in GroupIDs(desired);
    forall old_ | old_ in db.groups && db.groups[old_].ldapID == Some(d.ldapID) ensures old_ == g {
      assert old_ in p.db.groups && p.db.groups[old_].ldapID == Some(d.ldapID);
    }
    hide Partial, SyncGroups, GroupIDs, UsersUnique, GroupsUnique, HasGroup;
    assert g !in GoneGroups(db.groups, directory);
    var r := ReconcileGroups(db, desired, newIDs, directory).value;
    assert g in r.db.groups && r.db.groups[g] == p.db.groups[g];
    forall u ensures (g, u) in r.db.members <==>
      u in db.users && db.users[u].ldapID.Some? && db.users[u].username in d.memberUsernames
    {
      assert (g, u) in r.db.members <==> (g, u) in p.db.members;
    }
  }

  /**
   With distinct LDAP IDs: every desired group exists under its name, and a user is a member exactly when the user
   is managed by the directory and listed under the name the row has; LDAP groups missing from the directory are
   gone; groups outside LDAP, and groups whose entry was invalid, keep row and members; and the reported users are
   exactly those who lost a membership.
   */
  lemma GroupsMatchDirectory(db: Db, desired: seq<DesiredGroup>, newIDs: seq<string>, directory: set<string>)
    requires |desired| == |newIDs| && Constraints(db) && Fresh(newIDs, db.groups) && DistinctIDs(desired)
    requires GroupIDs(desired) <= directory
    requires ReconcileGroups(db, desired, newIDs, directory).Some?
    ensures
      var r := ReconcileGroups(db, desired, newIDs, directory).value;
      && (forall i :: 0 <= i < |desired| ==> Matches(db, r.db, desired[i]))
      && (forall g :: g in r.db.groups && r.db.groups[g].ldapID.Some? ==> r.db.groups[g].ldapID.value in directory)
      && (forall g :: g in db.groups && (db.groups[g].ldapID.None? || db.groups[g].ldapID.value in directory - GroupIDs(desired)) ==>
            && g in r.db.groups && r.db.groups[g] == db.groups[g]
            && forall u :: (g, u) in r.db.members <==> (g, u) in db.members)
      && r.removed == LostMembers(db, r.db)
  {
    SyncGroupsArePartial(db, desired, newIDs);
    forall i | 0 <= i < |desired|
      ensures Matches(db, ReconcileGroups(db, desired, newIDs, directory).value.db, desired[i])
    {
      DesiredGroupMatches(db, desired, newIDs, directory, i);
    }
    ReportedUsersLostMembership(db, desired, newIDs, directory);
    hide Matches, LostMembers;
  }

  /** Reconciling groups changes no user and no authorization, and of a client only drops the groups that are gone. */
  lemma ClientsLoseGoneGroups(db: Db, desired: seq<DesiredGroup>, newIDs: seq<string>, directory: set<string>)
    requires |desired| == |newIDs| && Constraints(db) && Fresh(newIDs, db.groups)
    requires ReconcileGroups(db, desired, newIDs, directory).Some?
    ensures
      var after := ReconcileGroups(db, desired, newIDs, directory).value.db;
      && after.users == db.users && after.authorized == db.authorized && after.clients.Keys == db.clients.Keys
      && (forall c :: c in db.clients ==>
            var client, client' := db.clients[c], after.clients[c];
            && client'.groupRestricted == client.groupRestricted && client'.logoutURL == client.logoutURL
            && (forall g :: g in client'.allowedGroups <==>
                  && g in client.allowedGroups
                  && !(g in db.groups && db.groups[g].ldapID.Some? && db.groups[g].ldapID.value !in directory)))
  {
    SyncGroupsArePartial(db, desired, newIDs);
    hide Constraints, SyncGroups;
  }

  // ---------------------------------------------------------------- when a sync fails

  // The name belongs to a group with another ID, or with none
  ghost predicate NameTaken(groups: map<string, Group>, d: DesiredGroup) {
    exists g :: g in groups && groups[g].name == d.name && groups[g].ldapID != Some(d.ldapID)
  }

  lemma SyncGroupFailsExactlyWhen(start: Db, p: Progress, d: DesiredGroup, newID: string)
    requires GroupsUnique(p.db.groups) && newID !in p.db.groups
    ensures SyncGroup(start, p, d, newID).None? <==> NameTaken(p.db.groups, d)
  {
    TargetIsFree(p.db.groups, d, newID);
  }

  // Entry i finds its name taken when its turn comes
  ghost predicate FailsAt(start: Db, desired: seq<DesiredGroup>, newIDs: seq<string>, i: nat)
    requires |desired| == |newIDs| && i < |desired|
  {
    var p := SyncGroups(start, desired[..i], newIDs[..i]);
    p.Some? && NameTaken(p.value.db.groups, desired[i])
  }

  ghost predicate SomeEntryFails(start: Db, desired: seq<DesiredGroup>, newIDs: seq<string>)
    requires |desired| == |newIDs|
  {
    exists i :: 0 <= i < |desired| && FailsAt(start, desired, newIDs, i)
  }

  lemma SomeEntryOrTheLastFails(start: Db, desired: seq<DesiredGroup>, newIDs: seq<string>)
    requires |desired| == |newIDs| && desired != []
    ensures
      var n := |desired| - 1;
      SomeEntryFails(start, desired, newIDs) <==>
        SomeEntryFails(start, desired[..n], newIDs[..n]) || FailsAt(start, desired, newIDs, n)
  {
    var n := |desired| - 1;
    forall i | 0 <= i < n ensures FailsAt(start, desired[..n], newIDs[..n], i) == FailsAt(start, desired, newIDs, i) {
      assert desired[..n][..i] == desired[..i] && newIDs[..n][..i] == newIDs[..i] && desired[..n][i] == desired[i];
    }
    hide FailsAt;
  }

  /** The group part of a sync fails exactly when some entry, at its turn, finds its name at a group with another ID. */
  lemma {:induction false} SyncGroupsFailExactlyWhen(start: Db, desired: seq<DesiredGroup>, newIDs: seq<string>)
    requires |desired| == |newIDs| && Constraints(start) && Fresh(newIDs, start.groups)
    ensures SyncGroups(start, desired, newIDs).None? <==> SomeEntryFails(start, desired, newIDs)
  {
    if desired == [] {
    } else {
      var n := |desired| - 1;
      var front := SyncGroups(start, desired[..n], newIDs[..n]);
      SyncGroupsFailExactlyWhen(start, desired[..n], newIDs[..n]);
      SomeEntryOrTheLastFails(start, desired, newIDs);
      if front.Some? {
        SyncGroupsArePartial(start, desired[..n], newIDs[..n]);
        assert newIDs[n] !in IDSet(newIDs[..n]);
        assert newIDs[n] !in front.value.db.groups;
        SyncGroupFailsExactlyWhen(start, front.value, desired[n], newIDs[n]);
      }
      assert FailsAt(start, desired, newIDs, n) <==> front.Some? && NameTaken(front.value.db.groups, desired[n]);
      hide Partial, Constraints, NameTaken, SyncGroup, FailsAt, SomeEntryFails;
    }
  }

  /**
   For any directory, also one that repeats an ID: a user is reported exactly when some entry of one of the
   user's groups leaves the user out, or one of these groups is gone.
   */
  lemma ReportedExactlyWhen(db: Db, desired: seq<DesiredGroup>, newIDs: seq<string>, directory: set<string>, u: string)
    requires |desired| == |newIDs| && Constraints(db) && Fresh(newIDs, db.groups)
    requires ReconcileGroups(db, desired, newIDs, directory).Some?
    ensures u in ReconcileGroups(db, desired, newIDs, directory).value.removed <==>
      Dropped(db, desired, u) || InGoneGroup(db, directory, u)
  {
    ReportedAreDropped(db, desired, newIDs, u);
    if InGoneGroup(db, directory, u) {
      var g :| (g, u) in db.members && g in GoneGroups(db.groups, directory);
      assert (g, u).0 in GoneGroups(db.groups, directory) && (g, u).1 == u;
    }
  }

  /** A membership is lost exactly when the last entry of the group leaves the user out, or the group is gone. */
  lemma LostExactlyWhen(db: Db, desired: seq<DesiredGroup>, newIDs: seq<string>, directory: set<string>, g: string,
          u: string)
    requires |desired| == |newIDs| && Constraints(db) && Fresh(newIDs, db.groups)
    requires ReconcileGroups(db, desired, newIDs, directory).Some? && (g, u) in db.members
    ensures (g, u) !in ReconcileGroups(db, desired, newIDs, directory).value.db.members <==>
      DroppedFrom(db, desired, g, u) || g in GoneGroups(db.groups, directory)
  {
    LostToTheLastEntry(db, desired, newIDs, g, u);
  }

  // Nobody who lost a membership is missed, even when the directory repeats an ID
  lemma EveryLostMembershipIsReported(db: Db, desired: seq<DesiredGroup>, newIDs: seq<string>,
          directory: set<string>, g: string, u: string)
    requires |desired| == |newIDs| && Constraints(db) && Fresh(newIDs, db.groups)
    requires ReconcileGroups(db, desired, newIDs, directory).Some?
    requires (g, u) in db.members && (g, u) !in ReconcileGroups(db, desired, newIDs, directory).value.db.members
    ensures u in ReconcileGroups(db, desired, newIDs, directory).value.removed
  {
    LostExactlyWhen(db, desired, newIDs, directory, g, u);
    ReportedExactlyWhen(db, desired, newIDs, directory, u);
    hide ReconcileGroups, Constraints;
  }

  lemma LosersExactlyWhen(db: Db, desired: seq<DesiredGroup>, newIDs: seq<string>, directory: set<string>, u: string)
    requires |desired| == |newIDs| && Constraints(db) && Fresh(newIDs, db.groups)
    requires ReconcileGroups(db, desired, newIDs, directory).Some?
    ensures u in LostMembers(db, ReconcileGroups(db, desired, newIDs, directory).value.db) <==>
      DroppedLast(db, desired, u) || InGoneGroup(db, directory, u)
  {
    var after := ReconcileGroups(db, desired, newIDs, directory).value.db;
    forall g | (g, u) in db.members
      ensures (g, u) !in after.members <==> DroppedFrom(db, desired, g, u) || g in GoneGroups(db.groups, directory)
    {
      LostExactlyWhen(db, desired, newIDs, directory, g, u);
    }
    hide ReconcileGroups, Constraints, GoneGroups, IsLast;
    if DroppedLast(db, desired, u) || InGoneGroup(db, directory, u) {
      var g :| (g, u) in db.members && (DroppedFrom(db, desired, g, u) || g in GoneGroups(db.groups, directory));
      assert (g, u).1 == u;
    }
    if u in LostMembers(db, after) {
      var m :| m in db.members && m !in after.members && m.1 == u;
      assert m == (m.0, u);
    }
  }

  /**
   The report names exactly those who lost a membership if and only if everybody whom some entry leaves out is
   left out by the last entry of one of their groups too, or is in a group that is gone.
   */
  lemma ReportIsExactExactlyWhen(db: Db, desired: seq<DesiredGroup>, newIDs: seq<string>, directory: set<string>)
    requires |desired| == |newIDs| && Constraints(db) && Fresh(newIDs, db.groups)
    requires ReconcileGroups(db, desired, newIDs, directory).Some?
    ensures
      var r := ReconcileGroups(db, desired, newIDs, directory).value;
      r.removed == LostMembers(db, r.db) <==>
        forall u :: Dropped(db, desired, u) ==> DroppedLast(db, desired, u) || InGoneGroup(db, directory, u)
  {
    var r := ReconcileGroups(db, desired, newIDs, directory).value;
    forall u
      ensures u in r.removed <==> Dropped(db, desired, u) || InGoneGroup(db, directory, u)
      ensures u in LostMembers(db, r.db) <==> DroppedLast(db, desired, u) || InGoneGroup(db, directory, u)
      ensures DroppedLast(db, desired, u) ==> Dropped(db, desired, u)
    {
      ReportedExactlyWhen(db, desired, newIDs, directory, u);
      LosersExactlyWhen(db, desired, newIDs, directory, u);
    }
    hide ReconcileGroups, Constraints, LostMembers, Dropped, DroppedLast, InGoneGroup;
  }

  // So it does when no ID is repeated
  lemma ReportedUsersLostMembership(db: Db, desired: seq<DesiredGroup>, newIDs: seq<string>, directory: set<string>)
    requires |desired| == |newIDs| && Constraints(db) && Fresh(newIDs, db.groups) && DistinctIDs(desired)
    requires ReconcileGroups(db, desired, newIDs, directory).Some?
    ensures
      var r := ReconcileGroups(db, desired, newIDs, directory).value;
      r.removed == LostMembers(db, r.db)
  {
    ReportIsExactExactlyWhen(db, desired, newIDs, directory);
    forall u | Dropped(db, desired, u) ensures DroppedLast(db, desired, u) {
      var g, j :| DropsAt(db, desired, g, u, j);
      assert IsLast(desired, j) && DroppedFrom(db, desired, g, u);
    }
  }

  lemma ReconcileGroupsKeepsConstraints(db: Db, desired: seq<DesiredGroup>, newIDs: seq<string>, directory: set<string>)
    requires |desired| == |newIDs| && Constraints(db) && Fresh(newIDs, db.groups)
    requires ReconcileGroups(db, desired, newIDs, directory).Some?
    ensures Constraints(ReconcileGroups(db, desired, newIDs, directory).value.db)
  {
    SyncGroupsArePartial(db, desired, newIDs);
  }

  // One group, one member, and a directory that lists the group twice
  const STAFF := Db(map["u" := User("ann", None, Some("1"), false, false)], map["g" := Group("staff", Some("9"))],
                    {("g", "u")}, map[], {})
  const WITHOUT_ANN := DesiredGroup("9", "staff", [])
  const WITH_ANN := DesiredGroup("9", "staff", ["ann"])

  lemma StaffIsFound()
    ensures FindGroup(STAFF.groups, "9") == Some("g") && !NameInUse(STAFF.groups, "g", "staff")
    ensures STAFF.groups["g" := STAFF.groups["g"].(name := "staff")] == STAFF.groups
    ensures MembersOf(STAFF, "g") == {"u"}
  {
    assert "g" in STAFF.groups && STAFF.groups["g"].ldapID == Some("9");
    assert ("g", "u").1 in MembersOf(STAFF, "g");
  }

  lemma AnnIsDropped()
    ensures SyncGroup(STAFF, Progress(STAFF, {}), WITHOUT_ANN, "x") == Some(Progress(STAFF.(members := {}), {"u"}))
  {
    StaffIsFound();
    assert MemberIDs(STAFF.users, WITHOUT_ANN) == {};
    assert ReplaceMembers(STAFF, "g", {}) == STAFF.(members := {});
    assert {} + Lost(STAFF, "g", {}) == {"u"};
    hide MembersOf, MemberIDs, ReplaceMembers, NameInUse;
  }

  lemma AnnComesBack()
    ensures SyncGroup(STAFF, Progress(STAFF.(members := {}), {"u"}), WITH_ANN, "y") == Some(Progress(STAFF, {"u"}))
  {
    StaffIsFound();
    assert MemberIDs(STAFF.users, WITH_ANN) == {"u"};
    assert ReplaceMembers(STAFF.(members := {}), "g", {"u"}) == STAFF by {
      assert ReplaceMembers(STAFF.(members := {}), "g", {"u"}).members == {("g", "u")};
    }
    assert {"u"} + Lost(STAFF, "g", {"u"}) == {"u"};
    hide MembersOf, MemberIDs, ReplaceMembers, NameInUse;
  }

  /**
   Without distinct IDs the report can name someone who lost nothing: the first entry drops the member,
   the second entry with the same ID brings the member back.
   */
  lemma RepeatedIDsCanOverreport()
    ensures
      var r := ReconcileGroups(STAFF, [WITHOUT_ANN, WITH_ANN], ["x", "y"], {"9"});
      r.Some? && r.value.db.members == STAFF.members && r.value.removed == {"u"}
  {
    var a, b := WITHOUT_ANN, WITH_ANN;
    assert [a, b][..1] == [a] && ["x", "y"][..1] == ["x"] && [a][..0] == [] && ["x"][..0] == [];
    AnnIsDropped();
    AnnComesBack();
    hide SyncGroup;
    assert SyncGroups(STAFF, [a], ["x"]) == SyncGroup(STAFF, Progress(STAFF, {}), a, "x");
    assert SyncGroups(STAFF, [a, b], ["x", "y"]) == Some(Progress(STAFF, {"u"}));
  }
}
