/**
 Back-channel logout: which clients have to be told that a user's session ends, and the theorem that an
 LDAP sync tells every client whose session it ended.
 */
module Backchannel {
  import opened Common
  import opened LdapTables
  import opened LdapUsers
  import opened LdapGroups

  datatype Target = Target(userID: string, clientID: string, logoutURL: string)

  // IsUserGroupAllowedToAuthorize: a restricted client is open to the members of its allowed groups
  predicate Allowed(db: Db, u: string, c: string)
    requires c in db.clients
  {
    !db.clients[c].groupRestricted || exists g :: g in db.clients[c].allowedGroups && (g, u) in db.members
  }

  // Authorizations of clients that registered a logout URL
  function Targets(db: Db): set<Target> {
    set a | a in db.authorized && a.1 in db.clients && db.clients[a.1].logoutURL != "" ::
      Target(a.0, a.1, db.clients[a.1].logoutURL)
  }

  function TargetsForUsers(db: Db, us: set<string>): set<Target> {
    set t | t in Targets(db) && t.userID in us
  }

  // An empty filter matches nobody, and the query runs after the change
  function TargetsForLostGroupAccess(db: Db, us: set<string>, client: string): set<Target> {
    if us == {} && client == "" then {}
    else
      set t | t in Targets(db) && t.clientID in db.clients && db.clients[t.clientID].groupRestricted
              && !Allowed(db, t.userID, t.clientID)
              && (us != {} ==> t.userID in us) && (client != "" ==> t.clientID == client)
  }

  // The two nested loops over allowed groups and own groups
  method IsUserGroupAllowed(restricted: bool, allowedGroups: seq<string>, userGroups: seq<string>)
    returns (allowed: bool)
    ensures allowed <==> !restricted || exists g :: g in allowedGroups && g in userGroups
  {
    if !restricted {
      return true;
    }
    for i := 0 to |allowedGroups|
      invariant forall g :: g in allowedGroups[..i] ==> g !in userGroups
    {
      for j := 0 to |userGroups|
        invariant allowedGroups[i] !in userGroups[..j]
      {
        if allowedGroups[i] == userGroups[j] {
          assert allowedGroups[i] in userGroups;
          return true;
        }
      }
      assert userGroups[..|userGroups|] == userGroups;
    }
    assert allowedGroups[..|allowedGroups|] == allowedGroups;
    allowed := false;
  }

  /** Exactly the authorized clients with a logout URL that matching users can no longer use are notified. */
  lemma LostAccessTargetsExactly(db: Db, us: set<string>, client: string, u: string, c: string)
    requires c in db.clients && (us != {} || client != "")
    ensures
      Target(u, c, db.clients[c].logoutURL) in TargetsForLostGroupAccess(db, us, client) <==>
        && (u, c) in db.authorized && db.clients[c].logoutURL != ""
        && db.clients[c].groupRestricted && (forall g :: g in db.clients[c].allowedGroups ==> (g, u) !in db.members)
        && (us != {} ==> u in us) && (client != "" ==> c == client)
  {
  }

  // ---------------------------------------------------------------- one whole sync

  datatype SyncInput = SyncInput(
    users: seq<DesiredUser>, userIDs: set<string>, newUserIDs: seq<string>,
    groups: seq<DesiredGroup>, groupIDs: set<string>, newGroupIDs: seq<string>
  )

  datatype Synced = Synced(db: Db, targets: set<Target>)

  ghost predicate ValidInput(db: Db, s: SyncInput) {
    && |s.users| == |s.newUserIDs| && Fresh(s.newUserIDs, db.users) && LdapIDs(s.users) <= s.userIDs
    && |s.groups| == |s.newGroupIDs| && Fresh(s.newGroupIDs, db.groups) && GroupIDs(s.groups) <= s.groupIDs
  }

  // The tables as they are when the notifications for deprovisioned users are looked up
  ghost function BeforeDeprovisioning(cfg: Config, db: Db, s: SyncInput): Db
    requires |s.users| == |s.newUserIDs|
  {
    db.(users := SyncUsers(cfg, db.users, s.users, s.newUserIDs))
  }

  // Deprovisioned users are looked up inside the transaction, lost group access after it
  ghost function SyncAll(cfg: Config, db: Db, s: SyncInput): Option<Synced>
    requires |s.users| == |s.newUserIDs| && |s.groups| == |s.newGroupIDs|
  {
    var afterUsers := ReconcileUsers(cfg, db, s.users, s.newUserIDs, s.userIDs);
    match ReconcileGroups(afterUsers, s.groups, s.newGroupIDs, s.groupIDs)
    case None => None
    case Some(p) =>
      Some(Synced(p.db,
                  if !cfg.notifies then {}
                  else
                    TargetsForUsers(BeforeDeprovisioning(cfg, db, s), Deprovisioned(cfg, db.users, s.userIDs))
                    + TargetsForLostGroupAccess(p.db, p.removed, "")))
  }

  // u may sign in to c
  ghost predicate MayUse(db: Db, u: string, c: string) {
    u in db.users && !db.users[u].disabled && c in db.clients && Allowed(db, u, c)
  }

  /**
   A pair that had group access before the groups were reconciled, and lacks it now, is among the lost-access
   targets.
   */
  lemma LostGroupAccessIsTargeted(db: Db, desired: seq<DesiredGroup>, newIDs: seq<string>, directory: set<string>,
          u: string, c: string)
    requires |desired| == |newIDs| && Constraints(db) && Fresh(newIDs, db.groups)
    requires ReconcileGroups(db, desired, newIDs, directory).Some?
    requires c in db.clients && Allowed(db, u, c) && (u, c) in db.authorized && db.clients[c].logoutURL != ""
    ensures
      var p := ReconcileGroups(db, desired, newIDs, directory).value;
      && c in p.db.clients && p.db.clients[c].logoutURL == db.clients[c].logoutURL
      && (!Allowed(p.db, u, c) ==>
            Target(u, c, db.clients[c].logoutURL) in TargetsForLostGroupAccess(p.db, p.removed, ""))
  {
    var p := ReconcileGroups(db, desired, newIDs, directory).value;
    SyncGroupsArePartial(db, desired, newIDs);
    if !Allowed(p.db, u, c) {
      var g :| g in db.clients[c].allowedGroups && (g, u) in db.members;
      assert (g, u) !in p.db.members;
      EveryLostMembershipIsReported(db, desired, newIDs, directory, g, u);
      LostAccessTargetsExactly(p.db, p.removed, "", u, c);
    }
  }

  /**
   A successful sync notifies every client with a logout URL that a user had authorized and could use
   before the sync, and cannot use after it: because the user is gone or disabled, or lost the groups.
   */
  lemma EveryEndedSessionIsNotified(cfg: Config, db: Db, s: SyncInput, u: string, c: string)
    requires cfg.notifies && Constraints(db) && ValidInput(db, s) && SyncAll(cfg, db, s).Some?
    requires MayUse(db, u, c) && (u, c) in db.authorized && db.clients[c].logoutURL != ""
    ensures
      var r := SyncAll(cfg, db, s).value;
      MayUse(r.db, u, c) || Target(u, c, db.clients[c].logoutURL) in r.targets
  {
    var afterUsers := ReconcileUsers(cfg, db, s.users, s.newUserIDs, s.userIDs);
    ReconcileUsersKeepsConstraints(cfg, db, s.users, s.newUserIDs, s.userIDs);
    if u in Gone(db.users, s.userIDs) {
      assert u in Deprovisioned(cfg, db.users, s.userIDs);
      var a := (u, c);
      assert Target(a.0, a.1, db.clients[c].logoutURL) in Targets(BeforeDeprovisioning(cfg, db, s));
    } else {
      PresentUsersAreSafe(cfg, db, s.users, s.newUserIDs, s.userIDs, u);
      assert Allowed(afterUsers, u, c) by {
        if db.clients[c].groupRestricted {
          var g :| g in db.clients[c].allowedGroups && (g, u) in db.members;
          assert (g, u) in afterUsers.members;
        }
      }
      LostGroupAccessIsTargeted(afterUsers, s.groups, s.newGroupIDs, s.groupIDs, u, c);
      SyncGroupsArePartial(afterUsers, s.groups, s.newGroupIDs);
    }
  }

  // Of the tables with the new users: an entry of one of u's groups leaves u out, or a group of u is gone
  ghost predicate RemovedFromAGroup(cfg: Config, db: Db, s: SyncInput, u: string)
    requires |s.users| == |s.newUserIDs|
  {
    var afterUsers := ReconcileUsers(cfg, db, s.users, s.newUserIDs, s.userIDs);
    Dropped(afterUsers, s.groups, u) || InGoneGroup(afterUsers, s.groupIDs, u)
  }

  // What every target needs: the user left the directory and no earlier sync disabled the user already, or the
  // user was removed from a group and is not allowed now
  ghost predicate HasCause(cfg: Config, db: Db, s: SyncInput, after: Db, t: Target)
    requires |s.users| == |s.newUserIDs|
  {
    || (t.userID in Deprovisioned(cfg, db.users, s.userIDs) && t in Targets(BeforeDeprovisioning(cfg, db, s)))
    || (t in Targets(after) && !Allowed(after, t.userID, t.clientID) && RemovedFromAGroup(cfg, db, s, t.userID))
  }

  /**
   Nobody is logged out without cause, and with notifications on a cause is enough. This holds of any
   directory, also one that repeats a group ID.
   */
  lemma EveryTargetHasCause(cfg: Config, db: Db, s: SyncInput, t: Target)
    requires Constraints(db) && ValidInput(db, s) && SyncAll(cfg, db, s).Some?
    ensures
      var r := SyncAll(cfg, db, s).value;
      t in r.targets <==> cfg.notifies && HasCause(cfg, db, s, r.db, t)
  {
    var afterUsers := ReconcileUsers(cfg, db, s.users, s.newUserIDs, s.userIDs);
    ReconcileUsersKeepsConstraints(cfg, db, s.users, s.newUserIDs, s.userIDs);
    ReportedExactlyWhen(afterUsers, s.groups, s.newGroupIDs, s.groupIDs, t.userID);
    hide ReconcileUsers, ReconcileGroups, Constraints, Dropped, InGoneGroup, BeforeDeprovisioning, Deprovisioned;
  }

  /**
   A user who is logged out for lack of a group did lose a membership, exactly when the last entry of one of
   the user's groups leaves the user out or one of them is gone.
   */
  lemma TargetLostMembershipExactlyWhen(cfg: Config, db: Db, s: SyncInput, u: string)
    requires Constraints(db) && ValidInput(db, s) && SyncAll(cfg, db, s).Some?
    requires u !in Gone(db.users, s.userIDs)
    ensures
      var afterUsers := ReconcileUsers(cfg, db, s.users, s.newUserIDs, s.userIDs);
      u in LostMembers(db, SyncAll(cfg, db, s).value.db) <==>
        DroppedLast(afterUsers, s.groups, u) || InGoneGroup(afterUsers, s.groupIDs, u)
  {
    var afterUsers := ReconcileUsers(cfg, db, s.users, s.newUserIDs, s.userIDs);
    ReconcileUsersKeepsConstraints(cfg, db, s.users, s.newUserIDs, s.userIDs);
    LosersExactlyWhen(afterUsers, s.groups, s.newGroupIDs, s.groupIDs, u);
    if u in db.users {
      PresentUsersAreSafe(cfg, db, s.users, s.newUserIDs, s.userIDs, u);
    }
    hide ReconcileUsers, ReconcileGroups, Dropped, DroppedLast, InGoneGroup;
    var after := SyncAll(cfg, db, s).value.db;
    if u in LostMembers(db, after) {
      var m :| m in db.members && m !in after.members && m.1 == u;
      assert m == (m.0, u) && m in afterUsers.members;
    }
    if u in LostMembers(afterUsers, after) {
      var m :| m in afterUsers.members && m !in after.members && m.1 == u;
      assert m == (m.0, u) && m in db.members;
    }
  }
}
