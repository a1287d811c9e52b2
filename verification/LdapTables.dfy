/**
 The tables an LDAP sync rewrites, and what the sync does to them. Users and groups are matched by LDAP
 ID; rows without one are not managed by the directory.
 */
module LdapTables {
  import opened Common

  datatype User = User(username: string, email: Option<string>, ldapID: Option<string>, disabled: bool, isAdmin: bool)

  datatype Group = Group(name: string, ldapID: Option<string>)

  datatype Client = Client(groupRestricted: bool, allowedGroups: set<string>, logoutURL: string)

  datatype Db = Db(
    users: map<string, User>,
    groups: map<string, Group>,
    members: set<(string, string)>,     // (group, user)
    clients: map<string, Client>,
    authorized: set<(string, string)>   // (user, client)
  )

  datatype DesiredUser = DesiredUser(ldapID: string, username: string, email: Option<string>, isAdmin: bool)

  datatype DesiredGroup = DesiredGroup(ldapID: string, name: string, memberUsernames: seq<string>)

  // The collation is the one of the unique username column
  datatype Config = Config(softDelete: bool, notifies: bool, collate: string -> string)

  // What the schema enforces
  ghost predicate Constraints(db: Db) {
    && UsersUnique(db.users) && GroupsUnique(db.groups)
    && (forall m :: m in db.members ==> m.0 in db.groups && m.1 in db.users)
    && (forall a :: a in db.authorized ==> a.0 in db.users && a.1 in db.clients)
  }

  ghost predicate UsersUnique(users: map<string, User>) {
    forall u, v | u in users && v in users ::
      (|| users[u].username == users[v].username
       || (users[u].ldapID.Some? && users[u].ldapID == users[v].ldapID)
       || (users[u].email.Some? && users[u].email == users[v].email)) ==> u == v
  }

  ghost predicate GroupsUnique(groups: map<string, Group>) {
    forall g, h | g in groups && h in groups ::
      groups[g].name == groups[h].name || (groups[g].ldapID.Some? && groups[g].ldapID == groups[h].ldapID) ==> g == h
  }

  // ---------------------------------------------------------------- users

  ghost function FindUser(users: map<string, User>, id: string): (r: Option<string>)
    ensures r.Some? ==> r.value in users && users[r.value].ldapID == Some(id)
    ensures r.None? ==> forall u :: u in users ==> users[u].ldapID != Some(id)
  {
    if u :| u in users && users[u].ldapID == Some(id) then Some(u) else None
  }

  // Another user has this name or this address
  predicate UserInUse(cfg: Config, users: map<string, User>, self: string, d: DesiredUser) {
    exists v :: v in users && v != self
      && (cfg.collate(users[v].username) == cfg.collate(d.username) || (d.email.Some? && users[v].email == d.email))
  }

  function UserRow(d: DesiredUser): User {
    User(d.username, d.email, Some(d.ldapID), false, d.isAdmin)
  }

  // A user who is back in the directory is enabled even when the rest of the update is skipped
  ghost function SyncUser(cfg: Config, users: map<string, User>, d: DesiredUser, newID: string): map<string, User> {
    match FindUser(users, d.ldapID)
    case Some(u) =>
      var enabled := users[u := users[u].(disabled := false)];
      if UserInUse(cfg, enabled, u, d) then enabled else enabled[u := UserRow(d)]
    case None =>
      if UserInUse(cfg, users, newID, d) then users else users[newID := UserRow(d)]
  }

  ghost function SyncUsers(cfg: Config, users: map<string, User>, desired: seq<DesiredUser>,
          newIDs: seq<string>): map<string, User>
    requires |desired| == |newIDs|
  {
    if desired == [] then users
    else
      var n := |desired| - 1;
      SyncUser(cfg, SyncUsers(cfg, users, desired[..n], newIDs[..n]), desired[n], newIDs[n])
  }

  function LdapIDs(desired: seq<DesiredUser>): set<string> {
    set i | 0 <= i < |desired| :: desired[i].ldapID
  }

  // LDAP-managed users that the directory does not have any more
  function Gone(users: map<string, User>, directory: set<string>): set<string> {
    set u | u in users && users[u].ldapID.Some? && users[u].ldapID.value !in directory
  }

  function Disable(db: Db, gone: set<string>): Db {
    db.(users := map u | u in db.users :: if u in gone then db.users[u].(disabled := true) else db.users[u])
  }

  function DeleteUsers(db: Db, gone: set<string>): Db {
    db.(users := db.users - gone,
        members := (set m | m in db.members && m.1 !in gone),
        authorized := (set a | a in db.authorized && a.0 !in gone))
  }

  function Deprovision(cfg: Config, db: Db, gone: set<string>): Db {
    if cfg.softDelete then Disable(db, gone) else DeleteUsers(db, gone)
  }

  ghost function ReconcileUsers(cfg: Config, db: Db, desired: seq<DesiredUser>, newIDs: seq<string>,
          directory: set<string>): Db
    requires |desired| == |newIDs|
  {
    Deprovision(cfg, db.(users := SyncUsers(cfg, db.users, desired, newIDs)), Gone(db.users, directory))
  }

  // Users that an earlier sync disabled are not notified again
  function Deprovisioned(cfg: Config, users: map<string, User>, directory: set<string>): set<string> {
    set u | u in Gone(users, directory) && !(cfg.softDelete && users[u].disabled)
  }

  // ---------------------------------------------------------------- groups

  ghost function FindGroup(groups: map<string, Group>, id: string): (r: Option<string>)
    ensures r.Some? ==> r.value in groups && groups[r.value].ldapID == Some(id)
    ensures r.None? ==> forall g :: g in groups ==> groups[g].ldapID != Some(id)
  {
    if g :| g in groups && groups[g].ldapID == Some(id) then Some(g) else None
  }

  predicate NameInUse(groups: map<string, Group>, self: string, name: string) {
    exists g :: g in groups && g != self && groups[g].name == name
  }

  // Only LDAP users count: a name that is someone else's, or nobody's, is ignored
  function MemberIDs(users: map<string, User>, d: DesiredGroup): set<string> {
    set u | u in users && users[u].ldapID.Some? && users[u].username in d.memberUsernames
  }

  function MembersOf(db: Db, g: string): set<string> {
    set m | m in db.members && m.0 == g :: m.1
  }

  function ReplaceMembers(db: Db, g: string, us: set<string>): Db {
    db.(members := (set m | m in db.members && m.0 != g) + set u | u in us :: (g, u))
  }

  datatype Progress = Progress(db: Db, removed: set<string>)

  // The members a group had before the sync and is not given now
  function Lost(start: Db, g: string, us: set<string>): set<string> {
    if g in start.groups && start.groups[g].ldapID.Some? then MembersOf(start, g) - us else {}
  }

  ghost function SyncGroup(start: Db, p: Progress, d: DesiredGroup, newID: string): Option<Progress> {
    var us := MemberIDs(start.users, d);
    match FindGroup(p.db.groups, d.ldapID)
    case None =>
      if NameInUse(p.db.groups, newID, d.name) then None
      else
        var created := p.db.(groups := p.db.groups[newID := Group(d.name, Some(d.ldapID))]);
        Some(Progress(ReplaceMembers(created, newID, us), p.removed))
    case Some(g) =>
      if NameInUse(p.db.groups, g, d.name) then None
      else
        var renamed := p.db.(groups := p.db.groups[g := p.db.groups[g].(name := d.name)]);
        Some(Progress(ReplaceMembers(renamed, g, us), p.removed + Lost(start, g, us)))
  }

  // A name collision aborts the whole sync
  ghost function SyncGroups(start: Db, desired: seq<DesiredGroup>, newIDs: seq<string>): Option<Progress>
    requires |desired| == |newIDs|
  {
    if desired == [] then Some(Progress(start, {}))
    else
      var n := |desired| - 1;
      match SyncGroups(start, desired[..n], newIDs[..n])
      case None => None
      case Some(p) => SyncGroup(start, p, desired[n], newIDs[n])
  }

  function GoneGroups(groups: map<string, Group>, directory: set<string>): set<string> {
    set g | g in groups && groups[g].ldapID.Some? && groups[g].ldapID.value !in directory
  }

  // Deleting a group takes its memberships and its place in client restrictions along
  function DeleteGroups(db: Db, gone: set<string>): Db {
    db.(groups := db.groups - gone,
        members := (set m | m in db.members && m.0 !in gone),
        clients := map c | c in db.clients :: db.clients[c].(allowedGroups := db.clients[c].allowedGroups - gone))
  }

  ghost function ReconcileGroups(db: Db, desired: seq<DesiredGroup>, newIDs: seq<string>,
          directory: set<string>): Option<Progress>
    requires |desired| == |newIDs|
  {
    match SyncGroups(db, desired, newIDs)
    case None => None
    case Some(p) =>
      var gone := GoneGroups(db.groups, directory);
      Some(Progress(DeleteGroups(p.db, gone), p.removed + set m | m in db.members && m.0 in gone :: m.1))
  }

  ghost predicate Fresh<T>(ids: seq<string>, rows: map<string, T>) {
    && (forall i :: 0 <= i < |ids| ==> ids[i] !in rows)
    && (forall i, j :: 0 <= i < j < |ids| ==> ids[i] != ids[j])
  }
}
