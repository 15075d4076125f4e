/** The access list of a project and the gate that decides single requests
  (backend/src/access/grant.rs, grant_model.rs, authorization.rs). */
module Grants {
  import opened Wrappers

  datatype Role = Owner | ReadWrite | ReadOnly
  datatype Permission = Read | Write
  datatype AccessType = ReadAccess | WriteAccess | ManageAccess
  datatype Source = DirectRole | ShareLinkInvite | Organization(name: string)
  datatype Need = ToRead | ToWrite | ToManage | ToGitSync

  function Rank(role: Role): nat {
    match role
    case Owner => 3
    case ReadWrite => 2
    case ReadOnly => 1
  }

  function AccessOf(role: Role): AccessType {
    match role
    case Owner => ManageAccess
    case ReadWrite => WriteAccess
    case ReadOnly => ReadAccess
  }

  function RoleOf(permission: Permission): Role {
    match permission
    case Read => ReadOnly
    case Write => ReadWrite
  }

  // ---- the gate ----

  predicate RoleAllows(need: Need, role: Role) {
    match need
    case ToRead => true
    case ToWrite => role.Owner? || role.ReadWrite?
    case ToManage => role.Owner?
    case ToGitSync => role.Owner?
  }

  predicate PermissionAllows(need: Need, permission: Permission) {
    match need
    case ToRead => true
    case ToWrite => permission.Write?
    case ToManage => false
    case ToGitSync => false
  }

  predicate Allows(direct: Option<Role>, organization: Option<Permission>, need: Need) {
    || (direct.Some? && RoleAllows(need, direct.value))
    || (organization.Some? && PermissionAllows(need, organization.value))
  }

  function EffectiveRole(direct: Option<Role>, organization: Option<Permission>): Role {
    var directRole := if direct.Some? then direct.value else ReadOnly;
    var organizationRole := if organization.Some? then RoleOf(organization.value) else ReadOnly;
    if Rank(organizationRole) > Rank(directRole) then organizationRole else directRole
  }

  /** Who passes the gate: any access at all reads; an owner, a read-write role or a write permission
    writes; and owners alone manage and use Git. */
  lemma GateMeans(direct: Option<Role>, organization: Option<Permission>)
    ensures Allows(direct, organization, ToRead) <==> direct.Some? || organization.Some?
    ensures Allows(direct, organization, ToWrite)
            <==> direct == Some(Owner) || direct == Some(ReadWrite) || organization == Some(Write)
    ensures Allows(direct, organization, ToManage) <==> direct == Some(Owner)
    ensures Allows(direct, organization, ToGitSync) <==> direct == Some(Owner)
  {
  }

  /** Whoever has access at all: the effective role passes a need exactly when the gate does. */
  lemma EffectiveRoleAgreesWithGate(direct: Option<Role>, organization: Option<Permission>, need: Need)
    ensures Allows(direct, organization, need)
            <==> (direct.Some? || organization.Some?) && RoleAllows(need, EffectiveRole(direct, organization))
  {
  }

  // ---- the rows both sides read ----

  /** Direct roles, at most one a user, and one row for each organisation that reaches the project
    and a member of it. */
  datatype DirectRow = DirectRow(user: nat, role: Role, source: Source)
  datatype OrganizationRow = OrganizationRow(user: nat, permission: Permission, name: string)

  predicate OneRoleEach(direct: seq<DirectRow>) {
    forall i, j :: 0 <= i < j < |direct| ==> direct[i].user != direct[j].user
  }

  /** The direct role the gate reads. */
  ghost predicate IsDirectRole(direct: seq<DirectRow>, user: nat, role: Option<Role>) {
    match role
    case Some(r) => exists row :: row in direct && row.user == user && row.role == r
    case None => forall row :: row in direct ==> row.user != user
  }

  /** The organisation permission the gate reads: the best one of any membership. */
  ghost predicate IsBestPermission(rows: seq<OrganizationRow>, user: nat, best: Option<Permission>) {
    match best
    case Some(p) =>
      && (exists row :: row in rows && row.user == user && row.permission == p)
      && (forall row :: row in rows && row.user == user && row.permission.Write? ==> p.Write?)
    case None => forall row :: row in rows ==> row.user != user
  }

  // ---- the access list ----

  datatype Grant = Grant(user: nat, role: Role, source: Source)

  datatype AccessUser = AccessUser(role: Role, access: AccessType, sources: seq<Source>)

  /** The list holds each granted user once, with the highest role and every source once. */
  ghost predicate Lists(users: map<nat, AccessUser>, grants: seq<Grant>) {
    && (forall user :: user in users <==> exists g :: g in grants && g.user == user)
    && (forall user :: user in users ==> Summarises(users[user], grants, user))
  }

  ghost predicate Summarises(entry: AccessUser, grants: seq<Grant>, user: nat) {
    && (exists g :: g in grants && g.user == user && g.role == entry.role)
    && (forall g :: g in grants && g.user == user ==> Rank(g.role) <= Rank(entry.role))
    && entry.access == AccessOf(entry.role)
    && (forall source {:trigger GrantedBy(grants, user, source)} :: source in entry.sources <==> GrantedBy(grants, user, source))
    && (forall i, j :: 0 <= i < j < |entry.sources| ==> entry.sources[i] != entry.sources[j])
  }

  ghost predicate GrantedBy(grants: seq<Grant>, user: nat, source: Source) {
    exists g :: g in grants && g.user == user && g.source == source
  }

  function Merged(entry: Option<AccessUser>, g: Grant): AccessUser {
    match entry
    case None => AccessUser(g.role, AccessOf(g.role), [g.source])
    case Some(e) =>
      AccessUser(if Rank(g.role) > Rank(e.role) then g.role else e.role,
                 if Rank(g.role) > Rank(e.role) then AccessOf(g.role) else e.access,
                 if g.source in e.sources then e.sources else e.sources + [g.source])
  }

  lemma GrantedNext(grants: seq<Grant>, g: Grant, user: nat, source: Source)
    ensures GrantedBy(grants + [g], user, source)
            <==> GrantedBy(grants, user, source) || (g.user == user && g.source == source)
  {
    var longer := grants + [g];
    assert forall h :: h in longer <==> h in grants || h == g;
  }

  lemma MergedSources(users: map<nat, AccessUser>, grants: seq<Grant>, g: Grant, source: Source)
    requires Lists(users, grants)
    ensures source in Merged(if g.user in users then Some(users[g.user]) else None, g).sources
            <==> GrantedBy(grants + [g], g.user, source)
  {
    GrantedNext(grants, g, g.user, source);
    if g.user in users {
      assert Summarises(users[g.user], grants, g.user);
    }
  }

  lemma MergedHighest(users: map<nat, AccessUser>, grants: seq<Grant>, g: Grant)
    requires Lists(users, grants)
    ensures var entry := Merged(if g.user in users then Some(users[g.user]) else None, g);
            && (exists h :: h in grants + [g] && h.user == g.user && h.role == entry.role)
            && (forall h :: h in grants + [g] && h.user == g.user ==> Rank(h.role) <= Rank(entry.role))
            && entry.access == AccessOf(entry.role)
            && (forall i, j :: 0 <= i < j < |entry.sources| ==> entry.sources[i] != entry.sources[j])
  {
    var longer := grants + [g];
    assert forall h :: h in longer <==> h in grants || h == g;
    if g.user in users {
      var entry := users[g.user];
      assert Summarises(entry, grants, g.user);
      var h :| h in grants && h.user == g.user && h.role == entry.role;
      assert h in longer;
    }
  }

  lemma MergedSummarises(users: map<nat, AccessUser>, grants: seq<Grant>, g: Grant)
    requires Lists(users, grants)
    ensures Summarises(Merged(if g.user in users then Some(users[g.user]) else None, g), grants + [g], g.user)
  {
    MergedHighest(users, grants, g);
    forall source
      ensures source in Merged(if g.user in users then Some(users[g.user]) else None, g).sources
              <==> GrantedBy(grants + [g], g.user, source)
    {
      MergedSources(users, grants, g, source);
    }
  }

  lemma OthersSummarised(users: map<nat, AccessUser>, grants: seq<Grant>, g: Grant, user: nat)
    requires Lists(users, grants) && user in users && user != g.user
    ensures Summarises(users[user], grants + [g], user)
  {
    var longer := grants + [g];
    assert forall h :: h in longer && h.user == user <==> h in grants && h.user == user;
    assert Summarises(users[user], grants, user);
    forall source
      ensures GrantedBy(longer, user, source) <==> GrantedBy(grants, user, source)
    {
      GrantedNext(grants, g, user, source);
    }
  }

  lemma ListsNext(users: map<nat, AccessUser>, grants: seq<Grant>, g: Grant)
    requires Lists(users, grants)
    ensures Lists(users[g.user := Merged(if g.user in users then Some(users[g.user]) else None, g)], grants + [g])
  {
    var longer := grants + [g];
    assert forall h :: h in longer <==> h in grants || h == g;
    MergedSummarises(users, grants, g);
    forall user | user in users && user != g.user
      ensures Summarises(users[user], longer, user)
    {
      OthersSummarised(users, grants, g, user);
    }
  }

  /** Both kinds of rows as grants, direct ones first. */
  function AllGrants(direct: seq<DirectRow>, rows: seq<OrganizationRow>): (grants: seq<Grant>)
    ensures |grants| == |direct| + |rows|
    ensures forall i :: 0 <= i < |direct| ==> grants[i] == Grant(direct[i].user, direct[i].role, direct[i].source)
    ensures forall i :: 0 <= i < |rows| ==>
      grants[|direct| + i] == Grant(rows[i].user, RoleOf(rows[i].permission), Organization(rows[i].name))
  {
    DirectGrants(direct) + OrganizationGrants(rows)
  }

  function DirectGrants(direct: seq<DirectRow>): seq<Grant> {
    seq(|direct|, i requires 0 <= i < |direct| => Grant(direct[i].user, direct[i].role, direct[i].source))
  }

  function OrganizationGrants(rows: seq<OrganizationRow>): seq<Grant> {
    seq(|rows|, i requires 0 <= i < |rows| => Grant(rows[i].user, RoleOf(rows[i].permission), Organization(rows[i].name)))
  }

  /** The accumulator of the access list; each merge updates one entry in place. */
  class AccessList {
    var users: map<nat, AccessUser>

    constructor ()
      ensures users == map[]
    {
      users := map[];
    }

    method MergeAccessUser(g: Grant, ghost done: seq<Grant>)
      requires Lists(users, done)
      modifies this
      ensures users == old(users)[g.user := Merged(if g.user in old(users) then Some(old(users)[g.user]) else None, g)]
      ensures Lists(users, done + [g])
    {
      ListsNext(users, done, g);
      if g.user !in users {
        users := users[g.user := AccessUser(g.role, AccessOf(g.role), [g.source])];
        return;
      }
      var entry := users[g.user];
      if Rank(g.role) > Rank(entry.role) {
        entry := entry.(role := g.role, access := AccessOf(g.role));
      }
      if g.source !in entry.sources {
        entry := entry.(sources := entry.sources + [g.source]);
      }
      users := users[g.user := entry];
    }

    /** Merges one kind of rows after those already `done`. */
    method MergeGrants(grants: seq<Grant>, ghost done: seq<Grant>)
      requires Lists(users, done)
      modifies this
      ensures Lists(users, done + grants)
    {
      assert done + grants[..0] == done;
      for i := 0 to |grants|
        invariant Lists(users, done + grants[..i])
      {
        assert done + grants[..i + 1] == done + grants[..i] + [grants[i]];
        MergeAccessUser(grants[i], done + grants[..i]);
      }
      assert grants[..|grants|] == grants;
    }

    method ListProjectAccessUsers(direct: seq<DirectRow>, rows: seq<OrganizationRow>)
      modifies this
      ensures Lists(users, AllGrants(direct, rows))
      ensures forall user :: user in users <==>
        (exists row :: row in direct && row.user == user) || exists row :: row in rows && row.user == user
      ensures forall user :: user in users ==> ListedAs(users[user], direct, rows, user)
    {
      users := map[];
      MergeGrants(DirectGrants(direct), []);
      assert [] + DirectGrants(direct) == DirectGrants(direct);
      MergeGrants(OrganizationGrants(rows), DirectGrants(direct));
      ListMeans(users, direct, rows);
    }
  }

  /** The entry of a user in terms of the rows: the highest role any of them gives, what it lets the
    user do, and where it comes from, each source once. */
  ghost predicate ListedAs(entry: AccessUser, direct: seq<DirectRow>, rows: seq<OrganizationRow>, user: nat) {
    && (entry.role == Owner <==> exists row :: row in direct && row.user == user && row.role == Owner)
    && (entry.role == ReadOnly <==>
          && (forall row :: row in direct && row.user == user ==> row.role == ReadOnly)
          && (forall row :: row in rows && row.user == user ==> row.permission == Read))
    && (entry.access == ManageAccess <==> entry.role == Owner)
    && (entry.access == WriteAccess <==> entry.role == ReadWrite)
    && (forall source :: source in entry.sources <==>
          (exists row :: row in direct && row.user == user && row.source == source)
          || (source.Organization? && exists row :: row in rows && row.user == user && row.name == source.name))
    && (forall i, j :: 0 <= i < j < |entry.sources| ==> entry.sources[i] != entry.sources[j])
  }

  lemma FromDirect(direct: seq<DirectRow>, rows: seq<OrganizationRow>, row: DirectRow)
    requires row in direct
    ensures Grant(row.user, row.role, row.source) in AllGrants(direct, rows)
  {
    var i :| 0 <= i < |direct| && direct[i] == row;
    assert AllGrants(direct, rows)[i] == Grant(row.user, row.role, row.source);
  }

  lemma FromOrganization(direct: seq<DirectRow>, rows: seq<OrganizationRow>, row: OrganizationRow)
    requires row in rows
    ensures Grant(row.user, RoleOf(row.permission), Organization(row.name)) in AllGrants(direct, rows)
  {
    var i :| 0 <= i < |rows| && rows[i] == row;
    assert AllGrants(direct, rows)[|direct| + i] == Grant(row.user, RoleOf(row.permission), Organization(row.name));
  }

  /** A grant is one row or the other. */
  lemma FromARow(direct: seq<DirectRow>, rows: seq<OrganizationRow>, g: Grant)
    requires g in AllGrants(direct, rows)
    ensures (exists row :: row in direct && g == Grant(row.user, row.role, row.source))
            || exists row :: row in rows && g == Grant(row.user, RoleOf(row.permission), Organization(row.name))
  {
    var grants := AllGrants(direct, rows);
    var i :| 0 <= i < |grants| && grants[i] == g;
    if i < |direct| {
      assert direct[i] in direct;
    } else {
      assert rows[i - |direct|] in rows;
    }
  }

  lemma EntryRole(entry: AccessUser, direct: seq<DirectRow>, rows: seq<OrganizationRow>, user: nat)
    requires Summarises(entry, AllGrants(direct, rows), user)
    ensures entry.role == Owner <==> exists row :: row in direct && row.user == user && row.role == Owner
    ensures entry.role == ReadOnly <==>
      && (forall row :: row in direct && row.user == user ==> row.role == ReadOnly)
      && (forall row :: row in rows && row.user == user ==> row.permission == Read)
  {
    var grants := AllGrants(direct, rows);
    var g :| g in grants && g.user == user && g.role == entry.role;
    FromARow(direct, rows, g);
    forall row | row in direct && row.user == user
      ensures Rank(row.role) <= Rank(entry.role)
    {
      FromDirect(direct, rows, row);
    }
    forall row | row in rows && row.user == user
      ensures Rank(RoleOf(row.permission)) <= Rank(entry.role)
    {
      FromOrganization(direct, rows, row);
    }
  }

  lemma EntrySources(entry: AccessUser, direct: seq<DirectRow>, rows: seq<OrganizationRow>, user: nat, source: Source)
    requires Summarises(entry, AllGrants(direct, rows), user)
    ensures source in entry.sources <==>
      (exists row :: row in direct && row.user == user && row.source == source)
      || (source.Organization? && exists row :: row in rows && row.user == user && row.name == source.name)
  {
    var grants := AllGrants(direct, rows);
    assert source in entry.sources <==> GrantedBy(grants, user, source);
    if GrantedBy(grants, user, source) {
      var g :| g in grants && g.user == user && g.source == source;
      FromARow(direct, rows, g);
    }
    forall row | row in direct && row.user == user && row.source == source
      ensures GrantedBy(grants, user, source)
    {
      FromDirect(direct, rows, row);
    }
    forall row | row in rows && row.user == user && source == Organization(row.name)
      ensures GrantedBy(grants, user, source)
    {
      FromOrganization(direct, rows, row);
    }
  }

  lemma ListMeans(users: map<nat, AccessUser>, direct: seq<DirectRow>, rows: seq<OrganizationRow>)
    requires Lists(users, AllGrants(direct, rows))
    ensures forall user :: user in users <==>
      (exists row :: row in direct && row.user == user) || exists row :: row in rows && row.user == user
    ensures forall user :: user in users ==> ListedAs(users[user], direct, rows, user)
  {
    forall row | row in direct { FromDirect(direct, rows, row); }
    forall row | row in rows { FromOrganization(direct, rows, row); }
    forall user | user in users
      ensures (exists row :: row in direct && row.user == user) || exists row :: row in rows && row.user == user
    {
      var g :| g in AllGrants(direct, rows) && g.user == user;
      FromARow(direct, rows, g);
    }
    forall user | user in users
      ensures ListedAs(users[user], direct, rows, user)
    {
      assert Summarises(users[user], AllGrants(direct, rows), user);
      EntryRole(users[user], direct, rows, user);
      forall source { EntrySources(users[user], direct, rows, user, source); }
    }
  }

  /** Order and repetition of the rows do not matter: the same users, roles and sources. */
  lemma OrderDoesNotMatter(users: map<nat, AccessUser>, grants: seq<Grant>, users': map<nat, AccessUser>, grants': seq<Grant>)
    requires Lists(users, grants) && Lists(users', grants')
    requires forall g :: g in grants <==> g in grants'
    ensures users.Keys == users'.Keys
    ensures forall user :: user in users ==>
      && users'[user].role == users[user].role && users'[user].access == users[user].access
      && multiset(users'[user].sources) == multiset(users[user].sources)
  {
    forall user | user in users
      ensures user in users' && users'[user].role == users[user].role && users'[user].access == users[user].access
      ensures multiset(users'[user].sources) == multiset(users[user].sources)
    {
      var g :| g in grants && g.user == user;
      assert Summarises(users[user], grants, user) && Summarises(users'[user], grants', user);
      assert Rank(users[user].role) == Rank(users'[user].role);
      forall source
        ensures source in users[user].sources <==> source in users'[user].sources
      {
        assert GrantedBy(grants, user, source) <==> GrantedBy(grants', user, source);
      }
      DistinctIsSet(users[user].sources, users'[user].sources);
    }
    forall user | user in users'
      ensures user in users
    {
      var g :| g in grants' && g.user == user;
    }
  }

  lemma DistinctIsSet(a: seq<Source>, b: seq<Source>)
    requires forall i, j :: 0 <= i < j < |a| ==> a[i] != a[j]
    requires forall i, j :: 0 <= i < j < |b| ==> b[i] != b[j]
    requires forall s :: s in a <==> s in b
    ensures multiset(a) == multiset(b)
  {
    forall s
      ensures multiset(a)[s] == multiset(b)[s]
    {
      DistinctCounts(a, s);
      DistinctCounts(b, s);
    }
  }

  lemma {:induction false} DistinctCounts(a: seq<Source>, s: Source)
    requires forall i, j :: 0 <= i < j < |a| ==> a[i] != a[j]
    ensures multiset(a)[s] == if s in a then 1 else 0
    decreases |a|
  {
    if a != [] {
      assert a == [a[0]] + a[1..];
      DistinctCounts(a[1..], s);
    }
  }

  /** The list agrees with the gate: listed if and only if reading is allowed, listed to write or
    manage if and only if writing is allowed, and owner if and only if managing is allowed. */
  lemma ListAgreesWithGate(users: map<nat, AccessUser>, direct: seq<DirectRow>, rows: seq<OrganizationRow>,
                           user: nat, role: Option<Role>, best: Option<Permission>)
    requires Lists(users, AllGrants(direct, rows)) && OneRoleEach(direct)
    requires IsDirectRole(direct, user, role) && IsBestPermission(rows, user, best)
    ensures user in users <==> Allows(role, best, ToRead)
    ensures user in users && users[user].access != ReadAccess <==> Allows(role, best, ToWrite)
    ensures user in users && users[user].role.Owner? <==> Allows(role, best, ToManage)
    ensures user in users ==> users[user].role == EffectiveRole(role, best)
  {
    Listed(users, direct, rows, user, role, best);
    ListedRole(users, direct, rows, user, role, best);
    EffectiveRoleAgreesWithGate(role, best, ToRead);
    EffectiveRoleAgreesWithGate(role, best, ToWrite);
    EffectiveRoleAgreesWithGate(role, best, ToManage);
  }

  lemma Listed(users: map<nat, AccessUser>, direct: seq<DirectRow>, rows: seq<OrganizationRow>,
               user: nat, role: Option<Role>, best: Option<Permission>)
    requires Lists(users, AllGrants(direct, rows))
    requires IsDirectRole(direct, user, role) && IsBestPermission(rows, user, best)
    ensures user in users <==> role.Some? || best.Some?
  {
    ListedIffGranted(direct, rows, user, role, best);
  }

  lemma ListedRole(users: map<nat, AccessUser>, direct: seq<DirectRow>, rows: seq<OrganizationRow>,
                   user: nat, role: Option<Role>, best: Option<Permission>)
    requires Lists(users, AllGrants(direct, rows)) && OneRoleEach(direct)
    requires IsDirectRole(direct, user, role) && IsBestPermission(rows, user, best)
    ensures user in users ==>
      users[user].role == EffectiveRole(role, best) && users[user].access == AccessOf(EffectiveRole(role, best))
  {
    if user in users {
      assert Summarises(users[user], AllGrants(direct, rows), user);
      HighestIsEffective(direct, rows, user, role, best, users[user].role);
    }
  }

  lemma ListedIffGranted(direct: seq<DirectRow>, rows: seq<OrganizationRow>, user: nat, role: Option<Role>, best: Option<Permission>)
    requires IsDirectRole(direct, user, role) && IsBestPermission(rows, user, best)
    ensures (exists g :: g in AllGrants(direct, rows) && g.user == user) <==> role.Some? || best.Some?
  {
    var grants := AllGrants(direct, rows);
    if role.Some? {
      var row :| row in direct && row.user == user;
      var i :| 0 <= i < |direct| && direct[i] == row;
      assert grants[i] in grants;
    }
    if best.Some? {
      var row :| row in rows && row.user == user;
      var i :| 0 <= i < |rows| && rows[i] == row;
      assert grants[|direct| + i] in grants;
    }
    forall g | g in grants && g.user == user
      ensures role.Some? || best.Some?
    {
      var i :| 0 <= i < |grants| && grants[i] == g;
      if i < |direct| {
        assert direct[i] in direct;
      } else {
        assert rows[i - |direct|] in rows;
      }
    }
  }

  lemma GrantsBelow(direct: seq<DirectRow>, rows: seq<OrganizationRow>, user: nat,
                    role: Option<Role>, best: Option<Permission>, highest: Role)
    requires IsDirectRole(direct, user, role) && IsBestPermission(rows, user, best)
    requires forall g :: g in AllGrants(direct, rows) && g.user == user ==> Rank(g.role) <= Rank(highest)
    ensures role.Some? ==> Rank(role.value) <= Rank(highest)
    ensures best.Some? ==> Rank(RoleOf(best.value)) <= Rank(highest)
  {
    var grants := AllGrants(direct, rows);
    if role.Some? {
      var row :| row in direct && row.user == user && row.role == role.value;
      var k :| 0 <= k < |direct| && direct[k] == row;
      assert grants[k] in grants;
    }
    if best.Some? {
      var row :| row in rows && row.user == user && row.permission == best.value;
      var k :| 0 <= k < |rows| && rows[k] == row;
      assert grants[|direct| + k] in grants;
    }
  }

  lemma GrantAttained(direct: seq<DirectRow>, rows: seq<OrganizationRow>, user: nat,
                      role: Option<Role>, best: Option<Permission>, g: Grant)
    requires OneRoleEach(direct) && IsDirectRole(direct, user, role) && IsBestPermission(rows, user, best)
    requires g in AllGrants(direct, rows) && g.user == user
    ensures role == Some(g.role) || (best.Some? && Rank(g.role) <= Rank(RoleOf(best.value)))
  {
    var grants := AllGrants(direct, rows);
    var i :| 0 <= i < |grants| && grants[i] == g;
    if i < |direct| {
      assert direct[i] in direct;
      var row :| row in direct && row.user == user && Some(row.role) == role;
      var k :| 0 <= k < |direct| && direct[k] == row;
      assert i == k;
    } else {
      assert rows[i - |direct|] in rows;
    }
  }

  lemma HighestIsEffective(direct: seq<DirectRow>, rows: seq<OrganizationRow>, user: nat,
                           role: Option<Role>, best: Option<Permission>, highest: Role)
    requires OneRoleEach(direct) && IsDirectRole(direct, user, role) && IsBestPermission(rows, user, best)
    requires exists g :: g in AllGrants(direct, rows) && g.user == user && g.role == highest
    requires forall g :: g in AllGrants(direct, rows) && g.user == user ==> Rank(g.role) <= Rank(highest)
    ensures highest == EffectiveRole(role, best)
  {
    var g :| g in AllGrants(direct, rows) && g.user == user && g.role == highest;
    GrantsBelow(direct, rows, user, role, best, highest);
    GrantAttained(direct, rows, user, role, best, g);
  }
}
