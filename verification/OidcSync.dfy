/** Synchronising a user's organisation memberships with the groups of an identity provider
  (backend/src/access/oidc_group.rs, organization_persistence.rs, grant_persistence.rs). */
module OidcSync {
  import opened Wrappers

  datatype OrganizationRole = Owner | Member

  function Rank(role: OrganizationRole): nat {
    match role
    case Owner => 2
    case Member => 1
  }

  /** Members of the organisation whose provider group is `group` get `role`. */
  datatype Mapping = Mapping(organization: nat, group: string, role: OrganizationRole)

  type Memberships = map<(nat, nat), OrganizationRole>

  function RoleOf(memberships: Memberships, organization: nat, user: nat): Option<OrganizationRole> {
    if (organization, user) in memberships then Some(memberships[(organization, user)]) else None
  }

  // ---- the declarative meaning of a synchronisation ----

  /** The highest role that any of the groups maps to. */
  predicate Desires(mappings: seq<Mapping>, groups: set<string>, organization: nat, desired: Option<OrganizationRole>) {
    match desired
    case Some(role) =>
      && (exists m :: m in mappings && m.organization == organization && m.group in groups && m.role == role)
      && (forall m :: m in mappings && m.organization == organization && m.group in groups ==> Rank(m.role) <= Rank(role))
    case None => forall m :: m in mappings && m.organization == organization ==> m.group !in groups
  }

  predicate Mapped(mappings: seq<Mapping>, organization: nat) {
    exists m :: m in mappings && m.organization == organization
  }

  /** An owner stays owner; otherwise the desired role, none where the organisation is mapped, and
    no change where it is not. */
  function FinalRole(current: Option<OrganizationRole>, desired: Option<OrganizationRole>, mapped: bool):
      Option<OrganizationRole> {
    if current == Some(Owner) then current
    else if desired.Some? then desired
    else if mapped then None
    else current
  }

  /** The memberships of the user are the final roles; nobody else's change. */
  ghost predicate Synced(before: Memberships, after: Memberships, mappings: seq<Mapping>, groups: set<string>, user: nat) {
    && (forall key: (nat, nat) :: key.1 != user ==>
          (key in after <==> key in before) && (key in before ==> after[key] == before[key]))
    && (forall organization, desired {:trigger Desires(mappings, groups, organization, desired)} ::
          Desires(mappings, groups, organization, desired) ==>
            RoleOf(after, organization, user)
            == FinalRole(RoleOf(before, organization, user), desired, Mapped(mappings, organization)))
  }

  /** Every membership but that of the user in the organisation is as it was. */
  ghost predicate OthersKept(before: Memberships, after: Memberships, organization: nat, user: nat) {
    forall key: (nat, nat) :: key != (organization, user) ==>
      (key in after <==> key in before) && (key in before ==> after[key] == before[key])
  }

  lemma {:induction false} SomeDesire(mappings: seq<Mapping>, groups: set<string>, organization: nat) returns (desired: Option<OrganizationRole>)
    ensures Desires(mappings, groups, organization, desired)
    decreases |mappings|
  {
    if mappings == [] {
      return None;
    }
    var last := mappings[|mappings| - 1];
    var rest := mappings[..|mappings| - 1];
    assert forall m :: m in mappings <==> m in rest || m == last;
    desired := SomeDesire(rest, groups, organization);
    if last.organization == organization && last.group in groups && (desired.None? || Rank(last.role) > Rank(desired.value)) {
      desired := Some(last.role);
      assert last in mappings;
    } else if desired.Some? {
      var m :| m in rest && m.organization == organization && m.group in groups && m.role == desired.value;
      assert m in mappings;
    }
  }

  /** The result is determined: two memberships that both count as synchronised are equal. */
  lemma SyncIsDetermined(before: Memberships, after: Memberships, other: Memberships,
                         mappings: seq<Mapping>, groups: set<string>, user: nat)
    requires Synced(before, after, mappings, groups, user) && Synced(before, other, mappings, groups, user)
    ensures after == other
  {
    forall key
      ensures key in after <==> key in other
      ensures key in after && key in other ==> after[key] == other[key]
    {
      if key.1 == user {
        var desired := SomeDesire(mappings, groups, key.0);
        assert RoleOf(after, key.0, user) == RoleOf(other, key.0, user);
      }
    }
  }

  /** Synchronising again with the same groups changes no membership and moves no project's epoch. */
  lemma SyncIsIdempotent(before: Memberships, after: Memberships, again: Memberships,
                         mappings: seq<Mapping>, groups: set<string>, user: nat, projects: Projects, projects': Projects)
    requires Synced(before, after, mappings, groups, user) && Synced(after, again, mappings, groups, user)
    requires Advanced(projects, projects', ChangedFor(after, again, user))
    ensures again == after && ChangedFor(after, again, user) == {} && projects' == projects
  {
    forall key
      ensures key in again <==> key in after
      ensures key in again && key in after ==> again[key] == after[key]
    {
      if key.1 == user {
        var desired := SomeDesire(mappings, groups, key.0);
        assert RoleOf(again, key.0, user) == RoleOf(after, key.0, user);
      }
    }
    assert Reached(projects.grants, {}) == {};
    assert projects'.epochs == projects.epochs;
  }

  datatype Login = Login(user: nat, groups: set<string>, mappings: seq<Mapping>)

  /** The states of a run of synchronisations, by any users, while mappings change in between. */
  ghost predicate Logins(states: seq<Memberships>, logins: seq<Login>) {
    && |states| == |logins| + 1
    && forall i :: 0 <= i < |logins| ==>
         Synced(states[i], states[i + 1], logins[i].mappings, logins[i].groups, logins[i].user)
  }

  /** Over any run of synchronisations an owner stays an owner. */
  lemma {:induction false} OwnersStayOwners(states: seq<Memberships>, logins: seq<Login>, organization: nat, user: nat, i: nat)
    requires Logins(states, logins) && i <= |logins| && RoleOf(states[0], organization, user) == Some(Owner)
    ensures RoleOf(states[i], organization, user) == Some(Owner)
  {
    if i > 0 {
      OwnersStayOwners(states, logins, organization, user, i - 1);
      var login := logins[i - 1];
      if login.user == user {
        var desired := SomeDesire(login.mappings, login.groups, organization);
      } else {
        assert (organization, user) in states[i - 1];
      }
    }
  }

  /** Without an owner mapping a synchronisation makes nobody an owner. */
  lemma NoOwnerFromNothing(before: Memberships, after: Memberships, mappings: seq<Mapping>, groups: set<string>,
                           user: nat, organization: nat)
    requires Synced(before, after, mappings, groups, user)
    ensures RoleOf(after, organization, user) == Some(Owner)
            <==> RoleOf(before, organization, user) == Some(Owner)
                 || exists m :: m in mappings && m.organization == organization && m.group in groups && m.role.Owner?
  {
    var desired := SomeDesire(mappings, groups, organization);
    if exists m :: m in mappings && m.organization == organization && m.group in groups && m.role.Owner? {
      var m :| m in mappings && m.organization == organization && m.group in groups && m.role.Owner?;
      assert desired.Some? && Rank(m.role) <= Rank(desired.value);
    }
  }

  // ---- the transaction ----

  /** Who may reach a project through an organisation, and the projects' access epochs. */
  datatype Projects = Projects(grants: set<(nat, nat)>, epochs: map<nat, nat>)

  /** Each project an organisation of `changed` reaches rises by exactly one epoch, and no other. */
  predicate Advanced(before: Projects, after: Projects, changed: set<nat>) {
    && after.grants == before.grants && after.epochs.Keys == before.epochs.Keys
    && forall p :: p in before.epochs ==>
         after.epochs[p] == before.epochs[p] + (if p in Reached(before.grants, changed) then 1 else 0)
  }

  function Reached(grants: set<(nat, nat)>, changed: set<nat>): set<nat> {
    set grant | grant in grants && grant.0 in changed :: grant.1
  }

  predicate NeedsUpsert(current: Option<OrganizationRole>, desired: OrganizationRole) {
    !(current == Some(desired) || current == Some(Owner))
  }

  /** The upsert needed is exactly the one that changes the role the ratchet allows. */
  lemma UpsertNeededIffRoleChanges(current: Option<OrganizationRole>, desired: OrganizationRole, mapped: bool)
    ensures NeedsUpsert(current, desired) <==> FinalRole(current, Some(desired), mapped) != current
  {
  }

  class AccessStore {
    var memberships: Memberships
    var mappings: seq<Mapping>
    var userGroups: map<nat, set<string>>
    var grants: set<(nat, nat)>
    var epochs: map<nat, nat>

    /** Organisation grants name projects that exist. */
    predicate Valid()
      reads this
    {
      forall grant :: grant in grants ==> grant.1 in epochs
    }

    constructor ()
      ensures Valid() && memberships == map[] && mappings == [] && userGroups == map[] && grants == {} && epochs == map[]
    {
      memberships, mappings, userGroups, grants, epochs := map[], [], map[], {}, map[];
    }

    /** The highest mapped role of every organisation some group maps to. */
    method DesiredRoles(groups: set<string>) returns (desired: map<nat, OrganizationRole>)
      ensures forall o :: Desires(mappings, groups, o, if o in desired then Some(desired[o]) else None)
    {
      desired := map[];
      for i := 0 to |mappings|
        invariant forall o :: Desires(mappings[..i], groups, o, if o in desired then Some(desired[o]) else None)
      {
        var mapping := mappings[i];
        ghost var was := desired;
        if mapping.group in groups {
          if mapping.organization !in desired {
            desired := desired[mapping.organization := mapping.role];
          } else if Rank(mapping.role) > Rank(desired[mapping.organization]) {
            desired := desired[mapping.organization := mapping.role];
          }
        }
        forall o
          ensures Desires(mappings[..i + 1], groups, o, if o in desired then Some(desired[o]) else None)
        {
          DesireNext(mappings[..i], mapping, groups, o, if o in was then Some(was[o]) else None);
          assert mappings[..i + 1] == mappings[..i] + [mapping];
        }
      }
      assert mappings[..|mappings|] == mappings;
    }

    /** The upsert itself also refuses to demote an owner. */
    method UpsertMembership(organization: nat, user: nat, role: OrganizationRole)
      modifies this`memberships
      ensures RoleOf(memberships, organization, user)
              == FinalRole(RoleOf(old(memberships), organization, user), Some(role), true)
      ensures RoleOf(old(memberships), organization, user) == Some(Owner) ==> memberships == old(memberships)
      ensures OthersKept(old(memberships), memberships, organization, user)
    {
      var existing := RoleOf(memberships, organization, user);
      memberships := memberships[(organization, user) := if existing == Some(Owner) then Owner else role];
    }

    method DeleteNonOwner(organization: nat, user: nat)
      modifies this`memberships
      ensures RoleOf(memberships, organization, user)
              == FinalRole(RoleOf(old(memberships), organization, user), None, true)
      ensures RoleOf(old(memberships), organization, user) == Some(Owner) ==> memberships == old(memberships)
      ensures OthersKept(old(memberships), memberships, organization, user)
    {
      if RoleOf(memberships, organization, user) != Some(Owner) {
        memberships := memberships - {(organization, user)};
      }
    }

    /** Locks and raises the projects of the changed organisations, each once. */
    method AdvanceProjectEpochs(changed: set<nat>) returns (affected: set<nat>)
      requires Valid()
      modifies this`epochs
      ensures Valid() && affected == Reached(grants, changed)
      ensures Advanced(Projects(grants, old(epochs)), Projects(grants, epochs), changed)
    {
      affected := Reached(grants, changed);
      var waiting := affected;
      ghost var done: set<nat> := {};
      while waiting != {}
        invariant waiting !! done && waiting + done == affected && affected <= epochs.Keys
        invariant epochs.Keys == old(epochs).Keys
        invariant forall p :: p in epochs ==> epochs[p] == old(epochs)[p] + (if p in done then 1 else 0)
        decreases waiting
      {
        var p :| p in waiting;
        epochs := epochs[p := epochs[p] + 1];
        waiting, done := waiting - {p}, done + {p};
      }
    }

    /** The whole synchronisation. A repeated group breaks its primary key and changes nothing. */
    method SyncIdentityGroups(user: nat, groups: seq<string>) returns (affected: Option<set<nat>>)
      requires Valid()
      modifies this
      ensures Valid() && mappings == old(mappings) && grants == old(grants)
      ensures affected.Some? <==> forall i, j :: 0 <= i < j < |groups| ==> groups[i] != groups[j]
      ensures affected.None? ==> memberships == old(memberships) && epochs == old(epochs) && userGroups == old(userGroups)
      ensures affected.Some? ==>
        && userGroups == old(userGroups)[user := set g | g in groups]
        && Synced(old(memberships), memberships, mappings, (set g | g in groups), user)
        && var changed := ChangedFor(old(memberships), memberships, user);
           affected.value == Reached(grants, changed)
           && Advanced(Projects(grants, old(epochs)), Projects(grants, epochs), changed)
      ensures affected.Some? ==> forall key: (nat, nat) :: key.1 != user ==>
        (key in memberships <==> key in old(memberships))
        && (key in memberships ==> memberships[key] == old(memberships)[key])
      ensures affected.Some? ==> forall o ::
        RoleOutcome(old(memberships), memberships, mappings, groups, user, o)
      // an organisation that no mapping names is left alone; one that is named, but not for any of the
      // groups, loses the user unless owner
      ensures affected.Some? ==> forall o | !exists m :: m in mappings && m.organization == o ::
        ((o, user) in memberships <==> (o, user) in old(memberships))
        && ((o, user) in memberships ==> memberships[(o, user)] == old(memberships)[(o, user)])
      ensures affected.Some? ==> forall o | (o, user) in memberships && memberships[(o, user)] == Member
                                           && exists m :: m in mappings && m.organization == o ::
        exists m :: m in mappings && m.organization == o && m.group in groups
      // a project moves by one epoch exactly when it is granted to an organisation where the role changed
      ensures affected.Some? ==> epochs.Keys == old(epochs).Keys && forall p :: p in epochs ==>
        epochs[p] == old(epochs)[p] + (if p in affected.value then 1 else 0)
      ensures affected.Some? ==> forall p :: p in affected.value <==> exists o ::
        (o, p) in grants
        && (((o, user) in memberships) != ((o, user) in old(memberships))
            || ((o, user) in memberships && memberships[(o, user)] != old(memberships)[(o, user)]))
    {
      var distinct, names := DistinctNames(groups);
      if !distinct {
        return None;
      }
      userGroups := userGroups[user := names];
      var changed := SyncMemberships(user, names);
      var reached := AdvanceProjectEpochs(changed);
      affected := Some(reached);
      SyncedOutcome(old(memberships), memberships, mappings, groups, user);
      forall o | !exists m :: m in mappings && m.organization == o
        ensures ((o, user) in memberships <==> (o, user) in old(memberships))
        ensures (o, user) in memberships ==> memberships[(o, user)] == old(memberships)[(o, user)]
      {
        OutcomeWherePresent(old(memberships), memberships, mappings, groups, user, o);
      }
      forall o | (o, user) in memberships && memberships[(o, user)] == Member && exists m :: m in mappings && m.organization == o
        ensures exists m :: m in mappings && m.organization == o && m.group in groups
      {
        OutcomeWherePresent(old(memberships), memberships, mappings, groups, user, o);
      }
      ReachedProjects(old(memberships), memberships, grants, user);
    }

    /** The user's memberships after the upserts and the removals, and where the role changed. */
    method SyncMemberships(user: nat, names: set<string>) returns (changed: set<nat>)
      modifies this`memberships
      ensures Synced(old(memberships), memberships, mappings, names, user)
      ensures changed == ChangedFor(old(memberships), memberships, user)
    {
      var desired := DesiredRoles(names);
      var current := memberships;
      var upserted := UpsertDesired(user, desired);
      var removed := RemoveUnmapped(user, desired, current);
      SyncedByLoops(old(memberships), memberships, mappings, names, user, desired, upserted, removed);
      changed := upserted + removed;
    }

    method UpsertDesired(user: nat, desired: map<nat, OrganizationRole>) returns (changed: set<nat>)
      modifies this`memberships
      ensures changed == set o | o in desired && NeedsUpsert(RoleOf(old(memberships), o, user), desired[o])
      ensures forall key :: key in memberships <==> key in old(memberships) || (key.1 == user && key.0 in changed)
      ensures forall key :: key in memberships ==>
        memberships[key] == if key.1 == user && key.0 in changed then desired[key.0] else old(memberships)[key]
    {
      changed := {};
      var waiting := desired.Keys;
      while waiting != {}
        invariant waiting <= desired.Keys
        invariant changed == set o | o in desired.Keys - waiting && NeedsUpsert(RoleOf(old(memberships), o, user), desired[o])
        invariant forall key :: key in memberships <==> key in old(memberships) || (key.1 == user && key.0 in changed)
        invariant forall key :: key in memberships ==>
          memberships[key] == if key.1 == user && key.0 in changed then desired[key.0] else old(memberships)[key]
        decreases waiting
      {
        var o :| o in waiting;
        waiting := waiting - {o};
        if NeedsUpsert(RoleOf(memberships, o, user), desired[o]) {
          UpsertMembership(o, user, desired[o]);
          changed := changed + {o};
        }
      }
    }

    /** Drops the user's mapped, no longer desired memberships as read before the upserts. */
    method RemoveUnmapped(user: nat, desired: map<nat, OrganizationRole>, current: Memberships) returns (removed: set<nat>)
      modifies this`memberships
      requires forall key :: key in current && key.1 == user && key.0 !in desired ==>
        key in memberships && memberships[key] == current[key]
      ensures removed == set key | key in current && key.1 == user && Removable(mappings, desired, current, key) :: key.0
      ensures memberships == old(memberships) - set o | o in removed :: (o, user)
    {
      removed := {};
      var waiting := set key | key in current && key.1 == user;
      while waiting != {}
        invariant waiting <= set key | key in current && key.1 == user
        invariant removed == set key | key in current && key.1 == user && key !in waiting
                                       && Removable(mappings, desired, current, key) :: key.0
        invariant memberships == old(memberships) - set o | o in removed :: (o, user)
        decreases waiting
      {
        var key :| key in waiting;
        waiting := waiting - {key};
        if Removable(mappings, desired, current, key) {
          DeleteNonOwner(key.0, user);
          removed := removed + {key.0};
        }
      }
    }
  }

  /** The user ends as owner exactly if already owner or led there by a group mapped to owner, and
    otherwise as member exactly if some group leads there, or, in an organisation that no mapping
    names, if a member before. */
  ghost predicate RoleOutcome(before: Memberships, after: Memberships, mappings: seq<Mapping>, groups: seq<string>,
                              user: nat, o: nat)
  {
    && (((o, user), Owner) in after.Items
        <==> ((o, user), Owner) in before.Items
             || exists m :: m in mappings && m.organization == o && m.group in groups && m.role == Owner)
    && (((o, user), Member) in after.Items
        <==> ((o, user), Owner) !in after.Items
             && if exists m :: m in mappings && m.organization == o
                then exists m :: m in mappings && m.organization == o && m.group in groups
                else ((o, user), Member) in before.Items)
  }

  lemma SyncedOutcome(before: Memberships, after: Memberships, mappings: seq<Mapping>, groups: seq<string>, user: nat)
    requires Synced(before, after, mappings, (set g | g in groups), user)
    ensures forall o :: RoleOutcome(before, after, mappings, groups, user, o)
  {
    forall o
      ensures RoleOutcome(before, after, mappings, groups, user, o)
    {
      SyncedOutcomeAt(before, after, mappings, groups, user, o);
    }
  }

  lemma SyncedOutcomeAt(before: Memberships, after: Memberships, mappings: seq<Mapping>, groups: seq<string>, user: nat, o: nat)
    requires Synced(before, after, mappings, (set g | g in groups), user)
    ensures RoleOutcome(before, after, mappings, groups, user, o)
  {
    var names := set g | g in groups;
    var desired := SomeDesire(mappings, names, o);
    assert RoleOf(after, o, user) == FinalRole(RoleOf(before, o, user), desired, Mapped(mappings, o));
    NoOwnerFromNothing(before, after, mappings, names, user, o);
    assert forall m :: m in mappings ==> (m.group in groups <==> m.group in names);
  }

  /** The two cases of an organisation that no mapping leads the user to, spelled out. */
  lemma OutcomeWherePresent(before: Memberships, after: Memberships, mappings: seq<Mapping>, groups: seq<string>, user: nat, o: nat)
    requires RoleOutcome(before, after, mappings, groups, user, o)
    ensures (!exists m :: m in mappings && m.organization == o) ==>
      ((o, user) in after <==> (o, user) in before) && ((o, user) in after ==> after[(o, user)] == before[(o, user)])
    ensures (o, user) in after && after[(o, user)] == Member && (exists m :: m in mappings && m.organization == o) ==>
      exists m :: m in mappings && m.organization == o && m.group in groups
  {
    ItemOf(before, (o, user));
    ItemOf(after, (o, user));
  }

  lemma ItemOf(memberships: Memberships, key: (nat, nat))
    ensures (key, Owner) in memberships.Items <==> key in memberships && memberships[key] == Owner
    ensures (key, Member) in memberships.Items <==> key in memberships && memberships[key] == Member
  {
  }

  lemma ReachedProjects(before: Memberships, after: Memberships, grants: set<(nat, nat)>, user: nat)
    ensures forall p :: p in Reached(grants, ChangedFor(before, after, user)) <==> exists o ::
      (o, p) in grants
      && (((o, user) in after) != ((o, user) in before)
          || ((o, user) in after && after[(o, user)] != before[(o, user)]))
  {
    forall o: nat
      ensures o in ChangedFor(before, after, user)
              <==> (((o, user) in after) != ((o, user) in before)
                    || ((o, user) in after && after[(o, user)] != before[(o, user)]))
    {
      if (o, user) in before.Keys + after.Keys {
        assert (o, user).0 in OrganizationsOf(before, after, user);
      }
    }
    forall p | exists o :: (o, p) in grants && o in ChangedFor(before, after, user)
      ensures p in Reached(grants, ChangedFor(before, after, user))
    {
      var o :| (o, p) in grants && o in ChangedFor(before, after, user);
      assert (o, p).1 in Reached(grants, ChangedFor(before, after, user));
    }
  }

  method DistinctNames(groups: seq<string>) returns (distinct: bool, names: set<string>)
    ensures distinct <==> forall i, j :: 0 <= i < j < |groups| ==> groups[i] != groups[j]
    ensures distinct ==> names == set g | g in groups
  {
    names := {};
    for i := 0 to |groups|
      invariant names == set k | 0 <= k < i :: groups[k]
      invariant forall k, l :: 0 <= k < l < i ==> groups[k] != groups[l]
    {
      if groups[i] in names {
        return false, names;
      }
      names := names + {groups[i]};
    }
    distinct := true;
  }

  predicate Removable(mappings: seq<Mapping>, desired: map<nat, OrganizationRole>, current: Memberships, key: (nat, nat))
    requires key in current
  {
    !current[key].Owner? && key.0 !in desired && Mapped(mappings, key.0)
  }

  /** The organisations the user belongs to before or after. */
  function OrganizationsOf(before: Memberships, after: Memberships, user: nat): set<nat> {
    set key | key in before.Keys + after.Keys && key.1 == user :: key.0
  }

  /** The organisations in which the user's role differs. */
  function ChangedFor(before: Memberships, after: Memberships, user: nat): set<nat> {
    set o | o in OrganizationsOf(before, after, user) && RoleOf(after, o, user) != RoleOf(before, o, user)
  }

  lemma DesireNext(mappings: seq<Mapping>, mapping: Mapping, groups: set<string>, o: nat, desired: Option<OrganizationRole>)
    requires Desires(mappings, groups, o, desired)
    ensures Desires(mappings + [mapping], groups, o,
                    if mapping.organization == o && mapping.group in groups
                       && (desired.None? || Rank(mapping.role) > Rank(desired.value))
                    then Some(mapping.role) else desired)
  {
    var longer := mappings + [mapping];
    assert forall m :: m in longer <==> m in mappings || m == mapping;
  }

  lemma DesireIsUnique(mappings: seq<Mapping>, groups: set<string>, o: nat,
                       desired: Option<OrganizationRole>, other: Option<OrganizationRole>)
    requires Desires(mappings, groups, o, desired) && Desires(mappings, groups, o, other)
    ensures desired == other
  {
    if desired.Some? && other.Some? {
      assert Rank(desired.value) == Rank(other.value);
    }
  }

  /** The two loops together give every organisation its final role, and changed exactly those
    whose role differs. */
  lemma SyncedByLoops(before: Memberships, after: Memberships, mappings: seq<Mapping>, groups: set<string>, user: nat,
                      desired: map<nat, OrganizationRole>, changed: set<nat>, removed: set<nat>)
    requires forall o :: Desires(mappings, groups, o, if o in desired then Some(desired[o]) else None)
    requires changed == set o | o in desired && NeedsUpsert(RoleOf(before, o, user), desired[o])
    requires removed == set key | key in before && key.1 == user && Removable(mappings, desired, before, key) :: key.0
    requires forall key :: key in after <==>
      (key in before || (key.1 == user && key.0 in changed)) && !(key.1 == user && key.0 in removed)
    requires forall key :: key in after ==>
      after[key] == if key.1 == user && key.0 in changed then desired[key.0] else before[key]
    ensures Synced(before, after, mappings, groups, user)
    ensures changed + removed == ChangedFor(before, after, user)
  {
    forall o, want | Desires(mappings, groups, o, want)
      ensures RoleOf(after, o, user) == FinalRole(RoleOf(before, o, user), want, Mapped(mappings, o))
    {
      DesireIsUnique(mappings, groups, o, want, if o in desired then Some(desired[o]) else None);
      FinalByLoops(before, after, mappings, user, desired, changed, removed, o);
    }
    ChangedExactly(before, after, mappings, user, desired, changed, removed);
  }

  lemma FinalByLoops(before: Memberships, after: Memberships, mappings: seq<Mapping>, user: nat,
                     desired: map<nat, OrganizationRole>, changed: set<nat>, removed: set<nat>, o: nat)
    requires changed == set o | o in desired && NeedsUpsert(RoleOf(before, o, user), desired[o])
    requires removed == set key | key in before && key.1 == user && Removable(mappings, desired, before, key) :: key.0
    requires forall key :: key in after <==>
      (key in before || (key.1 == user && key.0 in changed)) && !(key.1 == user && key.0 in removed)
    requires forall key :: key in after ==>
      after[key] == if key.1 == user && key.0 in changed then desired[key.0] else before[key]
    ensures RoleOf(after, o, user)
            == FinalRole(RoleOf(before, o, user), if o in desired then Some(desired[o]) else None, Mapped(mappings, o))
  {
    RemovedIff(before, mappings, user, desired, removed, o);
  }

  lemma RemovedIff(before: Memberships, mappings: seq<Mapping>, user: nat, desired: map<nat, OrganizationRole>,
                   removed: set<nat>, o: nat)
    requires removed == set key | key in before && key.1 == user && Removable(mappings, desired, before, key) :: key.0
    ensures o in removed <==> (o, user) in before && Removable(mappings, desired, before, (o, user))
  {
    if (o, user) in before && Removable(mappings, desired, before, (o, user)) {
      assert (o, user).0 in removed;
    }
  }

  lemma ChangedExactly(before: Memberships, after: Memberships, mappings: seq<Mapping>, user: nat,
                       desired: map<nat, OrganizationRole>, changed: set<nat>, removed: set<nat>)
    requires changed == set o | o in desired && NeedsUpsert(RoleOf(before, o, user), desired[o])
    requires removed == set key | key in before && key.1 == user && Removable(mappings, desired, before, key) :: key.0
    requires forall key :: key in after <==>
      (key in before || (key.1 == user && key.0 in changed)) && !(key.1 == user && key.0 in removed)
    requires forall key :: key in after ==>
      after[key] == if key.1 == user && key.0 in changed then desired[key.0] else before[key]
    ensures changed + removed == ChangedFor(before, after, user)
  {
    forall o
      ensures o in changed + removed
              <==> o in OrganizationsOf(before, after, user) && RoleOf(after, o, user) != RoleOf(before, o, user)
    {
      RemovedIff(before, mappings, user, desired, removed, o);
      if (o, user) in before.Keys + after.Keys {
        assert (o, user).0 in OrganizationsOf(before, after, user);
      }
    }
  }
}
