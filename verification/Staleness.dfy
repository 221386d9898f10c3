/**
When handlers that read the role table, decide and swap the result in are interleaved, whose frames still leave a
client with the table the server has (crates/pickle-server/src/admin.rs, apps/desktop/src-tauri/src/perms.rs).

A handler's swap and its frames are one step; what is stale is the table it read.
*/
module Staleness {
  import opened Common
  import opened Perms
  import opened RoleTable
  import opened Mirror
  import Interleaving

  /** A client's table once the frames of a command decided on `held` have reached it. */
  function Mirrored(roles: seq<Role>, held: PermState, cmd: RoleCommand, next: PermState): seq<Role> {
    match cmd
    case CreateRole(name, permissions) =>
      SortByPosition(SetPositions(UpsertRole(roles, NewRole(held, name, permissions)), Ordering(next.roles)))
    case UpdateRole(id, _, _, _) =>
      match FindRole(held.roles, id) {
        case Some(existing) => UpsertRole(roles, Updated(existing, cmd))
        case None => roles
      }
    case DeleteRole(id) => SortByPosition(SetPositions(RemoveRole(roles, id), Ordering(next.roles)))
    case ReorderRoles(positions) => SortByPosition(SetPositions(roles, positions))
    case SetMemberRoles(_, _) => roles
  }

  /** The frames about roles a command decided on `held` broadcasts, in order. */
  function TableFrames(held: PermState, cmd: RoleCommand, next: PermState): seq<Frame> {
    match cmd
    case CreateRole(name, permissions) =>
      [RoleCreated(NewRole(held, name, permissions)), RolesReordered(Ordering(next.roles))]
    case UpdateRole(id, _, _, _) =>
      match FindRole(held.roles, id) {
        case Some(existing) => [RoleUpdated(Updated(existing, cmd))]
        case None => []
      }
    case DeleteRole(id) => [RoleDeleted(id), RolesReordered(Ordering(next.roles))]
    case ReorderRoles(positions) => [RolesReordered(positions)]
    case SetMemberRoles(_, _) => []
  }

  /** Folded, they make of a client's table what `Mirrored` says, and a deletion also strips the client's own grants. */
  lemma {:induction false} FoldIsMirrored(v: View, held: PermState, cmd: RoleCommand, next: PermState)
    ensures Fold(v, TableFrames(held, cmd, next)) ==
            v.(roles := Mirrored(v.roles, held, cmd, next),
               myRoles := if cmd.DeleteRole? then RemoveGrant(v.myRoles, cmd.id) else v.myRoles)
  {
    hide SortByPosition, SetPositions, UpsertRole, RemoveRole, RemoveGrant, NewRole, Ordering, FindRole, Updated;
    hide Fold;
    FoldNone(v);
    forall f ensures Fold(v, [f]) == Apply(v, f) {
      FoldOne(v, f);
    }
    forall f, g ensures Fold(v, [f, g]) == Apply(Apply(v, f), g) {
      FoldTwo(v, f, g);
    }
  }

  lemma FoldNone(v: View)
    ensures Fold(v, []) == v
  {
  }

  lemma {:induction false} FoldOne(v: View, f: Frame)
    ensures Fold(v, [f]) == Apply(v, f)
  {
    assert [f][1..] == [];
  }

  lemma {:induction false} FoldTwo(v: View, f: Frame, g: Frame)
    ensures Fold(v, [f, g]) == Apply(Apply(v, f), g)
  {
    assert [f, g][1..] == [g];
    FoldOne(Apply(v, f), g);
  }

  /** Position aside, the same roles. */
  ghost predicate SameRoles(a: seq<Role>, b: seq<Role>) { Covers(a, b) && Covers(b, a) }

  /**
  What the table may have lost or gained since it was read without anybody noticing: an update replaces one role
  wholesale, the commands that renumber send every position, and a grant sends no role at all.
  */
  ghost predicate Harmless(current: seq<Role>, held: PermState, cmd: RoleCommand) {
    match cmd
    case CreateRole(name, permissions) =>
      SameRoles(RemoveRole(current, NewRole(held, name, permissions).id), held.roles)
    case UpdateRole(id, _, _, _) => forall r :: r in RemoveRole(current, id) <==> r in RemoveRole(held.roles, id)
    case DeleteRole(id) => SameRoles(RemoveRole(current, id), RemoveRole(held.roles, id))
    case ReorderRoles(_) => SameRoles(current, held.roles)
    case SetMemberRoles(_, _) => current == held.roles
  }

  // ---- The same roles, position aside -------------------------------------------------------------

  lemma {:induction false} CoversTrans(a: seq<Role>, b: seq<Role>, c: seq<Role>)
    requires Covers(a, b) && Covers(b, c)
    ensures Covers(a, c)
  {
    forall r | r in c ensures exists t :: t in a && SameButPosition(t, r) {
      var m :| m in b && SameButPosition(m, r);
      var t :| t in a && SameButPosition(t, m);
      assert SameButPosition(t, r);
    }
  }

  lemma {:induction false} SameTrans(a: seq<Role>, b: seq<Role>, c: seq<Role>)
    requires SameRoles(b, c)
    ensures SameRoles(a, b) <==> SameRoles(a, c)
  {
    if SameRoles(a, b) {
      CoversTrans(a, b, c);
      CoversTrans(c, b, a);
    }
    if SameRoles(a, c) {
      CoversTrans(a, c, b);
      CoversTrans(b, c, a);
    }
  }

  lemma SameFlips(a: seq<Role>, b: seq<Role>)
    ensures SameRoles(a, b) <==> SameRoles(b, a)
  {
    hide Covers;
  }

  lemma {:induction false} SameMembers(a: seq<Role>, b: seq<Role>)
    requires forall r :: r in a <==> r in b
    ensures SameRoles(a, b)
  {
    forall r: Role ensures SameButPosition(r, r) {
    }
  }

  lemma SortMembers(roles: seq<Role>)
    ensures forall r :: r in SortByPosition(roles) <==> r in roles
  {
    assert forall r :: r in multiset(SortByPosition(roles)) <==> r in multiset(roles);
  }

  lemma {:induction false} RepositionSame(roles: seq<Role>, positions: Positions)
    ensures SameRoles(Reposition(roles, positions), roles)
  {
    var s := Reposition(roles, positions);
    forall r | r in roles ensures exists t :: t in s && SameButPosition(t, r) {
      var i :| 0 <= i < |roles| && roles[i] == r;
      assert s[i] in s && SameButPosition(s[i], r);
    }
    forall r | r in s ensures exists t :: t in roles && SameButPosition(t, r) {
      var i :| 0 <= i < |s| && s[i] == r;
      assert roles[i] in roles && SameButPosition(roles[i], r);
    }
  }

  /** Sending a table's own ordering turns a client's roles into it exactly when they are its roles, position aside. */
  lemma {:induction false} ReorderedIff(roles: seq<Role>, table: seq<Role>)
    requires UniqueIds(roles) && TableOk(table)
    ensures SortByPosition(SetPositions(roles, Ordering(table))) == table <==> SameRoles(roles, table)
  {
    hide Covers;
    if SameRoles(roles, table) {
      ReorderedTo(roles, table);
    }
    if SortByPosition(SetPositions(roles, Ordering(table))) == table {
      OrderingDistinct(table);
      SetPositionsIsReposition(roles, Ordering(table));
      var placed := Reposition(roles, Ordering(table));
      SortMembers(placed);
      SameMembers(table, placed);
      RepositionSame(roles, Ordering(table));
      SameTrans(table, placed, roles);
    }
  }

  lemma {:induction false} RemoveKeepsUnique(roles: seq<Role>, id: RoleId)
    requires UniqueIds(roles)
    ensures UniqueIds(RemoveRole(roles, id))
  {
    if roles != [] {
      UniqueTail(roles);
      RemoveKeepsUnique(roles[1..], id);
      AppendFront(roles[0], RemoveRole(roles[1..], id));
    }
  }

  lemma AppendFront(r: Role, rest: seq<Role>)
    requires UniqueIds(rest)
    ensures (forall o :: o in rest ==> o.id != r.id) ==> UniqueIds([r] + rest)
  {
  }

  lemma {:induction false} UpsertIs(roles: seq<Role>, role: Role)
    requires UniqueIds(roles)
    ensures UniqueIds(RemoveRole(roles, role.id) + [role]) && UniqueIds(UpsertRole(roles, role))
    ensures forall r :: r in UpsertRole(roles, role) <==> r in RemoveRole(roles, role.id) || r == role
  {
    RemoveKeepsUnique(roles, role.id);
    AppendKeepsUnique(RemoveRole(roles, role.id), role);
    SortKeepsIds(RemoveRole(roles, role.id) + [role]);
    SortMembers(RemoveRole(roles, role.id) + [role]);
  }

  // ---- Command by command ----------------------------------------------------------------------------

  lemma {:induction false} WithoutCovers(a: seq<Role>, b: seq<Role>, role: Role)
    requires forall r :: r in a ==> r.id != role.id
    requires forall r :: r in b ==> r.id != role.id
    ensures Covers(a + [role], b + [role]) <==> Covers(a, b)
  {
    if Covers(a + [role], b + [role]) {
      forall r | r in b ensures exists t :: t in a && SameButPosition(t, r) {
        assert r in b + [role];
        var t :| t in a + [role] && SameButPosition(t, r);
      }
    }
    if Covers(a, b) {
      forall r | r in b + [role] ensures exists t :: t in a + [role] && SameButPosition(t, r) {
        if r in b {
          var t :| t in a && SameButPosition(t, r);
          assert t in a + [role];
        } else {
          assert role in a + [role] && SameButPosition(role, r);
        }
      }
    }
  }

  lemma {:induction false} CreateIff(current: seq<Role>, held: PermState, name: string, permissions: Permissions)
    requires TableOk(current) && TableOk(held.roles)
    ensures var cmd := CreateRole(name, permissions);
            var next := AfterCreate(held, NewRole(held, name, permissions));
            Mirrored(current, held, cmd, next) == next.roles <==> Harmless(current, held, cmd)
  {
    hide SortByPosition, SetPositions, Covers, AfterCreate, Ordering, CreatedTable, TableOk;
    var role := NewRole(held, name, permissions);
    CreateShape(held, name, permissions);
    OkIsUnique(current);
    OkIsUnique(held.roles);
    NoneHas(held, name, permissions);
    UpsertIs(current, role);
    var rest, table := RemoveRole(current, role.id), CreatedTable(held.roles, role);
    ReorderedIff(UpsertRole(current, role), table);
    SameMembers(UpsertRole(current, role), rest + [role]);
    CreatedCovers(held.roles, role);
    SameTrans(UpsertRole(current, role), table, held.roles + [role]);
    SameTrans(held.roles + [role], UpsertRole(current, role), rest + [role]);
    WithoutCovers(rest, held.roles, role);
    WithoutCovers(held.roles, rest, role);
  }

  lemma OkIsUnique(roles: seq<Role>)
    requires TableOk(roles)
    ensures UniqueIds(roles) && |roles| > 0
  {
  }

  lemma NoneHas(held: PermState, name: string, permissions: Permissions)
    ensures forall r :: r in held.roles ==> r.id != NewRole(held, name, permissions).id
  {
  }

  lemma {:induction false} UpdateIff(current: seq<Role>, held: PermState, cmd: RoleCommand, k: nat)
    requires TableOk(current) && TableOk(held.roles) && cmd.UpdateRole? && k < |held.roles|
    requires held.roles[k].id == cmd.id
    ensures var next := held.(roles := ReplaceRole(held.roles, Updated(held.roles[k], cmd)));
            Mirrored(current, held, cmd, next) == next.roles <==> Harmless(current, held, cmd)
  {
    hide SortByPosition;
    var updated := Updated(held.roles[k], cmd);
    TableIndex(held.roles, k);
    ReplaceShape(held.roles, updated, k);
    UpdateReachesClient(held.roles, k, updated);
    UpdatedTableOk(held.roles, k, updated);
    UpsertIs(current, updated);
    UpsertIs(held.roles, updated);
    if Harmless(current, held, cmd) {
      SortFromSet(RemoveRole(current, updated.id) + [updated], held.roles[k := updated]);
    }
    if UpsertRole(current, updated) == held.roles[k := updated] {
      OthersAgree(RemoveRole(current, updated.id), RemoveRole(held.roles, updated.id), updated,
                  held.roles[k := updated]);
    }
  }

  lemma OthersAgree(a: seq<Role>, b: seq<Role>, role: Role, both: seq<Role>)
    requires forall r :: r in both <==> r in a || r == role
    requires forall r :: r in both <==> r in b || r == role
    requires role !in a && role !in b
    ensures forall r :: r in a <==> r in b
  {
    forall r ensures r in a <==> r in b {
      assert r in both <==> r in a || r == role;
    }
  }

  lemma {:induction false} DeleteIff(current: seq<Role>, held: PermState, k: nat)
    requires TableOk(current) && TableOk(held.roles) && 0 < k < |held.roles|
    ensures var cmd := DeleteRole(held.roles[k].id);
            var next := AfterDelete(held, held.roles[k].id);
            Mirrored(current, held, cmd, next) == next.roles <==> Harmless(current, held, cmd)
  {
    hide SortByPosition, SetPositions, Covers, AfterDelete, Ordering, DeletedTable;
    var id := held.roles[k].id;
    DeleteShape(held, k);
    RemoveKeepsUnique(current, id);
    RemoveShape(held.roles, k);
    DeletedCovers(held.roles, k);
    var rest, table := RemoveRole(current, id), DeletedTable(held.roles, k);
    ReorderedIff(rest, table);
    SameTrans(rest, table, RemoveRole(held.roles, id));
  }

  lemma PlacedAlike(a: Role, b: Role, positions: Positions)
    requires SameButPosition(a, b) && FindPosition(positions, b.id).Some?
    ensures Placed(a, positions) == Placed(b, positions)
  {
    hide FindPosition;
  }

  lemma {:induction false} PlacedIn(a: seq<Role>, b: seq<Role>, positions: Positions, r: Role)
    requires Covers(b, a) && r in Reposition(a, positions)
    requires forall x :: x in a ==> FindPosition(positions, x.id).Some?
    ensures r in Reposition(b, positions)
  {
    hide FindPosition, Placed;
    var s, t := Reposition(a, positions), Reposition(b, positions);
    var i :| 0 <= i < |s| && s[i] == r;
    assert a[i] in a;
    var o :| o in b && SameButPosition(o, a[i]);
    var j :| 0 <= j < |b| && b[j] == o;
    PlacedAlike(o, a[i], positions);
    assert t[j] == r;
  }

  lemma {:induction false} PlacedSame(a: seq<Role>, b: seq<Role>, positions: Positions)
    requires SameRoles(a, b) && forall r :: r in b ==> FindPosition(positions, r.id).Some?
    ensures forall r :: r in Reposition(a, positions) <==> r in Reposition(b, positions)
  {
    hide FindPosition, Reposition;
    forall r | r in a ensures FindPosition(positions, r.id).Some? {
      var o :| o in b && SameButPosition(o, r);
    }
    forall r | r in Reposition(a, positions) ensures r in Reposition(b, positions) {
      PlacedIn(a, b, positions, r);
    }
    forall r | r in Reposition(b, positions) ensures r in Reposition(a, positions) {
      PlacedIn(b, a, positions, r);
    }
  }

  lemma EachPlaced(roles: seq<Role>, positions: Positions)
    requires NamesEveryRoleDensely(roles, positions)
    ensures forall r :: r in roles ==> FindPosition(positions, r.id).Some?
  {
    hide FindPosition;
  }

  lemma {:induction false} ReorderIff(current: seq<Role>, held: PermState, positions: Positions)
    requires TableOk(current) && TableOk(held.roles) && NamesEveryRoleDensely(held.roles, positions)
    ensures Mirrored(current, held, ReorderRoles(positions), AfterReorder(held, positions)) ==
            AfterReorder(held, positions).roles
            <==> Harmless(current, held, ReorderRoles(positions))
  {
    hide SortByPosition, SetPositions, Covers, Reposition, FindPosition, NamesEveryRoleDensely, SameRoles;
    var next := AfterReorder(held, positions).roles;
    EachPlaced(held.roles, positions);
    var mine, theirs := Reposition(current, positions), Reposition(held.roles, positions);
    PositionsDistinct(held.roles, positions);
    SetPositionsIsReposition(current, positions);
    ReorderShape(held, positions);
    SortMembers(theirs);
    SortMembers(mine);
    RepositionSame(current, positions);
    RepositionSame(held.roles, positions);
    if SameRoles(current, held.roles) {
      PlacedSame(current, held.roles, positions);
      RepositionKeepsIds(current, positions);
      SortOfSame(mine, theirs, next);
    }
    if SortByPosition(mine) == next {
      SameMembers(mine, theirs);
      SameTrans(mine, theirs, held.roles);
      SameTrans(held.roles, mine, current);
      SameFlips(mine, held.roles);
      SameFlips(current, held.roles);
    }
  }

  lemma {:induction false} SortOfSame(mine: seq<Role>, theirs: seq<Role>, next: seq<Role>)
    requires UniqueIds(mine) && UniqueIds(next) && forall r :: r in mine <==> r in theirs
    requires forall r :: r in next <==> r in theirs
    requires forall i :: 0 <= i < |next| ==> next[i].position == i
    ensures SortByPosition(mine) == next
  {
    forall r: Role ensures multiset(mine)[r] == multiset(next)[r] {
      UniqueCount(mine, r);
      UniqueCount(next, r);
    }
    assert multiset(mine) == multiset(next);
    TableSorted(next);
    SortIs(mine, next);
  }

  /**
  A client whose table is the server's is left with the server's new table exactly when what the deciding handler had
  not seen is harmless to its command.
  */
  lemma {:induction false} SwapReachesClient(current: seq<Role>, held: PermState, actor: Actor,
                                             owner: Option<Fingerprint>, cmd: RoleCommand)
    requires TableOk(current) && PermsOk(held) && Decide(held, actor, owner, cmd).Accepted?
    ensures var next := Decide(held, actor, owner, cmd).value;
            Mirrored(current, held, cmd, next) == next.roles <==> Harmless(current, held, cmd)
  {
    hide Mirrored, Harmless, AfterCreate, AfterDelete, AfterReorder, ReplaceRole;
    match cmd
    case CreateRole(name, permissions) =>
      CreateIff(current, held, name, permissions);
    case UpdateRole(id, _, _, _) =>
      var k := IndexOf(held.roles, id);
      UpdateIff(current, held, cmd, k);
    case DeleteRole(id) =>
      var k := IndexOf(held.roles, id);
      DeleteIff(current, held, k);
    case ReorderRoles(positions) =>
      ReorderIff(current, held, positions);
    case SetMemberRoles(member, ids) =>
      GrantIff(current, held, member, ids);
  }

  lemma GrantIff(current: seq<Role>, held: PermState, member: Fingerprint, ids: seq<RoleId>)
    ensures Mirrored(current, held, SetMemberRoles(member, ids), AfterGrant(held, member, ids)) ==
            AfterGrant(held, member, ids).roles
            <==> Harmless(current, held, SetMemberRoles(member, ids))
  {
  }

  /** A handler that saw the table as it is has missed nothing. */
  lemma {:induction false} NothingMissed(held: PermState, cmd: RoleCommand)
    requires TableOk(held.roles)
    ensures Harmless(held.roles, held, cmd)
  {
    if cmd.CreateRole? {
      NoneHas(held, cmd.name, cmd.permissions);
      SameMembers(RemoveRole(held.roles, NewRole(held, cmd.name, cmd.permissions).id), held.roles);
    } else if cmd.DeleteRole? {
      SameMembers(RemoveRole(held.roles, cmd.id), RemoveRole(held.roles, cmd.id));
    } else {
      SameMembers(held.roles, held.roles);
    }
  }

  // ---- Swaps ---------------------------------------------------------------------------------------

  /** A swap that takes place: the handler holds a snapshot and lets its command through on it. */
  predicate Swaps(w: Interleaving.World, owner: Option<Fingerprint>, step: Interleaving.Step) {
    step.Swap? && step.handler in w.held && Decide(w.held[step.handler], step.actor, owner, step.cmd).Accepted?
  }

  lemma {:induction false} DecidedGrants(held: PermState, actor: Actor, owner: Option<Fingerprint>, cmd: RoleCommand,
                                         member: Fingerprint)
    requires PermsOk(held) && Decide(held, actor, owner, cmd).Accepted?
    ensures Grants(Decide(held, actor, owner, cmd).value, member) ==
            match cmd
            case DeleteRole(id) => RemoveGrant(Grants(held, member), id)
            case SetMemberRoles(m, ids) => if member == m then ids else Grants(held, member)
            case _ => Grants(held, member)
  {
    hide SortByPosition, Reposition, Renumber, RemoveRole, ReplaceRole, FindRole, Trim, NamesEveryRoleDensely;
  }

  // ---- A lost update -------------------------------------------------------------------------------------

  lemma {:induction false} UpdateDecided(held: PermState, actor: Actor, owner: Option<Fingerprint>, cmd: RoleCommand,
                                         k: nat)
    requires PermsOk(held) && cmd.UpdateRole? && k < |held.roles| && held.roles[k].id == cmd.id
    requires Decide(held, actor, owner, cmd).Accepted?
    ensures Decide(held, actor, owner, cmd).value == held.(roles := held.roles[k := Updated(held.roles[k], cmd)])
    ensures TableOk(held.roles[k := Updated(held.roles[k], cmd)])
  {
    TableIndex(held.roles, k);
    ReplaceShape(held.roles, Updated(held.roles[k], cmd), k);
    UpdatedTableOk(held.roles, k, Updated(held.roles[k], cmd));
  }

  function BothUpdate(first: Actor, a: RoleCommand, second: Actor, b: RoleCommand): seq<Interleaving.Step> {
    [Interleaving.Read(0), Interleaving.Read(1), Interleaving.Swap(0, first, a), Interleaving.Swap(1, second, b)]
  }

  lemma {:induction false} BothUpdateEnds(held: PermState, owner: Option<Fingerprint>, first: Actor, a: RoleCommand,
                                          second: Actor, b: RoleCommand)
    requires Decide(held, first, owner, a).Accepted? && Decide(held, second, owner, b).Accepted?
    ensures Interleaving.Run(Interleaving.World(held, map[], []), owner, BothUpdate(first, a, second, b)).current ==
            Decide(held, second, owner, b).value
  {
    hide Decide;
    var steps := BothUpdate(first, a, second, b);
    var w0 := Interleaving.World(held, map[], []);
    var w1 := Interleaving.Next(w0, owner, steps[0]);
    var w2 := Interleaving.Next(w1, owner, steps[1]);
    var w3 := Interleaving.Next(w2, owner, steps[2]);
    var w4 := Interleaving.Next(w3, owner, steps[3]);
    assert w2.held[0] == held && w2.held[1] == held;
    assert steps[1..][0] == steps[1] && steps[1..][1..][0] == steps[2] && steps[1..][1..][1..][0] == steps[3];
    assert steps[1..][1..][1..][1..] == [];
    assert Interleaving.Run(w3, owner, steps[1..][1..][1..]) == Interleaving.Run(w4, owner, []) == w4;
    assert Interleaving.Run(w2, owner, steps[1..][1..]) == w4;
    assert Interleaving.Run(w1, owner, steps[1..]) == w4;
  }

  /**
  Two handlers read one table, each is let through and updates a role of its own. At the end of the run the first role
  is as it was before, the update lost, while a client that followed both swaps shows it updated.
  */
  lemma {:induction false} AnUpdateCanBeLost(held: PermState, owner: Option<Fingerprint>, first: Actor, a: RoleCommand,
                                             i: nat, second: Actor, b: RoleCommand, j: nat)
    requires PermsOk(held) && a.UpdateRole? && b.UpdateRole? && i < |held.roles| && j < |held.roles| && i != j
    requires held.roles[i].id == a.id && held.roles[j].id == b.id && Updated(held.roles[i], a) != held.roles[i]
    requires Decide(held, first, owner, a).Accepted? && Decide(held, second, owner, b).Accepted?
    ensures var end := Interleaving.Run(Interleaving.World(held, map[], []), owner, BothUpdate(first, a, second, b));
            var once := Mirrored(held.roles, held, a, Decide(held, first, owner, a).value);
            var twice := Mirrored(once, held, b, Decide(held, second, owner, b).value);
            && end.current.roles == held.roles[j := Updated(held.roles[j], b)]
            && twice == held.roles[i := Updated(held.roles[i], a)][j := Updated(held.roles[j], b)]
            && twice != end.current.roles
  {
    hide Decide, SortByPosition, UpsertRole, Updated, BothUpdate, Interleaving.Run, RemoveRole, TableOk;
    BothUpdateEnds(held, owner, first, a, second, b);
    UpdateDecided(held, first, owner, a, i);
    UpdateDecided(held, second, owner, b, j);
    UpdatedKeeps(held.roles[i], a);
    UpdatedKeeps(held.roles[j], b);
    OkIsUnique(held.roles);
    OkPosition(held.roles, i);
    OkPosition(held.roles, j);
    TableIndex(held.roles, i);
    TableIndex(held.roles, j);
    UpdateReachesClient(held.roles, i, Updated(held.roles[i], a));
    var once := held.roles[i := Updated(held.roles[i], a)];
    UpdateReachesClient(once, j, Updated(held.roles[j], b));
    var twice, final := once[j := Updated(held.roles[j], b)], held.roles[j := Updated(held.roles[j], b)];
    assert Mirrored(held.roles, held, a, Decide(held, first, owner, a).value) == once;
    assert Mirrored(once, held, b, Decide(held, second, owner, b).value) == twice;
    assert twice[i] != final[i];
  }

  lemma OkPosition(roles: seq<Role>, k: nat)
    requires TableOk(roles) && k < |roles|
    ensures roles[k].position == k
  {
  }

  lemma UpdatedKeeps(existing: Role, cmd: RoleCommand)
    requires cmd.UpdateRole?
    ensures Updated(existing, cmd).id == existing.id && Updated(existing, cmd).position == existing.position
  {
  }

  /** The owner recolours two roles at once. */
  lemma {:induction false} AnUpdateIsLost(name: string)
    ensures var held := PermState([Role(0, name, None, 0, {}), Role(1, name, None, 1, {}), Role(2, name, None, 2, {})],
                                  map[]);
            var owner := Actor([], true, ALL);
            var a, b := UpdateRole(1, None, Some(Some(7)), None), UpdateRole(2, None, Some(Some(7)), None);
            var steps := BothUpdate(owner, a, owner, b);
            var end := Interleaving.Run(Interleaving.World(held, map[], []), None, steps);
            && PermsOk(held) && Decide(held, owner, None, a).Accepted? && Decide(held, owner, None, b).Accepted?
            && var once := Mirrored(held.roles, held, a, Decide(held, owner, None, a).value);
               var twice := Mirrored(once, held, b, Decide(held, owner, None, b).value);
               && |twice| == |end.current.roles| == 3
               && twice[1].color == Some(7) && end.current.roles[1].color == None
  {
    hide SortByPosition, UpsertRole, Interleaving.Run, Mirrored;
    var held := PermState([Role(0, name, None, 0, {}), Role(1, name, None, 1, {}), Role(2, name, None, 2, {})], map[]);
    var owner := Actor([], true, ALL);
    var a, b := UpdateRole(1, None, Some(Some(7)), None), UpdateRole(2, None, Some(Some(7)), None);
    TableIndex(held.roles, 1);
    TableIndex(held.roles, 2);
    AnUpdateCanBeLost(held, None, owner, a, 1, owner, b, 2);
  }
}
