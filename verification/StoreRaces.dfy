/**
Whether the tables still hold what memory holds when a handler writes and swaps in what it decided on an older snapshot
(crates/pickle-server/src/admin.rs, store.rs:199-292). A handler's writes and its swap are one step here.
*/
module StoreRaces {
  import opened Common
  import opened Perms
  import opened RoleTable
  import opened Channels
  import opened Mirror
  import opened Store
  import opened Staleness
  import Interleaving

  // ---- What is written ------------------------------------------------------------------------------

  /** Whether the database takes the writes: a primary key may clash. */
  predicate Takes(t: Tables, held: PermState, cmd: RoleCommand) {
    match cmd
    case CreateRole(name, permissions) =>
      InsertRole(SetRolePositions(t.roles, ShiftedPositions(held.roles)), NewRole(held, name, permissions)).Some?
    case SetMemberRoles(_, ids) => NoRepeats(ids)
    case _ => true
  }

  /** What a command decided on `held` writes. The positions a creation shifts stay shifted when its insert clashes. */
  function Written(t: Tables, held: PermState, cmd: RoleCommand, next: PermState): Tables {
    match cmd
    case CreateRole(name, permissions) =>
      var shifted := SetRolePositions(t.roles, ShiftedPositions(held.roles));
      var rows := InsertRole(shifted, NewRole(held, name, permissions));
      t.(roles := if rows.Some? then rows.value else shifted)
    case UpdateRole(id, _, _, _) =>
      match FindRole(held.roles, id) {
        case Some(existing) => t.(roles := UpdateRoleRow(t.roles, Updated(existing, cmd)))
        case None => t
      }
    case DeleteRole(id) =>
      var cut := DeleteRoleRows(t, id);
      cut.(roles := SetRolePositions(cut.roles, Ordering(next.roles)))
    case ReorderRoles(positions) => t.(roles := SetRolePositions(t.roles, positions))
    case SetMemberRoles(member, ids) =>
      var grants := ReplaceGrants(t.grants, member, ids);
      t.(grants := if grants.Some? then grants.value else t.grants)
  }

  function Stripping(channels: ChannelMap, cmd: RoleCommand): ChannelMap {
    if cmd.DeleteRole? then StripRole(channels, cmd.id) else channels
  }

  /** The same grants to every member, one member or one role aside, repetition and order aside. */
  ghost predicate SameGrantsBut(current: PermState, held: PermState, cmd: RoleCommand) {
    forall m, id ::
      (cmd.SetMemberRoles? ==> m != cmd.member) && (cmd.DeleteRole? ==> id != cmd.id) ==>
        (id in Grants(current, m) <==> id in Grants(held, m))
  }

  /**
  What the table may have become since it was read: besides what clients can follow, an updated role must still be
  there.
  */
  ghost predicate RowsUnmissed(current: seq<Role>, held: PermState, cmd: RoleCommand) {
    Harmless(current, held, cmd) && (cmd.UpdateRole? ==> Exists(current, cmd.id))
  }

  // ---- Rows and lookups -----------------------------------------------------------------------------

  ghost predicate SameLookup(a: seq<Role>, b: seq<Role>) { forall id :: FindRole(a, id) == FindRole(b, id) }

  /** Rows that hold one list hold another exactly when both look up alike. */
  lemma {:induction false} MatchIffSameLookup(rows: RoleRows, a: seq<Role>, b: seq<Role>)
    requires RowsMatch(rows, a)
    ensures RowsMatch(rows, b) <==> SameLookup(a, b)
  {
    hide FindRole;
    if RowsMatch(rows, b) {
      forall id ensures FindRole(a, id) == FindRole(b, id) {
        assert Exists(a, id) <==> Exists(b, id);
      }
    }
    if SameLookup(a, b) {
      forall id
        ensures (id in rows <==> Exists(b, id)) && (id in rows ==> RoleOf(id, rows[id]) == FindRole(b, id).value)
      {
        assert FindRole(a, id) == FindRole(b, id);
      }
    }
  }

  lemma {:induction false} LookupIffMembers(a: seq<Role>, b: seq<Role>)
    requires UniqueIds(a) && UniqueIds(b)
    ensures SameLookup(a, b) <==> forall r :: r in a <==> r in b
  {
    if SameLookup(a, b) {
      forall r ensures r in a <==> r in b {
        assert FindRole(a, r.id) == FindRole(b, r.id);
        if r in a { FindRoleIs(a, r); }
        if r in b { FindRoleIs(b, r); }
      }
    }
    if forall r :: r in a <==> r in b {
      forall id ensures FindRole(a, id) == FindRole(b, id) {
        SameRolesSameLookup(a, b, id);
      }
    }
  }

  // ---- Command by command ----------------------------------------------------------------------------

  /** One list of positions makes the same roles of two tables exactly when they are the same, positions aside. */
  lemma {:induction false} PlacedIff(a: seq<Role>, b: seq<Role>, positions: Positions)
    requires forall r :: r in b ==> FindPosition(positions, r.id).Some?
    ensures (forall r :: r in Reposition(a, positions) <==> r in Reposition(b, positions)) <==> SameRoles(a, b)
  {
    hide FindPosition, Reposition, SameRoles;
    RepositionSame(a, positions);
    RepositionSame(b, positions);
    if SameRoles(a, b) {
      PlacedSame(a, b, positions);
    }
    if forall r :: r in Reposition(a, positions) <==> r in Reposition(b, positions) {
      SameMembers(Reposition(a, positions), Reposition(b, positions));
      SameTrans(Reposition(a, positions), Reposition(b, positions), b);
      SameTrans(b, Reposition(a, positions), a);
      SameFlips(b, Reposition(a, positions));
      SameFlips(b, a);
    }
  }

  lemma {:induction false} PositionedRows(rows: RoleRows, roles: seq<Role>, positions: Positions)
    requires RowsMatch(rows, roles) && UniqueIds(roles)
    requires forall j, k :: 0 <= j < k < |positions| ==> positions[j].0 != positions[k].0
    ensures RowsMatch(SetRolePositions(rows, positions), Reposition(roles, positions))
    ensures UniqueIds(Reposition(roles, positions))
  {
    PositionWritesMatch(rows, roles, positions);
    SetPositionsIsReposition(roles, positions);
    RepositionKeepsIds(roles, positions);
  }

  lemma {:induction false} ReorderRows(rows: RoleRows, current: seq<Role>, held: PermState, positions: Positions)
    requires RowsMatch(rows, current) && TableOk(current) && TableOk(held.roles)
    requires NamesEveryRoleDensely(held.roles, positions)
    ensures RowsMatch(SetRolePositions(rows, positions), AfterReorder(held, positions).roles) <==>
            SameRoles(current, held.roles)
  {
    hide RowsMatch, FindPosition, Reposition, SameRoles, NamesEveryRoleDensely, SetRolePositions, SameLookup;
    EachPlaced(held.roles, positions);
    PositionsDistinct(held.roles, positions);
    PositionedRows(rows, current, positions);
    ReorderShape(held, positions);
    SortMembers(Reposition(held.roles, positions));
    var next := AfterReorder(held, positions).roles;
    MatchIffSameLookup(SetRolePositions(rows, positions), Reposition(current, positions), next);
    LookupIffMembers(Reposition(current, positions), next);
    PlacedIff(current, held.roles, positions);
    MembersAlike(Reposition(current, positions), Reposition(held.roles, positions), next);
  }

  lemma MembersAlike(a: seq<Role>, b: seq<Role>, c: seq<Role>)
    requires forall r :: r in c <==> r in b
    ensures (forall r :: r in a <==> r in c) <==> (forall r :: r in a <==> r in b)
  {
  }

  lemma {:induction false} CreateRows(rows: RoleRows, current: seq<Role>, held: PermState, name: string,
                                      permissions: Permissions)
    requires RowsMatch(rows, current) && TableOk(current) && TableOk(held.roles)
    requires InsertRole(SetRolePositions(rows, ShiftedPositions(held.roles)), NewRole(held, name, permissions)).Some?
    ensures var role := NewRole(held, name, permissions);
            RowsMatch(InsertRole(SetRolePositions(rows, ShiftedPositions(held.roles)), role).value,
                      AfterCreate(held, role).roles) <==>
            SameRoles(RemoveRole(current, role.id), held.roles)
  {
    hide RowsMatch, FindPosition, Reposition, SameRoles, SetRolePositions, SameLookup, ShiftedPositions, RemoveRole;
    hide NewRole, TableOk, UniqueIds;
    var role, positions := NewRole(held, name, permissions), ShiftedPositions(held.roles);
    OkIsUnique(current);
    ShiftedDistinct(held.roles);
    ShiftPlaces(held.roles);
    PositionedRows(rows, current, positions);
    var mine, theirs := Reposition(current, positions), Reposition(held.roles, positions);
    var rows' := SetRolePositions(rows, positions);
    InsertMatches(rows', mine, role);
    CreateShape(held, name, permissions);
    var next := AfterCreate(held, role).roles;
    OkIsUnique(next);
    SortMembers(theirs + [role]);
    MatchIffSameLookup(rows'[role.id := RowOf(role)], mine + [role], next);
    LookupIffMembers(mine + [role], next);
    MembersAlike(mine + [role], theirs + [role], next);
    AbsentThere(rows', mine, role.id);
    AbsentFrom(current, positions, role.id);
    NoneHas(held, name, permissions);
    HeldAbsent(held.roles, positions, role.id);
    OneMoreEach(mine, theirs, role);
    RemoveNothing(current, role.id);
    PlacedIff(current, held.roles, positions);
  }

  lemma ShiftPlaces(roles: seq<Role>)
    requires TableOk(roles)
    ensures forall r :: r in roles ==> FindPosition(ShiftedPositions(roles), r.id).Some?
  {
    forall r | r in roles ensures FindPosition(ShiftedPositions(roles), r.id).Some? {
      var i :| 0 <= i < |roles| && roles[i] == r;
      ShiftedDistinct(roles);
      FindPositionAt(ShiftedPositions(roles), i);
    }
  }

  lemma {:induction false} AbsentThere(rows: RoleRows, roles: seq<Role>, id: RoleId)
    requires RowsMatch(rows, roles) && id !in rows
    ensures forall r :: r in roles ==> r.id != id
  {
    assert !Exists(roles, id);
  }

  lemma {:induction false} AbsentFrom(roles: seq<Role>, positions: Positions, id: RoleId)
    requires forall r :: r in Reposition(roles, positions) ==> r.id != id
    ensures forall r :: r in roles ==> r.id != id
  {
    forall r | r in roles ensures r.id != id {
      var i :| 0 <= i < |roles| && roles[i] == r;
      assert Reposition(roles, positions)[i] in Reposition(roles, positions);
    }
  }

  lemma {:induction false} HeldAbsent(roles: seq<Role>, positions: Positions, id: RoleId)
    requires forall r :: r in roles ==> r.id != id
    ensures forall r :: r in Reposition(roles, positions) ==> r.id != id
  {
    var s := Reposition(roles, positions);
    forall r | r in s ensures r.id != id {
      var i :| 0 <= i < |s| && s[i] == r;
      assert roles[i] in roles;
    }
  }

  lemma {:induction false} OneMoreEach(a: seq<Role>, b: seq<Role>, role: Role)
    requires forall r :: r in a ==> r.id != role.id
    requires forall r :: r in b ==> r.id != role.id
    ensures (forall r :: r in a + [role] <==> r in b + [role]) <==> (forall r :: r in a <==> r in b)
  {
    if forall r :: r in a + [role] <==> r in b + [role] {
      forall r ensures r in a <==> r in b {
        assert r in a + [role] <==> r in b + [role];
      }
    }
  }

  lemma {:induction false} CutRows(rows: RoleRows, roles: seq<Role>, id: RoleId)
    requires RowsMatch(rows, roles) && UniqueIds(roles)
    ensures RowsMatch(rows - {id}, RemoveRole(roles, id)) && UniqueIds(RemoveRole(roles, id))
  {
    RemoveKeepsUnique(roles, id);
    var rest := RemoveRole(roles, id);
    forall x ensures FindRole(rest, x) == if x == id then None else FindRole(roles, x) {
      if x != id && Exists(roles, x) {
        FindRoleIs(rest, FindRole(roles, x).value);
      }
    }
  }

  lemma {:induction false} DeleteRows(rows: RoleRows, current: seq<Role>, held: PermState, k: nat)
    requires RowsMatch(rows, current) && TableOk(current) && TableOk(held.roles) && 0 < k < |held.roles|
    ensures var id := held.roles[k].id;
            var next := AfterDelete(held, id).roles;
            RowsMatch(SetRolePositions(rows - {id}, Ordering(next)), next) <==>
            SameRoles(RemoveRole(current, id), RemoveRole(held.roles, id))
  {
    hide RowsMatch, FindPosition, Reposition, SameRoles, SetRolePositions, SameLookup, RemoveRole, AfterDelete;
    hide DeletedTable, SetPositions;
    var id := held.roles[k].id;
    var rest, next := RemoveRole(current, id), AfterDelete(held, id).roles;
    DeleteShape(held, k);
    CutRows(rows, current, id);
    OrderingDistinct(next);
    PositionedRows(rows - {id}, rest, Ordering(next));
    var placed := Reposition(rest, Ordering(next));
    MatchIffSameLookup(SetRolePositions(rows - {id}, Ordering(next)), placed, next);
    LookupIffMembers(placed, next);
    SetPositionsIsReposition(rest, Ordering(next));
    ReorderedIff(rest, next);
    SortMembers(placed);
    if forall r :: r in placed <==> r in next {
      SortFromSet(placed, next);
    }
    RemoveShape(held.roles, k);
    DeletedCovers(held.roles, k);
    DeletedSame(held.roles, k);
    SameTrans(rest, next, RemoveRole(held.roles, id));
  }

  lemma {:induction false} DeletedSame(roles: seq<Role>, k: nat)
    requires UniqueIds(roles) && k < |roles|
    ensures SameRoles(DeletedTable(roles, k), RemoveRole(roles, roles[k].id))
  {
    hide RemoveRole, DeletedTable, Covers;
    RemoveShape(roles, k);
    DeletedCovers(roles, k);
  }

  /** The same roles, one aside. */
  ghost predicate SameOthers(a: seq<Role>, b: seq<Role>, id: RoleId) {
    forall r :: r in RemoveRole(a, id) <==> r in RemoveRole(b, id)
  }

  lemma HarmlessUpdate(current: seq<Role>, held: PermState, cmd: RoleCommand)
    requires cmd.UpdateRole?
    ensures Harmless(current, held, cmd) <==> SameOthers(current, held.roles, cmd.id)
  {
    hide RemoveRole;
  }

  /** Two tables that agree but for one role have it at the same place. */
  lemma {:induction false} SamePlace(a: seq<Role>, b: seq<Role>, id: RoleId, j: nat, k: nat)
    requires TableOk(a) && TableOk(b) && j < |a| && k < |b| && a[j].id == id == b[k].id
    requires SameOthers(a, b, id)
    ensures j == k
  {
    if j < k {
      OtherInPlace(a, b, id, j);
    } else if k < j {
      OtherInPlace(b, a, id, k);
    }
  }

  lemma {:induction false} OtherInPlace(a: seq<Role>, b: seq<Role>, id: RoleId, i: nat)
    requires TableOk(a) && TableOk(b) && i < |b| && b[i].id != id
    requires forall r :: r in RemoveRole(b, id) ==> r in RemoveRole(a, id)
    ensures i < |a| && a[i] == b[i]
  {
    assert b[i] in RemoveRole(b, id);
    var x :| 0 <= x < |a| && a[x] == b[i];
    assert a[x].position == x;
  }

  lemma {:induction false} UpdateRows(rows: RoleRows, current: seq<Role>, held: seq<Role>, k: nat, updated: Role)
    requires RowsMatch(rows, current) && TableOk(current) && TableOk(held) && k < |held|
    requires updated.id == held[k].id && updated.position == k
    ensures RowsMatch(UpdateRoleRow(rows, updated), held[k := updated]) <==>
            && Exists(current, updated.id)
            && SameOthers(current, held, updated.id)
  {
    hide FindRole, SameOthers, UpdateRoleRow, RowsMatch;
    var id, next, rows' := updated.id, held[k := updated], UpdateRoleRow(rows, updated);
    UpdatedTableOk(held, k, updated);
    TableIndex(next, k);
    forall x | x != id ensures FindRole(next, x) == FindRole(held, x) {
      UpdateLookup(held, k, updated, x);
    }
    if RowsMatch(rows', next) {
      UpdateRowsOnly(rows, current, held, id, updated, next);
    }
    if Exists(current, id) && SameOthers(current, held, id) {
      UpdateRowsBack(rows, current, held, k, updated, next);
    }
  }

  lemma {:induction false} UpdateRowsBack(rows: RoleRows, current: seq<Role>, held: seq<Role>, k: nat, updated: Role,
                                          next: seq<Role>)
    requires RowsMatch(rows, current) && TableOk(current) && TableOk(held) && k < |held| && Exists(current, updated.id)
    requires updated.id == held[k].id && updated.position == k && FindRole(next, updated.id) == Some(updated)
    requires forall x :: x != updated.id ==> FindRole(next, x) == FindRole(held, x)
    requires SameOthers(current, held, updated.id)
    ensures RowsMatch(UpdateRoleRow(rows, updated), next)
  {
    hide FindRole, RemoveRole, TableOk;
    var id, rows' := updated.id, UpdateRoleRow(rows, updated);
    OkIsUnique(current);
    OkIsUnique(held);
    var j := IndexOf(current, id);
    SamePlace(current, held, id, j, k);
    OkPosition(current, j);
    TableIndex(current, j);
    assert rows'[id] == RowOf(updated);
    forall x
      ensures (x in rows' <==> Exists(next, x)) && (x in rows' ==> RoleOf(x, rows'[x]) == FindRole(next, x).value)
    {
      if x != id {
        OthersLookup(current, held, id, x);
      }
    }
  }

  lemma {:induction false} OthersLookup(a: seq<Role>, b: seq<Role>, id: RoleId, x: RoleId)
    requires UniqueIds(a) && UniqueIds(b) && x != id
    requires SameOthers(a, b, id)
    ensures FindRole(a, x) == FindRole(b, x)
  {
    if FindRole(a, x).Some? {
      OtherThere(a, b, id, FindRole(a, x).value);
    } else {
      forall r | r in b ensures r.id != x {
        assert r.id != id ==> r in RemoveRole(b, id);
      }
    }
  }

  lemma {:induction false} OtherThere(a: seq<Role>, b: seq<Role>, id: RoleId, r: Role)
    requires UniqueIds(b) && r in a && r.id != id && SameOthers(a, b, id)
    ensures FindRole(b, r.id) == Some(r)
  {
    hide UniqueIds;
    assert r in RemoveRole(a, id);
    FindRoleIs(b, r);
  }

  lemma {:induction false} UpdateRowsOnly(rows: RoleRows, current: seq<Role>, held: seq<Role>, id: RoleId,
                                          updated: Role, next: seq<Role>)
    requires RowsMatch(rows, current) && UniqueIds(current) && UniqueIds(held) && updated.id == id && Exists(next, id)
    requires forall x :: x != id ==> FindRole(next, x) == FindRole(held, x)
    requires RowsMatch(UpdateRoleRow(rows, updated), next)
    ensures Exists(current, id)
    ensures SameOthers(current, held, id)
  {
    var rows' := UpdateRoleRow(rows, updated);
    assert id in rows' ==> id in rows;
    forall x | x != id ensures FindRole(current, x) == FindRole(held, x) {
      assert x in rows <==> x in rows';
    }
    forall r ensures r in RemoveRole(current, id) <==> r in RemoveRole(held, id) {
      if r in RemoveRole(current, id) { FindRoleIs(current, r); }
      if r in RemoveRole(held, id) { FindRoleIs(held, r); }
    }
  }

  lemma {:induction false} GrantRows(rows: RoleRows, current: seq<Role>, held: seq<Role>)
    requires RowsMatch(rows, current) && TableOk(current) && TableOk(held)
    ensures RowsMatch(rows, held) <==> current == held
  {
    MatchIffSameLookup(rows, current, held);
    LookupIffMembers(current, held);
    if forall r :: r in current <==> r in held {
      SortFromSet(current, held);
      SortFromSet(current, current);
    }
  }

  lemma {:induction false} RowsExact(t: Tables, current: PermState, held: PermState, actor: Actor,
                                     owner: Option<Fingerprint>, cmd: RoleCommand)
    requires RowsMatch(t.roles, current.roles) && PermsOk(current) && PermsOk(held) && Takes(t, held, cmd)
    requires Decide(held, actor, owner, cmd).Accepted?
    ensures var next := Decide(held, actor, owner, cmd).value;
            RowsMatch(Written(t, held, cmd, next).roles, next.roles) <==> RowsUnmissed(current.roles, held, cmd)
  {
    hide RowsMatch, SameRoles, AfterCreate, AfterDelete, AfterReorder, SetRolePositions, RemoveRole, NewRole, FindRole;
    hide ReplaceRole, SameOthers, NamesEveryRoleDensely, MovesOnlyBelow, DiffIsManageable, CanManageRole, Trim;
    hide TableOk, GrantsOk;
    match cmd
    case CreateRole(name, permissions) =>
      CreateRows(t.roles, current.roles, held, name, permissions);
    case UpdateRole(id, _, _, _) =>
      OkIsUnique(held.roles);
      var k := IndexOf(held.roles, id);
      TableIndex(held.roles, k);
      OkPosition(held.roles, k);
      ReplaceShape(held.roles, Updated(held.roles[k], cmd), k);
      UpdateRows(t.roles, current.roles, held.roles, k, Updated(held.roles[k], cmd));
      HarmlessUpdate(current.roles, held, cmd);
    case DeleteRole(id) =>
      OkIsUnique(held.roles);
      var k := IndexOf(held.roles, id);
      EveryoneFirst(held.roles);
      DeleteRows(t.roles, current.roles, held, k);
    case ReorderRoles(positions) =>
      ReorderRows(t.roles, current.roles, held, positions);
    case SetMemberRoles(_, _) =>
      GrantRows(t.roles, current.roles, held.roles);
  }

  lemma EveryoneFirst(roles: seq<Role>)
    requires TableOk(roles)
    ensures roles[0].id == EVERYONE
  {
  }

  // ---- Grants ------------------------------------------------------------------------------------------

  lemma {:induction false} GrantsWritten(t: Tables, current: PermState, held: PermState, actor: Actor,
                                         owner: Option<Fingerprint>, cmd: RoleCommand)
    requires GrantsMatch(t.grants, current) && PermsOk(held) && Takes(t, held, cmd)
    requires Decide(held, actor, owner, cmd).Accepted?
    ensures var next := Decide(held, actor, owner, cmd).value;
            GrantsMatch(Written(t, held, cmd, next).grants, next) <==> SameGrantsBut(current, held, cmd)
  {
    hide Decide, PermsOk, FindRole, SetRolePositions, InsertRole, Grants, NewRole, ShiftedPositions;
    var next := Decide(held, actor, owner, cmd).value;
    var grants := Written(t, held, cmd, next).grants;
    forall m ensures Grants(next, m) ==
                     match cmd
                     case DeleteRole(id) => RemoveGrant(Grants(held, m), id)
                     case SetMemberRoles(member, ids) => if m == member then ids else Grants(held, m)
                     case _ => Grants(held, m)
    {
      DecidedGrants(held, actor, owner, cmd, m);
    }
  }

  // ---- One write and swap ----------------------------------------------------------------------------------

  lemma {:induction false} StrippedSynced(t: Tables, ps: PermState, channels: ChannelMap, held: PermState,
                                          cmd: RoleCommand, next: PermState)
    requires Synced(t, ps, channels) && ChannelsOk(channels)
    ensures var t' := Written(t, held, cmd, next);
            var channels' := Stripping(channels, cmd);
            && OverwritesMatch(t'.overwrites, channels') && NoOrphans(t'.overwrites, channels')
            && ChannelsMatch(t'.channels, channels')
  {
    hide RowsMatch, GrantsMatch, OverwritesMatch, ChannelsOk, SetRolePositions, InsertRole, ReplaceGrants, FindRole;
    hide NewRole, ShiftedPositions, Ordering, DropTarget;
    if cmd.DeleteRole? {
      DeleteOverwritesMatch(t, channels, cmd.id);
    }
  }

  /** Memory and tables agree after a write and swap exactly when nothing the handler had not seen is lost. */
  lemma {:induction false} SyncedExact(t: Tables, current: PermState, channels: ChannelMap, held: PermState,
                                       actor: Actor, owner: Option<Fingerprint>, cmd: RoleCommand)
    requires Synced(t, current, channels) && PermsOk(current) && PermsOk(held) && ChannelsOk(channels)
    requires Takes(t, held, cmd) && Decide(held, actor, owner, cmd).Accepted?
    ensures var next := Decide(held, actor, owner, cmd).value;
            Synced(Written(t, held, cmd, next), next, Stripping(channels, cmd)) <==>
            RowsUnmissed(current.roles, held, cmd) && SameGrantsBut(current, held, cmd)
  {
    hide RowsMatch, GrantsMatch, OverwritesMatch, NoOrphans, ChannelsMatch, PermsOk, ChannelsOk, Takes, Decide, Written;
    hide Stripping, RowsUnmissed, SameGrantsBut;
    RowsExact(t, current, held, actor, owner, cmd);
    GrantsWritten(t, current, held, actor, owner, cmd);
    StrippedSynced(t, current, channels, held, cmd, Decide(held, actor, owner, cmd).value);
  }

  // ---- A clash -----------------------------------------------------------------------------------------------

  /** Every role stands where the positions would put it already. */
  predicate KeepPlaces(roles: seq<Role>, positions: Positions) {
    forall r :: r in roles ==> Placed(r, positions) == r
  }

  lemma {:induction false} PlacesIff(roles: seq<Role>, positions: Positions)
    requires UniqueIds(roles) && UniqueIds(Reposition(roles, positions))
    ensures SameLookup(Reposition(roles, positions), roles) <==> KeepPlaces(roles, positions)
  {
    hide FindRole, FindPosition;
    var placed := Reposition(roles, positions);
    if SameLookup(placed, roles) {
      forall r | r in roles ensures Placed(r, positions) == r {
        var i :| 0 <= i < |roles| && roles[i] == r;
        assert placed[i] == Placed(r, positions) && placed[i].id == r.id;
        FindRoleIs(placed, placed[i]);
        FindRoleIs(roles, r);
        assert FindRole(placed, r.id) == FindRole(roles, r.id);
      }
    }
    if KeepPlaces(roles, positions) {
      assert placed == roles;
    }
  }

  /** A creation whose insert clashes leaves its shift behind: harmless exactly when it moves nobody. */
  lemma {:induction false} ClashExact(t: Tables, current: PermState, channels: ChannelMap, held: PermState,
                                      name: string, permissions: Permissions, next: PermState)
    requires Synced(t, current, channels) && PermsOk(current) && PermsOk(held)
    requires !Takes(t, held, CreateRole(name, permissions))
    ensures Synced(Written(t, held, CreateRole(name, permissions), next), current, channels) <==>
            KeepPlaces(current.roles, ShiftedPositions(held.roles))
  {
    hide RowsMatch, Reposition, KeepPlaces, SameLookup, SetRolePositions, ShiftedPositions, NewRole, TableOk, GrantsOk;
    var positions := ShiftedPositions(held.roles);
    OkIsUnique(current.roles);
    ShiftedDistinct(held.roles);
    PositionedRows(t.roles, current.roles, positions);
    MatchIffSameLookup(SetRolePositions(t.roles, positions), Reposition(current.roles, positions), current.roles);
    PlacesIff(current.roles, positions);
  }

  // ---- Whole runs ----------------------------------------------------------------------------------------------

  /** The published and held permission states, the tables and the channels. */
  datatype World = World(states: Interleaving.World, tables: Tables, channels: ChannelMap)

  function Next(w: World, owner: Option<Fingerprint>, step: Interleaving.Step): World {
    if !Swaps(w.states, owner, step) then w.(states := Interleaving.Next(w.states, owner, step))
    else
      var held := w.states.held[step.handler];
      var tables := Written(w.tables, held, step.cmd, Decide(held, step.actor, owner, step.cmd).value);
      if Takes(w.tables, held, step.cmd)
      then World(Interleaving.Next(w.states, owner, step), tables, Stripping(w.channels, step.cmd))
      else w.(tables := tables)
  }

  ghost predicate Sound(w: World) { Interleaving.WorldOk(w.states) && ChannelsOk(w.channels) }

  ghost predicate InSync(w: World) { Synced(w.tables, w.states.current, w.channels) }

  /** What was missed since the snapshot was read is neither in the way of the writes nor undone by the swap. */
  ghost predicate Unmissed(w: World, owner: Option<Fingerprint>, step: Interleaving.Step) {
    Swaps(w.states, owner, step) ==>
      var current, held := w.states.current, w.states.held[step.handler];
      if Takes(w.tables, held, step.cmd)
      then RowsUnmissed(current.roles, held, step.cmd) && SameGrantsBut(current, held, step.cmd)
      else step.cmd.CreateRole? ==> KeepPlaces(current.roles, ShiftedPositions(held.roles))
  }

  lemma {:induction false} NextSound(w: World, owner: Option<Fingerprint>, step: Interleaving.Step)
    requires Sound(w)
    ensures Sound(Next(w, owner, step))
  {
    hide Decide, Takes, Written, Interleaving.WorldOk, DropTarget;
    Interleaving.NextKeepsOk(w.states, owner, step);
    if step.Swap? && step.cmd.DeleteRole? {
      StripKeepsOk(w.channels, step.cmd.id);
    }
  }

  lemma {:induction false} StripKeepsOk(channels: ChannelMap, id: RoleId)
    requires ChannelsOk(channels)
    ensures ChannelsOk(StripRole(channels, id))
  {
    forall c | c in channels ensures UniqueTargets(DropTarget(channels[c].overwrites, ForRole(id))) {
      DropTargetLookup(channels[c].overwrites, ForRole(id), ForRole(id));
    }
  }

  lemma {:induction false} StepExact(w: World, owner: Option<Fingerprint>, step: Interleaving.Step)
    requires Sound(w) && InSync(w)
    ensures InSync(Next(w, owner, step)) <==> Unmissed(w, owner, step)
  {
    hide Decide, Takes, Written, Synced, ChannelsOk, RowsUnmissed, SameGrantsBut, PermsOk, KeepPlaces, ShiftedPositions;
    var t := w.tables;
    if Swaps(w.states, owner, step) {
      var held, current := w.states.held[step.handler], w.states.current;
      var next := Decide(held, step.actor, owner, step.cmd).value;
      if Takes(t, held, step.cmd) {
        SyncedExact(t, current, w.channels, held, step.actor, owner, step.cmd);
      } else if step.cmd.CreateRole? {
        ClashExact(t, current, w.channels, held, step.cmd.name, step.cmd.permissions, next);
      } else {
        RefusedWrites(t, held, step.cmd, next);
      }
    }
  }

  lemma RefusedWrites(t: Tables, held: PermState, cmd: RoleCommand, next: PermState)
    requires !Takes(t, held, cmd) && !cmd.CreateRole?
    ensures Written(t, held, cmd, next) == t
  {
    hide NoRepeats;
  }

  /** Memory and tables agree now and after every step to come. */
  ghost predicate AlwaysInSync(w: World, owner: Option<Fingerprint>, steps: seq<Interleaving.Step>)
    decreases |steps|
  {
    InSync(w) && (steps != [] ==> AlwaysInSync(Next(w, owner, steps[0]), owner, steps[1..]))
  }

  ghost predicate NeverMissing(w: World, owner: Option<Fingerprint>, steps: seq<Interleaving.Step>)
    decreases |steps|
  {
    steps != [] ==> Unmissed(w, owner, steps[0]) && NeverMissing(Next(w, owner, steps[0]), owner, steps[1..])
  }

  /**
  However handlers overlap, the tables hold what memory holds at every step exactly as long as no step misses
  anything.
  */
  lemma {:induction false} InSyncIffNeverMissing(w: World, owner: Option<Fingerprint>, steps: seq<Interleaving.Step>)
    requires Sound(w) && InSync(w)
    ensures AlwaysInSync(w, owner, steps) <==> NeverMissing(w, owner, steps)
    decreases |steps|
  {
    hide Sound, InSync, Unmissed, Next;
    if steps != [] {
      var next := Next(w, owner, steps[0]);
      NextSound(w, owner, steps[0]);
      StepExact(w, owner, steps[0]);
      if InSync(next) {
        InSyncIffNeverMissing(next, owner, steps[1..]);
      } else {
        assert !AlwaysInSync(next, owner, steps[1..]);
      }
    }
  }

  // ---- Two creations, and a deletion overtaken ---------------------------------------------------------------------

  lemma {:induction false} PositionsKeepKeys(rows: RoleRows, positions: Positions)
    ensures SetRolePositions(rows, positions).Keys == rows.Keys
    decreases |positions|
  {
    if positions != [] {
      var (id, p) := positions[0];
      PositionsKeepKeys(if id in rows then rows[id := rows[id].(position := p)] else rows, positions[1..]);
    }
  }

  lemma {:induction false} CreatedKeepPlaces(roles: seq<Role>, role: Role)
    requires TableOk(roles) && forall r :: r in roles ==> r.id != role.id
    ensures KeepPlaces(CreatedTable(roles, role), ShiftedPositions(roles))
  {
    hide Placed, TableOk, ShiftedPositions;
    OkIsUnique(roles);
    var table, positions := CreatedTable(roles, role), ShiftedPositions(roles);
    forall i | 0 <= i < |table| ensures Placed(table[i], positions) == table[i] {
      if i == 1 {
        Unplaced(roles, role);
      } else {
        CreatedKeeps(roles, role, if i == 0 then 0 else i - 1);
      }
    }
    AtEvery(table, positions);
  }

  lemma {:induction false} AtEvery(table: seq<Role>, positions: Positions)
    requires forall i :: 0 <= i < |table| ==> Placed(table[i], positions) == table[i]
    ensures KeepPlaces(table, positions)
  {
    hide Placed;
  }

  lemma {:induction false} Unplaced(roles: seq<Role>, role: Role)
    requires forall r :: r in roles ==> r.id != role.id
    ensures Placed(role, ShiftedPositions(roles)) == role
  {
    forall k | 0 <= k < |roles| ensures ShiftedPositions(roles)[k].0 != role.id {
      assert roles[k] in roles;
    }
    assert FindPosition(ShiftedPositions(roles), role.id).None?;
  }

  lemma {:induction false} CreatedKeeps(roles: seq<Role>, role: Role, i: nat)
    requires TableOk(roles) && i < |roles|
    ensures var r := CreatedTable(roles, role)[if i == 0 then 0 else i + 1]; Placed(r, ShiftedPositions(roles)) == r
  {
    ShiftedDistinct(roles);
    FindPositionAt(ShiftedPositions(roles), i);
  }

  /** A swap on what is published now, whose writes go through, keeps memory and tables in agreement. */
  lemma {:induction false} FreshKeepsSync(w: World, owner: Option<Fingerprint>, step: Interleaving.Step)
    requires Sound(w) && InSync(w) && Swaps(w.states, owner, step)
    requires w.states.held[step.handler] == w.states.current && Takes(w.tables, w.states.current, step.cmd)
    ensures InSync(Next(w, owner, step)) && Sound(Next(w, owner, step))
  {
    hide Decide, Takes, Written, Synced, ChannelsOk, PermsOk, Harmless, FindRole, Next;
    var current := w.states.current;
    OkTable(current);
    NothingMissed(current, step.cmd);
    if step.cmd.UpdateRole? {
      UpdateExists(current, step.actor, owner, step.cmd);
    }
    NextSound(w, owner, step);
    StepExact(w, owner, step);
  }

  lemma OkTable(ps: PermState)
    requires PermsOk(ps)
    ensures TableOk(ps.roles)
  {
  }

  lemma UpdateExists(ps: PermState, actor: Actor, owner: Option<Fingerprint>, cmd: RoleCommand)
    requires cmd.UpdateRole? && Decide(ps, actor, owner, cmd).Accepted?
    ensures Exists(ps.roles, cmd.id)
  {
  }

  /**
  Two creations read one table. The first goes through; the second writes the same shift again, its insert clashes with
  the first one's id, nothing is swapped in, and memory and tables still agree.
  */
  lemma {:induction false} TwoCreations(w: World, owner: Option<Fingerprint>, first: Actor, a: RoleCommand,
                                        second: Actor, b: RoleCommand)
    requires Sound(w) && InSync(w) && a.CreateRole? && b.CreateRole? && 0 in w.states.held && 1 in w.states.held
    requires w.states.held[0] == w.states.held[1] == w.states.current
    requires Decide(w.states.current, first, owner, a).Accepted? && Decide(w.states.current, second, owner, b).Accepted?
    ensures var once := Next(w, owner, Interleaving.Swap(0, first, a));
            var twice := Next(once, owner, Interleaving.Swap(1, second, b));
            && InSync(once) && InSync(twice) && |once.states.current.roles| == |w.states.current.roles| + 1
            && twice.states == once.states
  {
    hide Decide, Written, RowsMatch, ChannelsOk, Interleaving.WorldOk, SetRolePositions, SortByPosition, Reposition;
    hide Interleaving.Next, ShiftedPositions, KeepPlaces, Next, TableOk, Takes;
    var held := w.states.current;
    var one, two := Interleaving.Swap(0, first, a), Interleaving.Swap(1, second, b);
    var once := Next(w, owner, one);
    Held(w, 0);
    FirstTakes(w, a);
    FreshKeepsSync(w, owner, one);
    CreatedNext(w, owner, first, a);
    Held(once, 0);
    OkIsUnique(once.states.current.roles);
    SecondClashes(once.tables, once.states.current, held, a, b);
    NoneHas(held, a.name, a.permissions);
    CreatedKeepPlaces(held.roles, NewRole(held, a.name, a.permissions));
    StepExact(once, owner, two);
    ClashedNext(once, owner, two);
  }

  lemma Held(w: World, handler: nat)
    requires Sound(w) && handler in w.states.held
    ensures TableOk(w.states.held[handler].roles) && PermsOk(w.states.held[handler]) && TableOk(w.states.current.roles)
  {
  }

  lemma FirstTakes(w: World, cmd: RoleCommand)
    requires InSync(w) && cmd.CreateRole? && TableOk(w.states.current.roles)
    ensures Takes(w.tables, w.states.current, cmd)
  {
    hide SetRolePositions, InsertRole, RowsMatch, NewRole, AfterCreate;
    CreateMatches(w.tables.roles, w.states.current, cmd.name, cmd.permissions);
  }

  lemma {:induction false} CreatedNext(w: World, owner: Option<Fingerprint>, actor: Actor, cmd: RoleCommand)
    requires 0 in w.states.held && w.states.held[0] == w.states.current && TableOk(w.states.current.roles)
    requires cmd.CreateRole? && Decide(w.states.current, actor, owner, cmd).Accepted?
    requires Takes(w.tables, w.states.current, cmd)
    ensures var held := w.states.current;
            var once := Next(w, owner, Interleaving.Swap(0, actor, cmd));
            && once.states.current.roles == CreatedTable(held.roles, NewRole(held, cmd.name, cmd.permissions))
            && once.states.held == w.states.held
  {
    hide SortByPosition, Reposition, ShiftedPositions, Takes, Written, CreatedTable, NewRole, Trim;
    CreateShape(w.states.current, cmd.name, cmd.permissions);
  }

  lemma {:induction false} SecondClashes(t: Tables, current: PermState, held: PermState, a: RoleCommand, b: RoleCommand)
    requires RowsMatch(t.roles, current.roles) && a.CreateRole? && b.CreateRole? && TableOk(held.roles)
    requires current.roles == CreatedTable(held.roles, NewRole(held, a.name, a.permissions)) && UniqueIds(current.roles)
    ensures !Takes(t, held, b)
  {
    hide ShiftedPositions, SetRolePositions, FindRole, UniqueIds, TableOk;
    OkIsUnique(held.roles);
    PositionsKeepKeys(t.roles, ShiftedPositions(held.roles));
    var role := NewRole(held, a.name, a.permissions);
    assert CreatedTable(held.roles, role)[1] == role;
    TableIndex(current.roles, 1);
    assert Exists(current.roles, role.id) && role.id in t.roles;
    SameNewId(held, a, b);
  }

  lemma SameNewId(held: PermState, a: RoleCommand, b: RoleCommand)
    requires a.CreateRole? && b.CreateRole?
    ensures NewRole(held, a.name, a.permissions).id == NewRole(held, b.name, b.permissions).id
  {
    hide MaxRoleId;
  }

  lemma ClashedNext(w: World, owner: Option<Fingerprint>, step: Interleaving.Step)
    requires Swaps(w.states, owner, step) && !Takes(w.tables, w.states.held[step.handler], step.cmd)
    ensures Next(w, owner, step).states == w.states
  {
    hide Decide, Takes, Written;
  }

  /**
  A role is updated by a handler that read it before another one deleted it. The update swaps the role back into memory,
  while in the tables it stays deleted.
  */
  lemma {:induction false} ADeletedRoleComesBack(w: World, owner: Option<Fingerprint>, first: Actor, second: Actor,
                                                 cmd: RoleCommand)
    requires Sound(w) && InSync(w) && cmd.UpdateRole? && 0 in w.states.held && 1 in w.states.held
    requires w.states.held[0] == w.states.held[1] == w.states.current
    requires Decide(w.states.current, first, owner, DeleteRole(cmd.id)).Accepted?
    requires Decide(w.states.current, second, owner, cmd).Accepted?
    ensures var deleted := Next(w, owner, Interleaving.Swap(0, first, DeleteRole(cmd.id)));
            var end := Next(deleted, owner, Interleaving.Swap(1, second, cmd));
            && InSync(deleted) && !Exists(deleted.states.current.roles, cmd.id)
            && Exists(end.states.current.roles, cmd.id) && cmd.id !in end.tables.roles
  {
    hide Decide, Interleaving.WorldOk, SetRolePositions, FindRole, TableOk, GrantsOk;
    hide Next;
    var held := w.states.current;
    var one, two := Interleaving.Swap(0, first, DeleteRole(cmd.id)), Interleaving.Swap(1, second, cmd);
    var deleted := Next(w, owner, one);
    Held(w, 0);
    FreshKeepsSync(w, owner, one);
    CutNext(w, owner, one);
    assert !Exists(deleted.states.current.roles, cmd.id);
    UpdateExists(held, second, owner, cmd);
    OkIsUnique(held.roles);
    var k := IndexOf(held.roles, cmd.id);
    UpdateDecided(held, second, owner, cmd, k);
    RestoredNext(deleted, owner, two, k);
  }

  lemma {:induction false} CutNext(w: World, owner: Option<Fingerprint>, step: Interleaving.Step)
    requires Swaps(w.states, owner, step) && step.cmd.DeleteRole?
    ensures step.cmd.id !in Next(w, owner, step).tables.roles && Next(w, owner, step).states.held == w.states.held
  {
    hide Decide, SetRolePositions, Ordering, StripRole;
    var held := w.states.held[step.handler];
    var cut := DeleteRoleRows(w.tables, step.cmd.id);
    PositionsKeepKeys(cut.roles, Ordering(Decide(held, step.actor, owner, step.cmd).value.roles));
  }

  lemma {:induction false} RestoredNext(w: World, owner: Option<Fingerprint>, step: Interleaving.Step, k: nat)
    requires Swaps(w.states, owner, step) && step.cmd.UpdateRole? && k < |w.states.held[step.handler].roles|
    requires w.states.held[step.handler].roles[k].id == step.cmd.id && step.cmd.id !in w.tables.roles
    requires var held := w.states.held[step.handler];
             && Decide(held, step.actor, owner, step.cmd).value ==
                held.(roles := held.roles[k := Updated(held.roles[k], step.cmd)])
             && TableOk(held.roles[k := Updated(held.roles[k], step.cmd)]) && TableOk(held.roles)
    ensures step.cmd.id !in Next(w, owner, step).tables.roles
    ensures Exists(Next(w, owner, step).states.current.roles, step.cmd.id)
  {
    hide Decide, FindRole;
    var held := w.states.held[step.handler];
    TableIndex(held.roles, k);
    TableIndex(held.roles[k := Updated(held.roles[k], step.cmd)], k);
  }
}
