/**
The ordered role table, the grants beside it, and the five commands that change them
(`PermState` in crates/pickle-server/src/state.rs, the handlers in crates/pickle-server/src/admin.rs).
*/
module RoleTable {
  import opened Common
  import opened Perms

  datatype ErrorCode = NotPermitted | Malformed | NoSuchChannel | Internal | ChannelFull | NotAuthenticated
  datatype Outcome<+T> = Refused(code: ErrorCode) | Accepted(value: T)

  /** Roles ordered by position, and explicit grants by member; @everyone is implicit. */
  datatype PermState = PermState(roles: seq<Role>, members: map<Fingerprint, seq<RoleId>>)

  function Grants(ps: PermState, member: Fingerprint): seq<RoleId> {
    if member in ps.members then ps.members[member] else []
  }

  ghost predicate TableOk(roles: seq<Role>) {
    && |roles| > 0 && roles[0].id == EVERYONE
    && UniqueIds(roles)
    && forall i :: 0 <= i < |roles| ==> roles[i].position == i
  }

  predicate Exists(roles: seq<Role>, id: RoleId) { FindRole(roles, id).Some? }

  predicate Grantable(roles: seq<Role>, ids: seq<RoleId>) {
    forall i :: 0 <= i < |ids| ==> ids[i] != EVERYONE && Exists(roles, ids[i])
  }

  ghost predicate GrantsOk(ps: PermState) {
    forall m :: m in ps.members ==> Grantable(ps.roles, ps.members[m])
  }

  ghost predicate PermsOk(ps: PermState) { TableOk(ps.roles) && GrantsOk(ps) }

  // ---- Sorting by position ------------------------------------------------------

  predicate Sorted(roles: seq<Role>) {
    forall i, j :: 0 <= i < j < |roles| ==> roles[i].position <= roles[j].position
  }

  predicate StrictlySorted(roles: seq<Role>) {
    forall i, j :: 0 <= i < j < |roles| ==> roles[i].position < roles[j].position
  }

  function InsertByPosition(r: Role, roles: seq<Role>): (s: seq<Role>)
    requires Sorted(roles)
    ensures Sorted(s) && multiset(s) == multiset(roles) + multiset{r}
    ensures forall x :: x in s <==> x == r || x in roles
  {
    if roles == [] || r.position <= roles[0].position then
      [r] + roles
    else
      assert roles == [roles[0]] + roles[1..];
      var rest := InsertByPosition(r, roles[1..]);
      InsertStep(r, roles[0], roles[1..], rest);
      [roles[0]] + rest
  }

  lemma {:induction false} InsertStep(r: Role, head: Role, tail: seq<Role>, rest: seq<Role>)
    requires Sorted([head] + tail) && Sorted(rest) && head.position < r.position
    requires multiset(rest) == multiset(tail) + multiset{r}
    requires forall x :: x in rest <==> x == r || x in tail
    ensures Sorted([head] + rest) && multiset([head] + rest) == multiset([head] + tail) + multiset{r}
    ensures forall x :: x in [head] + rest <==> x == r || x in [head] + tail
  {
    forall j | 0 <= j < |rest| ensures head.position <= rest[j].position {
      assert rest[j] in rest;
      if rest[j] != r {
        var k :| 0 <= k < |tail| && tail[k] == rest[j];
        assert ([head] + tail)[k + 1] == tail[k] && ([head] + tail)[0] == head;
      }
    }
  }

  /** `sort_by_key(position)`, which is stable. */
  function SortByPosition(roles: seq<Role>): (s: seq<Role>)
    ensures Sorted(s) && multiset(s) == multiset(roles)
    ensures forall x :: x in s <==> x in roles
  {
    if roles == [] then []
    else
      assert roles == [roles[0]] + roles[1..];
      InsertByPosition(roles[0], SortByPosition(roles[1..]))
  }

  lemma {:induction false} SameLeast(s: seq<Role>, t: seq<Role>)
    requires Sorted(s) && StrictlySorted(t) && multiset(s) == multiset(t) && s != [] && t != []
    ensures s[0] == t[0]
  {
    assert s[0] in multiset(t) && t[0] in multiset(s);
    var i :| 0 <= i < |t| && t[i] == s[0];
    var j :| 0 <= j < |s| && s[j] == t[0];
    assert t[0].position <= t[i].position && s[0].position <= s[j].position;
  }

  lemma {:induction false} TailMultiset<T>(s: seq<T>)
    requires s != []
    ensures multiset(s) == multiset{s[0]} + multiset(s[1..])
  {
    assert s == [s[0]] + s[1..];
  }

  lemma {:induction false} SameTails<T>(s: seq<T>, t: seq<T>)
    requires multiset(s) == multiset(t) && s != [] && t != [] && s[0] == t[0]
    ensures multiset(s[1..]) == multiset(t[1..])
  {
    TailMultiset(s);
    TailMultiset(t);
    assert multiset(s[1..]) == multiset(s) - multiset{s[0]};
    assert multiset(t[1..]) == multiset(t) - multiset{t[0]};
  }

  lemma {:induction false} SortedUnique(s: seq<Role>, t: seq<Role>)
    requires Sorted(s) && StrictlySorted(t) && multiset(s) == multiset(t)
    ensures s == t
  {
    assert |s| == |multiset(s)| == |multiset(t)| == |t|;
    if s != [] {
      SameLeast(s, t);
      SameTails(s, t);
      SortedUnique(s[1..], t[1..]);
      assert s == [s[0]] + s[1..] && t == [t[0]] + t[1..];
    }
  }

  /** A strictly ordered arrangement is the only thing sorting any permutation of it can give. */
  lemma {:induction false} SortIs(roles: seq<Role>, t: seq<Role>)
    requires StrictlySorted(t) && multiset(roles) == multiset(t)
    ensures SortByPosition(roles) == t
  {
    SortedUnique(SortByPosition(roles), t);
  }

  // ---- Positions ------------------------------------------------------------------

  type Positions = seq<(RoleId, nat)>

  function FindPosition(positions: Positions, id: RoleId): (p: Option<nat>)
    ensures p.Some? ==> exists k :: 0 <= k < |positions| && positions[k] == (id, p.value)
    ensures p.None? ==> forall k :: 0 <= k < |positions| ==> positions[k].0 != id
  {
    if positions == [] then None
    else if positions[0].0 == id then
      assert positions[0] == (id, positions[0].1);
      Some(positions[0].1)
    else
      var rest := FindPosition(positions[1..], id);
      assert rest.Some? ==> exists k :: 0 <= k < |positions| && positions[k] == (id, rest.value) by {
        if rest.Some? {
          var k :| 0 <= k < |positions[1..]| && positions[1..][k] == (id, rest.value);
          assert positions[k + 1] == (id, rest.value);
        }
      }
      rest
  }

  function Placed(r: Role, positions: Positions): Role {
    match FindPosition(positions, r.id)
    case Some(p) => r.(position := p)
    case None => r
  }

  function Reposition(roles: seq<Role>, positions: Positions): (s: seq<Role>)
    ensures |s| == |roles|
    ensures forall i :: 0 <= i < |roles| ==> s[i] == Placed(roles[i], positions)
  {
    seq(|roles|, i requires 0 <= i < |roles| => Placed(roles[i], positions))
  }

  /** The handlers' `for role in &mut next.roles` loop. */
  method RepositionLoop(roles: seq<Role>, positions: Positions) returns (s: seq<Role>)
    ensures s == Reposition(roles, positions)
  {
    s := roles;
    for i := 0 to |roles|
      invariant |s| == |roles|
      invariant s[..i] == Reposition(roles, positions)[..i]
      invariant s[i..] == roles[i..]
    {
      var p := FindPosition(positions, s[i].id);
      assert s[i] == s[i..][0] == roles[i];
      ghost var before := s;
      if p.Some? {
        s := s[i := s[i].(position := p.value)];
      }
      assert s[..i] == before[..i] && s[i + 1..] == before[i..][1..];
      assert s[..i + 1] == s[..i] + [Placed(roles[i], positions)];
      assert Reposition(roles, positions)[..i + 1] == Reposition(roles, positions)[..i] + [Placed(roles[i], positions)];
    }
    assert s[..|roles|] == s && Reposition(roles, positions)[..|roles|] == Reposition(roles, positions);
  }

  function Renumber(roles: seq<Role>): (s: seq<Role>)
    ensures |s| == |roles|
    ensures forall i :: 0 <= i < |roles| ==> s[i] == roles[i].(position := i)
  {
    seq(|roles|, i requires 0 <= i < |roles| => roles[i].(position := i))
  }

  /** The compaction loop of `delete_role`. */
  method RenumberLoop(roles: seq<Role>) returns (s: seq<Role>)
    ensures s == Renumber(roles)
  {
    s := roles;
    for i := 0 to |roles|
      invariant |s| == |roles|
      invariant forall k :: 0 <= k < i ==> s[k] == roles[k].(position := k)
      invariant forall k :: i <= k < |roles| ==> s[k] == roles[k]
    {
      s := s[i := s[i].(position := i)];
    }
  }

  /** What the `RolesReordered` broadcast carries. */
  function Ordering(roles: seq<Role>): (ps: Positions)
    ensures |ps| == |roles|
    ensures forall i :: 0 <= i < |roles| ==> ps[i] == (roles[i].id, roles[i].position)
  {
    seq(|roles|, i requires 0 <= i < |roles| => (roles[i].id, roles[i].position))
  }

  /** Everything above @everyone makes room for a newcomer at position 1. */
  function ShiftedPositions(roles: seq<Role>): (ps: Positions)
    ensures |ps| == |roles|
    ensures forall i :: 0 <= i < |roles| ==>
              ps[i] == (roles[i].id, if roles[i].position == 0 then 0 else roles[i].position + 1)
  {
    seq(|roles|,
        i requires 0 <= i < |roles| => (roles[i].id, if roles[i].position == 0 then 0 else roles[i].position + 1))
  }

  lemma {:induction false} FindPositionAt(positions: Positions, k: nat)
    requires k < |positions|
    requires forall i, j :: 0 <= i < j < |positions| ==> positions[i].0 != positions[j].0
    ensures FindPosition(positions, positions[k].0) == Some(positions[k].1)
  {
    var p := FindPosition(positions, positions[k].0).value;
    var j :| 0 <= j < |positions| && positions[j] == (positions[k].0, p);
  }

  // ---- Commands --------------------------------------------------------------------

  /** Who is acting, as the handlers see them: held roles, ownership, and bits outside any channel. */
  datatype Actor = Actor(roles: seq<RoleId>, owner: bool, base: Permissions)

  function ActorOf(ps: PermState, who: Fingerprint, owner: Option<Fingerprint>): Actor {
    Actor(Grants(ps, who), owner == Some(who), Resolve(ps.roles, Grants(ps, who), who, owner == Some(who), None))
  }

  predicate MayGrant(actor: Actor, bits: Permissions) {
    actor.owner || ADMINISTRATOR <= actor.base || bits <= actor.base
  }

  datatype RoleCommand =
    | CreateRole(name: string, permissions: Permissions)
    | UpdateRole(id: RoleId, newName: Option<string>, newColor: Option<Option<nat>>, newBits: Option<Permissions>)
    | DeleteRole(id: RoleId)
    | ReorderRoles(positions: Positions)
    | SetMemberRoles(member: Fingerprint, roles: seq<RoleId>)

  /** Unicode White_Space, as `str::trim` uses it. */
  predicate IsSpace(c: char) {
    var n := c as int;
    9 <= n <= 13 || n == 0x20 || n == 0x85 || n == 0xA0 || n == 0x1680 || 0x2000 <= n <= 0x200A
    || n == 0x2028 || n == 0x2029 || n == 0x202F || n == 0x205F || n == 0x3000
  }

  function Trim(s: string): string
    decreases |s|
  {
    if s == "" then s
    else if IsSpace(s[0]) then Trim(s[1..])
    else if IsSpace(s[|s| - 1]) then Trim(s[..|s| - 1])
    else s
  }

  function MaxRoleId(roles: seq<Role>): (m: nat)
    ensures forall r :: r in roles ==> r.id <= m
  {
    if roles == [] then 0
    else
      var rest := MaxRoleId(roles[1..]);
      if roles[0].id > rest then roles[0].id else rest
  }

  function NewRole(ps: PermState, name: string, permissions: Permissions): Role {
    Role(MaxRoleId(ps.roles) + 1, Trim(name), None, 1, permissions * ALL)
  }

  function AfterCreate(ps: PermState, role: Role): PermState {
    ps.(roles := SortByPosition(Reposition(ps.roles, ShiftedPositions(ps.roles)) + [role]))
  }

  /** `iter_mut().find(..)` followed by an assignment through the slot. */
  function ReplaceRole(roles: seq<Role>, updated: Role): (s: seq<Role>)
    ensures |s| == |roles|
  {
    if roles == [] then []
    else if roles[0].id == updated.id then [updated] + roles[1..]
    else [roles[0]] + ReplaceRole(roles[1..], updated)
  }

  function Updated(existing: Role, cmd: RoleCommand): Role
    requires cmd.UpdateRole?
  {
    existing.(
      name := if cmd.newName.Some? then Trim(cmd.newName.value) else existing.name,
      color := if cmd.newColor.Some? then cmd.newColor.value else existing.color,
      permissions := if cmd.newBits.Some? then cmd.newBits.value * ALL else existing.permissions)
  }

  function RemoveRole(roles: seq<Role>, id: RoleId): (s: seq<Role>)
    ensures forall r :: r in s <==> r in roles && r.id != id
    ensures |s| <= |roles|
  {
    if roles == [] then []
    else
      assert roles == [roles[0]] + roles[1..];
      if roles[0].id == id then RemoveRole(roles[1..], id) else [roles[0]] + RemoveRole(roles[1..], id)
  }

  function RemoveGrant(ids: seq<RoleId>, id: RoleId): (s: seq<RoleId>)
    ensures forall x :: x in s <==> x in ids && x != id
    ensures id !in ids ==> s == ids
  {
    if ids == [] then []
    else
      assert ids == [ids[0]] + ids[1..];
      if ids[0] == id then RemoveGrant(ids[1..], id) else [ids[0]] + RemoveGrant(ids[1..], id)
  }

  function AfterDelete(ps: PermState, id: RoleId): PermState {
    PermState(Renumber(SortByPosition(RemoveRole(ps.roles, id))),
              map m | m in ps.members :: RemoveGrant(ps.members[m], id))
  }

  function Range(n: nat): (s: seq<nat>)
    ensures |s| == n && forall i :: 0 <= i < n ==> s[i] == i
  {
    seq(n, i => i)
  }

  /** A reorder names every role, and its positions sort to 0, 1, ..., n-1. */
  predicate NamesEveryRoleDensely(roles: seq<Role>, positions: Positions) {
    && |positions| == |roles|
    && (forall i :: 0 <= i < |roles| ==> FindPosition(positions, roles[i].id).Some?)
    && multiset(seq(|positions|, i requires 0 <= i < |positions| => positions[i].1)) == multiset(Range(|roles|))
  }

  predicate MovesOnlyBelow(roles: seq<Role>, positions: Positions, top: nat) {
    forall i :: 0 <= i < |positions| ==>
      var was := match FindRole(roles, positions[i].0) { case Some(r) => r.position case None => 0 };
      was == positions[i].1 || (was < top && positions[i].1 < top)
  }

  /** @everyone stays at the bottom. */
  predicate MovesEveryone(positions: Positions) {
    exists i :: 0 <= i < |positions| && positions[i].0 == EVERYONE && positions[i].1 != 0
  }

  function AfterReorder(ps: PermState, positions: Positions): PermState {
    ps.(roles := SortByPosition(Reposition(ps.roles, positions)))
  }

  predicate DiffIsManageable(ps: PermState, actor: Actor, member: Fingerprint, roles: seq<RoleId>) {
    var current := Grants(ps, member);
    && (forall i :: 0 <= i < |current| ==>
          current[i] in roles || CanManageRole(ps.roles, actor.roles, actor.owner, current[i]))
    && (forall i :: 0 <= i < |roles| ==>
          roles[i] in current || CanManageRole(ps.roles, actor.roles, actor.owner, roles[i]))
  }

  function AfterGrant(ps: PermState, member: Fingerprint, roles: seq<RoleId>): PermState {
    ps.(members := if roles == [] then map m | m in ps.members && m != member :: ps.members[m]
                   else ps.members[member := roles])
  }

  /** Each handler's checks in the handler's order, then the state it would swap in, all against one snapshot. */
  function Decide(ps: PermState, actor: Actor, owner: Option<Fingerprint>, cmd: RoleCommand): Outcome<PermState> {
    match cmd
    case CreateRole(name, permissions) =>
      if Trim(name) == "" then Refused(Malformed)
      else if !MayGrant(actor, permissions * ALL) then Refused(NotPermitted)
      else Accepted(AfterCreate(ps, NewRole(ps, name, permissions)))
    case UpdateRole(id, newName, newColor, newBits) =>
      if !Exists(ps.roles, id) then Refused(Malformed)
      else
        var existing := FindRole(ps.roles, id).value;
        if !CanManageRole(ps.roles, actor.roles, actor.owner, id) then Refused(NotPermitted)
        else if id == EVERYONE && newName.Some? then Refused(Malformed)
        else if newName.Some? && Trim(newName.value) == "" then Refused(Malformed)
        else if newBits.Some? && !MayGrant(actor, newBits.value * ALL - existing.permissions) then Refused(NotPermitted)
        else Accepted(ps.(roles := ReplaceRole(ps.roles, Updated(existing, cmd))))
    case DeleteRole(id) =>
      if id == EVERYONE then Refused(NotPermitted)
      else if !Exists(ps.roles, id) then Refused(Malformed)
      else if !CanManageRole(ps.roles, actor.roles, actor.owner, id) then Refused(NotPermitted)
      else Accepted(AfterDelete(ps, id))
    case ReorderRoles(positions) =>
      if !NamesEveryRoleDensely(ps.roles, positions) then Refused(Malformed)
      else if MovesEveryone(positions) then Refused(Malformed)
      else if !actor.owner && !MovesOnlyBelow(ps.roles, positions, TopRolePosition(ps.roles, actor.roles))
      then Refused(NotPermitted)
      else Accepted(AfterReorder(ps, positions))
    case SetMemberRoles(member, roles) =>
      if EVERYONE in roles then Refused(Malformed)
      else if exists i :: 0 <= i < |roles| && !Exists(ps.roles, roles[i]) then Refused(Malformed)
      else if owner == Some(member) && !actor.owner then Refused(NotPermitted)
      else if !DiffIsManageable(ps, actor, member, roles) then Refused(NotPermitted)
      else Accepted(AfterGrant(ps, member, roles))
  }

  // ---- What each command does to a well-formed table --------------------------------

  lemma {:induction false} TableIndex(roles: seq<Role>, i: nat)
    requires UniqueIds(roles) && i < |roles|
    ensures FindRole(roles, roles[i].id) == Some(roles[i])
  {
    FindRoleIs(roles, roles[i]);
  }

  function CreatedTable(roles: seq<Role>, role: Role): (s: seq<Role>)
    requires |roles| > 0
    ensures |s| == |roles| + 1 && s[0] == roles[0] && s[1] == role
    ensures forall i :: 1 <= i < |roles| ==> s[i + 1] == roles[i].(position := i + 1)
  {
    [roles[0], role] + seq(|roles| - 1, i requires 0 <= i < |roles| - 1 => roles[i + 1].(position := i + 2))
  }

  lemma {:induction false} ShiftShape(roles: seq<Role>, i: nat)
    requires TableOk(roles) && i < |roles|
    ensures Reposition(roles, ShiftedPositions(roles))[i] == roles[i].(position := if i == 0 then 0 else i + 1)
  {
    FindPositionAt(ShiftedPositions(roles), i);
  }

  lemma {:induction false} CreatedTableOk(roles: seq<Role>, role: Role)
    requires TableOk(roles) && role.position == 1 && forall i :: 0 <= i < |roles| ==> roles[i].id < role.id
    ensures TableOk(CreatedTable(roles, role))
  {
    var s := CreatedTable(roles, role);
    assert forall i :: 2 <= i < |s| ==> s[i] == roles[i - 1].(position := i);
    assert UniqueIds(s) by {
      forall i, j | 0 <= i < j < |s| ensures s[i].id != s[j].id {
        var p := if i == 0 then 0 else i - 1;
        assert j != 1 ==> s[j].id == roles[j - 1].id;
        assert i != 1 ==> s[i].id == roles[p].id;
        assert i != 1 && j != 1 ==> p < j - 1;
      }
    }
  }

  lemma TableSorted(roles: seq<Role>)
    requires forall i :: 0 <= i < |roles| ==> roles[i].position == i
    ensures StrictlySorted(roles)
  {
  }

  lemma {:induction false} ShiftedMultiset(roles: seq<Role>, role: Role)
    requires TableOk(roles)
    ensures multiset(Reposition(roles, ShiftedPositions(roles)) + [role]) == multiset(CreatedTable(roles, role))
  {
    hide Reposition, ShiftedPositions, CreatedTable;
    var shifted := Reposition(roles, ShiftedPositions(roles));
    var want := CreatedTable(roles, role);
    forall i | 0 <= i < |roles| ensures shifted[i] == roles[i].(position := if i == 0 then 0 else i + 1) {
      ShiftShape(roles, i);
    }
    assert want[1..] == [role] + shifted[1..];
    TailMultiset(want);
    TailMultiset(shifted);
  }

  /** The new role lands at 1, everything above it moves up by one and nothing else changes. */
  lemma {:induction false} CreateShape(ps: PermState, name: string, permissions: Permissions)
    requires TableOk(ps.roles)
    ensures var role := NewRole(ps, name, permissions);
            var next := AfterCreate(ps, role);
            next.roles == CreatedTable(ps.roles, role) && next.members == ps.members && TableOk(next.roles)
  {
    var role := NewRole(ps, name, permissions);
    assert forall i :: 0 <= i < |ps.roles| ==> ps.roles[i] in ps.roles;
    CreatedTableOk(ps.roles, role);
    TableSorted(CreatedTable(ps.roles, role));
    ShiftedMultiset(ps.roles, role);
    SortIs(Reposition(ps.roles, ShiftedPositions(ps.roles)) + [role], CreatedTable(ps.roles, role));
  }

  lemma {:induction false} ReplaceShape(roles: seq<Role>, updated: Role, k: nat)
    requires UniqueIds(roles) && k < |roles| && roles[k].id == updated.id
    ensures ReplaceRole(roles, updated) == roles[k := updated]
  {
    if k > 0 {
      assert roles[0].id != roles[k].id;
      ReplaceShape(roles[1..], updated, k - 1);
      assert roles[1..][k - 1 := updated] == roles[k := updated][1..];
    } else {
      assert roles[k := updated] == [updated] + roles[1..];
    }
  }

  lemma UniqueTail(roles: seq<Role>)
    requires UniqueIds(roles) && roles != []
    ensures UniqueIds(roles[1..]) && forall r :: r in roles[1..] ==> r.id != roles[0].id
  {
  }

  lemma RemoveTail(roles: seq<Role>, id: RoleId)
    requires roles != [] && roles[0].id != id
    ensures RemoveRole(roles, id) == [roles[0]] + RemoveRole(roles[1..], id)
  {
  }

  lemma {:induction false} GapTail<T>(s: seq<T>, k: nat)
    requires 0 < k < |s|
    ensures s[..k] + s[k + 1..] == [s[0]] + (s[1..][..k - 1] + s[1..][k..])
  {
    assert s[1..][..k - 1] == s[1..k] && s[1..][k..] == s[k + 1..];
    assert s[..k] == [s[0]] + s[1..k];
  }

  lemma {:induction false} RemoveShape(roles: seq<Role>, k: nat)
    requires UniqueIds(roles) && k < |roles|
    ensures RemoveRole(roles, roles[k].id) == roles[..k] + roles[k + 1..]
  {
    UniqueTail(roles);
    hide UniqueIds;
    if k > 0 {
      assert roles[k] == roles[1..][k - 1] && roles[k] in roles[1..];
      RemoveShape(roles[1..], k - 1);
      RemoveTail(roles, roles[k].id);
      GapTail(roles, k);
    } else {
      RemoveNothing(roles[1..], roles[0].id);
      assert roles[..0] + roles[1..] == roles[1..];
    }
  }

  lemma {:induction false} RemoveNothing(roles: seq<Role>, id: RoleId)
    requires forall r :: r in roles ==> r.id != id
    ensures RemoveRole(roles, id) == roles
  {
    if roles != [] {
      RemoveNothing(roles[1..], id);
    }
  }

  function DeletedTable(roles: seq<Role>, k: nat): (s: seq<Role>)
    requires k < |roles|
    ensures |s| == |roles| - 1
    ensures forall i :: 0 <= i < k ==> s[i] == roles[i].(position := i)
    ensures forall i :: k <= i < |s| ==> s[i] == roles[i + 1].(position := i)
  {
    Renumber(roles[..k] + roles[k + 1..])
  }

  lemma {:induction false} GapSorted(roles: seq<Role>, k: nat)
    requires TableOk(roles) && k < |roles|
    ensures StrictlySorted(roles[..k] + roles[k + 1..])
  {
    var kept := roles[..k] + roles[k + 1..];
    forall i | 0 <= i < |kept| ensures kept[i].position == if i < k then i else i + 1 {
    }
  }

  lemma {:induction false} DeletedTableOk(roles: seq<Role>, k: nat)
    requires TableOk(roles) && 0 < k < |roles|
    ensures TableOk(DeletedTable(roles, k))
  {
    var s := DeletedTable(roles, k);
    forall i, j | 0 <= i < j < |s| ensures s[i].id != s[j].id {
      assert roles[if i < k then i else i + 1].id != roles[if j < k then j else j + 1].id;
    }
  }

  /** Deleting the role at position k closes the gap and moves nothing else. */
  lemma {:induction false} DeleteShape(ps: PermState, k: nat)
    requires TableOk(ps.roles) && 0 < k < |ps.roles|
    ensures AfterDelete(ps, ps.roles[k].id).roles == DeletedTable(ps.roles, k)
    ensures TableOk(DeletedTable(ps.roles, k))
  {
    RemoveShape(ps.roles, k);
    GapSorted(ps.roles, k);
    SortIs(ps.roles[..k] + ps.roles[k + 1..], ps.roles[..k] + ps.roles[k + 1..]);
    DeletedTableOk(ps.roles, k);
  }

  lemma {:induction false} RangeCounts(n: nat, v: nat)
    ensures multiset(Range(n))[v] == if v < n then 1 else 0
  {
    if n > 0 {
      RangeCounts(n - 1, v);
      assert Range(n) == Range(n - 1) + [n - 1];
    }
  }

  lemma {:induction false} DenseIsDistinct(given: seq<nat>, n: nat, i: nat, j: nat)
    requires multiset(given) == multiset(Range(n)) && i < j < |given|
    ensures given[i] != given[j]
  {
    RangeCounts(n, given[i]);
    if given[i] == given[j] {
      TwiceCounts(given, i, j);
    }
  }

  lemma {:induction false} DenseIsBounded(given: seq<nat>, n: nat, i: nat)
    requires multiset(given) == multiset(Range(n)) && i < |given|
    ensures given[i] < n
  {
    assert given[i] in multiset(given);
    RangeCounts(n, given[i]);
  }

  lemma {:induction false} StrictFromBelow(s: seq<Role>, i: nat)
    requires StrictlySorted(s) && i < |s|
    ensures i <= s[i].position
  {
    if i > 0 { StrictFromBelow(s, i - 1); }
  }

  lemma {:induction false} StrictFromAbove(s: seq<Role>, i: nat)
    requires StrictlySorted(s) && i < |s| && forall k :: 0 <= k < |s| ==> s[k].position < |s|
    ensures s[i].position <= i
    decreases |s| - i
  {
    if i + 1 < |s| { StrictFromAbove(s, i + 1); }
  }

  lemma {:induction false} TwiceCounts<T>(s: seq<T>, i: nat, j: nat)
    requires i < j < |s| && s[i] == s[j]
    ensures multiset(s)[s[i]] >= 2
  {
    assert s == s[..j] + s[j..];
    assert s[i] in s[..j] && s[i] in s[j..];
    assert multiset(s)[s[i]] == multiset(s[..j])[s[i]] + multiset(s[j..])[s[i]];
  }

  lemma {:induction false} CountsOnce(roles: seq<Role>, a: nat)
    requires forall i, j :: 0 <= i < j < |roles| ==> roles[i].position != roles[j].position
    requires a < |roles|
    ensures multiset(roles)[roles[a]] == 1
  {
    assert roles == roles[..a] + [roles[a]] + roles[a + 1..];
    assert roles[a] !in roles[..a] && roles[a] !in roles[a + 1..];
  }

  lemma {:induction false} SortDistinct(roles: seq<Role>, s: seq<Role>)
    requires forall i, j :: 0 <= i < j < |roles| ==> roles[i].position != roles[j].position
    requires Sorted(s) && multiset(s) == multiset(roles)
    ensures StrictlySorted(s)
  {
    forall i, j | 0 <= i < j < |s| ensures s[i].position < s[j].position {
      assert s[i] in multiset(s) && s[j] in multiset(s);
      var a :| 0 <= a < |roles| && roles[a] == s[i];
      var b :| 0 <= b < |roles| && roles[b] == s[j];
      CountsOnce(roles, a);
      if s[i].position == s[j].position {
        TwiceCounts(s, i, j);
      }
    }
  }

  lemma {:induction false} PlacedPosition(roles: seq<Role>, positions: Positions, i: nat) returns (k: nat)
    requires NamesEveryRoleDensely(roles, positions) && i < |roles|
    ensures k < |positions| && positions[k].0 == roles[i].id
    ensures Placed(roles[i], positions) == roles[i].(position := positions[k].1)
    ensures positions[k].1 < |roles|
  {
    var p := FindPosition(positions, roles[i].id).value;
    k :| 0 <= k < |positions| && positions[k] == (roles[i].id, p);
    var given := seq(|positions|, n requires 0 <= n < |positions| => positions[n].1);
    DenseIsBounded(given, |roles|, k);
  }

  lemma {:induction false} PlacedDistinct(roles: seq<Role>, positions: Positions, i: nat, j: nat)
    requires UniqueIds(roles) && NamesEveryRoleDensely(roles, positions) && i < j < |roles|
    ensures Placed(roles[i], positions).position != Placed(roles[j], positions).position
  {
    var k := PlacedPosition(roles, positions, i);
    var l := PlacedPosition(roles, positions, j);
    var given := seq(|positions|, n requires 0 <= n < |positions| => positions[n].1);
    if k < l { DenseIsDistinct(given, |roles|, k, l); } else { DenseIsDistinct(given, |roles|, l, k); }
  }

  lemma {:induction false} SortKeepsUniqueIds(roles: seq<Role>, s: seq<Role>)
    requires UniqueIds(roles) && StrictlySorted(s) && forall x :: x in s ==> x in roles
    ensures UniqueIds(s)
  {
    forall i, j | 0 <= i < j < |s| ensures s[i].id != s[j].id {
      if s[i].id == s[j].id {
        FindRoleIs(roles, s[i]);
        FindRoleIs(roles, s[j]);
      }
    }
  }

  /** A dense permutation reindexes the table: role by role, position p lands at index p. */
  lemma {:induction false} ReorderShape(ps: PermState, positions: Positions)
    requires TableOk(ps.roles) && NamesEveryRoleDensely(ps.roles, positions)
    ensures var next := AfterReorder(ps, positions).roles;
            && |next| == |ps.roles|
            && UniqueIds(next)
            && (forall i :: 0 <= i < |next| ==> next[i].position == i)
            && (forall i :: 0 <= i < |ps.roles| ==> Placed(ps.roles[i], positions) in next)
            && (forall x :: x in next ==> x in Reposition(ps.roles, positions))
  {
    var placed := Reposition(ps.roles, positions);
    var next := SortByPosition(placed);
    assert |next| == |multiset(next)| == |multiset(placed)| == |placed|;
    forall i, j | 0 <= i < j < |placed| ensures placed[i].position != placed[j].position {
      PlacedDistinct(ps.roles, positions, i, j);
    }
    SortDistinct(placed, next);
    forall k | 0 <= k < |next| ensures next[k].position < |next| {
      assert next[k] in placed;
      var i :| 0 <= i < |placed| && placed[i] == next[k];
      var _ := PlacedPosition(ps.roles, positions, i);
    }
    forall i | 0 <= i < |next| ensures next[i].position == i {
      StrictFromBelow(next, i);
      StrictFromAbove(next, i);
    }
    SortKeepsUniqueIds(placed, next);
    forall i | 0 <= i < |ps.roles| ensures Placed(ps.roles[i], positions) in next {
      assert placed[i] in placed;
    }
  }

  lemma {:induction false} ReorderKeepsBottom(ps: PermState, positions: Positions)
    requires TableOk(ps.roles) && NamesEveryRoleDensely(ps.roles, positions)
    requires !MovesEveryone(positions)
    ensures TableOk(AfterReorder(ps, positions).roles)
  {
    ReorderShape(ps, positions);
    var k := PlacedPosition(ps.roles, positions, 0);
    var next := AfterReorder(ps, positions).roles;
    assert Placed(ps.roles[0], positions) in next;
    var i :| 0 <= i < |next| && next[i] == Placed(ps.roles[0], positions);
    assert next[i].position == 0;
  }

  lemma {:induction false} ReorderKeepsExistence(ps: PermState, positions: Positions, id: RoleId)
    requires TableOk(ps.roles) && NamesEveryRoleDensely(ps.roles, positions) && Exists(ps.roles, id)
    ensures Exists(AfterReorder(ps, positions).roles, id)
  {
    ReorderShape(ps, positions);
    var i :| 0 <= i < |ps.roles| && ps.roles[i] == FindRole(ps.roles, id).value;
    assert Placed(ps.roles[i], positions) in AfterReorder(ps, positions).roles;
  }

  lemma {:induction false} CreateKeepsExistence(roles: seq<Role>, role: Role, id: RoleId)
    requires |roles| > 0 && Exists(roles, id)
    ensures Exists(CreatedTable(roles, role), id)
  {
    var i :| 0 <= i < |roles| && roles[i] == FindRole(roles, id).value;
    var s := CreatedTable(roles, role);
    assert s[if i == 0 then 0 else i + 1].id == id;
  }

  lemma {:induction false} ReplaceKeepsExistence(roles: seq<Role>, updated: Role, k: nat, id: RoleId)
    requires k < |roles| && roles[k].id == updated.id && Exists(roles, id)
    ensures Exists(roles[k := updated], id)
  {
    var i :| 0 <= i < |roles| && roles[i] == FindRole(roles, id).value;
    assert roles[k := updated][i].id == id;
  }

  lemma {:induction false} DeleteKeepsExistence(ps: PermState, k: nat, id: RoleId)
    requires TableOk(ps.roles) && 0 < k < |ps.roles| && Exists(ps.roles, id) && id != ps.roles[k].id
    ensures Exists(AfterDelete(ps, ps.roles[k].id).roles, id)
  {
    DeleteShape(ps, k);
    var i :| 0 <= i < |ps.roles| && ps.roles[i] == FindRole(ps.roles, id).value;
    assert DeletedTable(ps.roles, k)[if i < k then i else i - 1].id == id;
  }

  /** Where a role sits: its index is its position. */
  lemma {:induction false} IndexOf(roles: seq<Role>, id: RoleId) returns (k: nat)
    requires TableOk(roles) && Exists(roles, id)
    ensures k < |roles| && roles[k].id == id && FindRole(roles, id) == Some(roles[k]) && roles[k].position == k
    ensures k == 0 <==> id == EVERYONE
  {
    k :| 0 <= k < |roles| && roles[k] == FindRole(roles, id).value;
  }

  lemma {:induction false} CreateKeepsPermsOk(ps: PermState, name: string, permissions: Permissions)
    requires PermsOk(ps)
    ensures PermsOk(AfterCreate(ps, NewRole(ps, name, permissions)))
  {
    var role := NewRole(ps, name, permissions);
    CreateShape(ps, name, permissions);
    forall m, i | m in ps.members && 0 <= i < |ps.members[m]|
      ensures Exists(CreatedTable(ps.roles, role), ps.members[m][i])
    {
      CreateKeepsExistence(ps.roles, role, ps.members[m][i]);
    }
  }

  lemma {:induction false} UpdateKeepsPermsOk(ps: PermState, k: nat, updated: Role)
    requires PermsOk(ps) && k < |ps.roles| && updated.id == ps.roles[k].id && updated.position == k
    ensures PermsOk(ps.(roles := ReplaceRole(ps.roles, updated)))
  {
    ReplaceShape(ps.roles, updated, k);
    forall m, i | m in ps.members && 0 <= i < |ps.members[m]| ensures Exists(ps.roles[k := updated], ps.members[m][i]) {
      ReplaceKeepsExistence(ps.roles, updated, k, ps.members[m][i]);
    }
  }

  lemma {:induction false} DeleteKeepsPermsOk(ps: PermState, k: nat)
    requires PermsOk(ps) && 0 < k < |ps.roles|
    ensures PermsOk(AfterDelete(ps, ps.roles[k].id))
  {
    DeleteShape(ps, k);
    var next := AfterDelete(ps, ps.roles[k].id);
    forall m | m in next.members ensures Grantable(next.roles, next.members[m]) {
      forall i | 0 <= i < |next.members[m]|
        ensures next.members[m][i] != EVERYONE && Exists(next.roles, next.members[m][i])
      {
        var id := next.members[m][i];
        assert id in RemoveGrant(ps.members[m], ps.roles[k].id);
        var j :| 0 <= j < |ps.members[m]| && ps.members[m][j] == id;
        DeleteKeepsExistence(ps, k, id);
      }
    }
  }

  lemma {:induction false} ReorderKeepsPermsOk(ps: PermState, positions: Positions)
    requires PermsOk(ps) && NamesEveryRoleDensely(ps.roles, positions)
    requires !MovesEveryone(positions)
    ensures PermsOk(AfterReorder(ps, positions))
  {
    ReorderKeepsBottom(ps, positions);
    var next := AfterReorder(ps, positions);
    forall m, i | m in ps.members && 0 <= i < |ps.members[m]| ensures Exists(next.roles, ps.members[m][i]) {
      ReorderKeepsExistence(ps, positions, ps.members[m][i]);
    }
  }

  /** Whatever the actor's standing, an accepted command turns a well-formed snapshot into a well-formed state. */
  lemma {:induction false} DecideKeepsPermsOk(ps: PermState, actor: Actor, owner: Option<Fingerprint>, cmd: RoleCommand)
    requires PermsOk(ps) && Decide(ps, actor, owner, cmd).Accepted?
    ensures PermsOk(Decide(ps, actor, owner, cmd).value)
  {
    match cmd
    case CreateRole(name, permissions) =>
      CreateKeepsPermsOk(ps, name, permissions);
    case UpdateRole(id, _, _, _) =>
      var k := IndexOf(ps.roles, id);
      UpdateKeepsPermsOk(ps, k, Updated(ps.roles[k], cmd));
    case DeleteRole(id) =>
      var k := IndexOf(ps.roles, id);
      DeleteKeepsPermsOk(ps, k);
    case ReorderRoles(positions) =>
      ReorderKeepsPermsOk(ps, positions);
    case SetMemberRoles(member, roles) =>
      assert Grantable(ps.roles, roles);
  }

  // ---- Building the next state with the handlers' loops ------------------------------

  method BuildCreate(ps: PermState, role: Role) returns (next: PermState)
    ensures next == AfterCreate(ps, role)
  {
    var roles := RepositionLoop(ps.roles, ShiftedPositions(ps.roles));
    next := PermState(SortByPosition(roles + [role]), ps.members);
  }

  method BuildDelete(ps: PermState, id: RoleId) returns (next: PermState)
    ensures next == AfterDelete(ps, id)
  {
    var roles := RenumberLoop(SortByPosition(RemoveRole(ps.roles, id)));
    next := PermState(roles, map m | m in ps.members :: RemoveGrant(ps.members[m], id));
  }

  method BuildReorder(ps: PermState, positions: Positions) returns (next: PermState)
    ensures next == AfterReorder(ps, positions)
  {
    var roles := RepositionLoop(ps.roles, positions);
    next := PermState(SortByPosition(roles), ps.members);
  }

  lemma {:induction false} MaxIsNoMore(roles: seq<Role>, m: nat)
    requires forall r :: r in roles ==> r.id <= m
    ensures MaxRoleId(roles) <= m
  {
    if roles != [] {
      assert roles[0] in roles;
      MaxIsNoMore(roles[1..], m);
    }
  }

  /** Role ids do come back: delete the role with the highest one, and the next role created may bear it again. */
  lemma {:induction false} RoleIdReturns(ps: PermState, k: nat, j: nat, name: string, permissions: Permissions)
    requires TableOk(ps.roles) && 0 < k < |ps.roles| && j < |ps.roles|
    requires ps.roles[k].id == MaxRoleId(ps.roles) == ps.roles[j].id + 1
    ensures NewRole(AfterDelete(ps, ps.roles[k].id), name, permissions).id == ps.roles[k].id
  {
    hide DeletedTable, AfterDelete;
    DeleteShape(ps, k);
    var table := DeletedTable(ps.roles, k);
    forall r | r in table ensures r.id <= ps.roles[j].id {
      var i :| 0 <= i < |table| && table[i] == r;
      var from := if i < k then i else i + 1;
      assert r.id == ps.roles[from].id && ps.roles[from] in ps.roles && from != k;
    }
    var at := if j < k then j else j - 1;
    assert table[at].id == ps.roles[j].id;
    assert table[at] in table;
    MaxIsNoMore(table, ps.roles[j].id);
  }
}

/**
Handlers are async: the snapshot a handler reads and the state it swaps in are separate steps,
and other handlers run in between.
*/
module Interleaving {
  import opened Common
  import opened Perms
  import opened RoleTable

  /** What is published now, what each handler holds, and everything ever published. */
  datatype World = World(current: PermState, held: map<nat, PermState>, published: seq<PermState>)

  datatype Step =
    | Read(handler: nat)
    | Swap(handler: nat, actor: Actor, cmd: RoleCommand)

  function Next(w: World, owner: Option<Fingerprint>, step: Step): World {
    match step
    case Read(h) => w.(held := w.held[h := w.current])
    case Swap(h, actor, cmd) =>
      if h !in w.held then w
      else
        match Decide(w.held[h], actor, owner, cmd)
        case Refused(_) => w
        case Accepted(next) => w.(current := next, published := w.published + [next])
  }

  function Run(w: World, owner: Option<Fingerprint>, steps: seq<Step>): World
    decreases |steps|
  {
    if steps == [] then w else Run(Next(w, owner, steps[0]), owner, steps[1..])
  }

  ghost predicate WorldOk(w: World) {
    && PermsOk(w.current)
    && (forall h :: h in w.held ==> PermsOk(w.held[h]))
    && (forall i :: 0 <= i < |w.published| ==> PermsOk(w.published[i]))
  }

  lemma {:induction false} NextKeepsOk(w: World, owner: Option<Fingerprint>, step: Step)
    requires WorldOk(w)
    ensures WorldOk(Next(w, owner, step))
  {
    if step.Swap? && step.handler in w.held && Decide(w.held[step.handler], step.actor, owner, step.cmd).Accepted? {
      DecideKeepsPermsOk(w.held[step.handler], step.actor, owner, step.cmd);
    }
  }

  lemma {:induction false} RunKeepsOk(w: World, owner: Option<Fingerprint>, steps: seq<Step>)
    requires WorldOk(w)
    ensures WorldOk(Run(w, owner, steps))
    decreases |steps|
  {
    if steps != [] {
      NextKeepsOk(w, owner, steps[0]);
      RunKeepsOk(Next(w, owner, steps[0]), owner, steps[1..]);
    }
  }

  /**
  However reads and swaps interleave, and however stale each actor's standing is, every published state is well
  formed.
  */
  lemma {:induction false} EveryPublishedTableIsOk(initial: PermState, owner: Option<Fingerprint>, steps: seq<Step>,
                                                   i: nat)
    requires PermsOk(initial)
    requires i < |Run(World(initial, map[], []), owner, steps).published|
    ensures PermsOk(Run(World(initial, map[], []), owner, steps).published[i])
  {
    RunKeepsOk(World(initial, map[], []), owner, steps);
  }
}
