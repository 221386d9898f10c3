/**
Rank safety over whole runs: a crew of non-owners can never reach up to its own highest rung
(crates/pickle-server/src/admin.rs, crates/pickle-proto/src/perms.rs).
*/
module Hierarchy {
  import opened Common
  import opened Perms
  import opened RoleTable

  datatype Issued = Issued(who: Fingerprint, cmd: RoleCommand)

  /** One command as one atomic step: the MANAGE_ROLES gate, then the handler. */
  function Execute(ps: PermState, owner: Option<Fingerprint>, issued: Issued): Outcome<PermState> {
    var actor := ActorOf(ps, issued.who, owner);
    if MANAGE_ROLES <= actor.base then Decide(ps, actor, owner, issued.cmd) else Refused(NotPermitted)
  }

  function After(ps: PermState, owner: Option<Fingerprint>, issued: Issued): PermState {
    match Execute(ps, owner, issued)
    case Refused(_) => ps
    case Accepted(next) => next
  }

  function Run(ps: PermState, owner: Option<Fingerprint>, script: seq<Issued>): PermState
    decreases |script|
  {
    if script == [] then ps else Run(After(ps, owner, script[0]), owner, script[1..])
  }

  function Top(ps: PermState, member: Fingerprint): nat {
    TopRolePosition(ps.roles, Grants(ps, member))
  }

  // ---- The frozen part of the table ------------------------------------------------

  /** How far the senior block has been pushed up by creations and pulled down by deletions. */
  function Drift(start: PermState, now: PermState): int { |now.roles| - |start.roles| }

  /** Where the crew's highest rung sits now. @everyone never moves, so a crew without roles stays at 0. */
  function Cutoff(start: PermState, now: PermState, top: nat): int {
    if top == 0 then 0 else top + Drift(start, now)
  }

  predicate Senior(start: PermState, top: nat, id: RoleId) {
    match FindRole(start.roles, id)
    case None => false
    case Some(r) => r.position >= top
  }

  /** Index now of the senior role that started at index i. */
  function Moved(start: PermState, now: PermState, i: nat): int { if i == 0 then 0 else i + Drift(start, now) }

  /** The role that started at index i is still there, untouched but for its position. */
  ghost predicate KeptAt(start: PermState, now: PermState, i: nat)
    requires i < |start.roles|
  {
    var j := Moved(start, now, i);
    0 <= j < |now.roles| && now.roles[j] == start.roles[i].(position := j)
  }

  ghost predicate SeniorsKept(start: PermState, now: PermState, top: nat) {
    forall i: nat :: top <= i < |start.roles| ==> KeptAt(start, now, i)
  }

  ghost predicate Below(now: PermState, cutoff: int, id: RoleId) {
    exists k :: 0 <= k < cutoff && k < |now.roles| && now.roles[k].id == id
  }

  /** A member's senior roles are the ones they started with; everything else they hold sits below the cutoff. */
  ghost predicate MemberKept(start: PermState, now: PermState, top: nat, m: Fingerprint) {
    && (forall id :: id in Grants(now, m) ==>
          if Senior(start, top, id) then id in Grants(start, m) else Below(now, Cutoff(start, now, top), id))
    && (forall id :: id in Grants(start, m) && Senior(start, top, id) ==> id in Grants(now, m))
  }

  ghost predicate Frozen(start: PermState, now: PermState, top: nat) {
    && PermsOk(now)
    && (top > 0 ==> Cutoff(start, now, top) >= 1)
    && SeniorsKept(start, now, top)
    && forall m :: MemberKept(start, now, top, m)
  }

  // ---- The crew stays at or below the cutoff -----------------------------------------

  lemma {:induction false} GrantExists(ps: PermState, m: Fingerprint, id: RoleId)
    requires GrantsOk(ps) && id in Grants(ps, m)
    ensures Exists(ps.roles, id) && id != EVERYONE
  {
    assert Grantable(ps.roles, ps.members[m]);
  }

  lemma {:induction false} HeldPosition(start: PermState, now: PermState, top: nat, m: Fingerprint, id: RoleId)
    requires PermsOk(start) && Frozen(start, now, top) && Top(start, m) <= top
    requires id in Grants(now, m)
    ensures FindRole(now.roles, id).Some? && FindRole(now.roles, id).value.position <= Cutoff(start, now, top)
  {
    GrantExists(now, m, id);
    assert MemberKept(start, now, top, m);
    if Senior(start, top, id) {
      var i := IndexOf(start.roles, id);
      GrantExists(start, m, id);
      assert i == top && KeptAt(start, now, i);
      TableIndex(now.roles, Moved(start, now, i));
    } else {
      var k :| 0 <= k < Cutoff(start, now, top) && k < |now.roles| && now.roles[k].id == id;
      TableIndex(now.roles, k);
    }
  }

  lemma {:induction false} CrewStaysBelow(start: PermState, now: PermState, top: nat, m: Fingerprint)
    requires PermsOk(start) && Frozen(start, now, top) && Top(start, m) <= top
    ensures Top(now, m) <= Cutoff(start, now, top)
  {
    TopIsHeld(now.roles, Grants(now, m));
    if Top(now, m) != 0 {
      var id :|
        && id in Grants(now, m) && FindRole(now.roles, id).Some?
        && FindRole(now.roles, id).value.position == Top(now, m);
      HeldPosition(start, now, top, m, id);
    }
  }

  lemma {:induction false} MovedPositive(start: PermState, now: PermState, top: nat, i: nat)
    requires PermsOk(start) && Frozen(start, now, top) && top <= i < |start.roles|
    ensures KeptAt(start, now, i)
    ensures i > 0 ==> Moved(start, now, i) > 0
    ensures top > 0 ==> Moved(start, now, i) >= Cutoff(start, now, top)
  {
    assert KeptAt(start, now, i);
    assert i > 0 ==> start.roles[i].id != start.roles[0].id;
    assert now.roles[Moved(start, now, i)].id == start.roles[i].id;
  }

  lemma {:induction false} SeniorAboveCutoff(start: PermState, now: PermState, top: nat, k: nat)
    requires PermsOk(start) && Frozen(start, now, top) && k < |now.roles| && k < Cutoff(start, now, top)
    ensures !Senior(start, top, now.roles[k].id)
  {
    var id := now.roles[k].id;
    forall i: nat | top <= i < |start.roles| ensures start.roles[i].id != id {
      MovedPositive(start, now, top, i);
    }
    if Exists(start.roles, id) {
      var i := IndexOf(start.roles, id);
    }
  }

  // ---- Command by command ----------------------------------------------------------------

  /** Grants unchanged, and what sat below the cutoff still does. */
  lemma SameGrantsStayKept(start: PermState, now: PermState, next: PermState, top: nat, m: Fingerprint)
    requires MemberKept(start, now, top, m) && Grants(next, m) == Grants(now, m)
    requires forall id :: Below(now, Cutoff(start, now, top), id) ==> Below(next, Cutoff(start, next, top), id)
    ensures MemberKept(start, next, top, m)
  {
  }

  lemma {:induction false} CreateBelow(start: PermState, now: PermState, top: nat, role: Role, id: RoleId)
    requires now.roles != [] && Below(now, Cutoff(start, now, top), id)
    ensures Below(now.(roles := CreatedTable(now.roles, role)),
                  Cutoff(start, now.(roles := CreatedTable(now.roles, role)), top), id)
  {
    var k :| 0 <= k < Cutoff(start, now, top) && k < |now.roles| && now.roles[k].id == id;
    assert CreatedTable(now.roles, role)[if k == 0 then 0 else k + 1].id == id;
  }

  lemma {:induction false} CreateMembersKept(start: PermState, now: PermState, next: PermState, top: nat, role: Role,
                                             m: Fingerprint)
    requires now.roles != [] && next == now.(roles := CreatedTable(now.roles, role)) && MemberKept(start, now, top, m)
    ensures MemberKept(start, next, top, m)
  {
    forall id | Below(now, Cutoff(start, now, top), id) ensures Below(next, Cutoff(start, next, top), id) {
      CreateBelow(start, now, top, role, id);
    }
    SameGrantsStayKept(start, now, next, top, m);
  }

  lemma {:induction false} CreateSeniorKept(start: PermState, now: PermState, next: PermState, top: nat, role: Role,
                                            i: nat)
    requires PermsOk(start) && Frozen(start, now, top) && top <= i < |start.roles|
    requires next.roles == CreatedTable(now.roles, role)
    ensures KeptAt(start, next, i)
  {
    MovedPositive(start, now, top, i);
    hide Frozen, PermsOk;
  }

  lemma {:induction false} CreateFrozen(start: PermState, now: PermState, top: nat, name: string,
                                        permissions: Permissions)
    requires PermsOk(start) && Frozen(start, now, top)
    ensures Frozen(start, AfterCreate(now, NewRole(now, name, permissions)), top)
  {
    var role := NewRole(now, name, permissions);
    var next := AfterCreate(now, role);
    CreateKeepsPermsOk(now, name, permissions);
    CreateShape(now, name, permissions);
    forall m ensures MemberKept(start, next, top, m) {
      CreateMembersKept(start, now, next, top, role, m);
    }
    forall i: nat | top <= i < |start.roles| ensures KeptAt(start, next, i) {
      CreateSeniorKept(start, now, next, top, role, i);
    }
  }

  lemma {:induction false} UpdateFrozen(start: PermState, now: PermState, top: nat, k: nat, updated: Role)
    requires PermsOk(start) && Frozen(start, now, top)
    requires k < |now.roles| && k < Cutoff(start, now, top) && updated.id == now.roles[k].id && updated.position == k
    ensures Frozen(start, now.(roles := ReplaceRole(now.roles, updated)), top)
  {
    UpdateKeepsPermsOk(now, k, updated);
    ReplaceShape(now.roles, updated, k);
    var next := now.(roles := now.roles[k := updated]);
    forall m ensures MemberKept(start, next, top, m) {
      forall id | Below(now, Cutoff(start, now, top), id) ensures Below(next, Cutoff(start, next, top), id) {
        var j :| 0 <= j < Cutoff(start, now, top) && j < |now.roles| && now.roles[j].id == id;
        assert next.roles[j].id == id;
      }
      SameGrantsStayKept(start, now, next, top, m);
    }
    forall i: nat | top <= i < |start.roles| ensures KeptAt(start, next, i) {
      MovedPositive(start, now, top, i);
    }
  }

  lemma {:induction false} DeleteBelow(start: PermState, now: PermState, next: PermState, top: nat, k: nat, id: RoleId)
    requires 0 < k < |now.roles| && k < Cutoff(start, now, top) && next.roles == DeletedTable(now.roles, k)
    requires Below(now, Cutoff(start, now, top), id) && id != now.roles[k].id
    ensures Below(next, Cutoff(start, next, top), id)
  {
    var j :| 0 <= j < Cutoff(start, now, top) && j < |now.roles| && now.roles[j].id == id;
    assert next.roles[if j < k then j else j - 1].id == id;
  }

  lemma {:induction false} DeleteMemberKept(start: PermState, now: PermState, next: PermState, top: nat, k: nat,
                                            m: Fingerprint)
    requires 0 < k < |now.roles| && k < Cutoff(start, now, top) && next.roles == DeletedTable(now.roles, k)
    requires MemberKept(start, now, top, m) && Grants(next, m) == RemoveGrant(Grants(now, m), now.roles[k].id)
    requires !Senior(start, top, now.roles[k].id)
    ensures MemberKept(start, next, top, m)
  {
    forall id | id in Grants(next, m) && !Senior(start, top, id) ensures Below(next, Cutoff(start, next, top), id) {
      DeleteBelow(start, now, next, top, k, id);
    }
  }

  lemma {:induction false} DeleteFrozen(start: PermState, now: PermState, top: nat, k: nat)
    requires PermsOk(start) && Frozen(start, now, top) && 0 < k < |now.roles| && k < Cutoff(start, now, top)
    ensures Frozen(start, AfterDelete(now, now.roles[k].id), top)
  {
    var next := AfterDelete(now, now.roles[k].id);
    DeleteKeepsPermsOk(now, k);
    DeleteShape(now, k);
    SeniorAboveCutoff(start, now, top, k);
    forall i: nat | top <= i < |start.roles| ensures KeptAt(start, next, i) {
      DeleteSeniorKept(start, now, next, top, k, i);
    }
    forall m ensures MemberKept(start, next, top, m) {
      DeleteMemberKept(start, now, next, top, k, m);
    }
  }

  lemma {:induction false} DeleteSeniorKept(start: PermState, now: PermState, next: PermState, top: nat, k: nat, i: nat)
    requires PermsOk(start) && Frozen(start, now, top) && 0 < k < |now.roles| && k < Cutoff(start, now, top)
    requires next.roles == DeletedTable(now.roles, k) && top <= i < |start.roles|
    ensures KeptAt(start, next, i)
  {
    MovedPositive(start, now, top, i);
    hide Frozen, PermsOk;
  }

  lemma {:induction false} UnmovedIsPlaced(roles: seq<Role>, positions: Positions, top: nat, i: nat)
    requires TableOk(roles) && NamesEveryRoleDensely(roles, positions) && MovesOnlyBelow(roles, positions, top)
    requires i < |roles|
    ensures top <= i ==> Placed(roles[i], positions) == roles[i]
    ensures i < top ==> Placed(roles[i], positions).position < top
  {
    var k := PlacedPosition(roles, positions, i);
    TableIndex(roles, i);
  }

  lemma AtItsPosition(next: seq<Role>, r: Role)
    requires r in next && forall i :: 0 <= i < |next| ==> next[i].position == i
    ensures r.position < |next| && next[r.position] == r
  {
  }

  lemma {:induction false} ReorderBelow(now: PermState, positions: Positions, cutoff: int, mine: nat, id: RoleId)
    requires TableOk(now.roles) && NamesEveryRoleDensely(now.roles, positions)
    requires MovesOnlyBelow(now.roles, positions, mine)
    requires mine <= cutoff && Below(now, cutoff, id)
    ensures Below(AfterReorder(now, positions), cutoff, id)
  {
    var next := AfterReorder(now, positions);
    ReorderShape(now, positions);
    var k :| 0 <= k < cutoff && k < |now.roles| && now.roles[k].id == id;
    UnmovedIsPlaced(now.roles, positions, mine, k);
    AtItsPosition(next.roles, Placed(now.roles[k], positions));
    assert next.roles[Placed(now.roles[k], positions).position].id == id;
  }

  lemma {:induction false} ReorderKeepsAbove(now: PermState, positions: Positions, mine: nat, j: nat)
    requires TableOk(now.roles) && NamesEveryRoleDensely(now.roles, positions)
    requires MovesOnlyBelow(now.roles, positions, mine)
    requires mine <= j < |now.roles|
    ensures |AfterReorder(now, positions).roles| == |now.roles| && AfterReorder(now, positions).roles[j] == now.roles[j]
  {
    ReorderShape(now, positions);
    UnmovedIsPlaced(now.roles, positions, mine, j);
    AtItsPosition(AfterReorder(now, positions).roles, now.roles[j]);
  }

  lemma {:induction false} ReorderMemberKept(start: PermState, now: PermState, top: nat, positions: Positions,
                                             mine: nat, m: Fingerprint)
    requires TableOk(now.roles) && NamesEveryRoleDensely(now.roles, positions)
    requires MovesOnlyBelow(now.roles, positions, mine)
    requires mine <= Cutoff(start, now, top) && MemberKept(start, now, top, m)
    ensures MemberKept(start, AfterReorder(now, positions), top, m)
  {
    var next := AfterReorder(now, positions);
    ReorderShape(now, positions);
    forall id | Below(now, Cutoff(start, now, top), id) ensures Below(next, Cutoff(start, next, top), id) {
      ReorderBelow(now, positions, Cutoff(start, now, top), mine, id);
    }
    SameGrantsStayKept(start, now, next, top, m);
  }

  lemma {:induction false} ReorderSeniorKept(start: PermState, now: PermState, top: nat, positions: Positions,
                                             mine: nat, i: nat)
    requires PermsOk(start) && Frozen(start, now, top) && top <= i < |start.roles|
    requires NamesEveryRoleDensely(now.roles, positions) && MovesOnlyBelow(now.roles, positions, mine)
    requires mine <= Cutoff(start, now, top)
    ensures KeptAt(start, AfterReorder(now, positions), i)
  {
    MovedPositive(start, now, top, i);
    ReorderKeepsAbove(now, positions, mine, Moved(start, now, i));
  }

  lemma {:induction false} ReorderFrozen(start: PermState, now: PermState, top: nat, positions: Positions, mine: nat)
    requires PermsOk(start) && Frozen(start, now, top) && NamesEveryRoleDensely(now.roles, positions)
    requires !MovesEveryone(positions)
    requires MovesOnlyBelow(now.roles, positions, mine) && mine <= Cutoff(start, now, top)
    ensures Frozen(start, AfterReorder(now, positions), top)
  {
    var next := AfterReorder(now, positions);
    ReorderKeepsPermsOk(now, positions);
    assert |next.roles| == |now.roles| by { ReorderShape(now, positions); }
    forall m ensures MemberKept(start, next, top, m) {
      ReorderMemberKept(start, now, top, positions, mine, m);
    }
    forall i: nat | top <= i < |start.roles| ensures KeptAt(start, next, i) {
      ReorderSeniorKept(start, now, top, positions, mine, i);
    }
  }

  lemma {:induction false} GrantDiffIsJunior(start: PermState, now: PermState, top: nat, actor: Actor,
                                             member: Fingerprint, roles: seq<RoleId>, id: RoleId)
    requires PermsOk(start) && Frozen(start, now, top)
    requires !actor.owner && TopRolePosition(now.roles, actor.roles) <= Cutoff(start, now, top)
    requires DiffIsManageable(now, actor, member, roles) && (id in roles) != (id in Grants(now, member))
    ensures !Senior(start, top, id) && Below(now, Cutoff(start, now, top), id)
  {
    assert CanManageRole(now.roles, actor.roles, actor.owner, id);
    var k := IndexOf(now.roles, id);
    SeniorAboveCutoff(start, now, top, k);
  }

  lemma {:induction false} GrantFrozen(start: PermState, now: PermState, top: nat, actor: Actor, member: Fingerprint,
                                       roles: seq<RoleId>)
    requires PermsOk(start) && Frozen(start, now, top) && PermsOk(AfterGrant(now, member, roles))
    requires !actor.owner && TopRolePosition(now.roles, actor.roles) <= Cutoff(start, now, top)
    requires DiffIsManageable(now, actor, member, roles)
    ensures Frozen(start, AfterGrant(now, member, roles), top)
  {
    var next := AfterGrant(now, member, roles);
    forall i: nat | top <= i < |start.roles| ensures KeptAt(start, next, i) {
      assert KeptAt(start, now, i);
    }
    forall m ensures MemberKept(start, next, top, m) {
      assert MemberKept(start, now, top, m);
      forall id ensures Below(now, Cutoff(start, now, top), id) ==> Below(next, Cutoff(start, next, top), id) {
      }
      if m == member {
        assert Grants(next, m) == roles;
        forall id | (id in roles) != (id in Grants(now, m))
          ensures !Senior(start, top, id) && Below(now, Cutoff(start, now, top), id)
        {
          GrantDiffIsJunior(start, now, top, actor, member, roles, id);
        }
      } else {
        SameGrantsStayKept(start, now, next, top, m);
      }
    }
  }

  lemma {:induction false} UpdateStep(start: PermState, now: PermState, owner: Option<Fingerprint>, top: nat,
                                      actor: Actor, cmd: RoleCommand)
    requires PermsOk(start) && Frozen(start, now, top) && cmd.UpdateRole? && Decide(now, actor, owner, cmd).Accepted?
    requires !actor.owner && TopRolePosition(now.roles, actor.roles) <= Cutoff(start, now, top)
    ensures Frozen(start, Decide(now, actor, owner, cmd).value, top)
  {
    var k := IndexOf(now.roles, cmd.id);
    UpdateFrozen(start, now, top, k, Updated(now.roles[k], cmd));
  }

  lemma {:induction false} DeleteStep(start: PermState, now: PermState, owner: Option<Fingerprint>, top: nat,
                                      actor: Actor, id: RoleId)
    requires PermsOk(start) && Frozen(start, now, top) && Decide(now, actor, owner, DeleteRole(id)).Accepted?
    requires !actor.owner && TopRolePosition(now.roles, actor.roles) <= Cutoff(start, now, top)
    ensures Frozen(start, Decide(now, actor, owner, DeleteRole(id)).value, top)
  {
    var k := IndexOf(now.roles, id);
    DeleteFrozen(start, now, top, k);
  }

  lemma {:induction false} DecideFrozen(start: PermState, now: PermState, owner: Option<Fingerprint>, top: nat,
                                        actor: Actor, cmd: RoleCommand)
    requires PermsOk(start) && Frozen(start, now, top) && Decide(now, actor, owner, cmd).Accepted?
    requires !actor.owner && TopRolePosition(now.roles, actor.roles) <= Cutoff(start, now, top)
    ensures Frozen(start, Decide(now, actor, owner, cmd).value, top)
  {
    match cmd
    case CreateRole(name, permissions) =>
      CreateFrozen(start, now, top, name, permissions);
    case UpdateRole(_, _, _, _) =>
      UpdateStep(start, now, owner, top, actor, cmd);
    case DeleteRole(id) =>
      DeleteStep(start, now, owner, top, actor, id);
    case ReorderRoles(positions) =>
      ReorderFrozen(start, now, top, positions, TopRolePosition(now.roles, actor.roles));
    case SetMemberRoles(member, roles) =>
      DecideKeepsPermsOk(now, actor, owner, cmd);
      GrantFrozen(start, now, top, actor, member, roles);
  }

  lemma {:induction false} StepFrozen(start: PermState, now: PermState, owner: Option<Fingerprint>, top: nat,
                                      issued: Issued)
    requires PermsOk(start) && Frozen(start, now, top)
    requires owner != Some(issued.who) && Top(start, issued.who) <= top
    ensures Frozen(start, After(now, owner, issued), top)
  {
    CrewStaysBelow(start, now, top, issued.who);
    if Execute(now, owner, issued).Accepted? {
      DecideFrozen(start, now, owner, top, ActorOf(now, issued.who, owner), issued.cmd);
    }
  }

  lemma {:induction false} StartsFrozen(start: PermState, top: nat)
    requires PermsOk(start) && top < |start.roles|
    ensures Frozen(start, start, top)
  {
    forall m ensures MemberKept(start, start, top, m) {
      forall id | id in Grants(start, m) && !Senior(start, top, id)
        ensures Below(start, Cutoff(start, start, top), id)
      {
        GrantExists(start, m, id);
        var k := IndexOf(start.roles, id);
      }
    }
  }

  lemma {:induction false} RunFrozen(start: PermState, now: PermState, owner: Option<Fingerprint>, top: nat,
                                     crew: set<Fingerprint>, script: seq<Issued>)
    requires PermsOk(start) && Frozen(start, now, top)
    requires forall m :: m in crew ==> owner != Some(m) && Top(start, m) <= top
    requires forall i :: 0 <= i < |script| ==> script[i].who in crew
    ensures Frozen(start, Run(now, owner, script), top)
    decreases |script|
  {
    if script != [] {
      StepFrozen(start, now, owner, top, script[0]);
      RunFrozen(start, After(now, owner, script[0]), owner, top, crew, script[1..]);
    }
  }

  // ---- The theorem -----------------------------------------------------------------------

  /** Same name, colour and bits as at the start, and exactly the same holders. */
  ghost predicate Untouched(start: PermState, end: PermState, r: Role) {
    && FindRole(end.roles, r.id).Some?
    && FindRole(end.roles, r.id).value.(position := r.position) == r
    && forall m :: r.id in Grants(end, m) <==> r.id in Grants(start, m)
  }

  predicate Outranks(ps: PermState, senior: RoleId, junior: RoleId) {
    && Exists(ps.roles, senior) && Exists(ps.roles, junior)
    && FindRole(ps.roles, junior).value.position < FindRole(ps.roles, senior).value.position
  }

  /**
  No climbing. Whatever a crew of non-owners does, with `top` the highest position any of them starts at:
  every role that started at or above `top` keeps its name, colour, bits, holders and relative order, and nobody ends
  up holding a role at or above the crew's rung that they did not hold at the start.
  */
  lemma {:induction false} NoClimbing(start: PermState, owner: Option<Fingerprint>, top: nat, crew: set<Fingerprint>,
                                      script: seq<Issued>)
    requires PermsOk(start) && top < |start.roles|
    requires forall m :: m in crew ==> owner != Some(m) && Top(start, m) <= top
    requires forall i :: 0 <= i < |script| ==> script[i].who in crew
    ensures forall i: nat :: top <= i < |start.roles| ==> Untouched(start, Run(start, owner, script), start.roles[i])
    ensures forall i: nat, j: nat :: top <= i < j < |start.roles| ==>
              Outranks(Run(start, owner, script), start.roles[j].id, start.roles[i].id)
    ensures forall m, id :: id in Grants(Run(start, owner, script), m) && id !in Grants(start, m) ==>
              Outranks(Run(start, owner, script), start.roles[top].id, id)
  {
    StartsFrozen(start, top);
    RunFrozen(start, start, owner, top, crew, script);
    var end := Run(start, owner, script);
    forall i: nat | top <= i < |start.roles| ensures Untouched(start, end, start.roles[i]) {
      SeniorUntouched(start, end, top, i);
    }
    forall i: nat, j: nat | top <= i < j < |start.roles| ensures Outranks(end, start.roles[j].id, start.roles[i].id) {
      SeniorNow(start, end, top, i);
      SeniorNow(start, end, top, j);
      MovedPositive(start, end, top, j);
    }
    forall m, id | id in Grants(end, m) && id !in Grants(start, m) ensures Outranks(end, start.roles[top].id, id) {
      GainedIsJunior(start, end, top, m, id);
    }
  }

  lemma {:induction false} SeniorNow(start: PermState, end: PermState, top: nat, i: nat)
    requires PermsOk(start) && Frozen(start, end, top) && top <= i < |start.roles|
    ensures KeptAt(start, end, i) && Senior(start, top, start.roles[i].id)
    ensures FindRole(end.roles, start.roles[i].id) == Some(start.roles[i].(position := Moved(start, end, i)))
  {
    TableIndex(start.roles, i);
    assert KeptAt(start, end, i);
    TableIndex(end.roles, Moved(start, end, i));
  }

  lemma {:induction false} SeniorUntouched(start: PermState, end: PermState, top: nat, i: nat)
    requires PermsOk(start) && Frozen(start, end, top) && top <= i < |start.roles|
    ensures Untouched(start, end, start.roles[i])
  {
    SeniorNow(start, end, top, i);
    var id := start.roles[i].id;
    forall m ensures id in Grants(end, m) <==> id in Grants(start, m) {
      assert MemberKept(start, end, top, m);
    }
  }

  lemma {:induction false} GainedIsJunior(start: PermState, end: PermState, top: nat, m: Fingerprint, id: RoleId)
    requires PermsOk(start) && top < |start.roles| && Frozen(start, end, top)
    requires id in Grants(end, m) && id !in Grants(start, m)
    ensures Outranks(end, start.roles[top].id, id)
  {
    assert MemberKept(start, end, top, m);
    var k :| 0 <= k < Cutoff(start, end, top) && k < |end.roles| && end.roles[k].id == id;
    TableIndex(end.roles, k);
    SeniorNow(start, end, top, top);
  }
}
