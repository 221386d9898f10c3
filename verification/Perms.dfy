/** The one optional type every other module uses. */
module Common {
  datatype Option<+T> = None | Some(value: T)
}

/**
The permission model shared by the server and the desktop client
(crates/pickle-proto/src/perms.rs).

A `u64` permission mask is modelled as the set of its one bits, so `contains`,
`union`, `without` and `intersect` are the set operations.
*/
module Perms {
  import opened Common

  type Bit = b: nat | b < 64
  type Permissions = set<Bit>
  type RoleId = nat
  datatype Fingerprint = Fingerprint(digest: nat)

  const EVERYONE: RoleId := 0

  const ADMINISTRATOR: Permissions := {0}
  const MANAGE_ROLES: Permissions := {2}
  const MANAGE_CHANNELS: Permissions := {3}
  const KICK_MEMBERS: Permissions := {4}
  const BAN_MEMBERS: Permissions := {5}
  const VIEW: Bit := 16
  const VIEW_CHANNEL: Permissions := {VIEW}
  const SEND_MESSAGES: Permissions := {17}
  const READ_HISTORY: Permissions := {18}
  const CONNECT: Permissions := {20}
  const SPEAK: Permissions := {21}
  const MUTE_MEMBERS: Permissions := {22}
  const MOVE_MEMBERS: Permissions := {23}
  const CHANNEL_SCOPED: Permissions := {16, 17, 18, 19, 20, 21, 22, 23}
  const ALL: Permissions := {0, 1, 2, 3, 4, 5} + CHANNEL_SCOPED

  datatype Role = Role(id: RoleId, name: string, color: Option<nat>, position: nat, permissions: Permissions)
  datatype OverwriteTarget = ForRole(role: RoleId) | ForMember(member: Fingerprint)
  datatype Overwrite = Overwrite(target: OverwriteTarget, allow: Permissions, deny: Permissions)

  // ---- Lookups -------------------------------------------------------------

  function FindRole(roles: seq<Role>, id: RoleId): (r: Option<Role>)
    ensures r.Some? ==> r.value in roles && r.value.id == id
    ensures r.None? ==> forall x :: x in roles ==> x.id != id
  {
    if roles == [] then None
    else if roles[0].id == id then Some(roles[0])
    else FindRole(roles[1..], id)
  }

  function RolePermissions(roles: seq<Role>, id: RoleId): Permissions {
    match FindRole(roles, id)
    case Some(r) => r.permissions
    case None => {}
  }

  function OverwriteFor(overwrites: seq<Overwrite>, target: OverwriteTarget): (o: Option<Overwrite>)
    ensures o.Some? ==> o.value in overwrites && o.value.target == target
    ensures o.None? ==> forall x :: x in overwrites ==> x.target != target
  {
    if overwrites == [] then None
    else if overwrites[0].target == target then Some(overwrites[0])
    else OverwriteFor(overwrites[1..], target)
  }

  function AllowOf(o: Option<Overwrite>): Permissions { if o.Some? then o.value.allow else {} }

  function DenyOf(o: Option<Overwrite>): Permissions { if o.Some? then o.value.deny else {} }

  // ---- Resolution ----------------------------------------------------------

  /** The union of the listed roles' bits. */
  function HeldBits(roles: seq<Role>, ids: seq<RoleId>): (p: Permissions)
    ensures forall b :: b in p <==> exists id :: id in ids && b in RolePermissions(roles, id)
  {
    if ids == [] then {} else RolePermissions(roles, ids[0]) + HeldBits(roles, ids[1..])
  }

  function RoleDenies(overwrites: seq<Overwrite>, ids: seq<RoleId>): (p: Permissions)
    ensures forall b :: b in p <==> exists id :: id in ids && b in DenyOf(OverwriteFor(overwrites, ForRole(id)))
  {
    if ids == [] then {} else DenyOf(OverwriteFor(overwrites, ForRole(ids[0]))) + RoleDenies(overwrites, ids[1..])
  }

  function RoleAllows(overwrites: seq<Overwrite>, ids: seq<RoleId>): (p: Permissions)
    ensures forall b :: b in p <==> exists id :: id in ids && b in AllowOf(OverwriteFor(overwrites, ForRole(id)))
  {
    if ids == [] then {} else AllowOf(OverwriteFor(overwrites, ForRole(ids[0]))) + RoleAllows(overwrites, ids[1..])
  }

  function Base(roles: seq<Role>, ids: seq<RoleId>): Permissions {
    RolePermissions(roles, EVERYONE) + HeldBits(roles, ids)
  }

  /** Deny first, then allow, and only channel-scoped bits of either. */
  function Overlay(perms: Permissions, deny: Permissions, allow: Permissions): Permissions {
    perms - deny * CHANNEL_SCOPED + allow * CHANNEL_SCOPED
  }

  function InChannel(base: Permissions, ids: seq<RoleId>, member: Fingerprint,
                     overwrites: seq<Overwrite>): Permissions {
    var everyone := OverwriteFor(overwrites, ForRole(EVERYONE));
    var mine := OverwriteFor(overwrites, ForMember(member));
    var p1 := Overlay(base, DenyOf(everyone), AllowOf(everyone));
    var p2 := Overlay(p1, RoleDenies(overwrites, ids), RoleAllows(overwrites, ids));
    Overlay(p2, DenyOf(mine), AllowOf(mine))
  }

  function Resolve(roles: seq<Role>, ids: seq<RoleId>, member: Fingerprint, owner: bool,
                   overwrites: Option<seq<Overwrite>>): Permissions
  {
    if owner then ALL
    else
      var base := Base(roles, ids);
      if ADMINISTRATOR <= base then ALL
      else if overwrites.None? then base
      else
        var perms := InChannel(base, ids, member, overwrites.value);
        if VIEW_CHANNEL <= perms then perms else {}
  }

  lemma {:induction false} HeldBitsSnoc(roles: seq<Role>, ids: seq<RoleId>, i: nat)
    requires i < |ids|
    ensures HeldBits(roles, ids[..i + 1]) == HeldBits(roles, ids[..i]) + RolePermissions(roles, ids[i])
  {
    assert ids[..i + 1] == ids[..i] + [ids[i]];
  }

  lemma {:induction false} RoleOverwritesSnoc(overwrites: seq<Overwrite>, ids: seq<RoleId>, i: nat)
    requires i < |ids|
    ensures RoleDenies(overwrites, ids[..i + 1]) ==
            RoleDenies(overwrites, ids[..i]) + DenyOf(OverwriteFor(overwrites, ForRole(ids[i])))
    ensures RoleAllows(overwrites, ids[..i + 1]) ==
            RoleAllows(overwrites, ids[..i]) + AllowOf(OverwriteFor(overwrites, ForRole(ids[i])))
  {
    assert ids[..i + 1] == ids[..i] + [ids[i]];
  }

  /** The base accumulation loop. */
  method BaseLoop(roles: seq<Role>, ids: seq<RoleId>) returns (base: Permissions)
    ensures base == Base(roles, ids)
  {
    base := RolePermissions(roles, EVERYONE);
    for i := 0 to |ids|
      invariant base == RolePermissions(roles, EVERYONE) + HeldBits(roles, ids[..i])
    {
      HeldBitsSnoc(roles, ids, i);
      base := base + RolePermissions(roles, ids[i]);
    }
    assert ids[..|ids|] == ids;
  }

  /** The role-overwrite accumulation loop: all denies and all allows, gathered before either is applied. */
  method RoleOverwriteLoop(overwrites: seq<Overwrite>,
                           ids: seq<RoleId>) returns (denies: Permissions, allows: Permissions)
    ensures denies == RoleDenies(overwrites, ids) && allows == RoleAllows(overwrites, ids)
  {
    denies, allows := {}, {};
    for i := 0 to |ids|
      invariant denies == RoleDenies(overwrites, ids[..i]) && allows == RoleAllows(overwrites, ids[..i])
    {
      RoleOverwritesSnoc(overwrites, ids, i);
      var ow := OverwriteFor(overwrites, ForRole(ids[i]));
      if ow.Some? {
        denies := denies + ow.value.deny;
        allows := allows + ow.value.allow;
      }
    }
    assert ids[..|ids|] == ids;
  }

  /** The code's own accumulation, step by step, computes `Resolve`. */
  method ResolveLoops(roles: seq<Role>, ids: seq<RoleId>, member: Fingerprint, owner: bool,
                      overwrites: Option<seq<Overwrite>>)
    returns (result: Permissions)
    ensures result == Resolve(roles, ids, member, owner, overwrites)
  {
    if owner {
      return ALL;
    }
    var base := BaseLoop(roles, ids);
    if ADMINISTRATOR <= base {
      return ALL;
    }
    if overwrites.None? {
      return base;
    }
    var perms := base;
    var everyone := OverwriteFor(overwrites.value, ForRole(EVERYONE));
    if everyone.Some? {
      perms := Overlay(perms, everyone.value.deny, everyone.value.allow);
    }
    assert perms == Overlay(base, DenyOf(everyone), AllowOf(everyone));
    var denies, allows := RoleOverwriteLoop(overwrites.value, ids);
    perms := Overlay(perms, denies, allows);
    var mine := OverwriteFor(overwrites.value, ForMember(member));
    ghost var below := perms;
    if mine.Some? {
      perms := Overlay(perms, mine.value.deny, mine.value.allow);
    }
    assert perms == Overlay(below, DenyOf(mine), AllowOf(mine));
    if !(VIEW_CHANNEL <= perms) {
      return {};
    }
    return perms;
  }

  // ---- The precedence rule ---------------------------------------------------

  /** One rung of the ladder: an allow here wins, then a deny here, then whatever lies below. */
  predicate Rung(allow: bool, deny: bool, below: bool) { allow || (!deny && below) }

  ghost predicate AnyRoleAllows(overwrites: seq<Overwrite>, ids: seq<RoleId>, b: Bit) {
    exists o :: o in overwrites && o.target.ForRole? && o.target.role in ids && b in o.allow
  }

  ghost predicate AnyRoleDenies(overwrites: seq<Overwrite>, ids: seq<RoleId>, b: Bit) {
    exists o :: o in overwrites && o.target.ForRole? && o.target.role in ids && b in o.deny
  }

  ghost predicate Allowed(overwrites: seq<Overwrite>, target: OverwriteTarget, b: Bit) {
    exists o :: o in overwrites && o.target == target && b in o.allow
  }

  ghost predicate Denied(overwrites: seq<Overwrite>, target: OverwriteTarget, b: Bit) {
    exists o :: o in overwrites && o.target == target && b in o.deny
  }

  ghost predicate InBase(roles: seq<Role>, ids: seq<RoleId>, b: Bit) {
    exists r :: r in roles && (r.id == EVERYONE || r.id in ids) && b in r.permissions
  }

  /** Member beats roles, roles beat @everyone, @everyone beats the base; overwrites never touch server-wide bits. */
  ghost predicate Precedence(roles: seq<Role>, ids: seq<RoleId>, member: Fingerprint, overwrites: seq<Overwrite>,
                             b: Bit) {
    if b !in CHANNEL_SCOPED then InBase(roles, ids, b)
    else
      Rung(Allowed(overwrites, ForMember(member), b), Denied(overwrites, ForMember(member), b),
      Rung(AnyRoleAllows(overwrites, ids, b), AnyRoleDenies(overwrites, ids, b),
      Rung(Allowed(overwrites, ForRole(EVERYONE), b), Denied(overwrites, ForRole(EVERYONE), b),
           InBase(roles, ids, b))))
  }

  predicate UniqueIds(roles: seq<Role>) {
    forall i, j :: 0 <= i < j < |roles| ==> roles[i].id != roles[j].id
  }

  predicate UniqueTargets(overwrites: seq<Overwrite>) {
    forall i, j :: 0 <= i < j < |overwrites| ==> overwrites[i].target != overwrites[j].target
  }

  lemma {:induction false} FindRoleIs(roles: seq<Role>, r: Role)
    requires UniqueIds(roles) && r in roles
    ensures FindRole(roles, r.id) == Some(r)
  {
    var found := FindRole(roles, r.id).value;
    var i :| 0 <= i < |roles| && roles[i] == r;
    var j :| 0 <= j < |roles| && roles[j] == found;
  }

  lemma {:induction false} OverwriteIs(overwrites: seq<Overwrite>, o: Overwrite)
    requires UniqueTargets(overwrites) && o in overwrites
    ensures OverwriteFor(overwrites, o.target) == Some(o)
  {
    var found := OverwriteFor(overwrites, o.target).value;
    var i :| 0 <= i < |overwrites| && overwrites[i] == o;
    var j :| 0 <= j < |overwrites| && overwrites[j] == found;
  }

  lemma {:induction false} BaseBit(roles: seq<Role>, ids: seq<RoleId>, b: Bit)
    requires UniqueIds(roles)
    ensures b in Base(roles, ids) <==> InBase(roles, ids, b)
  {
    if InBase(roles, ids, b) {
      var r :| r in roles && (r.id == EVERYONE || r.id in ids) && b in r.permissions;
      FindRoleIs(roles, r);
    }
  }

  lemma {:induction false} TargetBits(overwrites: seq<Overwrite>, target: OverwriteTarget, b: Bit)
    requires UniqueTargets(overwrites)
    ensures b in AllowOf(OverwriteFor(overwrites, target)) <==> Allowed(overwrites, target, b)
    ensures b in DenyOf(OverwriteFor(overwrites, target)) <==> Denied(overwrites, target, b)
  {
    if Allowed(overwrites, target, b) {
      var o :| o in overwrites && o.target == target && b in o.allow;
      OverwriteIs(overwrites, o);
    }
    if Denied(overwrites, target, b) {
      var o :| o in overwrites && o.target == target && b in o.deny;
      OverwriteIs(overwrites, o);
    }
  }

  lemma {:induction false} RoleBits(overwrites: seq<Overwrite>, ids: seq<RoleId>, b: Bit)
    requires UniqueTargets(overwrites)
    ensures b in RoleAllows(overwrites, ids) <==> AnyRoleAllows(overwrites, ids, b)
    ensures b in RoleDenies(overwrites, ids) <==> AnyRoleDenies(overwrites, ids, b)
  {
    if AnyRoleAllows(overwrites, ids, b) {
      var o :| o in overwrites && o.target.ForRole? && o.target.role in ids && b in o.allow;
      OverwriteIs(overwrites, o);
    }
    if AnyRoleDenies(overwrites, ids, b) {
      var o :| o in overwrites && o.target.ForRole? && o.target.role in ids && b in o.deny;
      OverwriteIs(overwrites, o);
    }
  }

  lemma {:induction false} InChannelPrecedence(roles: seq<Role>, ids: seq<RoleId>, member: Fingerprint,
                                               overwrites: seq<Overwrite>, b: Bit)
    requires UniqueIds(roles) && UniqueTargets(overwrites)
    ensures b in InChannel(Base(roles, ids), ids, member, overwrites) <==> Precedence(roles, ids, member, overwrites, b)
  {
    hide Allowed, Denied, AnyRoleAllows, AnyRoleDenies, InBase, FindRole, OverwriteFor, Base, RoleAllows, RoleDenies;
    hide UniqueIds, UniqueTargets;
    BaseBit(roles, ids, b);
    RoleBits(overwrites, ids, b);
    TargetBits(overwrites, ForRole(EVERYONE), b);
    TargetBits(overwrites, ForMember(member), b);
  }

  /** What a plain member may do in a channel, bit by bit. */
  lemma {:induction false} ResolveIsPrecedence(roles: seq<Role>, ids: seq<RoleId>, member: Fingerprint,
                                               overwrites: seq<Overwrite>, b: Bit)
    requires UniqueIds(roles) && UniqueTargets(overwrites)
    requires !InBase(roles, ids, 0)
    ensures b in Resolve(roles, ids, member, false, Some(overwrites)) <==>
            Precedence(roles, ids, member, overwrites, VIEW) && Precedence(roles, ids, member, overwrites, b)
  {
    BaseBit(roles, ids, 0);
    InChannelPrecedence(roles, ids, member, overwrites, VIEW);
    InChannelPrecedence(roles, ids, member, overwrites, b);
  }

  /** Owners and administrators hold everything everywhere; outside channels the base decides. */
  lemma {:induction false} ResolveElsewhere(roles: seq<Role>, ids: seq<RoleId>, member: Fingerprint, owner: bool,
                                            overwrites: Option<seq<Overwrite>>)
    requires UniqueIds(roles)
    ensures owner || InBase(roles, ids, 0) ==> Resolve(roles, ids, member, owner, overwrites) == ALL
    ensures !owner && !InBase(roles, ids, 0) && overwrites.None? ==>
              forall b: Bit :: b in Resolve(roles, ids, member, owner, overwrites) <==> InBase(roles, ids, b)
  {
    forall b: Bit ensures b in Base(roles, ids) <==> InBase(roles, ids, b) {
      BaseBit(roles, ids, b);
    }
  }

  // ---- What resolution depends on -----------------------------------------------

  lemma HeldBitsCongruent(roles: seq<Role>, roles': seq<Role>, ids: seq<RoleId>, ids': seq<RoleId>)
    requires forall id :: id in ids ==> RolePermissions(roles, id) == RolePermissions(roles', id)
    requires forall id :: id in ids <==> id in ids'
    ensures HeldBits(roles, ids) == HeldBits(roles', ids')
  {
  }

  lemma RoleOverwritesCongruent(ows: seq<Overwrite>, ows': seq<Overwrite>, ids: seq<RoleId>, ids': seq<RoleId>)
    requires forall t :: OverwriteFor(ows, t) == OverwriteFor(ows', t)
    requires forall id :: id in ids <==> id in ids'
    ensures RoleDenies(ows, ids) == RoleDenies(ows', ids')
    ensures RoleAllows(ows, ids) == RoleAllows(ows', ids')
  {
  }

  /** Resolution reads the tables only through lookups of held roles, and the grant list only as a set. */
  lemma {:induction false} ResolveCongruent(roles: seq<Role>, roles': seq<Role>, ids: seq<RoleId>, ids': seq<RoleId>,
                         member: Fingerprint, owner: bool, ows: Option<seq<Overwrite>>, ows': Option<seq<Overwrite>>)
    requires forall id :: id == EVERYONE || id in ids ==> RolePermissions(roles, id) == RolePermissions(roles', id)
    requires forall id :: id in ids <==> id in ids'
    requires ows.Some? == ows'.Some?
    requires ows.Some? ==> forall t :: OverwriteFor(ows.value, t) == OverwriteFor(ows'.value, t)
    ensures Resolve(roles, ids, member, owner, ows) == Resolve(roles', ids', member, owner, ows')
  {
    hide FindRole, OverwriteFor, RoleAllows, RoleDenies, HeldBits, RolePermissions;
    HeldBitsCongruent(roles, roles', ids, ids');
    if ows.Some? {
      RoleOverwritesCongruent(ows.value, ows'.value, ids, ids');
    }
  }

  lemma {:induction false} SameRolesSameLookup(roles: seq<Role>, roles': seq<Role>, id: RoleId)
    requires UniqueIds(roles) && UniqueIds(roles')
    requires forall r :: r in roles <==> r in roles'
    ensures FindRole(roles, id) == FindRole(roles', id)
  {
    if FindRole(roles, id).Some? {
      FindRoleIs(roles', FindRole(roles, id).value);
    }
  }

  lemma {:induction false} SameOverwritesSameLookup(ows: seq<Overwrite>, ows': seq<Overwrite>, t: OverwriteTarget)
    requires UniqueTargets(ows) && UniqueTargets(ows')
    requires forall o :: o in ows <==> o in ows'
    ensures OverwriteFor(ows, t) == OverwriteFor(ows', t)
  {
    if OverwriteFor(ows, t).Some? {
      OverwriteIs(ows', OverwriteFor(ows, t).value);
    }
  }

  /** Stored order is irrelevant: permuting the tables, or permuting and repeating the grants, changes no answer. */
  lemma {:induction false} ResolveIgnoresOrder(roles: seq<Role>, roles': seq<Role>, ids: seq<RoleId>, ids': seq<RoleId>,
                            member: Fingerprint, owner: bool, ows: seq<Overwrite>, ows': seq<Overwrite>)
    requires UniqueIds(roles) && UniqueIds(roles') && UniqueTargets(ows) && UniqueTargets(ows')
    requires forall r :: r in roles <==> r in roles'
    requires forall id :: id in ids <==> id in ids'
    requires forall o :: o in ows <==> o in ows'
    ensures Resolve(roles, ids, member, owner, Some(ows)) == Resolve(roles', ids', member, owner, Some(ows'))
    ensures Resolve(roles, ids, member, owner, None) == Resolve(roles', ids', member, owner, None)
    ensures TopRolePosition(roles, ids) == TopRolePosition(roles', ids')
  {
    forall id ensures FindRole(roles, id) == FindRole(roles', id) {
      SameRolesSameLookup(roles, roles', id);
    }
    forall t ensures OverwriteFor(ows, t) == OverwriteFor(ows', t) {
      SameOverwritesSameLookup(ows, ows', t);
    }
    ResolveCongruent(roles, roles', ids, ids', member, owner, Some(ows), Some(ows'));
    ResolveCongruent(roles, roles', ids, ids', member, owner, None, None);
    TopIsHeld(roles, ids);
    TopIsHeld(roles', ids');
  }

  // ---- Rank -------------------------------------------------------------------

  /** The most senior held position; 0 when nothing held exists. */
  function TopRolePosition(roles: seq<Role>, ids: seq<RoleId>): (top: nat)
    ensures forall id :: id in ids && FindRole(roles, id).Some? ==> FindRole(roles, id).value.position <= top
  {
    if ids == [] then 0
    else
      var rest := TopRolePosition(roles, ids[1..]);
      match FindRole(roles, ids[0])
      case Some(r) => if r.position > rest then r.position else rest
      case None => rest
  }

  lemma {:induction false} TopIsHeld(roles: seq<Role>, ids: seq<RoleId>)
    ensures TopRolePosition(roles, ids) == 0 ||
            exists id ::
              && id in ids && FindRole(roles, id).Some?
              && FindRole(roles, id).value.position == TopRolePosition(roles, ids)
  {
    if ids != [] {
      TopIsHeld(roles, ids[1..]);
    }
  }

  predicate CanActOn(roles: seq<Role>, actorIds: seq<RoleId>, actorOwner: bool, targetIds: seq<RoleId>,
                     targetOwner: bool) {
    if targetOwner then false
    else if actorOwner then true
    else TopRolePosition(roles, actorIds) > TopRolePosition(roles, targetIds)
  }

  predicate CanManageRole(roles: seq<Role>, actorIds: seq<RoleId>, actorOwner: bool, role: RoleId) {
    actorOwner ||
    match FindRole(roles, role)
    case None => false
    case Some(target) => target.position < TopRolePosition(roles, actorIds)
  }
}
