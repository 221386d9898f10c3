/**
The bits-subset rule over whole runs: a crew of non-owners can shuffle the permissions it starts with among the roles
it outranks, and can never mint one it did not have (crates/pickle-server/src/admin.rs, may_grant and its callers).
*/
module Minting {
  import opened Common
  import opened Perms
  import opened RoleTable
  import opened Hierarchy

  /** What an actor may put into a role. */
  function Reach(actor: Actor): Permissions { if ADMINISTRATOR <= actor.base then ALL else actor.base }

  /** The bits of a role were there under the same id, or are the actor's own. */
  ghost predicate Sourced(now: PermState, bits: Permissions, r: Role) {
    || r.permissions <= bits
    || exists o :: o in now.roles && o.id == r.id && r.permissions <= o.permissions + bits
  }

  lemma {:induction false} SourcedAt(now: PermState, bits: Permissions, r: Role, k: nat)
    requires k < |now.roles| && now.roles[k].id == r.id && r.permissions <= now.roles[k].permissions + bits
    ensures Sourced(now, bits, r)
  {
    assert now.roles[k] in now.roles;
  }

  lemma {:induction false} CreateSourced(now: PermState, bits: Permissions, name: string, permissions: Permissions)
    requires PermsOk(now) && permissions * ALL <= bits
    ensures forall r :: r in AfterCreate(now, NewRole(now, name, permissions)).roles ==> Sourced(now, bits, r)
  {
    CreateShape(now, name, permissions);
    TableSourced(now, bits, NewRole(now, name, permissions));
  }

  lemma {:induction false} TableSourced(now: PermState, bits: Permissions, role: Role)
    requires |now.roles| > 0 && role.permissions <= bits
    ensures forall r :: r in CreatedTable(now.roles, role) ==> Sourced(now, bits, r)
  {
    hide Sourced, CreatedTable;
    var next := CreatedTable(now.roles, role);
    forall r | r in next ensures Sourced(now, bits, r) {
      var i :| 0 <= i < |next| && next[i] == r;
      if i == 0 {
        SourcedAt(now, bits, r, 0);
      } else if i == 1 {
        OwnBits(now, bits, r);
      } else {
        assert next[i] == now.roles[i - 1].(position := i);
        SourcedAt(now, bits, r, i - 1);
      }
    }
  }

  lemma OwnBits(now: PermState, bits: Permissions, r: Role)
    requires r.permissions <= bits
    ensures Sourced(now, bits, r)
  {
  }

  lemma {:induction false} UpdateSourced(now: PermState, actor: Actor, owner: Option<Fingerprint>, cmd: RoleCommand)
    requires PermsOk(now) && !actor.owner && cmd.UpdateRole? && Decide(now, actor, owner, cmd).Accepted?
    ensures forall r :: r in Decide(now, actor, owner, cmd).value.roles ==> Sourced(now, Reach(actor), r)
  {
    var k := IndexOf(now.roles, cmd.id);
    var updated := Updated(now.roles[k], cmd);
    ReplaceShape(now.roles, updated, k);
    var next := now.roles[k := updated];
    forall r | r in next ensures Sourced(now, Reach(actor), r) {
      var i :| 0 <= i < |next| && next[i] == r;
      SourcedAt(now, Reach(actor), r, i);
    }
  }

  lemma {:induction false} DeleteSourced(now: PermState, bits: Permissions, k: nat)
    requires PermsOk(now) && 0 < k < |now.roles|
    ensures forall r :: r in AfterDelete(now, now.roles[k].id).roles ==> Sourced(now, bits, r)
  {
    DeleteShape(now, k);
    var next := DeletedTable(now.roles, k);
    forall r | r in next ensures Sourced(now, bits, r) {
      var i :| 0 <= i < |next| && next[i] == r;
      SourcedAt(now, bits, r, if i < k then i else i + 1);
    }
  }

  lemma {:induction false} ReorderSourced(now: PermState, bits: Permissions, positions: Positions)
    requires PermsOk(now) && NamesEveryRoleDensely(now.roles, positions)
    ensures forall r :: r in AfterReorder(now, positions).roles ==> Sourced(now, bits, r)
  {
    ReorderShape(now, positions);
    forall r | r in AfterReorder(now, positions).roles ensures Sourced(now, bits, r) {
      var placed := Reposition(now.roles, positions);
      var i :| 0 <= i < |placed| && placed[i] == r;
      SourcedAt(now, bits, r, i);
    }
  }

  /** Every accepted command by a non-owner leaves only bits that were there already or that the actor has. */
  lemma {:induction false} DecideSourced(now: PermState, actor: Actor, owner: Option<Fingerprint>, cmd: RoleCommand)
    requires PermsOk(now) && !actor.owner && Decide(now, actor, owner, cmd).Accepted?
    ensures forall r :: r in Decide(now, actor, owner, cmd).value.roles ==> Sourced(now, Reach(actor), r)
  {
    hide AfterCreate, AfterDelete, AfterReorder, Sourced;
    match cmd
    case CreateRole(name, permissions) =>
      CreateSourced(now, Reach(actor), name, permissions);
    case UpdateRole(_, _, _, _) =>
      UpdateSourced(now, actor, owner, cmd);
    case DeleteRole(id) =>
      var k := IndexOf(now.roles, id);
      DeleteSourced(now, Reach(actor), k);
    case ReorderRoles(positions) =>
      ReorderSourced(now, Reach(actor), positions);
    case SetMemberRoles(_, _) =>
      forall r | r in now.roles ensures Sourced(now, Reach(actor), r) {
        var i :| 0 <= i < |now.roles| && now.roles[i] == r;
        SourcedAt(now, Reach(actor), r, i);
      }
  }

  // ---- Bits within the crew's reach -------------------------------------------------------

  /** A set of bits that holds everything an administrator has, if it holds that bit. */
  predicate Closed(bits: Permissions) { ADMINISTRATOR <= bits ==> ALL <= bits }

  /** Everything a member of the crew starts with, @everyone included, is among these bits. */
  ghost predicate StartsWithin(start: PermState, crew: set<Fingerprint>, bits: Permissions) {
    forall r, m :: r in start.roles && m in crew && (r.id == EVERYONE || r.id in Grants(start, m)) ==>
      r.permissions <= bits
  }

  /** Outside the senior block no role has other bits. */
  ghost predicate JuniorsWithin(start: PermState, now: PermState, top: nat, bits: Permissions) {
    forall r :: r in now.roles && !Senior(start, top, r.id) ==> r.permissions <= bits
  }

  lemma {:induction false} SeniorBits(start: PermState, now: PermState, top: nat, r: Role)
    requires PermsOk(start) && Frozen(start, now, top) && r in now.roles && Senior(start, top, r.id)
    ensures exists o :: o in start.roles && o.id == r.id && o.permissions == r.permissions
  {
    var i := IndexOf(start.roles, r.id);
    SeniorNow(start, now, top, i);
    FindRoleIs(now.roles, r);
    assert start.roles[i] in start.roles;
  }

  lemma {:induction false} HeldWithin(start: PermState, now: PermState, top: nat, crew: set<Fingerprint>,
                                      bits: Permissions, m: Fingerprint, r: Role)
    requires PermsOk(start) && Frozen(start, now, top) && JuniorsWithin(start, now, top, bits)
    requires StartsWithin(start, crew, bits) && m in crew
    requires r in now.roles && (r.id == EVERYONE || r.id in Grants(now, m))
    ensures r.permissions <= bits
  {
    if Senior(start, top, r.id) {
      SeniorBits(start, now, top, r);
      var o :| o in start.roles && o.id == r.id && o.permissions == r.permissions;
      assert MemberKept(start, now, top, m);
    }
  }

  /** So nothing a crew member may grant lies outside them. */
  lemma {:induction false} ReachWithin(start: PermState, now: PermState, owner: Option<Fingerprint>, top: nat,
                                       crew: set<Fingerprint>, bits: Permissions, m: Fingerprint)
    requires PermsOk(start) && Frozen(start, now, top) && JuniorsWithin(start, now, top, bits) && Closed(bits)
    requires StartsWithin(start, crew, bits) && m in crew && owner != Some(m)
    ensures Reach(ActorOf(now, m, owner)) <= bits
  {
    hide Frozen, JuniorsWithin, StartsWithin;
    var ids := Grants(now, m);
    FrozenIsOk(start, now, top);
    forall b: Bit | b in Base(now.roles, ids) ensures b in bits {
      BaseBit(now.roles, ids, b);
      var r :| r in now.roles && (r.id == EVERYONE || r.id in ids) && b in r.permissions;
      HeldWithin(start, now, top, crew, bits, m, r);
    }
  }

  lemma {:induction false} StepWithin(start: PermState, now: PermState, owner: Option<Fingerprint>, top: nat,
                                      crew: set<Fingerprint>, bits: Permissions, issued: Issued)
    requires PermsOk(start) && Frozen(start, now, top) && JuniorsWithin(start, now, top, bits) && Closed(bits)
    requires StartsWithin(start, crew, bits) && issued.who in crew && owner != Some(issued.who)
    ensures JuniorsWithin(start, After(now, owner, issued), top, bits)
  {
    hide Decide, Frozen, Reach;
    if Execute(now, owner, issued).Accepted? {
      FrozenIsOk(start, now, top);
      var actor := ActorOf(now, issued.who, owner);
      ReachWithin(start, now, owner, top, crew, bits, issued.who);
      DecideSourced(now, actor, owner, issued.cmd);
      forall r | r in After(now, owner, issued).roles && !Senior(start, top, r.id) ensures r.permissions <= bits {
        assert Sourced(now, Reach(actor), r);
      }
    }
  }

  lemma FrozenIsOk(start: PermState, now: PermState, top: nat)
    requires Frozen(start, now, top)
    ensures PermsOk(now)
  {
  }

  /**
  No minting. Take any set of bits that holds everything the crew and the roles below its highest rung start with.
  Whatever the crew does, a role with any other bit is one of the senior roles, which keep theirs: no permission from
  outside the set ever reaches a role, so a member, that did not have it.
  */
  lemma {:induction false} NoMinting(start: PermState, now: PermState, owner: Option<Fingerprint>, top: nat,
                                     crew: set<Fingerprint>, bits: Permissions, script: seq<Issued>)
    requires PermsOk(start) && Frozen(start, now, top) && JuniorsWithin(start, now, top, bits)
    requires Closed(bits) && StartsWithin(start, crew, bits)
    requires forall m :: m in crew ==> owner != Some(m) && Top(start, m) <= top
    requires forall i :: 0 <= i < |script| ==> script[i].who in crew
    ensures JuniorsWithin(start, Run(now, owner, script), top, bits)
    ensures forall m :: m in crew ==> Reach(ActorOf(Run(now, owner, script), m, owner)) <= bits
    decreases |script|
  {
    hide JuniorsWithin, Frozen, StartsWithin, Closed, Reach;
    if script == [] {
      forall m | m in crew ensures Reach(ActorOf(now, m, owner)) <= bits {
        ReachWithin(start, now, owner, top, crew, bits, m);
      }
    } else {
      StepFrozen(start, now, owner, top, script[0]);
      StepWithin(start, now, owner, top, crew, bits, script[0]);
      NoMinting(start, After(now, owner, script[0]), owner, top, crew, bits, script[1..]);
    }
  }

  /** From the start of a run. */
  lemma {:induction false} CrewCannotMint(start: PermState, owner: Option<Fingerprint>, top: nat,
                                          crew: set<Fingerprint>, bits: Permissions, script: seq<Issued>)
    requires PermsOk(start) && top < |start.roles| && Closed(bits) && StartsWithin(start, crew, bits)
    requires forall i :: 0 <= i < top ==> start.roles[i].permissions <= bits
    requires forall m :: m in crew ==> owner != Some(m) && Top(start, m) <= top
    requires forall i :: 0 <= i < |script| ==> script[i].who in crew
    ensures JuniorsWithin(start, Run(start, owner, script), top, bits)
    ensures forall m :: m in crew ==> Reach(ActorOf(Run(start, owner, script), m, owner)) <= bits
  {
    hide Frozen, StartsWithin, Closed, Reach, Run;
    StartsFrozen(start, top);
    forall r | r in start.roles && !Senior(start, top, r.id) ensures r.permissions <= bits {
      var i := IndexOf(start.roles, r.id);
      FindRoleIs(start.roles, r);
    }
    NoMinting(start, start, owner, top, crew, bits, script);
  }
}
