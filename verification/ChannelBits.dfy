/**
The bits-subset rule inside channels, over whole runs: what a crew of non-owners can come to hold in a channel, and what
the overwrite commands let it undo (crates/pickle-server/src/admin.rs:9-14, 591-739).
*/
module ChannelBits {
  import opened Common
  import opened Perms
  import opened RoleTable
  import opened Channels
  import opened Mirror
  import opened Visibility
  import opened ServerState
  import opened Store
  import opened Plans
  import opened Events
  import Hierarchy
  import Minting

  /**
  A target whose overwrites may come to apply to the crew: @everyone, a role it holds or could be granted, one of
  its own.
  */
  ghost predicate InReach(start: PermState, top: nat, crew: set<Fingerprint>, target: OverwriteTarget) {
    match target
    case ForRole(id) =>
      id == EVERYONE || !Hierarchy.Senior(start, top, id) || exists m :: m in crew && id in Grants(start, m)
    case ForMember(m) => m in crew
  }

  /** What overwrites within the crew's reach allow in one channel. */
  ghost predicate AllowsWithin(start: PermState, top: nat, crew: set<Fingerprint>, overwrites: seq<Overwrite>,
                               bits: Permissions) {
    forall o :: o in overwrites && InReach(start, top, crew, o.target) ==> o.allow * CHANNEL_SCOPED <= bits
  }

  ghost predicate RoomWithin(start: PermState, top: nat, crew: set<Fingerprint>, channels: ChannelMap, room: ChannelId,
                             bits: Permissions) {
    room in channels ==> AllowsWithin(start, top, crew, channels[room].overwrites, bits)
  }

  /** The event sets an overwrite, if it does: an accepted and stored one. */
  predicate Sets(owner: Option<Fingerprint>, m: Moment, e: Event) {
    && e.Channels? && e.command.SetOverwrite? && e.command.stored
    && CheckOverwrite(m.perms, m.channels, m.clients, owner, e.command.client, e.command.channel, e.command.target,
                      e.command.allow, e.command.deny).Accepted?
  }

  ghost predicate SetByCrew(owner: Option<Fingerprint>, m: Moment, e: Event, crew: set<Fingerprint>) {
    Sets(owner, m, e) ==> e.command.client in m.clients && m.clients[e.command.client].info.fingerprint in crew
  }

  // ---- What a member holds in a channel --------------------------------------------------------------------

  lemma {:induction false} AllowsOf(overwrites: seq<Overwrite>, target: OverwriteTarget, start: PermState, top: nat,
                                    crew: set<Fingerprint>, bits: Permissions)
    requires AllowsWithin(start, top, crew, overwrites, bits) && InReach(start, top, crew, target)
    ensures AllowOf(OverwriteFor(overwrites, target)) * CHANNEL_SCOPED <= bits
  {
    hide OverwriteFor, InReach;
  }

  /** Base bits and what the overwrites that apply allow: a member holds nothing else in a channel. */
  lemma {:induction false} HeldIn(roles: seq<Role>, ids: seq<RoleId>, member: Fingerprint, overwrites: seq<Overwrite>,
                                  bits: Permissions)
    requires Resolve(roles, ids, member, false, None) <= bits
    requires AllowOf(OverwriteFor(overwrites, ForRole(EVERYONE))) * CHANNEL_SCOPED <= bits
    requires AllowOf(OverwriteFor(overwrites, ForMember(member))) * CHANNEL_SCOPED <= bits
    requires forall id :: id in ids ==> AllowOf(OverwriteFor(overwrites, ForRole(id))) * CHANNEL_SCOPED <= bits
    ensures Resolve(roles, ids, member, false, Some(overwrites)) <= bits
  {
    hide OverwriteFor, Base, RoleDenies;
    var allows := RoleAllows(overwrites, ids);
    forall b: Bit | b in allows * CHANNEL_SCOPED ensures b in bits {
      var id :| id in ids && b in AllowOf(OverwriteFor(overwrites, ForRole(id)));
      assert b in AllowOf(OverwriteFor(overwrites, ForRole(id))) * CHANNEL_SCOPED;
    }
  }

  lemma {:induction false} HeldInReach(start: PermState, now: PermState, top: nat, crew: set<Fingerprint>,
                                       m: Fingerprint, id: RoleId)
    requires Hierarchy.Frozen(start, now, top) && m in crew && id in Grants(now, m)
    ensures InReach(start, top, crew, ForRole(id))
  {
    hide Hierarchy.Senior;
    assert Hierarchy.MemberKept(start, now, top, m);
  }

  /** So a crew member holds in a channel only what the crew could have reached there from the start. */
  lemma {:induction false} MemberWithin(start: PermState, now: PermState, owner: Option<Fingerprint>, top: nat,
                                        crew: set<Fingerprint>, bits: Permissions, room: Permissions,
                                        m: Fingerprint, overwrites: seq<Overwrite>)
    requires PermsOk(start) && Hierarchy.Frozen(start, now, top) && Minting.JuniorsWithin(start, now, top, bits)
    requires Minting.Closed(bits) && bits <= room
    requires Minting.StartsWithin(start, crew, bits) && m in crew && owner != Some(m)
    requires AllowsWithin(start, top, crew, overwrites, room)
    ensures Resolve(now.roles, Grants(now, m), m, false, Some(overwrites)) <= room
  {
    hide Hierarchy.Frozen, Minting.JuniorsWithin, Minting.StartsWithin, AllowsWithin, InReach, OverwriteFor, Base;
    Minting.ReachWithin(start, now, owner, top, crew, bits, m);
    BaseInReach(now, m, owner);
    EveryoneInReach(start, top, crew, m);
    AllowsOf(overwrites, ForRole(EVERYONE), start, top, crew, room);
    AllowsOf(overwrites, ForMember(m), start, top, crew, room);
    forall id | id in Grants(now, m) ensures AllowOf(OverwriteFor(overwrites, ForRole(id))) * CHANNEL_SCOPED <= room {
      HeldInReach(start, now, top, crew, m, id);
      AllowsOf(overwrites, ForRole(id), start, top, crew, room);
    }
    HeldIn(now.roles, Grants(now, m), m, overwrites, room);
  }

  lemma BaseInReach(ps: PermState, m: Fingerprint, owner: Option<Fingerprint>)
    requires owner != Some(m)
    ensures Resolve(ps.roles, Grants(ps, m), m, false, None) <= Minting.Reach(ActorOf(ps, m, owner))
  {
    hide Base;
  }

  lemma EveryoneInReach(start: PermState, top: nat, crew: set<Fingerprint>, m: Fingerprint)
    requires m in crew
    ensures InReach(start, top, crew, ForRole(EVERYONE)) && InReach(start, top, crew, ForMember(m))
  {
  }

  // ---- One step ----------------------------------------------------------------------------------------

  /** An accepted overwrite by a crew member allows nothing the crew could not have reached. */
  lemma {:induction false} SetWithin(start: PermState, top: nat, crew: set<Fingerprint>, bits: Permissions,
                                     room: Permissions, owner: Option<Fingerprint>, m: Moment, e: Event)
    requires PermsOk(start) && Hierarchy.Frozen(start, m.perms, top) && Minting.JuniorsWithin(start, m.perms, top, bits)
    requires Minting.Closed(bits) && bits <= room && Minting.StartsWithin(start, crew, bits)
    requires forall member :: member in crew ==> owner != Some(member)
    requires Sets(owner, m, e) && SetByCrew(owner, m, e, crew)
    requires RoomWithin(start, top, crew, m.channels, e.command.channel, room)
    ensures e.command.allow * CHANNEL_SCOPED <= room
  {
    hide Hierarchy.Frozen, Minting.JuniorsWithin, Minting.StartsWithin, AllowsWithin, Resolve;
    var who := m.clients[e.command.client].info.fingerprint;
    var actor := ActorOf(m.perms, who, owner);
    Minting.ReachWithin(start, m.perms, owner, top, crew, bits, who);
    if ADMINISTRATOR <= actor.base {
      assert CHANNEL_SCOPED <= ALL;
    } else {
      MemberWithin(start, m.perms, owner, top, crew, bits, room, who, m.channels[e.command.channel].overwrites);
    }
  }

  /** An overwrite of a channel after an event was there before, or is the one the event set. */
  lemma {:induction false} OverwriteFrom(owner: Option<Fingerprint>, m: Moment, e: Event, next: ChannelMap,
                                         id: ChannelId, o: Overwrite)
    requires Rearranged(owner, m, e, next) && id in next && o in next[id].overwrites
    ensures || (id in m.channels && o in m.channels[id].overwrites)
            || (Sets(owner, m, e) && id == e.command.channel && id in m.channels && o.target == e.command.target
                && o.allow == e.command.allow * CHANNEL_SCOPED)
  {
    hide CheckKnown, CheckCreate, Synced, Commanded, Resolve, MayGlobally, MayIn, FindRole, Reaches, NeverEnds;
  }

  lemma {:induction false} StepWithin(start: PermState, top: nat, crew: set<Fingerprint>, bits: Permissions,
                                      id: ChannelId, room: Permissions, owner: Option<Fingerprint>, m: Moment, e: Event,
                                      next: ChannelMap)
    requires PermsOk(start) && Hierarchy.Frozen(start, m.perms, top) && Minting.JuniorsWithin(start, m.perms, top, bits)
    requires Minting.Closed(bits) && bits <= room && Minting.StartsWithin(start, crew, bits)
    requires forall member :: member in crew ==> owner != Some(member)
    requires SetByCrew(owner, m, e, crew) && Rearranged(owner, m, e, next)
    requires RoomWithin(start, top, crew, m.channels, id, room)
    ensures RoomWithin(start, top, crew, next, id, room)
  {
    hide Hierarchy.Frozen, Minting.JuniorsWithin, Minting.StartsWithin, Rearranged, Sets, InReach;
    if id in next {
      forall o | o in next[id].overwrites && InReach(start, top, crew, o.target)
        ensures o.allow * CHANNEL_SCOPED <= room
      {
        OverwriteFrom(owner, m, e, next, id, o);
        if !(id in m.channels && o in m.channels[id].overwrites) {
          SetWithin(start, top, crew, bits, room, owner, m, e);
        }
      }
    }
  }

  // ---- Whole runs ----------------------------------------------------------------------------------------

  /** What the crew could hold when the run started: `bits` anywhere, `room` in one channel. */
  ghost predicate StartsIn(owner: Option<Fingerprint>, m: Moment, crew: set<Fingerprint>, top: nat, bits: Permissions,
                           id: ChannelId, room: Permissions) {
    && PermsOk(m.perms) && top < |m.perms.roles|
    && (forall member :: member in crew ==> owner != Some(member) && Hierarchy.Top(m.perms, member) <= top)
    && Minting.Closed(bits) && bits <= room && Minting.StartsWithin(m.perms, crew, bits)
    && (forall i :: 0 <= i < top ==> m.perms.roles[i].permissions <= bits)
    && RoomWithin(m.perms, top, crew, m.channels, id, room)
  }

  /** Every role command carried out, and every overwrite set, came from the crew. */
  ghost predicate DoneByCrew(owner: Option<Fingerprint>, events: seq<Event>, trace: seq<Moment>, n: nat,
                             crew: set<Fingerprint>)
    requires n <= |events| < |trace|
  {
    IssuedBy(Script(owner, events, trace, n), crew) && forall i :: 0 <= i < n ==>
      SetByCrew(owner, trace[i], events[i], crew)
  }

  lemma {:induction false} ScriptPrefix(owner: Option<Fingerprint>, events: seq<Event>, trace: seq<Moment>, n: nat,
                                        crew: set<Fingerprint>)
    requires 0 < n <= |events| < |trace| && DoneByCrew(owner, events, trace, n, crew)
    ensures DoneByCrew(owner, events, trace, n - 1, crew)
  {
    hide SetByCrew, Commanded;
    var before, last := Script(owner, events, trace, n - 1), Commanded(owner, trace[n - 1], events[n - 1]);
    assert Script(owner, events, trace, n) == before + last;
    forall i | 0 <= i < |before| ensures before[i].who in crew {
      assert (before + last)[i] == before[i];
    }
  }

  lemma {:induction false} RunHolds(owner: Option<Fingerprint>, maxUsers: nat, events: seq<Event>, trace: seq<Moment>,
                                    n: nat, crew: set<Fingerprint>, top: nat, bits: Permissions, id: ChannelId,
                                    room: Permissions)
    requires IsRun(owner, maxUsers, events, trace) && n <= |events| < |trace|
    requires DoneByCrew(owner, events, trace, n, crew) && StartsIn(owner, trace[0], crew, top, bits, id, room)
    ensures Hierarchy.Frozen(trace[0].perms, trace[n].perms, top)
    ensures Minting.JuniorsWithin(trace[0].perms, trace[n].perms, top, bits)
  {
    hide *;
    ScriptLeads(owner, maxUsers, events, trace, n);
    StartsInParts(owner, trace[0], crew, top, bits, id, room);
    DoneParts(owner, events, trace, n, crew);
    Hierarchy.StartsFrozen(trace[0].perms, top);
    Hierarchy.RunFrozen(trace[0].perms, trace[0].perms, owner, top, crew, Script(owner, events, trace, n));
    Minting.CrewCannotMint(trace[0].perms, owner, top, crew, bits, Script(owner, events, trace, n));
  }

  lemma StartsInParts(owner: Option<Fingerprint>, m: Moment, crew: set<Fingerprint>, top: nat, bits: Permissions,
                      id: ChannelId, room: Permissions)
    requires StartsIn(owner, m, crew, top, bits, id, room)
    ensures PermsOk(m.perms) && top < |m.perms.roles|
    ensures forall member :: member in crew ==> owner != Some(member) && Hierarchy.Top(m.perms, member) <= top
    ensures Minting.Closed(bits) && bits <= room && Minting.StartsWithin(m.perms, crew, bits)
    ensures forall i :: 0 <= i < top ==> m.perms.roles[i].permissions <= bits
    ensures RoomWithin(m.perms, top, crew, m.channels, id, room)
  {
  }

  lemma DoneParts(owner: Option<Fingerprint>, events: seq<Event>, trace: seq<Moment>, n: nat, crew: set<Fingerprint>)
    requires n <= |events| < |trace| && DoneByCrew(owner, events, trace, n, crew)
    ensures forall i :: 0 <= i < |Script(owner, events, trace, n)| ==> Script(owner, events, trace, n)[i].who in crew
    ensures forall i :: 0 <= i < n ==> SetByCrew(owner, trace[i], events[i], crew)
  {
  }

  lemma {:induction false} RunKeepsRoom(owner: Option<Fingerprint>, maxUsers: nat, events: seq<Event>,
                                        trace: seq<Moment>, n: nat, crew: set<Fingerprint>, top: nat,
                                        bits: Permissions, id: ChannelId, room: Permissions)
    requires IsRun(owner, maxUsers, events, trace) && n <= |events| < |trace|
    requires DoneByCrew(owner, events, trace, n, crew) && StartsIn(owner, trace[0], crew, top, bits, id, room)
    ensures RoomWithin(trace[0].perms, top, crew, trace[n].channels, id, room)
  {
    hide *;
    StartsInParts(owner, trace[0], crew, top, bits, id, room);
    if n > 0 {
      ScriptPrefix(owner, events, trace, n, crew);
      DoneParts(owner, events, trace, n, crew);
      RunKeepsRoom(owner, maxUsers, events, trace, n - 1, crew, top, bits, id, room);
      RunHolds(owner, maxUsers, events, trace, n - 1, crew, top, bits, id, room);
      StepOf(owner, maxUsers, events, trace, n - 1);
      StepParts(owner, maxUsers, trace[n - 1], events[n - 1], trace[n]);
      StepWithin(trace[0].perms, top, crew, bits, id, room, owner, trace[n - 1], events[n - 1], trace[n].channels);
    }
  }

  /**
  What a crew can come to hold in a channel: whatever it and the roles below its rung start with anywhere, and what the
  channel's overwrites within its reach allow at the start, denials notwithstanding. Nothing else, however the run goes.
  */
  lemma {:induction false} CrewReachesNoFurther(owner: Option<Fingerprint>, maxUsers: nat, events: seq<Event>,
                                                trace: seq<Moment>, n: nat, crew: set<Fingerprint>, top: nat,
                                                bits: Permissions, id: ChannelId, room: Permissions, m: Fingerprint)
    requires IsRun(owner, maxUsers, events, trace) && n <= |events| < |trace| && m in crew
    requires DoneByCrew(owner, events, trace, n, crew) && StartsIn(owner, trace[0], crew, top, bits, id, room)
    ensures id in trace[n].channels ==>
              Resolve(trace[n].perms.roles, Grants(trace[n].perms, m), m, false,
                      Some(trace[n].channels[id].overwrites)) <= room
  {
    hide *;
    StartsInParts(owner, trace[0], crew, top, bits, id, room);
    RunHolds(owner, maxUsers, events, trace, n, crew, top, bits, id, room);
    RunKeepsRoom(owner, maxUsers, events, trace, n, crew, top, bits, id, room);
    if id in trace[n].channels {
      RoomIs(trace[0].perms, top, crew, trace[n].channels, id, room);
      MemberWithin(trace[0].perms, trace[n].perms, owner, top, crew, bits, room, m, trace[n].channels[id].overwrites);
    }
  }

  lemma RoomIs(start: PermState, top: nat, crew: set<Fingerprint>, channels: ChannelMap, id: ChannelId,
               bits: Permissions)
    requires RoomWithin(start, top, crew, channels, id, bits) && id in channels
    ensures AllowsWithin(start, top, crew, channels[id].overwrites, bits)
  {
  }

  // ---- The subset rule for one overwrite command ------------------------------------------------------------

  /** The bits whose allowance or denial for the target changes. */
  function Toggled(was: Option<Overwrite>, now: Option<Overwrite>): Permissions {
    (AllowOf(was) - AllowOf(now)) + (AllowOf(now) - AllowOf(was)) +
    (DenyOf(was) - DenyOf(now)) + (DenyOf(now) - DenyOf(was))
  }

  /** The bits an overwrite in place stops allowing or denying. */
  function Dropped(was: Option<Overwrite>, now: Option<Overwrite>): Permissions {
    (AllowOf(was) - AllowOf(now)) + (DenyOf(was) - DenyOf(now))
  }

  /**
  The rule says that a plain member toggles in a channel only bits it holds there. The handler checks what the new
  overwrite says and not what the old one said: the rule is kept exactly when what is dropped was held too.
  */
  lemma {:induction false} SetKeepsRuleIff(ps: PermState, channels: ChannelMap, clients: Clients,
                                           owner: Option<Fingerprint>, c: ClientId, id: ChannelId,
                                           target: OverwriteTarget, allow: Permissions, deny: Permissions)
    requires CheckOverwrite(ps, channels, clients, owner, c, id, target, allow, deny).Accepted?
    requires c in clients && id in channels
    requires var actor := ActorOf(ps, clients[c].info.fingerprint, owner);
             !actor.owner && !(ADMINISTRATOR <= actor.base)
    ensures var who := clients[c].info.fingerprint;
            var mine := Resolve(ps.roles, Grants(ps, who), who, false, Some(channels[id].overwrites));
            var was := OverwriteFor(channels[id].overwrites, target);
            var put := CheckOverwrite(ps, channels, clients, owner, c, id, target, allow, deny).value;
            var now := OverwriteFor(WithOverwrite(channels[id].overwrites, put), target);
            Toggled(was, now) <= mine <==> Dropped(was, now) <= mine
  {
    hide Resolve, MayGlobally, MayIn, FindRole, OverwriteFor;
  }

  /** Deleting an overwrite is not checked at all: the rule is kept exactly when all it said was held. */
  lemma ClearKeepsRuleIff(overwrites: seq<Overwrite>, target: OverwriteTarget, mine: Permissions)
    ensures var was := OverwriteFor(overwrites, target);
            Toggled(was, OverwriteFor(DropTarget(overwrites, target), target)) <= mine <==>
            AllowOf(was) + DenyOf(was) <= mine
  {
  }

  /** A role that manages roles and may speak, and a channel that forbids one of its holders to. */
  function Speakers(name: string): seq<Role> {
    [Role(0, name, None, 0, VIEW_CHANNEL), Role(1, name, None, 1, MANAGE_ROLES + SPEAK)]
  }

  function Muzzle(member: Fingerprint): Overwrite { Overwrite(ForMember(member), {}, SPEAK) }

  lemma {:induction false} SpeakersResolve(name: string, member: Fingerprint)
    ensures var roles, all := Speakers(name), VIEW_CHANNEL + MANAGE_ROLES + SPEAK;
            && Resolve(roles, [1], member, false, None) == all
            && Resolve(roles, [1], member, false, Some([Muzzle(member)])) == all - SPEAK
            && Resolve(roles, [1], member, false, Some([])) == all
  {
    var roles := Speakers(name);
    assert FindRole(roles, 0) == Some(roles[0]);
    assert FindRole(roles, 1) == Some(roles[1]) by { assert roles[1..][0] == roles[1]; }
    assert HeldBits(roles, [1]) == MANAGE_ROLES + SPEAK;
    assert OverwriteFor([Muzzle(member)], ForMember(member)) == Some(Muzzle(member));
    assert SPEAK * CHANNEL_SCOPED == SPEAK;
    assert RoleAllows([Muzzle(member)], [1]) == {} && RoleDenies([Muzzle(member)], [1]) == {};
    var none: seq<Overwrite> := [];
    assert RoleAllows(none, [1]) == {} && RoleDenies(none, [1]) == {};
    assert InChannel(Base(roles, [1]), [1], member, [Muzzle(member)]) == VIEW_CHANNEL + MANAGE_ROLES;
  }

  /**
  So a member denied a bit in a channel that manages roles can have it: deleting the denial passes its checks, and so
  does replacing it by an overwrite that says nothing.
  */
  lemma {:induction false} ADenialCanBeUndone(name: string, member: Fingerprint, c: ClientId, s: Session)
    requires s.info.fingerprint == member && !s.info.owner && s.info.roles == [1]
    ensures var ps := PermState(Speakers(name), map[member := [1]]);
            var channels, clients := map[7 := Bare(7, None).(overwrites := [Muzzle(member)])], map[c := s];
            && CheckOverwriteRemoval(ps, channels, clients, c, 7).None?
            && CheckOverwrite(ps, channels, clients, None, c, 7, ForMember(member), {}, {}) ==
               Accepted(Overwrite(ForMember(member), {}, {}))
            && !(SPEAK <= Resolve(ps.roles, [1], member, false, Some([Muzzle(member)])))
            && SPEAK <= Resolve(ps.roles, [1], member, false, Some(DropTarget([Muzzle(member)], ForMember(member))))
  {
    hide Resolve;
    SpeakersResolve(name, member);
    assert DropTarget([Muzzle(member)], ForMember(member)) == [];
    var ps := PermState(Speakers(name), map[member := [1]]);
    var channels, clients := map[7 := Bare(7, None).(overwrites := [Muzzle(member)])], map[c := s];
    assert MayGlobally(ps, clients, c, MANAGE_ROLES);
    assert VIEW !in SPEAK && VIEW_CHANNEL <= VIEW_CHANNEL + MANAGE_ROLES + SPEAK - SPEAK;
    assert MayIn(ps, channels, clients, c, 7, VIEW_CHANNEL);
    var nothing: Permissions := {};
    assert nothing * CHANNEL_SCOPED == nothing;
    assert nothing + nothing == nothing;
  }
}
