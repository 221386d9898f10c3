/**
Role and overwrite commands whose handlers overlap: each reads a permission snapshot and notes who may see which
channel, waits for the database, and only then swaps its result in and tells the clients. When everything a client was
told is still right (crates/pickle-server/src/admin.rs, state.rs:766-837, apps/desktop/src-tauri/src/perms.rs).

A handler's swap and all it sends are one step; the snapshot and the note are what is stale. Nobody connects or leaves.
*/
module Races {
  import opened Common
  import opened Perms
  import opened RoleTable
  import opened Channels
  import opened Mirror
  import opened Visibility
  import opened ServerState
  import opened Store
  import opened Plans
  import opened Staleness
  import Interleaving

  /**
  The published and held permission states, who may see what as each handler noted it, the sessions as recorded, the
  channels, and what each client has made of the frames.
  */
  datatype World = World(tables: Interleaving.World, noted: map<nat, Lists>, infos: Infos, channels: ChannelMap,
                         views: Views)

  datatype Step =
    | Command(step: Interleaving.Step)
    | Note(handler: nat)
    | SetOverwrite(handler: nat, channel: ChannelId, overwrite: Overwrite)
    | ClearOverwrite(handler: nat, channel: ChannelId, target: OverwriteTarget)

  function VisibleTo(roles: seq<Role>, infos: Infos, channels: ChannelMap): Lists {
    map c | c in infos :: Visible(roles, infos[c], channels).Keys
  }

  /** Announcing some users, in any order: `HeardIs` shows that the order does not matter. */
  ghost function Heard(v: View, told: Infos): (w: View)
    ensures OneStandingEach(told) ==> Announced(v, w, told)
  {
    var after := v.(users := v.users + Standings(told));
    if Mentions(told, v.fingerprint) then
      var u :| u in told && told[u].fingerprint == v.fingerprint;
      assert OneStandingEach(told) ==>
        forall x :: x in told && told[x].fingerprint == v.fingerprint ==> SameStanding(told[u], told[x]);
      after.(myRoles := told[u].roles, owner := told[u].owner)
    else after
  }

  lemma {:induction false} HeardIs(v: View, w: View, told: Infos)
    requires OneStandingEach(told) && Announced(v, w, told)
    ensures w == Heard(v, told)
  {
  }

  /** What the gains, losses and changes sent to one client make of its list. */
  function Listed(list: ChannelMap, was: set<ChannelId>, now: set<ChannelId>, touched: set<ChannelId>,
                  channels: ChannelMap): ChannelMap {
    Grown(Shrunk(Grown(list, channels, Gained(was, now)), Gained(now, was)), channels, Changed(was, now, touched))
  }

  /** A resync skips whoever is not in the note. */
  function Relisted(v: View, c: ClientId, noted: Lists, now: set<ChannelId>, touched: set<ChannelId>,
                    channels: ChannelMap): View {
    if c in noted then v.(channels := Listed(v.channels, noted[c], now, touched, channels)) else v
  }

  function Regranting(infos: Infos, cmd: RoleCommand): Infos {
    match cmd
    case DeleteRole(id) => Stripped(infos, id)
    case SetMemberRoles(member, ids) => Regranted(infos, member, ids)
    case _ => infos
  }

  function Announcing(infos: Infos, cmd: RoleCommand): Infos {
    match cmd
    case DeleteRole(id) => Holders(infos, id)
    case SetMemberRoles(member, ids) => SessionsOf(Regranted(infos, member, ids), member)
    case _ => map[]
  }

  /** Creating and reordering send nobody a list. */
  predicate Relists(cmd: RoleCommand) { cmd.UpdateRole? || cmd.DeleteRole? || cmd.SetMemberRoles? }

  function Rechanneled(channels: ChannelMap, cmd: RoleCommand): ChannelMap {
    if cmd.DeleteRole? then StripRole(channels, cmd.id) else channels
  }

  function Touches(channels: ChannelMap, cmd: RoleCommand): set<ChannelId> {
    if cmd.DeleteRole? then Naming(channels, cmd.id) else {}
  }

  /** A handler that has not noted anything does so now. */
  function NotedBy(w: World, handler: nat): Lists {
    if handler in w.noted then w.noted[handler] else VisibleTo(w.tables.current.roles, w.infos, w.channels)
  }

  /** One client's view after a swap of `next`, decided on `held`. */
  ghost function Informed(w: World, handler: nat, held: PermState, cmd: RoleCommand, next: PermState, c: ClientId): View
    requires c in w.views && c in w.infos
  {
    var infos, channels := Regranting(w.infos, cmd), Rechanneled(w.channels, cmd);
    var heard := Heard(Fold(w.views[c], TableFrames(held, cmd, next)), Announcing(w.infos, cmd));
    if Relists(cmd) && c in infos
    then Relisted(heard, c, NotedBy(w, handler), Visible(next.roles, infos[c], channels).Keys, Touches(w.channels, cmd),
                  channels)
    else heard
  }

  ghost function Swapped(w: World, owner: Option<Fingerprint>, step: Interleaving.Step): World
    requires Swaps(w.tables, owner, step)
  {
    var held := w.tables.held[step.handler];
    var next := Decide(held, step.actor, owner, step.cmd).value;
    World(Interleaving.Next(w.tables, owner, step), w.noted, Regranting(w.infos, step.cmd),
          Rechanneled(w.channels, step.cmd),
          map c | c in w.views && c in w.infos :: Informed(w, step.handler, held, step.cmd, next, c))
  }

  /** A channel's overwrites change as they are now; only the note is stale. */
  function Overwritten(w: World, handler: nat, channel: ChannelId, changed: Channel): World {
    var channels := if channel in w.channels then w.channels[channel := changed] else w.channels;
    var now := VisibleTo(w.tables.current.roles, w.infos, channels);
    w.(channels := channels,
       views := map c | c in w.views && c in w.infos ::
         Relisted(w.views[c], c, NotedBy(w, handler), now[c], {channel}, channels))
  }

  ghost function Next(w: World, owner: Option<Fingerprint>, step: Step): World {
    match step
    case Note(h) => w.(noted := w.noted[h := VisibleTo(w.tables.current.roles, w.infos, w.channels)])
    case Command(s) => if Swaps(w.tables, owner, s) then Swapped(w, owner, s)
                       else w.(tables := Interleaving.Next(w.tables, owner, s))
    case SetOverwrite(h, channel, o) =>
      if channel in w.channels then Overwritten(w, h, channel, WithOverwriteOn(w.channels[channel], o)) else w
    case ClearOverwrite(h, channel, target) =>
      if channel in w.channels then Overwritten(w, h, channel, WithoutTarget(w.channels[channel], target)) else w
  }

  // ---- What is always so, and what should be -----------------------------------------------------

  /** Well formed, whatever was lost. */
  ghost predicate Sound(w: World) {
    && Interleaving.WorldOk(w.tables) && ChannelsOk(w.channels)
    && w.views.Keys == w.infos.Keys && OneStandingEach(w.infos)
    && forall h :: h in w.noted ==> w.noted[h].Keys == w.infos.Keys
  }

  /** A client's view is right, and its session is recorded with the member's own grants. */
  ghost predicate Agrees(w: World, c: ClientId)
    requires c in w.infos
  {
    && c in w.views
    && Right(w.views[c], w.infos[c], w.tables.current.roles, w.channels, w.infos)
    && w.infos[c].roles == Grants(w.tables.current, w.infos[c].fingerprint)
  }

  ghost predicate AllAgree(w: World) { forall c :: c in w.infos ==> Agrees(w, c) }

  // ---- What a command may have missed --------------------------------------------------------------

  /**
  What one member's grants may have become since the snapshot: anything a grant to that very member replaces, and a
  role that is being deleted.
  */
  predicate GrantsUnmissed(current: PermState, held: PermState, cmd: RoleCommand, member: Fingerprint) {
    match cmd
    case DeleteRole(id) => RemoveGrant(Grants(current, member), id) == RemoveGrant(Grants(held, member), id)
    case SetMemberRoles(m, _) => member == m || Grants(current, member) == Grants(held, member)
    case _ => Grants(current, member) == Grants(held, member)
  }

  /**
  What may have come into and gone out of one client's list since it was noted: a channel it may see now must be on its
  list if it is noted and not sent again anyway, and one it may not see any more must be noted if it is on the list.
  */
  ghost predicate ListUnmissed(list: set<ChannelId>, was: set<ChannelId>, now: set<ChannelId>,
                               touched: set<ChannelId>) {
    && (forall id :: id in now && id in was && id !in touched ==> id in list)
    && (forall id :: id in list && id !in now ==> id in was)
  }

  /** What one client may see once the step is taken, and the channels that change under it. */
  function NowVisible(w: World, owner: Option<Fingerprint>, step: Step, c: ClientId): set<ChannelId>
    requires c in w.infos
  {
    match step
    case Command(s) =>
      if Swaps(w.tables, owner, s) && c in Regranting(w.infos, s.cmd) then
        Visible(Decide(w.tables.held[s.handler], s.actor, owner, s.cmd).value.roles, Regranting(w.infos, s.cmd)[c],
                Rechanneled(w.channels, s.cmd)).Keys
      else {}
    case SetOverwrite(_, channel, o) =>
      if channel in w.channels then
        Visible(w.tables.current.roles, w.infos[c],
                w.channels[channel := WithOverwriteOn(w.channels[channel], o)]).Keys
      else {}
    case ClearOverwrite(_, channel, target) =>
      if channel in w.channels then
        Visible(w.tables.current.roles, w.infos[c],
                w.channels[channel := WithoutTarget(w.channels[channel], target)]).Keys
      else {}
    case Note(_) => {}
  }

  /** Nothing the handler had not seen leaves this client wrong. */
  ghost predicate Unmissed(w: World, owner: Option<Fingerprint>, step: Step, c: ClientId)
    requires Sound(w) && c in w.infos
  {
    var list, now := w.views[c].channels.Keys, NowVisible(w, owner, step, c);
    match step
    case Note(_) => true
    case Command(s) =>
      Swaps(w.tables, owner, s) ==>
        && Harmless(w.tables.current.roles, w.tables.held[s.handler], s.cmd)
        && GrantsUnmissed(w.tables.current, w.tables.held[s.handler], s.cmd, w.infos[c].fingerprint)
        && (Relists(s.cmd) ==> ListUnmissed(list, NotedBy(w, s.handler)[c], now, Touches(w.channels, s.cmd)))
    case SetOverwrite(h, channel, _) => channel in w.channels ==> ListUnmissed(list, NotedBy(w, h)[c], now, {channel})
    case ClearOverwrite(h, channel, _) => channel in w.channels ==> ListUnmissed(list, NotedBy(w, h)[c], now, {channel})
  }

  // ---- One client's list ------------------------------------------------------------------------------

  lemma VisibleIsRooms(roles: seq<Role>, info: UserInfo, channels: ChannelMap)
    ensures Visible(roles, info, channels) == Rooms(channels, Visible(roles, info, channels).Keys)
    ensures Visible(roles, info, channels).Keys <= channels.Keys
  {
  }

  lemma {:induction false} ListExact(list: ChannelMap, was: set<ChannelId>, now: set<ChannelId>,
                                     touched: set<ChannelId>, before: ChannelMap, channels: ChannelMap)
    requires list.Keys <= before.Keys && forall id :: id in list ==> list[id] == before[id]
    requires before.Keys == channels.Keys && now <= channels.Keys
    requires forall id :: id in before && id !in touched ==> channels[id] == before[id]
    ensures Listed(list, was, now, touched, channels) == Rooms(channels, now) <==>
            ListUnmissed(list.Keys, was, now, touched)
  {
    var after := Listed(list, was, now, touched, channels);
    forall id ensures id in after <==> || (id in now && id !in was) || (id in list && !(id in was && id !in now))
                                       || (id in was && id in now && id in touched) {
    }
    if ListUnmissed(list.Keys, was, now, touched) {
      assert after.Keys == now;
      assert after == Rooms(channels, now);
    }
    if after == Rooms(channels, now) {
      forall id | id in now && id in was && id !in touched ensures id in list {
        assert id in after;
      }
      forall id | id in list && id !in now ensures id in was {
        assert id !in after;
      }
    }
  }

  // ---- What the frames make of everything but the table and the list -----------------------------------------

  lemma {:induction false} HeardNothing(v: View)
    ensures Heard(v, map[]) == v
  {
    assert v.users + Standings(map[]) == v.users;
  }

  lemma {:induction false} HeardOfDelete(v: View, infos: Infos, id: RoleId, c: ClientId)
    requires OneStandingEach(infos) && c in infos && KnowsUsers(v, infos)
    requires v.fingerprint == infos[c].fingerprint && v.owner == infos[c].owner
    requires v.myRoles == RemoveGrant(infos[c].roles, id)
    ensures var w, infos' := Heard(v, Holders(infos, id)), Stripped(infos, id);
            && KnowsUsers(w, infos') && w.fingerprint == v.fingerprint && w.roles == v.roles && w.channels == v.channels
            && w.owner == infos'[c].owner && w.myRoles == infos'[c].roles && OneStandingEach(infos')
  {
    var told, infos' := Holders(infos, id), Stripped(infos, id);
    forall u, x | u in infos && x in infos && infos[u].fingerprint == infos[x].fingerprint
      ensures SameStanding(infos'[u], infos'[x])
    {
      assert SameStanding(infos[u], infos[x]);
    }
    assert OneStandingEach(told) by {
      forall u, x | u in told && x in told && told[u].fingerprint == told[x].fingerprint
        ensures SameStanding(told[u], told[x])
      {
        assert SameStanding(infos'[u], infos'[x]);
      }
    }
    DeleteKnowsUsers(v.users, infos, infos', told, id);
    forall u | u in told && told[u].fingerprint == infos'[c].fingerprint ensures SameStanding(told[u], infos'[c]) {
      assert SameStanding(infos'[u], infos'[c]);
    }
    OwnAfterAnnounce(v, Heard(v, told), told, infos'[c]);
  }

  lemma {:induction false} RegrantedStand(infos: Infos, member: Fingerprint, ids: seq<RoleId>)
    requires OneStandingEach(infos)
    ensures OneStandingEach(Regranted(infos, member, ids))
    ensures OneStandingEach(SessionsOf(Regranted(infos, member, ids), member))
  {
    var infos' := Regranted(infos, member, ids);
    var told := SessionsOf(infos', member);
    forall u, x | u in infos' && x in infos' && infos'[u].fingerprint == infos'[x].fingerprint
      ensures SameStanding(infos'[u], infos'[x])
    {
      assert SameStanding(infos[u], infos[x]);
    }
    forall u, x | u in told && x in told && told[u].fingerprint == told[x].fingerprint
      ensures SameStanding(told[u], told[x])
    {
      assert SameStanding(infos'[u], infos'[x]);
    }
  }

  lemma {:induction false} HeardOfGrant(v: View, infos: Infos, member: Fingerprint, ids: seq<RoleId>, c: ClientId)
    requires OneStandingEach(infos) && c in infos && KnowsUsers(v, infos)
    requires v.fingerprint == infos[c].fingerprint && v.owner == infos[c].owner && v.myRoles == infos[c].roles
    ensures var w, infos' := Heard(v, SessionsOf(Regranted(infos, member, ids), member)), Regranted(infos, member, ids);
            && KnowsUsers(w, infos') && w.fingerprint == v.fingerprint && w.roles == v.roles && w.channels == v.channels
            && w.owner == infos'[c].owner && w.myRoles == infos'[c].roles && OneStandingEach(infos')
  {
    hide OneStandingEach, Heard;
    var infos' := Regranted(infos, member, ids);
    var told := SessionsOf(infos', member);
    RegrantedStand(infos, member, ids);
    var w := Heard(v, told);
    assert Announced(v, w, told);
    forall u | u in infos' ensures u in w.users && w.users[u] == StandingOf(infos'[u]) {
      assert u in v.users && v.users[u] == StandingOf(infos[u]);
    }
    OwnOfGrant(v, w, infos, member, ids, c);
  }

  lemma {:induction false} OwnOfGrant(v: View, w: View, infos: Infos, member: Fingerprint, ids: seq<RoleId>,
                                      c: ClientId)
    requires OneStandingEach(Regranted(infos, member, ids)) && c in infos
    requires Announced(v, w, SessionsOf(Regranted(infos, member, ids), member))
    requires v.fingerprint == infos[c].fingerprint && v.owner == infos[c].owner && v.myRoles == infos[c].roles
    ensures w.owner == infos[c].owner && w.myRoles == Regranted(infos, member, ids)[c].roles
  {
    hide OneStandingEach;
    var told := SessionsOf(Regranted(infos, member, ids), member);
    if infos[c].fingerprint == member {
      assert c in told && told[c].fingerprint == v.fingerprint;
    }
  }

  /** The table, the own grants and the list aside, a swap leaves every view right. */
  lemma {:induction false} SwapHeard(w: World, owner: Option<Fingerprint>, s: Interleaving.Step, c: ClientId)
    requires Sound(w) && c in w.infos && Agrees(w, c) && Swaps(w.tables, owner, s)
    ensures var held := w.tables.held[s.handler];
            var next, infos' := Decide(held, s.actor, owner, s.cmd).value, Regranting(w.infos, s.cmd);
            var u := Heard(Fold(w.views[c], TableFrames(held, s.cmd, next)), Announcing(w.infos, s.cmd));
            && infos'.Keys == w.infos.Keys && OneStandingEach(infos') && infos'[c].fingerprint == w.infos[c].fingerprint
            && KnowsUsers(u, infos') && u.fingerprint == infos'[c].fingerprint && u.owner == infos'[c].owner
            && u.myRoles == infos'[c].roles && u.channels == w.views[c].channels
            && u.roles == Mirrored(w.tables.current.roles, held, s.cmd, next)
  {
    hide Fold, Mirrored, TableFrames, Heard, Decide, Visible, OneStandingEach, Interleaving.WorldOk, ChannelsOk;
    hide RemoveGrant, Grants;
    var held := w.tables.held[s.handler];
    var next := Decide(held, s.actor, owner, s.cmd).value;
    var v := w.views[c];
    FoldIsMirrored(v, held, s.cmd, next);
    var f := Fold(v, TableFrames(held, s.cmd, next));
    match s.cmd
    case DeleteRole(id) =>
      HeardOfDelete(f, w.infos, id, c);
    case SetMemberRoles(member, ids) =>
      HeardOfGrant(f, w.infos, member, ids, c);
    case _ =>
      HeardNothing(f);
  }

  // ---- Grants -----------------------------------------------------------------------------------------

  /** A session is left with its member's published grants exactly when no grant of theirs was missed. */
  lemma {:induction false} GrantsExact(w: World, owner: Option<Fingerprint>, s: Interleaving.Step, c: ClientId)
    requires Sound(w) && c in w.infos && Agrees(w, c) && Swaps(w.tables, owner, s)
    ensures var held := w.tables.held[s.handler];
            var next, infos' := Decide(held, s.actor, owner, s.cmd).value, Regranting(w.infos, s.cmd);
            c in infos' &&
            (infos'[c].roles == Grants(next, infos'[c].fingerprint) <==>
             GrantsUnmissed(w.tables.current, held, s.cmd, w.infos[c].fingerprint))
  {
    hide Decide, Right, OneStandingEach, ChannelsOk, PermsOk, RemoveGrant, Grants;
    DecidedGrants(w.tables.held[s.handler], s.actor, owner, s.cmd, w.infos[c].fingerprint);
  }

  // ---- Lists of clients that are sent none ------------------------------------------------------------

  lemma {:induction false} CoveredBits(a: seq<Role>, b: seq<Role>, id: RoleId)
    requires UniqueIds(b) && Covers(b, a) && FindRole(a, id).Some?
    ensures RolePermissions(a, id) == RolePermissions(b, id)
  {
    hide FindRole, UniqueIds;
    var r := FindRole(a, id).value;
    var t :| t in b && SameButPosition(t, r);
    FindRoleIs(b, t);
  }

  lemma {:induction false} SameBits(a: seq<Role>, b: seq<Role>, id: RoleId)
    requires UniqueIds(a) && UniqueIds(b) && SameRoles(a, b)
    ensures RolePermissions(a, id) == RolePermissions(b, id)
  {
    hide FindRole, UniqueIds, Covers;
    if FindRole(a, id).Some? {
      CoveredBits(a, b, id);
    } else if FindRole(b, id).Some? {
      CoveredBits(b, a, id);
    }
  }

  lemma {:induction false} WithoutBits(roles: seq<Role>, gone: RoleId, id: RoleId)
    requires UniqueIds(roles) && id != gone
    ensures RolePermissions(RemoveRole(roles, gone), id) == RolePermissions(roles, id)
  {
    RemoveKeepsUnique(roles, gone);
    if FindRole(roles, id).Some? {
      FindRoleIs(RemoveRole(roles, gone), FindRole(roles, id).value);
    }
  }

  /** Creating or reordering roles on an unmissed table changes no bits anybody holds. */
  lemma {:induction false} UnsentKeepsBits(current: PermState, held: PermState, actor: Actor,
                                           owner: Option<Fingerprint>,
                                           cmd: RoleCommand, id: RoleId)
    requires PermsOk(current) && PermsOk(held) && !Relists(cmd) && Decide(held, actor, owner, cmd).Accepted?
    requires Harmless(current.roles, held, cmd) && Exists(held.roles, id)
    ensures RolePermissions(current.roles, id) == RolePermissions(Decide(held, actor, owner, cmd).value.roles, id)
  {
    hide AfterCreate, AfterReorder, SameRoles, Covers, FindRole, MaxRoleId, Trim, RolePermissions;
    match cmd
    case CreateRole(name, permissions) =>
      var role := NewRole(held, name, permissions);
      CreateShape(held, name, permissions);
      NoneHas(held, name, permissions);
      CreateKeepsBits(held.roles, role, id);
      RemoveKeepsUnique(current.roles, role.id);
      SameBits(RemoveRole(current.roles, role.id), held.roles, id);
      WithoutBits(current.roles, role.id, id);
    case ReorderRoles(positions) =>
      ReorderKeepsBits(held, positions, id);
      SameBits(current.roles, held.roles, id);
  }

  lemma {:induction false} UnsentKeepsList(current: PermState, held: PermState, actor: Actor,
                                           owner: Option<Fingerprint>,
                                           cmd: RoleCommand, info: UserInfo, channels: ChannelMap)
    requires PermsOk(current) && PermsOk(held) && !Relists(cmd) && Decide(held, actor, owner, cmd).Accepted?
    requires Harmless(current.roles, held, cmd) && info.roles == Grants(held, info.fingerprint)
    ensures Visible(Decide(held, actor, owner, cmd).value.roles, info, channels) ==
            Visible(current.roles, info, channels)
  {
    hide Decide, Harmless, PermsOk, Visible, RolePermissions;
    var next := Decide(held, actor, owner, cmd).value;
    forall id | id == EVERYONE || id in info.roles
      ensures RolePermissions(current.roles, id) == RolePermissions(next.roles, id)
    {
      HeldExists(held, info, id);
      UnsentKeepsBits(current, held, actor, owner, cmd, id);
    }
    VisibleKept(current.roles, next.roles, info, channels);
  }

  // ---- One step ---------------------------------------------------------------------------------------

  lemma {:induction false} StrippedChannels(channels: ChannelMap, cmd: RoleCommand)
    requires ChannelsOk(channels)
    ensures ChannelsOk(Rechanneled(channels, cmd)) && Rechanneled(channels, cmd).Keys == channels.Keys
    ensures forall id :: id in channels && id !in Touches(channels, cmd) ==>
              Rechanneled(channels, cmd)[id] == channels[id]
  {
    if cmd.DeleteRole? {
      StripTouches(channels, cmd.id);
    }
  }

  lemma {:induction false} SwapSound(w: World, owner: Option<Fingerprint>, s: Interleaving.Step)
    requires Sound(w) && Swaps(w.tables, owner, s) && AllAgree(w)
    ensures Sound(Swapped(w, owner, s))
  {
    hide Decide, Right, Agrees, Visible, Informed, Interleaving.WorldOk, ChannelsOk, OneStandingEach;
    Interleaving.NextKeepsOk(w.tables, owner, s);
    StrippedChannels(w.channels, s.cmd);
    match s.cmd
    case DeleteRole(id) =>
      StrippedStand(w.infos, id);
    case SetMemberRoles(member, ids) =>
      RegrantedStand(w.infos, member, ids);
    case _ =>
  }

  lemma {:induction false} StrippedStand(infos: Infos, id: RoleId)
    requires OneStandingEach(infos)
    ensures OneStandingEach(Stripped(infos, id))
  {
    var infos' := Stripped(infos, id);
    forall u, x | u in infos' && x in infos' && infos'[u].fingerprint == infos'[x].fingerprint
      ensures SameStanding(infos'[u], infos'[x])
    {
      assert SameStanding(infos[u], infos[x]);
    }
  }

  /** A view with everything but table and list right is right exactly when those are. */
  lemma RightWhen(u: View, info: UserInfo, roles: seq<Role>, channels: ChannelMap, infos: Infos)
    requires KnowsUsers(u, infos) && u.fingerprint == info.fingerprint && u.owner == info.owner
    requires u.myRoles == info.roles
    ensures Right(u, info, roles, channels, infos) <==> u.roles == roles && u.channels == Visible(roles, info, channels)
  {
  }

  lemma KnowsWhatever(u: View, list: ChannelMap, infos: Infos)
    ensures KnowsUsers(u.(channels := list), infos) <==> KnowsUsers(u, infos)
  {
  }

  lemma {:induction false} SwapView(w: World, owner: Option<Fingerprint>, s: Interleaving.Step, c: ClientId)
    requires Sound(w) && c in w.infos && Swaps(w.tables, owner, s)
    ensures var held := w.tables.held[s.handler];
            var next, infos' := Decide(held, s.actor, owner, s.cmd).value, Regranting(w.infos, s.cmd);
            var u := Heard(Fold(w.views[c], TableFrames(held, s.cmd, next)), Announcing(w.infos, s.cmd));
            var w' := Swapped(w, owner, s);
            && c in infos' && w'.infos == infos' && c in w'.views && w'.tables.current == next
            && w'.channels == Rechanneled(w.channels, s.cmd) && c in NotedBy(w, s.handler)
            && NowVisible(w, owner, Command(s), c) == Visible(next.roles, infos'[c], w'.channels).Keys
            && w'.views[c] ==
               if Relists(s.cmd) then
                 u.(channels := Listed(u.channels, NotedBy(w, s.handler)[c], NowVisible(w, owner, Command(s), c),
                                       Touches(w.channels, s.cmd), w'.channels))
               else u
  {
    hide Decide, Right, Visible, Interleaving.WorldOk, ChannelsOk, OneStandingEach, Heard, Fold, TableFrames, Listed;
    hide Rechanneled, Touches;
  }

  lemma SoundParts(w: World, handler: nat)
    requires Sound(w) && handler in w.tables.held
    ensures PermsOk(w.tables.current) && TableOk(w.tables.current.roles) && PermsOk(w.tables.held[handler])
    ensures ChannelsOk(w.channels) && w.views.Keys == w.infos.Keys
  {
  }

  lemma RightParts(w: World, c: ClientId)
    requires c in w.infos && Agrees(w, c)
    ensures var v := w.views[c];
            && v.roles == w.tables.current.roles
            && v.channels == Visible(w.tables.current.roles, w.infos[c], w.channels)
            && (forall id :: id in v.channels ==> id in w.channels && v.channels[id] == w.channels[id])
            && w.infos[c].roles == Grants(w.tables.current, w.infos[c].fingerprint)
  {
  }

  lemma {:induction false} ListAfterSwap(w: World, owner: Option<Fingerprint>, s: Interleaving.Step, c: ClientId,
                                         info: UserInfo, roles: seq<Role>)
    requires Sound(w) && c in w.infos && Agrees(w, c) && Swaps(w.tables, owner, s) && c in NotedBy(w, s.handler)
    requires NowVisible(w, owner, Command(s), c) == Visible(roles, info, Rechanneled(w.channels, s.cmd)).Keys
    ensures var channels, touched := Rechanneled(w.channels, s.cmd), Touches(w.channels, s.cmd);
            var was, now := NotedBy(w, s.handler)[c], NowVisible(w, owner, Command(s), c);
            Listed(w.views[c].channels, was, now, touched, channels) == Visible(roles, info, channels) <==>
            ListUnmissed(w.views[c].channels.Keys, was, now, touched)
  {
    hide *;
    SwapsHeld(w.tables, owner, s);
    RightParts(w, c);
    SoundParts(w, s.handler);
    var channels := Rechanneled(w.channels, s.cmd);
    StrippedChannels(w.channels, s.cmd);
    VisibleIsRooms(roles, info, channels);
    VisibleIsRooms(w.tables.current.roles, w.infos[c], w.channels);
    ListExact(w.views[c].channels, NotedBy(w, s.handler)[c], NowVisible(w, owner, Command(s), c),
              Touches(w.channels, s.cmd), w.channels, channels);
  }

  lemma SwapsHeld(w: Interleaving.World, owner: Option<Fingerprint>, step: Interleaving.Step)
    requires Swaps(w, owner, step)
    ensures step.Swap? && step.handler in w.held && Decide(w.held[step.handler], step.actor, owner, step.cmd).Accepted?
  {
    hide Decide;
  }

  lemma {:induction false} UnsentList(w: World, owner: Option<Fingerprint>, s: Interleaving.Step, c: ClientId)
    requires Sound(w) && c in w.infos && Agrees(w, c) && Swaps(w.tables, owner, s) && !Relists(s.cmd)
    requires Harmless(w.tables.current.roles, w.tables.held[s.handler], s.cmd)
    requires GrantsUnmissed(w.tables.current, w.tables.held[s.handler], s.cmd, w.infos[c].fingerprint)
    ensures var next := Decide(w.tables.held[s.handler], s.actor, owner, s.cmd).value;
            var infos', channels := Regranting(w.infos, s.cmd), Rechanneled(w.channels, s.cmd);
            c in infos' && w.views[c].channels == Visible(next.roles, infos'[c], channels)
  {
    hide Decide, Right, Visible, OneStandingEach, Harmless, PermsOk, ChannelsOk;
    UnsentKeepsList(w.tables.current, w.tables.held[s.handler], s.actor, owner, s.cmd, w.infos[c], w.channels);
    RightParts(w, c);
  }

  /** After a swap a client is right exactly when nothing its handler had missed touches it. */
  lemma {:induction false} SwapExact(w: World, owner: Option<Fingerprint>, s: Interleaving.Step, c: ClientId)
    requires Sound(w) && AllAgree(w) && c in w.infos && Swaps(w.tables, owner, s)
    ensures c in Swapped(w, owner, s).infos
    ensures Agrees(Swapped(w, owner, s), c) <==> Unmissed(w, owner, Command(s), c)
  {
    hide Decide, Right, Visible, Interleaving.WorldOk, ChannelsOk, OneStandingEach, Heard, Fold, TableFrames, Listed;
    hide Rechanneled, Touches, KnowsUsers, Harmless, GrantsUnmissed, ListUnmissed, NowVisible, NotedBy, Regranting;
    hide Rooms, Swapped, Announcing, Mirrored, Grants;
    assert Agrees(w, c);
    var held, current := w.tables.held[s.handler], w.tables.current;
    var next := Decide(held, s.actor, owner, s.cmd).value;
    var infos' := Regranting(w.infos, s.cmd);
    var u := Heard(Fold(w.views[c], TableFrames(held, s.cmd, next)), Announcing(w.infos, s.cmd));
    SoundParts(w, s.handler);
    SwapView(w, owner, s, c);
    SwapHeard(w, owner, s, c);
    GrantsExact(w, owner, s, c);
    SwapReachesClient(current.roles, held, s.actor, owner, s.cmd);
    KnowsWhatever(u, Swapped(w, owner, s).views[c].channels, infos');
    RightWhen(Swapped(w, owner, s).views[c], infos'[c], next.roles, Swapped(w, owner, s).channels, infos');
    if Relists(s.cmd) {
      ListAfterSwap(w, owner, s, c, infos'[c], next.roles);
    } else if Harmless(current.roles, held, s.cmd) && GrantsUnmissed(current, held, s.cmd, w.infos[c].fingerprint) {
      UnsentList(w, owner, s, c);
    }
  }

  lemma {:induction false} OverwriteExact(w: World, handler: nat, channel: ChannelId, changed: Channel, c: ClientId)
    requires Sound(w) && AllAgree(w) && c in w.infos && channel in w.channels
    ensures var w' := Overwritten(w, handler, channel, changed);
            var now := Visible(w.tables.current.roles, w.infos[c], w.channels[channel := changed]).Keys;
            && c in w'.infos && c in NotedBy(w, handler)
            && (Agrees(w', c) <==> ListUnmissed(w.views[c].channels.Keys, NotedBy(w, handler)[c], now, {channel}))
  {
    hide Visible, Interleaving.WorldOk, ChannelsOk, OneStandingEach, Listed, ListUnmissed, Rooms, KnowsUsers;
    assert Agrees(w, c);
    var channels, w' := w.channels[channel := changed], Overwritten(w, handler, channel, changed);
    assert channels.Keys == w.channels.Keys;
    KnowsWhatever(w.views[c], w'.views[c].channels, w.infos);
    RightWhen(w.views[c], w.infos[c], w.tables.current.roles, w.channels, w.infos);
    RightWhen(w'.views[c], w.infos[c], w.tables.current.roles, channels, w.infos);
    RightParts(w, c);
    VisibleIsRooms(w.tables.current.roles, w.infos[c], channels);
    VisibleIsRooms(w.tables.current.roles, w.infos[c], w.channels);
    ListExact(w.views[c].channels, NotedBy(w, handler)[c], Visible(w.tables.current.roles, w.infos[c], channels).Keys,
              {channel}, w.channels, channels);
  }

  lemma {:induction false} OverwriteSound(w: World, handler: nat, channel: ChannelId, changed: Channel)
    requires Sound(w) && channel in w.channels && changed.id == channel && UniqueTargets(changed.overwrites)
    ensures Sound(Overwritten(w, handler, channel, changed))
  {
    hide Visible, Interleaving.WorldOk, OneStandingEach, Listed;
  }

  lemma {:induction false} NextSound(w: World, owner: Option<Fingerprint>, step: Step)
    requires Sound(w) && AllAgree(w)
    ensures Sound(Next(w, owner, step)) && Next(w, owner, step).infos.Keys == w.infos.Keys
  {
    hide Swapped, Overwritten, AllAgree, OneStandingEach, Decide, DropTarget;
    match step
    case Note(_) =>
    case Command(s) =>
      Interleaving.NextKeepsOk(w.tables, owner, s);
      if Swaps(w.tables, owner, s) {
        SwapSound(w, owner, s);
        SwappedKeys(w, owner, s);
      }
    case SetOverwrite(h, channel, o) =>
      if channel in w.channels {
        WithOverwriteLookup(w.channels[channel].overwrites, o, o.target);
        OverwriteSound(w, h, channel, WithOverwriteOn(w.channels[channel], o));
        OverwrittenKeys(w, h, channel, WithOverwriteOn(w.channels[channel], o));
      }
    case ClearOverwrite(h, channel, target) =>
      if channel in w.channels {
        DropTargetLookup(w.channels[channel].overwrites, target, target);
        OverwriteSound(w, h, channel, WithoutTarget(w.channels[channel], target));
        OverwrittenKeys(w, h, channel, WithoutTarget(w.channels[channel], target));
      }
  }

  lemma SwappedKeys(w: World, owner: Option<Fingerprint>, s: Interleaving.Step)
    requires Swaps(w.tables, owner, s)
    ensures Swapped(w, owner, s).infos.Keys == w.infos.Keys
  {
    hide Decide, Informed, RemoveGrant;
  }

  lemma OverwrittenKeys(w: World, handler: nat, channel: ChannelId, changed: Channel)
    ensures Overwritten(w, handler, channel, changed).infos == w.infos
  {
  }

  /**
  A client whose world agreed agrees after one more step exactly when that step missed nothing that matters to it.
  */
  lemma {:induction false} StepExact(w: World, owner: Option<Fingerprint>, step: Step, c: ClientId)
    requires Sound(w) && AllAgree(w) && c in w.infos
    ensures c in Next(w, owner, step).infos
    ensures Agrees(Next(w, owner, step), c) <==> Unmissed(w, owner, step, c)
  {
    hide Swapped, Overwritten, Right, Visible, Decide, ListUnmissed, Harmless, GrantsUnmissed, DropTarget, Sound;
    assert Agrees(w, c);
    match step
    case Note(_) =>
    case Command(s) =>
      if Swaps(w.tables, owner, s) {
        SwapExact(w, owner, s, c);
      } else {
        UnswappedIs(w.tables, owner, s);
      }
    case SetOverwrite(h, channel, o) =>
      if channel in w.channels {
        OverwriteExact(w, h, channel, WithOverwriteOn(w.channels[channel], o), c);
      }
    case ClearOverwrite(h, channel, target) =>
      if channel in w.channels {
        OverwriteExact(w, h, channel, WithoutTarget(w.channels[channel], target), c);
      }
  }

  lemma UnswappedIs(w: Interleaving.World, owner: Option<Fingerprint>, step: Interleaving.Step)
    requires !Swaps(w, owner, step)
    ensures Interleaving.Next(w, owner, step).current == w.current
  {
    hide Decide;
  }

  // ---- Whole runs ------------------------------------------------------------------------------------

  /** Everybody is right now and after every step to come. */
  ghost predicate AlwaysAgree(w: World, owner: Option<Fingerprint>, steps: seq<Step>)
    decreases |steps|
  {
    AllAgree(w) && (steps != [] ==> AlwaysAgree(Next(w, owner, steps[0]), owner, steps[1..]))
  }

  ghost predicate UnmissedByAll(w: World, owner: Option<Fingerprint>, step: Step) {
    Sound(w) && forall c :: c in w.infos ==> Unmissed(w, owner, step, c)
  }

  /** No step of the run was taken on something missed that matters to anybody connected. */
  ghost predicate NeverMissing(w: World, owner: Option<Fingerprint>, steps: seq<Step>)
    decreases |steps|
  {
    steps != [] ==> UnmissedByAll(w, owner, steps[0]) && NeverMissing(Next(w, owner, steps[0]), owner, steps[1..])
  }

  /**
  However handlers overlap, every client's table, grants, list and users are right at every step, and every session is
  recorded with its member's published grants, exactly as long as no step misses anything that matters.
  */
  lemma {:induction false} RightIffNeverMissing(w: World, owner: Option<Fingerprint>, steps: seq<Step>)
    requires Sound(w) && AllAgree(w)
    ensures AlwaysAgree(w, owner, steps) <==> NeverMissing(w, owner, steps)
    decreases |steps|
  {
    hide Sound, AllAgree, UnmissedByAll, Next;
    if steps != [] {
      var next := Next(w, owner, steps[0]);
      NextSound(w, owner, steps[0]);
      AllExact(w, owner, steps[0]);
      if AllAgree(next) {
        RightIffNeverMissing(next, owner, steps[1..]);
      } else {
        assert !AlwaysAgree(next, owner, steps[1..]);
      }
    }
  }

  lemma {:induction false} AllExact(w: World, owner: Option<Fingerprint>, step: Step)
    requires Sound(w) && AllAgree(w)
    ensures AllAgree(Next(w, owner, step)) <==> UnmissedByAll(w, owner, step)
  {
    hide Sound, Agrees, Unmissed, Next;
    NextSound(w, owner, step);
    forall c | c in w.infos ensures c in Next(w, owner, step).infos
      ensures Agrees(Next(w, owner, step), c) <==> Unmissed(w, owner, step, c)
    {
      StepExact(w, owner, step, c);
    }
  }

  // ---- Fresh and stale ---------------------------------------------------------------------------------

  /** A handler that saw everything as it is now misses nothing. */
  lemma {:induction false} FreshMissesNothing(w: World, owner: Option<Fingerprint>, step: Step, c: ClientId)
    requires Sound(w) && AllAgree(w) && c in w.infos
    requires step.Command? && step.step.Swap? && step.step.handler in w.tables.held ==>
               w.tables.held[step.step.handler] == w.tables.current
    requires forall h :: NotedBy(w, h) == VisibleTo(w.tables.current.roles, w.infos, w.channels)
    ensures Unmissed(w, owner, step, c)
  {
    hide Decide, Visible, Harmless, NowVisible, OneStandingEach, ChannelsOk, KnowsUsers, RemoveGrant, TableOk, GrantsOk;
    assert Agrees(w, c);
    if step.Command? && Swaps(w.tables, owner, step.step) {
      Staleness.NothingMissed(w.tables.current, step.step.cmd);
    }
  }

  /** One session of one member on a server with two roles and no channels, its handlers 0 and 1 both having read. */
  function Overlapping(name: string, member: Fingerprint): World {
    var ps := PermState([Role(0, name, None, 0, {}), Role(1, name, None, 1, {})], map[]);
    var info := UserInfo(5, member, name, None, VoiceState(false, false, false, false), [], false);
    World(Interleaving.World(ps, map[0 := ps, 1 := ps], []), map[], map[5 := info], map[],
          map[5 := View(member, false, ps.roles, [], map[], map[5 := StandingOf(info)])])
  }

  lemma {:induction false} OverlappingAgrees(name: string, member: Fingerprint)
    ensures Sound(Overlapping(name, member)) && AllAgree(Overlapping(name, member))
  {
    var w := Overlapping(name, member);
    assert Visible(w.tables.current.roles, w.infos[5], map[]) == map[];
  }

  /**
  The owner grants a role and recolours it, both on the same snapshot. Both go through; the grant is lost, while the
  member's client and session go on showing it.
  */
  lemma {:induction false} AGrantIsLost(name: string, member: Fingerprint)
    ensures var owner := Actor([], true, ALL);
            var grant := Command(Interleaving.Swap(0, owner, SetMemberRoles(member, [1])));
            var recolour := Command(Interleaving.Swap(1, owner, UpdateRole(1, None, Some(Some(7)), None)));
            var w := Overlapping(name, member);
            var granted := Next(w, None, grant);
            var end := Next(granted, None, recolour);
            && AllAgree(granted) && Grants(granted.tables.current, member) == [1]
            && Grants(end.tables.current, member) == []
            && 5 in end.views && 5 in end.infos && end.views[5].myRoles == end.infos[5].roles == [1]
  {
    hide Sound, AllAgree, Swapped, Decide, Overlapping, Regranted, Right, ALL;
    var owner := Actor([], true, ALL);
    var grant := Interleaving.Swap(0, owner, SetMemberRoles(member, [1]));
    var recolour := Interleaving.Swap(1, owner, UpdateRole(1, None, Some(Some(7)), None));
    var w := Overlapping(name, member);
    OverlappingAgrees(name, member);
    OverlappingIs(name, member);
    BothAccepted(name, member);
    FreshSwap(w, None, grant);
    SwappedIs(w, None, grant, 5);
    var granted := Swapped(w, None, grant);
    RegrantedOne(w.infos, member, [1]);
    SwappedIs(granted, None, recolour, 5);
  }

  lemma OverlappingIs(name: string, member: Fingerprint)
    ensures var w := Overlapping(name, member);
            && 5 in w.infos && w.infos[5].fingerprint == member
            && w.tables.held.Keys == {0, 1} && w.tables.held[0] == w.tables.held[1] == w.tables.current
            && w.noted == map[]
  {
  }

  lemma RegrantedOne(infos: Infos, member: Fingerprint, ids: seq<RoleId>)
    ensures forall c :: c in infos && infos[c].fingerprint == member ==> Regranted(infos, member, ids)[c].roles == ids
  {
  }

  /** A swap on a fresh snapshot, noted as things are, leaves everybody right. */
  lemma {:induction false} FreshSwap(w: World, owner: Option<Fingerprint>, s: Interleaving.Step)
    requires Sound(w) && AllAgree(w) && Swaps(w.tables, owner, s) && w.noted == map[]
    requires w.tables.held[s.handler] == w.tables.current
    ensures Sound(Swapped(w, owner, s)) && AllAgree(Swapped(w, owner, s))
  {
    hide Unmissed, Swapped, Agrees, Sound, Decide;
    SwapSound(w, owner, s);
    SwappedKeys(w, owner, s);
    forall c | c in w.infos ensures Agrees(Swapped(w, owner, s), c) {
      FreshMissesNothing(w, owner, Command(s), c);
      SwapExact(w, owner, s, c);
    }
  }

  /** What a swap of a grant or an update leaves behind, whatever was missed. */
  lemma {:induction false} SwappedIs(w: World, owner: Option<Fingerprint>, s: Interleaving.Step, c: ClientId)
    requires Sound(w) && AllAgree(w) && c in w.infos && Swaps(w.tables, owner, s)
    ensures var end, next := Swapped(w, owner, s), Decide(w.tables.held[s.handler], s.actor, owner, s.cmd).value;
            && end.tables.current == next && end.tables.held == w.tables.held && end.infos == Regranting(w.infos, s.cmd)
            && end.infos.Keys == w.infos.Keys && c in end.views && end.views[c].myRoles == end.infos[c].roles
  {
    hide Decide, Right, Visible, OneStandingEach, Heard, Fold, TableFrames, Listed, Mirrored, KnowsUsers;
    assert Agrees(w, c);
    SwapView(w, owner, s, c);
    SwapHeard(w, owner, s, c);
  }

  lemma {:induction false} BothAccepted(name: string, member: Fingerprint)
    ensures var owner := Actor([], true, ALL);
            var ps := Overlapping(name, member).tables.current;
            && Decide(ps, owner, None, SetMemberRoles(member, [1])) == Accepted(ps.(members := map[member := [1]]))
            && Decide(ps, owner, None, UpdateRole(1, None, Some(Some(7)), None)).Accepted?
            && Decide(ps, owner, None, UpdateRole(1, None, Some(Some(7)), None)).value.members == map[]
  {
    var ps := Overlapping(name, member).tables.current;
    TableIndex(ps.roles, 1);
  }

  const HIDDEN := Overwrite(ForRole(EVERYONE), {}, VIEW_CHANNEL)

  function Hideaway(open: bool): Channel { Bare(7, None).(overwrites := if open then [] else [HIDDEN]) }

  /** One session on a server with a channel that @everyone may see, except that it is hidden. */
  function HiddenRoom(name: string, member: Fingerprint): World {
    var ps := PermState([Role(0, name, None, 0, VIEW_CHANNEL)], map[]);
    var info := UserInfo(5, member, name, None, VoiceState(false, false, false, false), [], false);
    World(Interleaving.World(ps, map[], []), map[], map[5 := info], map[7 := Hideaway(false)],
          map[5 := View(member, false, ps.roles, [], map[], map[5 := StandingOf(info)])])
  }

  lemma {:induction false} RoomVisible(name: string, info: UserInfo, open: bool)
    requires !info.owner && info.roles == []
    ensures Visible([Role(0, name, None, 0, VIEW_CHANNEL)], info, map[7 := Hideaway(open)]).Keys ==
            if open then {7} else {}
  {
    var roles := [Role(0, name, None, 0, VIEW_CHANNEL)];
    assert HeldBits(roles, []) == {};
    assert Base(roles, []) == VIEW_CHANNEL;
    assert OverwriteFor([HIDDEN], ForMember(info.fingerprint)) == None;
    assert OverwriteFor([HIDDEN], ForRole(EVERYONE)) == Some(HIDDEN);
    assert VIEW in CHANNEL_SCOPED;
    assert BitsIn(roles, info, Hideaway(open)) == if open then VIEW_CHANNEL else {};
  }

  /** That session with the channel hidden or open, listed when it is open. */
  function Room(name: string, member: Fingerprint, open: bool, noted: map<nat, Lists>): World {
    var w := HiddenRoom(name, member);
    w.(noted := noted, channels := map[7 := Hideaway(open)],
       views := map[5 := w.views[5].(channels := if open then map[7 := Hideaway(true)] else map[])])
  }

  lemma {:induction false} RoomAgrees(name: string, member: Fingerprint, open: bool, noted: map<nat, Lists>)
    requires forall h :: h in noted ==> noted[h].Keys == {5}
    ensures Sound(Room(name, member, open, noted)) && AllAgree(Room(name, member, open, noted))
  {
    hide Visible;
    var w := Room(name, member, open, noted);
    RoomVisible(name, w.infos[5], open);
    VisibleIsRooms(w.tables.current.roles, w.infos[5], w.channels);
    assert Visible(w.tables.current.roles, w.infos[5], w.channels) == w.views[5].channels;
  }

  const UNSEEN: map<nat, Lists> := map[1 := map[5 := {}]]

  /** An overwrite command with one client connected. */
  lemma {:induction false} OverwrittenOne(w: World, handler: nat, channel: ChannelId, changed: Channel, c: ClientId,
                                          v: View)
    requires w.infos.Keys == {c} && w.views == map[c := v] && channel in w.channels && c in NotedBy(w, handler)
    ensures var channels := w.channels[channel := changed];
            var now := Visible(w.tables.current.roles, w.infos[c], channels).Keys;
            var list := Listed(v.channels, NotedBy(w, handler)[c], now, {channel}, channels);
            Overwritten(w, handler, channel, changed) ==
            w.(channels := channels, views := map[c := v.(channels := list)])
  {
    hide Visible, Listed, NotedBy;
    assert Overwritten(w, handler, channel, changed).views.Keys == {c};
  }

  lemma {:induction false} RevealRoom(name: string, member: Fingerprint)
    ensures Next(Room(name, member, false, UNSEEN), None, ClearOverwrite(0, 7, ForRole(EVERYONE))) ==
            Room(name, member, true, UNSEEN)
  {
    hide Visible, Overwritten, Listed;
    var w := Room(name, member, false, UNSEEN);
    RoomVisible(name, w.infos[5], false);
    RoomVisible(name, w.infos[5], true);
    assert WithoutTarget(Hideaway(false), ForRole(EVERYONE)) == Hideaway(true);
    assert w.channels[7 := Hideaway(true)] == map[7 := Hideaway(true)];
    assert NotedBy(w, 0) == map[5 := {}];
    OverwrittenOne(w, 0, 7, Hideaway(true), 5, w.views[5]);
    ListedNew(w.views[5].channels, {}, {7}, map[7 := Hideaway(true)]);
  }

  lemma {:induction false} ListedNew(list: ChannelMap, was: set<ChannelId>, now: set<ChannelId>, channels: ChannelMap)
    requires list == map[] && was == {} && now == channels.Keys
    ensures Listed(list, was, now, now, channels) == channels
  {
    assert Listed(list, was, now, now, channels).Keys == now;
  }

  lemma {:induction false} ListedUnseen(list: ChannelMap, was: set<ChannelId>, now: set<ChannelId>,
                                        touched: set<ChannelId>, channels: ChannelMap)
    requires was == now == {}
    ensures Listed(list, was, now, touched, channels) == list
  {
    assert Listed(list, was, now, touched, channels).Keys == list.Keys;
  }

  lemma {:induction false} HideRoom(name: string, member: Fingerprint)
    ensures Next(Room(name, member, true, UNSEEN), None, SetOverwrite(1, 7, HIDDEN)) ==
            Room(name, member, true, UNSEEN).(channels := map[7 := Hideaway(false)])
  {
    hide Visible, Overwritten, Listed;
    var w := Room(name, member, true, UNSEEN);
    RoomVisible(name, w.infos[5], false);
    assert WithOverwriteOn(Hideaway(true), HIDDEN) == Hideaway(false);
    assert w.channels[7 := Hideaway(false)] == map[7 := Hideaway(false)];
    assert NotedBy(w, 1) == map[5 := {}];
    OverwrittenOne(w, 1, 7, Hideaway(false), 5, w.views[5]);
    ListedUnseen(w.views[5].channels, {}, {}, {7}, map[7 := Hideaway(false)]);
  }

  /**
  One handler notes who sees the room, a second reveals it, then the first hides it again. What it noted has the room
  hidden before and after, so nobody is told: the client goes on listing a channel it may not see.
  */
  lemma {:induction false} AHiddenRoomStaysListed(name: string, member: Fingerprint)
    ensures var w := HiddenRoom(name, member);
            var noted := Next(w, None, Note(1));
            var revealed := Next(noted, None, ClearOverwrite(0, 7, ForRole(EVERYONE)));
            var end := Next(revealed, None, SetOverwrite(1, 7, HIDDEN));
            && Sound(w) && AllAgree(w) && AllAgree(noted) && AllAgree(revealed)
            && 5 in end.views && 7 in end.views[5].channels
            && 5 in end.infos && 7 !in Visible(end.tables.current.roles, end.infos[5], end.channels)
  {
    hide Visible, Sound, AllAgree;
    var w := HiddenRoom(name, member);
    RoomAgrees(name, member, false, map[]);
    RoomAgrees(name, member, false, UNSEEN);
    RoomAgrees(name, member, true, UNSEEN);
    RoomVisible(name, w.infos[5], false);
    assert Room(name, member, false, map[]) == w;
    assert VisibleTo(w.tables.current.roles, w.infos, w.channels) == map[5 := {}];
    assert Next(w, None, Note(1)) == Room(name, member, false, UNSEEN);
    RevealRoom(name, member);
    HideRoom(name, member);
  }

}
