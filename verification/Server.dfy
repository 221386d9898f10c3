/**
The server object and its commands, one method per handler, each ending in a state where every connected client's view
is right (crates/pickle-server/src/state.rs, admin.rs, moderation.rs, session.rs).

A command is one atomic step. Maps iterated by the source in no particular order are iterated here by arbitrary choice,
so every order is covered. Whether the database accepts a write is a parameter of the command that makes it; a server
without a database refuses every such command.
*/
module Server {
  import opened Common
  import opened Perms
  import opened RoleTable
  import opened Channels
  import opened Mirror
  import opened Visibility
  import opened ServerState
  import opened Store
  import opened Plans
  import opened Events
  import Hierarchy

  class Shared {
    const owner: Option<Fingerprint>
    const maxUsers: nat
    var perms: PermState
    var channels: ChannelMap
    var clients: Clients
    var nextClientId: ClientId
    var tables: Tables

    ghost predicate Valid()
      reads this`perms, this`channels, this`clients
    {
      ValidState(perms, channels, clients, owner, maxUsers)
    }

    lemma Open()
      requires Valid()
      ensures ValidState(perms, channels, clients, owner, maxUsers)
    {
    }

    lemma Close()
      requires ValidState(perms, channels, clients, owner, maxUsers)
      ensures Valid()
    {
    }

    constructor (owner: Option<Fingerprint>, maxUsers: nat, perms: PermState, channels: ChannelMap, tables: Tables)
      requires PermsOk(perms) && ChannelsOk(channels)
      ensures Valid() && clients == map[]
      ensures this.perms == perms && this.channels == channels && this.tables == tables
    {
      this.owner, this.maxUsers := owner, maxUsers;
      this.perms, this.channels, this.tables := perms, channels, tables;
      this.clients, this.nextClientId := map[], 1;
    }

    // ---- Fan-out ------------------------------------------------------------------------

    /** Disconnect the clients whose queues filled; everyone else is told if they have room for it. */
    method DropOverflowed(ids: set<ClientId>, ghost views: Views)
      requires TracksBut(clients, views, ids)
      modifies this`clients
      ensures clients.Keys == old(clients).Keys - ids && Survivors(old(clients), clients)
      ensures Tracks(clients, views) && OnlyFarewells(old(clients), clients)
    {
      hide *;
      var todo := ids;
      DroppingStarts(clients, ids, views);
      while todo != {}
        invariant todo <= ids && Dropping(old(clients), clients, ids, todo, views)
        decreases todo
      {
        var id :| id in todo;
        if id in clients {
          DroppingStep(old(clients), clients, ids, todo, views, id);
          clients := Dropped(clients, id);
        } else {
          DroppingSkip(old(clients), clients, ids, todo, views, id);
        }
        todo := todo - {id};
      }
      DroppingEnds(old(clients), clients, ids, views);
    }

    /** One client is told, or dropped if its queue is full; nobody else goes. */
    method Send(to: ClientId, f: Frame, ghost views: Views)
      requires Tracks(clients, views)
      modifies this`clients
      ensures Survivors(old(clients), clients) && Tracks(clients, ToldOne(views, to, f))
      ensures clients.Keys ==
              if to in old(clients) && |old(clients)[to].queue| >= QUEUE_DEPTH then old(clients).Keys - {to}
              else old(clients).Keys
      ensures PatientAmong(old(clients), clients, {to}, 1)
      ensures HeardLast(clients, to, f)
    {
      hide *;
      if to !in clients {
        ToNobody(clients, views, to, f);
        AmongNobody(clients, {to}, 1);
        NobodyToHear(clients, to, f);
      } else if |clients[to].queue| < QUEUE_DEPTH {
        SentTracks(clients, views, to, f);
        SentIsHeard(clients, to, f);
        clients := clients[to := Offer(clients[to], f)];
      } else {
        FullTracks(clients, views, to, f);
        DropOverflowed({to}, ToldOne(views, to, f));
        DroppedOne(old(clients), clients, to);
        NobodyToHear(clients, to, f);
      }
    }

    /** Everyone but the exception is told, or dropped if their queue is full; nobody else goes. */
    method Broadcast(f: Frame, except: Option<ClientId>, ghost views: Views)
      requires Tracks(clients, views)
      modifies this`clients
      ensures Survivors(old(clients), clients) && Tracks(clients, Told(views, f, except))
      ensures clients.Keys == old(clients).Keys - Overflowed(old(clients), except)
      ensures Patience(old(clients), clients, {}, 1)
      ensures AllHeard(old(clients), clients, f, except)
    {
      hide *;
      OfferedTracks(clients, views, f, except);
      var overflowed := Overflowed(clients, except);
      clients := Offered(clients, f, except);
      ghost var start := clients;
      DropOverflowed(overflowed, Told(views, f, except));
      SurvivorsChain(old(clients), start, clients);
      BroadcastBears(old(clients), f, except, clients);
      BroadcastIsHeard(old(clients), f, except, clients);
    }

    /** A frame the mirror ignores, to one client. */
    method SendInert(to: ClientId, f: Frame)
      requires Valid() && Inert(f)
      modifies this`clients
      ensures Valid() && Survivors(old(clients), clients) && Patience(old(clients), clients, {}, 1)
      ensures HeardLast(clients, to, f)
    {
      hide PatientAmong, Patience, HeardLast;
      TracksSelf(clients);
      InertTold(ViewsOf(clients), f, None, to);
      ghost var views, infos := ViewsOf(clients), InfosOf(clients);
      Send(to, f, views);
      AmongAll(old(clients), clients, {to}, 1);
      Settled(clients, views, infos, perms, owner, channels, maxUsers);
    }

    method BroadcastInert(f: Frame)
      requires Valid() && Inert(f)
      modifies this`clients
      ensures Valid() && Survivors(old(clients), clients) && Patience(old(clients), clients, {}, 1)
      ensures AllHeard(old(clients), clients, f, None)
    {
      hide Patience, AllHeard;
      TracksSelf(clients);
      InertTold(ViewsOf(clients), f, None, 0);
      ghost var views, infos := ViewsOf(clients), InfosOf(clients);
      Broadcast(f, None, views);
      Settled(clients, views, infos, perms, owner, channels, maxUsers);
    }

    // ---- Resync -----------------------------------------------------------------------------

    /** Tell one client what its list gained, lost and kept-but-changed. */
    method SyncOne(c: ClientId, was: set<ChannelId>, now: set<ChannelId>, touched: set<ChannelId>, ghost views: Views,
                   ghost list: ChannelMap)
      requires Tracks(clients, WithList(views, c, list)) && ChannelsOk(channels)
      requires Stale(list, was, touched, channels) && now <= channels.Keys
      modifies this`clients
      ensures Survivors(old(clients), clients) && Tracks(clients, WithList(views, c, Rooms(channels, now)))
      ensures PatientAmong(old(clients), clients, {c}, SyncFrames(was, now, touched))
    {
      hide *;
      SyncFramesAre(was, now, touched);
      ListCurrent(list, was, now, touched, channels);
      var gained, lost, changed := Gained(was, now), Gained(now, was), Changed(was, now, touched);
      SendMoves(c, gained, lost, views, list);
      ghost var mid := clients;
      SendRooms(c, changed, false, views, Shrunk(Grown(list, channels, gained), lost));
      AmongChain(old(clients), mid, clients, {c}, Count(gained) + Count(lost), Count(changed));
    }

    /** Rooms that entered the list, then those that left it. */
    method SendMoves(c: ClientId, gained: set<ChannelId>, lost: set<ChannelId>, ghost views: Views,
                     ghost list: ChannelMap)
      requires Tracks(clients, WithList(views, c, list)) && ChannelsOk(channels) && gained <= channels.Keys
      modifies this`clients
      ensures Survivors(old(clients), clients)
      ensures Tracks(clients, WithList(views, c, Shrunk(Grown(list, channels, gained), lost)))
      ensures PatientAmong(old(clients), clients, {c}, Count(gained) + Count(lost))
    {
      hide *;
      SendRooms(c, gained, true, views, list);
      ghost var mid := clients;
      SendLost(c, lost, views, Grown(list, channels, gained));
      AmongChain(old(clients), mid, clients, {c}, Count(gained), Count(lost));
    }

    method SendRoom(c: ClientId, channel: Channel, gained: bool, ghost views: Views, ghost list: ChannelMap)
      requires Tracks(clients, WithList(views, c, list))
      modifies this`clients
      ensures Survivors(old(clients), clients) && Tracks(clients, WithList(views, c, list[channel.id := channel]))
      ensures PatientAmong(old(clients), clients, {c}, 1)
    {
      hide *;
      ListGains(views, c, list, channel);
      if gained {
        Send(c, ChannelCreated(channel), WithList(views, c, list));
      } else {
        Send(c, ChannelUpdated(channel), WithList(views, c, list));
      }
    }

    /** One ChannelCreated, or one ChannelUpdated, per room. */
    method SendRooms(c: ClientId, ids: set<ChannelId>, gained: bool, ghost views: Views, ghost list: ChannelMap)
      requires Tracks(clients, WithList(views, c, list)) && ChannelsOk(channels) && ids <= channels.Keys
      modifies this`clients
      ensures Survivors(old(clients), clients) && Tracks(clients, WithList(views, c, Grown(list, channels, ids)))
      ensures PatientAmong(old(clients), clients, {c}, Count(ids))
    {
      hide *;
      var todo := ids;
      ghost var sent := 0;
      AmongNobody(clients, {c}, 0);
      Quiet(clients, 0);
      NothingMoved(list, channels);
      assert ids - todo == {};
      while todo != {}
        invariant todo <= ids && sent + Count(todo) == Count(ids)
        invariant Survivors(old(clients), clients) && PatientAmong(old(clients), clients, {c}, sent)
        invariant Tracks(clients, WithList(views, c, Grown(list, channels, ids - todo)))
        decreases todo
      {
        var id :| id in todo;
        GrownByOne(list, channels, ids, todo, id);
        ghost var mid := clients;
        SendRoom(c, channels[id], gained, views, Grown(list, channels, ids - todo));
        AmongChain(old(clients), mid, clients, {c}, sent, 1);
        OneFewer(todo, id);
        sent, todo := sent + 1, todo - {id};
      }
      NoneToCount(todo);
      assert ids - todo == ids;
    }

    method SendOneLost(c: ClientId, lost: set<ChannelId>, todo: set<ChannelId>, id: ChannelId, ghost views: Views,
                       ghost list: ChannelMap)
      requires Tracks(clients, WithList(views, c, Shrunk(list, lost - todo))) && todo <= lost && id in todo
      modifies this`clients
      ensures Survivors(old(clients), clients)
      ensures Tracks(clients, WithList(views, c, Shrunk(list, lost - (todo - {id}))))
      ensures PatientAmong(old(clients), clients, {c}, 1)
    {
      hide *;
      ListLoses(views, c, list, lost, todo, id);
      Send(c, ChannelRemoved(id), WithList(views, c, Shrunk(list, lost - todo)));
    }

    method SendLost(c: ClientId, lost: set<ChannelId>, ghost views: Views, ghost list: ChannelMap)
      requires Tracks(clients, WithList(views, c, list))
      modifies this`clients
      ensures Survivors(old(clients), clients) && Tracks(clients, WithList(views, c, Shrunk(list, lost)))
      ensures PatientAmong(old(clients), clients, {c}, Count(lost))
    {
      hide *;
      var todo := lost;
      ghost var sent := 0;
      AmongNobody(clients, {c}, 0);
      Quiet(clients, 0);
      NothingMoved(list, channels);
      assert lost - todo == {};
      while todo != {}
        invariant todo <= lost && sent + Count(todo) == Count(lost)
        invariant Survivors(old(clients), clients) && PatientAmong(old(clients), clients, {c}, sent)
        invariant Tracks(clients, WithList(views, c, Shrunk(list, lost - todo)))
        decreases todo
      {
        var id :| id in todo;
        ghost var mid := clients;
        SendOneLost(c, lost, todo, id, views, list);
        AmongChain(old(clients), mid, clients, {c}, sent, 1);
        OneFewer(todo, id);
        sent, todo := sent + 1, todo - {id};
      }
      NoneToCount(todo);
      assert lost - todo == lost;
    }

    /** After a mutation: each client's list becomes precisely the channels it may view, at one frame a room at most. */
    method Resync(before: Lists, touched: set<ChannelId>, ghost views: Views,
                  ghost rooms: set<ChannelId>)
      requires Tracks(clients, views) && ChannelsOk(channels) && AllStale(clients, views, before, touched, channels)
      requires AllWithin(before, rooms) && channels.Keys <= rooms
      modifies this`clients
      ensures Survivors(old(clients), clients)
      ensures Tracks(clients, Resynced(views, InfosOf(old(clients)), perms.roles, channels))
      ensures PatientBy(old(clients), clients,
                        Dues(before, VisibleIds(perms.roles, old(clients), channels), touched))
      ensures Patience(old(clients), clients, {}, Count(rooms))
    {
      hide *;
      var after := VisibleIds(perms.roles, clients, channels);
      var todo := before.Keys;
      ghost var current := views;
      ghost var dues := Dues(before, after, touched);
      ghost var done: map<ClientId, nat> := map[];
      ByNobody(clients);
      DuesAre(before, after, touched);
      Quiet(clients, 0);
      HalfSyncedStarts(clients, views, before, touched, perms.roles, channels);
      while todo != {}
        invariant todo <= before.Keys && Survivors(old(clients), clients) && Tracks(clients, current)
        invariant HalfSynced(clients, views, current, todo, after, channels)
        invariant done.Keys !! todo && PatientBy(old(clients), clients, done)
        invariant forall c :: c in done ==> c in dues && done[c] == dues[c]
        decreases todo
      {
        var c :| c in todo;
        if c in after && c in clients {
          ghost var start := clients;
          HalfSyncedAt(old(clients), clients, views, current, todo, before, touched, perms.roles, channels, c);
          SyncOne(c, before[c], after[c], touched, current, views[c].channels);
          ByMore(old(clients), start, clients, done, c, dues[c]);
          HalfSyncedStep(start, clients, views, current, todo, after, channels, c);
          done, current := done[c := dues[c]], WithList(current, c, Rooms(channels, after[c]));
        } else {
          HalfSyncedSkip(clients, views, current, todo, after, channels, c);
        }
        todo := todo - {c};
      }
      HalfSyncedEnds(old(clients), clients, views, current, perms.roles, channels);
      ByLess(old(clients), clients, done, dues);
      DuesWithin(before, perms.roles, old(clients), channels, touched, rooms);
      ByAll(old(clients), clients, dues, Count(rooms));
    }

    // ---- Announcing users ----------------------------------------------------------------------

    /** Broadcast refreshed infos; an eviction also says who moved where. */
    method Announce(told: Infos, evictedFrom: Option<ChannelId>, ghost views: Views) returns (ghost after: Views)
      requires Tracks(clients, views) && OneStandingEach(told)
      modifies this`clients
      ensures Survivors(old(clients), clients) && Tracks(clients, after) && AllAnnounced(views, after, told)
      ensures Patience(old(clients), clients, {}, Notices(Count(told.Keys), evictedFrom.Some?))
    {
      hide *;
      Quiet(clients, 0);
      NothingAnnounced(views);
      after := views;
      var todo := told.Keys;
      ghost var done: Infos := map[];
      ghost var count := 0;
      NoticesMore(0, evictedFrom.Some?);
      while todo != {}
        invariant todo <= told.Keys && Survivors(old(clients), clients) && Tracks(clients, after)
        invariant done.Keys == told.Keys - todo && forall x :: x in done ==> done[x] == told[x]
        invariant AllAnnounced(views, after, done)
        invariant count + Count(todo) == Count(told.Keys)
        invariant Patience(old(clients), clients, {}, Notices(count, evictedFrom.Some?))
        decreases todo
      {
        var u :| u in todo;
        ghost var mid, sent := clients, Notices(count, evictedFrom.Some?);
        NoticesMore(count, evictedFrom.Some?);
        if evictedFrom.Some? {
          MoveIsInert(after, u, evictedFrom, None);
          Broadcast(UserMoved(u, evictedFrom, None), None, after);
          Onward(old(clients), mid, clients, sent, 1);
          sent, mid := sent + 1, clients;
        }
        Broadcast(UserUpdated(told[u]), None, after);
        Onward(old(clients), mid, clients, sent, 1);
        AnnouncedOneMore(views, after, told, done, u);
        OneFewer(todo, u);
        count, after, done, todo := count + 1, Told(after, UserUpdated(told[u]), None), done[u := told[u]], todo - {u};
      }
      NoneToCount(todo);
      assert done == told;
    }

    /** Whoever is left once the frames are out is in a valid state. */
    ghost method Conclude(start: Clients, views: Views)
      requires Survivors(start, clients) && Tracks(clients, views)
      requires Ready(InfosOf(start), views, perms, channels, owner, maxUsers)
      ensures Valid()
    {
      SettledSurvivors(start, clients, views, perms, owner, channels, maxUsers);
    }

    /** Resync, after which whoever is left is in a valid state. */
    method Settle(before: Lists, touched: set<ChannelId>, ghost views: Views,
                  ghost start: Clients, ghost rooms: set<ChannelId>)
      requires Survivors(start, clients) && Tracks(clients, views) && ChannelsOk(channels)
      requires AllStale(start, views, before, touched, channels) && AllWithin(before, rooms) && channels.Keys <= rooms
      requires Ready(InfosOf(start), Resynced(views, InfosOf(start), perms.roles, channels), perms, channels, owner,
                     maxUsers)
      modifies this`clients
      ensures Valid() && Survivors(start, clients) && Patience(old(clients), clients, {}, Count(rooms))
      ensures PatientBy(old(clients), clients, Dues(before, VisibleIds(perms.roles, start, channels), touched))
    {
      hide *;
      AllStaleFewer(start, clients, views, before, touched, channels);
      ghost var mid := clients;
      Resync(before, touched, views, rooms);
      OwedFewer(start, mid, clients, before, perms.roles, channels, touched);
      SurvivorsChain(start, mid, clients);
      ResyncedSurvivors(start, mid, clients, views, perms.roles, channels);
      Conclude(start, Resynced(views, InfosOf(start), perms.roles, channels));
    }

    // ---- Role commands -----------------------------------------------------------------------------

    method Refuse(client: ClientId, nonce: nat, code: ErrorCode)
      requires Valid()
      modifies this`clients
      ensures Valid() && Survivors(old(clients), clients) && Patience(old(clients), clients, {}, 1)
      ensures HeardLast(clients, client, CommandFailed(nonce, code))
    {
      hide Patience, HeardLast;
      SendInert(client, CommandFailed(nonce, code));
    }

    method Acknowledge(client: ClientId, nonce: nat)
      requires Valid()
      modifies this`clients
      ensures Valid() && Survivors(old(clients), clients) && Patience(old(clients), clients, {}, 1)
      ensures HeardLast(clients, client, Ack(nonce))
    {
      hide Patience, HeardLast;
      SendInert(client, Ack(nonce));
    }

    /** The MANAGE_ROLES gate and the handler's own checks. On a pass nothing has been sent yet. */
    method GateRoles(client: ClientId, nonce: nat,
                     cmd: RoleCommand) returns (next: Option<PermState>, ghost actor: Actor)
      requires Valid()
      modifies this`clients
      ensures Valid() && Survivors(old(clients), clients)
      ensures next.Some? == Accepts(perms, owner, old(clients), client, cmd)
      ensures next.Some? ==> clients == old(clients) && next.value == Committed(perms, owner, clients, client, cmd)
      ensures next.Some? ==> Decide(perms, actor, owner, cmd) == Accepted(next.value)
      ensures next.None? ==> Committed(perms, owner, old(clients), client, cmd) == perms
      ensures next.None? ==> Patience(old(clients), clients, {}, 1)
      ensures next.Some? == RoleRefusal(perms, owner, old(clients), client, cmd).None?
      ensures next.None? ==>
                HeardLast(clients, client,
                          CommandFailed(nonce, RoleRefusal(perms, owner, old(clients), client, cmd).value))
    {
      hide *;
      Open();
      Quiet(clients, 0);
      Gated(perms, owner, channels, clients, maxUsers, client, cmd);
      RoleRefusalIs(perms, owner, channels, clients, maxUsers, client, cmd);
      actor := Actor([], false, {});
      if !MayGlobally(perms, clients, client, MANAGE_ROLES) {
        Refuse(client, nonce, NotPermitted);
        return None, actor;
      }
      var standing := ActorOf(perms, clients[client].info.fingerprint, owner);
      actor := standing;
      var verdict := Decide(perms, standing, owner, cmd);
      RefusalIs(verdict);
      if verdict.Refused? {
        Refuse(client, nonce, verdict.code);
        return None, actor;
      }
      return Some(verdict.value), actor;
    }

    method PublishCreate(role: Role, ghost name: string, ghost permissions: Permissions)
      requires Valid() && role == NewRole(perms, name, permissions)
      modifies this`perms, this`clients
      ensures Valid() && Survivors(old(clients), clients) && Patience(old(clients), clients, {}, 2)
      ensures perms == AfterCreate(old(perms), role)
    {
      hide *;
      Open();
      ghost var views := ViewsOf(clients);
      CreatePlan(perms, channels, clients, owner, maxUsers, name, permissions);
      var next := BuildCreate(perms, role);
      perms := next;
      Broadcast(RoleCreated(role), None, views);
      ghost var mid := clients;
      Broadcast(RolesReordered(Ordering(next.roles)), None, Told(views, RoleCreated(role), None));
      Onward(old(clients), mid, clients, 1, 1);
      Conclude(old(clients), Told(Told(views, RoleCreated(role), None), RolesReordered(Ordering(next.roles)), None));
    }

    method StoreCreate(client: ClientId, nonce: nat, role: Role, rows: RoleRows, ghost name: string,
                       ghost permissions: Permissions)
      requires Valid() && role == NewRole(perms, name, permissions)
      modifies this`perms, this`clients, this`tables
      ensures Valid() && Survivors(old(clients), clients) && Patience(old(clients), clients, {}, 3)
      ensures perms == AfterCreate(old(perms), role) && tables == old(tables).(roles := rows)
      ensures HeardLast(clients, client, Ack(nonce))
    {
      hide *;
      tables := tables.(roles := rows);
      PublishCreate(role, name, permissions);
      ghost var mid := clients;
      Acknowledge(client, nonce);
      Onward(old(clients), mid, clients, 2, 1);
    }

    method CarryOutCreate(client: ClientId, nonce: nat, name: string, permissions: Permissions, shiftStored: bool,
                          insertStored: bool)
      requires Valid()
      modifies this`perms, this`clients, this`tables
      ensures Valid() && Survivors(old(clients), clients) && Patience(old(clients), clients, {}, 3)
      ensures var role, done := NewRole(old(perms), name, permissions),
                                CreatePersists(old(tables), old(perms), name, permissions, shiftStored, insertStored);
              && perms == (if done then AfterCreate(old(perms), role) else old(perms))
              && HeardLast(clients, client, if done then Ack(nonce) else CommandFailed(nonce, Internal))
              && (done ==> tables == AfterInsert(old(tables), old(perms), role))
    {
      hide *;
      PersistsMeans(tables, perms, name, permissions, shiftStored, insertStored);
      InsertIs(tables, perms, name, permissions);
      var role := NewRole(perms, name, permissions);
      var inserted := None;
      if shiftStored {
        tables := tables.(roles := SetRolePositions(tables.roles, ShiftedPositions(perms.roles)));
        inserted := InsertRole(tables.roles, role);
      }
      if !insertStored || inserted.None? {
        Refuse(client, nonce, Internal);
        Declined(old(clients), clients, 3);
      } else {
        StoreCreate(client, nonce, role, inserted.value, name, permissions);
      }
    }

    /**
    Positions are shifted in one write and the role inserted in another; a failure in between leaves the tables
    shifted.
    */
    method CreateRole(client: ClientId, nonce: nat, name: string, permissions: Permissions, shiftStored: bool,
                      insertStored: bool)
      requires Valid()
      modifies this`perms, this`clients, this`tables
      ensures Valid() && Survivors(old(clients), clients) && Patience(old(clients), clients, {}, 3)
      ensures perms ==
              if CreatePersists(old(tables), old(perms), name, permissions, shiftStored, insertStored)
              then Committed(old(perms), owner, old(clients), client, RoleTable.CreateRole(name, permissions))
              else old(perms)
      ensures old(Synced(tables, perms, channels)) && shiftStored && insertStored ==>
                && Synced(tables, perms, channels)
                && CreatePersists(old(tables), old(perms), name, permissions, shiftStored, insertStored)
      ensures HeardLast(clients, client,
                        Response(nonce,
                                 RoleRefusal(old(perms), owner, old(clients), client,
                                             RoleTable.CreateRole(name, permissions)),
                                 CreatePersists(old(tables), old(perms), name, permissions, shiftStored, insertStored)))
    {
      hide *;
      ghost var done := CreatePersists(tables, perms, name, permissions, shiftStored, insertStored);
      ghost var refusal := RoleRefusal(perms, owner, clients, client, RoleTable.CreateRole(name, permissions));
      ResponseTo(nonce, refusal, done);
      Open();
      Unpack(perms, channels, clients, owner, maxUsers);
      if Synced(tables, perms, channels) && shiftStored && insertStored {
        CreateGoesThrough(tables, perms, channels, name, permissions);
      }
      var verdict, actor := GateRoles(client, nonce, RoleTable.CreateRole(name, permissions));
      if verdict.Some? {
        CreateAccepted(perms, actor, owner, name, permissions, verdict.value);
        CarryOutCreate(client, nonce, name, permissions, shiftStored, insertStored);
      } else {
        Declined(old(clients), clients, 3);
      }
    }

    method PublishUpdate(updated: Role, ghost k: nat)
      requires Valid() && k < |perms.roles| && updated.id == perms.roles[k].id && updated.position == k
      modifies this`perms, this`clients
      ensures Valid() && Survivors(old(clients), clients)
      ensures Patience(old(clients), clients, {}, 1 + Count(channels.Keys))
      ensures PatienceFor(old(clients), clients, 1, OwedUpdate(old(perms).roles, perms.roles, old(clients), channels))
      ensures perms == old(perms).(roles := ReplaceRole(old(perms).roles, updated))
    {
      hide *;
      Open();
      ghost var views := ViewsOf(clients);
      var before := VisibleIds(perms.roles, clients, channels);
      UpdatePlan(perms, channels, clients, owner, maxUsers, k, updated);
      perms := perms.(roles := ReplaceRole(perms.roles, updated));
      Broadcast(RoleUpdated(updated), None, views);
      VisibleWithin(old(perms).roles, old(clients), channels, channels.Keys);
      ghost var mid := clients;
      Settle(before, {}, Told(views, RoleUpdated(updated), None), old(clients), channels.Keys);
      PatienceChain(old(clients), mid, clients, {}, 1, Count(channels.Keys));
      OwedAre(old(perms).roles, perms.roles, perms, old(clients), channels, channels, {});
      ForAfter(old(clients), mid, clients, 1, OwedUpdate(old(perms).roles, perms.roles, old(clients), channels));
    }

    method StoreUpdate(client: ClientId, nonce: nat, updated: Role, ghost k: nat)
      requires Valid() && k < |perms.roles| && updated.id == perms.roles[k].id && updated.position == k
      modifies this`perms, this`clients, this`tables
      ensures Valid() && Survivors(old(clients), clients)
      ensures Patience(old(clients), clients, {}, 2 + Count(channels.Keys))
      ensures PatienceFor(old(clients), clients, 2, OwedUpdate(old(perms).roles, perms.roles, old(clients), channels))
      ensures perms == old(perms).(roles := ReplaceRole(old(perms).roles, updated))
      ensures tables == old(tables).(roles := UpdateRoleRow(old(tables).roles, updated))
      ensures HeardLast(clients, client, Ack(nonce))
    {
      hide *;
      tables := tables.(roles := UpdateRoleRow(tables.roles, updated));
      PublishUpdate(updated, k);
      ghost var mid := clients;
      Acknowledge(client, nonce);
      ForOnward(old(clients), mid, clients, 1, OwedUpdate(old(perms).roles, perms.roles, old(clients), channels), 1);
      Onward(old(clients), mid, clients, 1 + Count(channels.Keys), 1);
    }

    method UpdateRole(client: ClientId, nonce: nat, cmd: RoleCommand, stored: bool)
      requires Valid() && cmd.UpdateRole?
      modifies this`perms, this`clients, this`tables
      ensures Valid() && Survivors(old(clients), clients)
      ensures Patience(old(clients), clients, {}, 2 + Count(channels.Keys))
      ensures PatienceFor(old(clients), clients, 2, OwedUpdate(old(perms).roles, perms.roles, old(clients), channels))
      ensures perms == if stored then Committed(old(perms), owner, old(clients), client, cmd) else old(perms)
      ensures old(Synced(tables, perms, channels)) ==> Synced(tables, perms, channels)
      ensures HeardLast(clients, client,
                        Response(nonce, RoleRefusal(old(perms), owner, old(clients), client, cmd),
                                 stored))
    {
      hide *;
      ResponseTo(nonce, RoleRefusal(perms, owner, clients, client, cmd), stored);
      Quiet(clients, 0);
      var verdict, actor := GateRoles(client, nonce, cmd);
      if verdict.Some? {
        if !stored {
          Refuse(client, nonce, Internal);
          DeclinedFor(old(clients), clients, 2 + Count(channels.Keys), 2,
                      OwedUpdate(old(perms).roles, perms.roles, old(clients), channels));
        } else {
          Open();
          Unpack(perms, channels, clients, owner, maxUsers);
          ghost var k := UpdateAccepted(perms, actor, owner, cmd, verdict.value);
          var updated := Updated(FindRole(perms.roles, cmd.id).value, cmd);
          UpdateStored(tables, perms, channels, k, updated);
          StoreUpdate(client, nonce, updated, k);
        }
      } else {
        DeclinedFor(old(clients), clients, 2 + Count(channels.Keys), 2,
                    OwedUpdate(old(perms).roles, perms.roles, old(clients), channels));
      }
    }

    /** The role is gone, the others moved up, and its holders are announced without it. */
    method TellDeleted(id: RoleId, ordering: Positions, holders: Infos, ghost views: Views)
      returns (ghost after: Views)
      requires Tracks(clients, views) && OneStandingEach(holders)
      modifies this`clients
      ensures Survivors(old(clients), clients) && Tracks(clients, after)
      ensures AllAnnounced(Told(Told(views, RoleDeleted(id), None), RolesReordered(ordering), None), after, holders)
      ensures Patience(old(clients), clients, {}, 2 + Count(holders.Keys))
    {
      hide *;
      ghost var told := Told(views, RoleDeleted(id), None);
      Broadcast(RoleDeleted(id), None, views);
      ghost var mid := clients;
      Broadcast(RolesReordered(ordering), None, told);
      Onward(old(clients), mid, clients, 1, 1);
      mid := clients;
      NoticesMore(Count(holders.Keys), false);
      after := Announce(holders, None, Told(told, RolesReordered(ordering), None));
      Onward(old(clients), mid, clients, 2, Count(holders.Keys));
    }

    method PublishDelete(id: RoleId, next: PermState, ghost k: nat)
      requires Valid() && 0 < k < |perms.roles| && perms.roles[k].id == id && next == AfterDelete(perms, id)
      modifies this`perms, this`channels, this`clients
      ensures Valid() && Survivors(StrippedSessions(old(clients), id), clients)
      ensures Patience(old(clients), clients, {}, 2 + Count(old(clients).Keys) + Count(old(channels).Keys))
      ensures PatienceFor(old(clients), clients, 2 + Count(Holders(InfosOf(old(clients)), id).Keys),
                          OwedDelete(old(perms), old(clients), old(channels), id))
      ensures perms == next && channels == StripRole(old(channels), id)
    {
      hide *;
      Open();
      DeletePlan(perms, channels, clients, owner, maxUsers, id);
      StrippedKeys(clients, id);
      ghost var views := ViewsOf(clients);
      var before, touched := VisibleIds(perms.roles, clients, channels), Naming(channels, id);
      var holders, ordering := Holders(InfosOf(clients), id), Ordering(next.roles);
      perms, channels, clients := next, StripRole(channels, id), StrippedSessions(clients, id);
      ghost var start := clients;
      ghost var told := Told(Told(views, RoleDeleted(id), None), RolesReordered(ordering), None);
      StaleTold(start, views, RoleDeleted(id), before, touched, channels);
      StaleTold(start, Told(views, RoleDeleted(id), None), RolesReordered(ordering), before, touched, channels);
      ghost var after := TellDeleted(id, ordering, holders, views);
      ghost var first := clients;
      StaleAnnounced(start, told, after, holders, before, touched, channels);
      DeleteReady(old(perms), old(channels), old(clients), owner, maxUsers, k, told, after);
      VisibleWithin(old(perms).roles, old(clients), old(channels), old(channels).Keys);
      Settle(before, touched, after, start, old(channels).Keys);
      FewHolders(old(clients), id);
      Retold(old(clients), Stripped(InfosOf(old(clients)), id), first, clients, 2 + Count(holders.Keys),
             2 + Count(old(clients).Keys), Count(old(channels).Keys));
      OwedDeleteIs(old(perms), old(clients), old(channels), id);
      ForRetold(old(clients), Stripped(InfosOf(old(clients)), id), first, clients, 2 + Count(holders.Keys),
                OwedDelete(old(perms), old(clients), old(channels), id));
    }

    method DeleteAndAcknowledge(client: ClientId, nonce: nat, id: RoleId, next: PermState, ghost k: nat)
      requires Valid() && 0 < k < |perms.roles| && perms.roles[k].id == id && next == AfterDelete(perms, id)
      modifies this`perms, this`channels, this`clients
      ensures Valid() && Survivors(StrippedSessions(old(clients), id), clients)
      ensures Patience(old(clients), clients, {}, 3 + Count(old(clients).Keys) + Count(old(channels).Keys))
      ensures PatienceFor(old(clients), clients, 3 + Count(Holders(InfosOf(old(clients)), id).Keys),
                          OwedDelete(old(perms), old(clients), old(channels), id))
      ensures perms == next && channels == StripRole(old(channels), id)
      ensures HeardLast(clients, client, Ack(nonce))
    {
      hide *;
      PublishDelete(id, next, k);
      ghost var mid := clients;
      Acknowledge(client, nonce);
      SurvivorsChain(StrippedSessions(old(clients), id), mid, clients);
      PatienceChain(old(clients), mid, clients, {}, 2 + Count(old(clients).Keys) + Count(old(channels).Keys), 1);
      ForOnward(old(clients), mid, clients, 2 + Count(Holders(InfosOf(old(clients)), id).Keys),
                OwedDelete(old(perms), old(clients), old(channels), id), 1);
    }

    /** The rows go, then the role itself. */
    method RemoveRole(client: ClientId, nonce: nat, id: RoleId, ghost k: nat, compactStored: bool)
      requires Valid() && TableOk(perms.roles) && 0 < k < |perms.roles| && perms.roles[k].id == id
      modifies this`perms, this`channels, this`clients, this`tables
      ensures Valid() && Survivors(StrippedSessions(old(clients), id), clients)
      ensures Patience(old(clients), clients, {}, 3 + Count(old(clients).Keys) + Count(old(channels).Keys))
      ensures PatienceFor(old(clients), clients, 3 + Count(Holders(InfosOf(old(clients)), id).Keys),
                          OwedDelete(old(perms), old(clients), old(channels), id))
      ensures perms == AfterDelete(old(perms), id) && channels == StripRole(old(channels), id)
      ensures old(Synced(tables, perms, channels)) && compactStored ==> Synced(tables, perms, channels)
      ensures HeardLast(clients, client, Ack(nonce))
    {
      hide *;
      Open();
      Unpack(perms, channels, clients, owner, maxUsers);
      if Synced(tables, perms, channels) {
        DeleteRoleSynced(tables, perms, channels, k);
      }
      tables := DeleteRoleRows(tables, id);
      var next := BuildDelete(perms, id);
      if compactStored {
        tables := tables.(roles := SetRolePositions(tables.roles, Ordering(next.roles)));
      }
      DeleteAndAcknowledge(client, nonce, id, next, k);
    }

    /** A failure to store the compacted positions is only logged: memory moves on without the tables. */
    method DeleteRole(client: ClientId, nonce: nat, id: RoleId, stored: bool, compactStored: bool)
      requires Valid()
      modifies this`perms, this`channels, this`clients, this`tables
      ensures Valid()
      ensures var removed := stored && Accepts(old(perms), owner, old(clients), client, RoleTable.DeleteRole(id));
              && Survivors(if removed then StrippedSessions(old(clients), id) else old(clients), clients)
              && channels == (if removed then StripRole(old(channels), id) else old(channels))
      ensures Patience(old(clients), clients, {}, 3 + Count(old(clients).Keys) + Count(old(channels).Keys))
      ensures PatienceFor(old(clients), clients, 3 + Count(Holders(InfosOf(old(clients)), id).Keys),
                          OwedDelete(old(perms), old(clients), old(channels), id))
      ensures perms ==
              if stored then Committed(old(perms), owner, old(clients), client, RoleTable.DeleteRole(id))
              else old(perms)
      ensures old(Synced(tables, perms, channels)) && (stored ==> compactStored) ==> Synced(tables, perms, channels)
      ensures HeardLast(clients, client,
                        Response(nonce, RoleRefusal(old(perms), owner, old(clients), client, RoleTable.DeleteRole(id)),
                                 stored))
    {
      hide *;
      ResponseTo(nonce, RoleRefusal(perms, owner, clients, client, RoleTable.DeleteRole(id)), stored);
      Quiet(clients, 0);
      var verdict, actor := GateRoles(client, nonce, RoleTable.DeleteRole(id));
      if verdict.None? {
        DeclinedFor(old(clients), clients, 3 + Count(old(clients).Keys) + Count(old(channels).Keys),
                    3 + Count(Holders(InfosOf(old(clients)), id).Keys),
                    OwedDelete(old(perms), old(clients), old(channels), id));
      } else if !stored {
        Refuse(client, nonce, Internal);
        DeclinedFor(old(clients), clients, 3 + Count(old(clients).Keys) + Count(old(channels).Keys),
                    3 + Count(Holders(InfosOf(old(clients)), id).Keys),
                    OwedDelete(old(perms), old(clients), old(channels), id));
      } else {
        Open();
        Unpack(perms, channels, clients, owner, maxUsers);
        ghost var k := DeleteAccepted(perms, actor, owner, id, verdict.value);
        RemoveRole(client, nonce, id, k, compactStored);
      }
    }

    method PublishReorder(positions: Positions)
      requires Valid() && NamesEveryRoleDensely(perms.roles, positions)
      requires !MovesEveryone(positions)
      modifies this`perms, this`clients
      ensures Valid() && Survivors(old(clients), clients) && Patience(old(clients), clients, {}, 1)
      ensures perms == AfterReorder(old(perms), positions)
    {
      hide *;
      Open();
      ghost var views := ViewsOf(clients);
      ReorderPlan(perms, channels, clients, owner, maxUsers, positions);
      var next := BuildReorder(perms, positions);
      perms := next;
      Broadcast(RolesReordered(positions), None, views);
      Conclude(old(clients), Told(views, RolesReordered(positions), None));
    }

    method ReorderRoles(client: ClientId, nonce: nat, positions: Positions, stored: bool)
      requires Valid()
      modifies this`perms, this`clients, this`tables
      ensures Valid() && Survivors(old(clients), clients) && Patience(old(clients), clients, {}, 2)
      ensures perms ==
              if stored then Committed(old(perms), owner, old(clients), client, RoleTable.ReorderRoles(positions))
              else old(perms)
      ensures old(Synced(tables, perms, channels)) ==> Synced(tables, perms, channels)
      ensures HeardLast(clients, client,
                        Response(nonce,
                                 RoleRefusal(old(perms), owner, old(clients), client,
                                             RoleTable.ReorderRoles(positions)),
                                 stored))
    {
      hide *;
      ResponseTo(nonce, RoleRefusal(perms, owner, clients, client, RoleTable.ReorderRoles(positions)), stored);
      Quiet(clients, 0);
      var verdict, actor := GateRoles(client, nonce, RoleTable.ReorderRoles(positions));
      if verdict.Some? {
        if !stored {
          Refuse(client, nonce, Internal);
          Declined(old(clients), clients, 2);
        } else {
          Open();
          Unpack(perms, channels, clients, owner, maxUsers);
          ReorderAccepted(perms, actor, owner, positions, verdict.value);
          if Synced(tables, perms, channels) {
            ReorderStored(tables, perms, channels, positions);
          }
          tables := tables.(roles := SetRolePositions(tables.roles, positions));
          PublishReorder(positions);
          ghost var mid := clients;
          Acknowledge(client, nonce);
          Onward(old(clients), mid, clients, 1, 1);
        }
      } else {
        Declined(old(clients), clients, 2);
      }
    }

    method PublishGrant(member: Fingerprint, ids: seq<RoleId>)
      requires Valid() && Grantable(perms.roles, ids)
      modifies this`perms, this`clients
      ensures Valid() && Survivors(RegrantedSessions(old(clients), member, ids), clients)
      ensures perms == AfterGrant(old(perms), member, ids)
      ensures Patience(old(clients), clients, {}, Count(old(clients).Keys) + Count(channels.Keys))
      ensures PatienceFor(old(clients), clients,
                          Count(SessionsOf(Regranted(InfosOf(old(clients)), member, ids), member).Keys),
                          OwedGrant(old(perms), old(clients), channels, member, ids))
    {
      hide *;
      Open();
      GrantPlan(perms, channels, clients, owner, maxUsers, member, ids);
      RegrantedKeys(clients, member, ids);
      ghost var views := ViewsOf(clients);
      var before := VisibleIds(perms.roles, clients, channels);
      perms := AfterGrant(perms, member, ids);
      var infos := Regranted(InfosOf(clients), member, ids);
      clients := WithInfos(clients, infos);
      ghost var start := clients;
      ghost var after := Announce(SessionsOf(infos, member), None, views);
      StaleAnnounced(start, views, after, SessionsOf(infos, member), before, {}, channels);
      GrantReady(old(perms), channels, old(clients), owner, maxUsers, member, ids, after);
      VisibleWithin(old(perms).roles, old(clients), channels, channels.Keys);
      ghost var told, mid := Count(SessionsOf(infos, member).Keys), clients;
      NoticesMore(told, false);
      Settle(before, {}, after, start, channels.Keys);
      FewSessions(old(clients), member, ids);
      Retold(old(clients), infos, mid, clients, told, Count(old(clients).Keys), Count(channels.Keys));
      OwedGrantIs(old(perms), old(clients), channels, member, ids);
      ForRetold(old(clients), infos, mid, clients, told, OwedGrant(old(perms), old(clients), channels, member, ids));
    }

    method SetMemberRoles(client: ClientId, nonce: nat, member: Fingerprint, ids: seq<RoleId>, stored: bool)
      requires Valid()
      modifies this`perms, this`clients, this`tables
      ensures Valid()
      ensures var cmd := RoleTable.SetMemberRoles(member, ids);
              var granted := stored && NoRepeats(ids) && Accepts(old(perms), owner, old(clients), client, cmd);
              && Survivors(if granted then RegrantedSessions(old(clients), member, ids) else old(clients), clients)
      ensures Patience(old(clients), clients, {}, 1 + Count(old(clients).Keys) + Count(channels.Keys))
      ensures PatienceFor(old(clients), clients,
                          1 + Count(SessionsOf(Regranted(InfosOf(old(clients)), member, ids), member).Keys),
                          OwedGrant(old(perms), old(clients), channels, member, ids))
      ensures perms ==
              if stored && NoRepeats(ids)
              then Committed(old(perms), owner, old(clients), client, RoleTable.SetMemberRoles(member, ids))
              else old(perms)
      ensures old(Synced(tables, perms, channels)) ==> Synced(tables, perms, channels)
      ensures HeardLast(clients, client,
                        Response(nonce,
                                 RoleRefusal(old(perms), owner, old(clients), client,
                                             RoleTable.SetMemberRoles(member, ids)),
                                 stored && NoRepeats(ids)))
    {
      hide *;
      ResponseTo(nonce, RoleRefusal(perms, owner, clients, client, RoleTable.SetMemberRoles(member, ids)),
                 stored && NoRepeats(ids));
      Quiet(clients, 0);
      var verdict, actor := GateRoles(client, nonce, RoleTable.SetMemberRoles(member, ids));
      RepeatsRefused(tables.grants, member, ids);
      if verdict.None? {
        DeclinedFor(old(clients), clients, 1 + Count(old(clients).Keys) + Count(channels.Keys),
                    1 + Count(SessionsOf(Regranted(InfosOf(old(clients)), member, ids), member).Keys),
                    OwedGrant(old(perms), old(clients), channels, member, ids));
      } else {
        var replaced := ReplaceGrants(tables.grants, member, ids);
        if !stored || replaced.None? {
          Refuse(client, nonce, Internal);
          DeclinedFor(old(clients), clients, 1 + Count(old(clients).Keys) + Count(channels.Keys),
                      1 + Count(SessionsOf(Regranted(InfosOf(old(clients)), member, ids), member).Keys),
                      OwedGrant(old(perms), old(clients), channels, member, ids));
        } else {
          GrantAccepted(perms, actor, owner, member, ids, verdict.value);
          if Synced(tables, perms, channels) {
            GrantStored(tables, perms, channels, member, ids);
          }
          tables := tables.(grants := replaced.value);
          PublishGrant(member, ids);
          ghost var mid := clients;
          Acknowledge(client, nonce);
          SurvivorsChain(RegrantedSessions(old(clients), member, ids), mid, clients);
          PatienceChain(old(clients), mid, clients, {}, Count(old(clients).Keys) + Count(channels.Keys), 1);
          ForOnward(old(clients), mid, clients,
                    Count(SessionsOf(Regranted(InfosOf(old(clients)), member, ids), member).Keys),
                    OwedGrant(old(perms), old(clients), channels, member, ids), 1);
        }
      }
    }

    // ---- Channel commands --------------------------------------------------------------------------------

    /** Swap in changed channels and bring every list up to date. */
    method PublishChannels(next: ChannelMap, touched: set<ChannelId>)
      requires Valid() && ChannelsOk(next) && channels.Keys <= next.Keys
      requires forall id :: id in channels && id in next && id !in touched ==> next[id] == channels[id]
      modifies this`channels, this`clients
      ensures Valid() && Survivors(old(clients), clients) && channels == next
      ensures Patience(old(clients), clients, {}, Count(next.Keys))
      ensures PatienceFor(old(clients), clients, 0, OwedEdit(perms, old(clients), old(channels), channels, touched))
    {
      hide *;
      Open();
      Quiet(clients, 0);
      ChannelsPlan(perms, channels, clients, owner, maxUsers, next, touched);
      ghost var views := ViewsOf(clients);
      var before := VisibleIds(perms.roles, clients, channels);
      channels := next;
      VisibleWithin(perms.roles, old(clients), old(channels), next.Keys);
      ghost var start := clients;
      Settle(before, touched, views, old(clients), next.Keys);
      OwedAre(perms.roles, perms.roles, perms, old(clients), old(channels), channels, touched);
      ForAfter(old(clients), start, clients, 0, OwedEdit(perms, old(clients), old(channels), channels, touched));
    }

    method ApplyChannels(client: ClientId, nonce: nat, next: ChannelMap, touched: set<ChannelId>)
      requires Valid() && ChannelsOk(next) && channels.Keys <= next.Keys
      requires forall id :: id in channels && id in next && id !in touched ==> next[id] == channels[id]
      modifies this`channels, this`clients
      ensures Valid() && Survivors(old(clients), clients) && channels == next
      ensures Patience(old(clients), clients, {}, Count(next.Keys) + 1)
      ensures PatienceFor(old(clients), clients, 1, OwedEdit(perms, old(clients), old(channels), channels, touched))
      ensures HeardLast(clients, client, Ack(nonce))
    {
      hide *;
      PublishChannels(next, touched);
      ghost var mid := clients;
      Acknowledge(client, nonce);
      ForOnward(old(clients), mid, clients, 0, OwedEdit(perms, old(clients), old(channels), channels, touched), 1);
      Onward(old(clients), mid, clients, Count(next.Keys), 1);
    }

    method SetChannelOverwrite(client: ClientId, nonce: nat, channel: ChannelId, target: OverwriteTarget,
                               allow: Permissions, deny: Permissions, stored: bool)
      requires Valid()
      modifies this`channels, this`clients, this`tables
      ensures Valid() && Survivors(old(clients), clients)
      ensures Patience(old(clients), clients, {}, 1 + Count(old(channels).Keys))
      ensures PatienceFor(old(clients), clients, 1, OwedEdit(perms, old(clients), old(channels), channels, {channel}))
      ensures var verdict := CheckOverwrite(perms, old(channels), old(clients), owner, client, channel, target, allow,
                                            deny);
              if stored && verdict.Accepted?
              then
                && channel in old(channels)
                && channels == old(channels)[channel := WithOverwriteOn(old(channels)[channel], verdict.value)]
              else channels == old(channels)
      ensures old(Synced(tables, perms, channels)) ==> Synced(tables, perms, channels)
      ensures HeardLast(clients, client,
                        Response(nonce,
                                 RefusalOf(CheckOverwrite(perms, old(channels), old(clients), owner, client, channel,
                                                                 target, allow, deny)), stored))
    {
      hide *;
      ResponseTo(nonce,
                 RefusalOf(CheckOverwrite(perms, channels, clients, owner, client, channel, target, allow, deny)),
                 stored);
      Quiet(clients, 0);
      var verdict := CheckOverwrite(perms, channels, clients, owner, client, channel, target, allow, deny);
      CheckedExists(perms, channels, clients, owner, client, channel, target, allow, deny);
      RefusalIs(verdict);
      if verdict.Refused? {
        Refuse(client, nonce, verdict.code);
        DeclinedFor(old(clients), clients, 1 + Count(channels.Keys), 1,
                    OwedEdit(perms, old(clients), old(channels), channels, {channel}));
      } else if !stored {
        Refuse(client, nonce, Internal);
        DeclinedFor(old(clients), clients, 1 + Count(channels.Keys), 1,
                    OwedEdit(perms, old(clients), old(channels), channels, {channel}));
      } else {
        Open();
        Unpack(perms, channels, clients, owner, maxUsers);
        OverwriteSet(tables, perms, channels, channel, verdict.value);
        tables := tables.(overwrites := UpsertOverwrite(tables.overwrites, channel, verdict.value));
        ApplyChannels(client, nonce, channels[channel := WithOverwriteOn(channels[channel], verdict.value)], {channel});
      }
    }

    method RemoveOverwrite(client: ClientId, nonce: nat, channel: ChannelId, target: OverwriteTarget)
      requires Valid() && channel in channels
      modifies this`channels, this`clients, this`tables
      ensures Valid() && Survivors(old(clients), clients)
      ensures Patience(old(clients), clients, {}, 1 + Count(old(channels).Keys))
      ensures PatienceFor(old(clients), clients, 1, OwedEdit(perms, old(clients), old(channels), channels, {channel}))
      ensures channels == old(channels)[channel := WithoutTarget(old(channels)[channel], target)]
      ensures old(Synced(tables, perms, channels)) ==> Synced(tables, perms, channels)
      ensures HeardLast(clients, client, Ack(nonce))
    {
      hide *;
      Open();
      Unpack(perms, channels, clients, owner, maxUsers);
      OverwriteCleared(tables, perms, channels, channel, target);
      tables := tables.(overwrites := tables.overwrites - {(channel, target)});
      ApplyChannels(client, nonce, channels[channel := WithoutTarget(channels[channel], target)], {channel});
    }

    method DeleteChannelOverwrite(client: ClientId, nonce: nat, channel: ChannelId, target: OverwriteTarget,
                                  stored: bool)
      requires Valid()
      modifies this`channels, this`clients, this`tables
      ensures Valid() && Survivors(old(clients), clients)
      ensures Patience(old(clients), clients, {}, 1 + Count(old(channels).Keys))
      ensures PatienceFor(old(clients), clients, 1, OwedEdit(perms, old(clients), old(channels), channels, {channel}))
      ensures if stored && CheckOverwriteRemoval(perms, old(channels), old(clients), client, channel).None?
              then
                && channel in old(channels)
                && channels == old(channels)[channel := WithoutTarget(old(channels)[channel], target)]
              else channels == old(channels)
      ensures old(Synced(tables, perms, channels)) ==> Synced(tables, perms, channels)
      ensures HeardLast(clients, client,
                        Response(nonce, CheckOverwriteRemoval(perms, old(channels), old(clients), client, channel),
                                 stored))
    {
      hide *;
      ResponseTo(nonce, CheckOverwriteRemoval(perms, channels, clients, client, channel), stored);
      Quiet(clients, 0);
      var refusal := CheckOverwriteRemoval(perms, channels, clients, client, channel);
      KnownExists(perms, channels, clients, client, channel);
      if refusal.Some? {
        Refuse(client, nonce, refusal.value);
        DeclinedFor(old(clients), clients, 1 + Count(channels.Keys), 1,
                    OwedEdit(perms, old(clients), old(channels), channels, {channel}));
      } else if !stored {
        Refuse(client, nonce, Internal);
        DeclinedFor(old(clients), clients, 1 + Count(channels.Keys), 1,
                    OwedEdit(perms, old(clients), old(channels), channels, {channel}));
      } else {
        RemoveOverwrite(client, nonce, channel, target);
      }
    }

    method AddChannel(client: ClientId, nonce: nat, channel: Channel, rows: map<ChannelId, ChannelRow>)
      requires Valid() && channel.id !in channels && channel.overwrites == []
      modifies this`channels, this`clients, this`tables
      ensures Valid() && Survivors(old(clients), clients)
      ensures Patience(old(clients), clients, {}, 2 + Count(old(channels).Keys))
      ensures PatienceFor(old(clients), clients, 1, OwedEdit(perms, old(clients), old(channels), channels, {}))
      ensures channels == old(channels)[channel.id := channel] && tables == old(tables).(channels := rows)
      ensures HeardLast(clients, client, Ack(nonce))
    {
      hide *;
      Open();
      Unpack(perms, channels, clients, owner, maxUsers);
      OneAdded(channels, channel);
      tables := tables.(channels := rows);
      ApplyChannels(client, nonce, channels[channel.id := channel], {});
      PatienceMore(old(clients), clients, {}, Count(channels.Keys) + 1, {}, 2 + Count(old(channels).Keys));
    }

    /** A created channel takes the next id, starts empty, and is not checked for loops. */
    method CreateChannel(client: ClientId, nonce: nat, draft: Channel,
                         stored: bool) returns (created: Option<ChannelId>)
      requires Valid()
      modifies this`channels, this`clients, this`tables
      ensures Valid() && Survivors(old(clients), clients)
      ensures Patience(old(clients), clients, {}, 2 + Count(old(channels).Keys))
      ensures PatienceFor(old(clients), clients, 1, OwedEdit(perms, old(clients), old(channels), channels, {}))
      ensures created.Some? ==>
                && IsNextChannelId(old(channels), created.value)
                && channels == old(channels)[created.value := Drafted(draft, created.value)]
      ensures created.None? ==> channels == old(channels)
      ensures var refusal := CheckCreate(perms, old(channels), old(clients), client, draft.name, draft.parent);
              var allowed := stored && refusal.None?;
              (created.Some? ==> allowed) && (old(Synced(tables, perms, channels)) && allowed ==> created.Some?)
      ensures created.Some? && Acyclic(old(channels)) ==>
                (Acyclic(channels) <==> !Reaches(old(channels), draft.parent, created.value))
      ensures old(Synced(tables, perms, channels)) ==> Synced(tables, perms, channels)
      ensures HeardLast(clients, client,
                        Response(nonce,
                                 CheckCreate(perms, old(channels), old(clients), client, draft.name, draft.parent),
                                 created.Some?))
    {
      hide *;
      ResponseTo(nonce, CheckCreate(perms, channels, clients, client, draft.name, draft.parent), true);
      ResponseTo(nonce, CheckCreate(perms, channels, clients, client, draft.name, draft.parent), false);
      Quiet(clients, 0);
      created := None;
      var refusal := CheckCreate(perms, channels, clients, client, draft.name, draft.parent);
      if refusal.Some? {
        Refuse(client, nonce, refusal.value);
        DeclinedFor(old(clients), clients, 2 + Count(channels.Keys), 1,
                    OwedEdit(perms, old(clients), old(channels), channels, {}));
      } else {
        var id := NextChannelId(channels);
        var channel := Drafted(draft, id);
        var inserted := InsertChannel(tables.channels, channel);
        DraftAdded(tables, perms, channels, draft, id);
        if !stored || inserted.None? {
          Refuse(client, nonce, Internal);
          DeclinedFor(old(clients), clients, 2 + Count(channels.Keys), 1,
                      OwedEdit(perms, old(clients), old(channels), channels, {}));
        } else {
          AddChannel(client, nonce, channel, inserted.value);
          created := Some(id);
        }
      }
    }

    /**
    On a forest the loop check is exact and ends. A walk that never ends never answers: the handler hangs, which is told
    here by `hung`, without further effect.
    */
    method UpdateChannel(client: ClientId, nonce: nat, draft: Channel, stored: bool) returns (hung: bool)
      requires Valid()
      modifies this`channels, this`clients, this`tables
      ensures Valid() && Survivors(old(clients), clients)
      ensures Patience(old(clients), clients, {}, 1 + Count(old(channels).Keys))
      ensures PatienceFor(old(clients), clients, 1, OwedEdit(perms, old(clients), old(channels), channels, {draft.id}))
      ensures channels ==
              if stored && EditAllowed(perms, old(channels), old(clients), client, draft) && draft.id in old(channels)
              then old(channels)[draft.id := Redrafted(draft, old(channels)[draft.id])] else old(channels)
      ensures EditAllowed(perms, old(channels), old(clients), client, draft) ==> draft.id in old(channels)
      ensures Acyclic(old(channels)) ==> Acyclic(channels) && !hung
      ensures hung <==> HangingEdit(perms, old(channels), old(clients), client, draft)
      ensures old(Synced(tables, perms, channels)) ==> Synced(tables, perms, channels)
      ensures !hung ==>
                HeardLast(clients, client,
                          Response(nonce, EditRefusal(perms, old(channels), old(clients), client, draft), stored))
    {
      hide *;
      ResponseTo(nonce, EditRefusal(perms, channels, clients, client, draft), stored);
      Quiet(clients, 1 + Count(channels.Keys));
      EditIs(perms, channels, clients, client, draft);
      EditRefusalIs(perms, channels, clients, client, draft);
      Quiet(clients, 1);
      hung := false;
      var refusal := CheckKnown(perms, channels, clients, client, draft.id);
      KnownExists(perms, channels, clients, client, draft.id);
      if refusal.None? {
        refusal := CheckFields(channels, draft.name, draft.parent);
      }
      if refusal.Some? {
        Refuse(client, nonce, refusal.value);
        DeclinedFor(old(clients), clients, 1 + Count(channels.Keys), 1,
                    OwedEdit(perms, old(clients), old(channels), channels, {draft.id}));
      } else {
        var walk := ParentWouldCycle(channels, draft.id, draft.parent);
        RedraftKept(tables, perms, channels, draft);
        if walk.Closes? {
          Refuse(client, nonce, Malformed);
          DeclinedFor(old(clients), clients, 1 + Count(channels.Keys), 1,
                      OwedEdit(perms, old(clients), old(channels), channels, {draft.id}));
        } else if walk.Clear? && !stored {
          Refuse(client, nonce, Internal);
          DeclinedFor(old(clients), clients, 1 + Count(channels.Keys), 1,
                      OwedEdit(perms, old(clients), old(channels), channels, {draft.id}));
        } else if walk.Clear? {
          Open();
          Unpack(perms, channels, clients, owner, maxUsers);
          RedraftOk(channels, draft);
          tables := tables.(channels := UpdateChannelRow(tables.channels, Redrafted(draft, channels[draft.id])));
          ApplyChannels(client, nonce, channels[draft.id := Redrafted(draft, channels[draft.id])], {draft.id});
        } else {
          ForDeclined(old(clients), clients, 1, OwedEdit(perms, old(clients), old(channels), channels, {draft.id}));
          hung := true;
        }
      }
    }

    method PublishRemoval(id: ChannelId)
      requires Valid()
      modifies this`channels, this`clients
      ensures Valid() && Survivors(EvictedSessions(old(clients), id), clients)
      ensures channels == old(channels) - {id}
      ensures Patience(old(clients), clients, {}, 2 * Count(old(clients).Keys) + Count(old(channels).Keys))
      ensures PatienceFor(old(clients), clients, 2 * Count(EvictedOnly(InfosOf(old(clients)), id).Keys),
                          OwedRemoval(perms, old(clients), old(channels), id))
    {
      hide *;
      Open();
      EvictPlan(perms, channels, clients, owner, maxUsers, id);
      EvictedKeys(clients, id);
      ghost var views := ViewsOf(clients);
      var before := VisibleIds(perms.roles, clients, channels);
      var evicted := EvictedOnly(InfosOf(clients), id);
      channels, clients := channels - {id}, EvictedSessions(clients, id);
      ghost var start := clients;
      ghost var after := Announce(evicted, Some(id), views);
      StaleAnnounced(start, views, after, evicted, before, {}, channels);
      EvictReady(perms, old(channels), old(clients), owner, maxUsers, id, after);
      VisibleWithin(perms.roles, old(clients), old(channels), old(channels).Keys);
      ghost var told, mid := 2 * Count(evicted.Keys), clients;
      NoticesMore(Count(evicted.Keys), true);
      Settle(before, {}, after, start, old(channels).Keys);
      FewEvicted(old(clients), id);
      Retold(old(clients), Evicted(InfosOf(old(clients)), id), mid, clients, told, 2 * Count(old(clients).Keys),
             Count(old(channels).Keys));
      OwedRemovalIs(perms, old(clients), old(channels), id);
      ForRetold(old(clients), Evicted(InfosOf(old(clients)), id), mid, clients, told,
                OwedRemoval(perms, old(clients), old(channels), id));
    }

    method RemoveChannel(client: ClientId, nonce: nat, id: ChannelId)
      requires Valid()
      modifies this`channels, this`clients, this`tables
      ensures Valid() && Survivors(EvictedSessions(old(clients), id), clients)
      ensures channels == old(channels) - {id} && tables == DeleteChannelRows(old(tables), id)
      ensures Patience(old(clients), clients, {}, 1 + 2 * Count(old(clients).Keys) + Count(old(channels).Keys))
      ensures PatienceFor(old(clients), clients, 1 + 2 * Count(EvictedOnly(InfosOf(old(clients)), id).Keys),
                          OwedRemoval(perms, old(clients), old(channels), id))
      ensures HeardLast(clients, client, Ack(nonce))
    {
      hide *;
      tables := DeleteChannelRows(tables, id);
      PublishRemoval(id);
      ghost var mid := clients;
      Acknowledge(client, nonce);
      SurvivorsChain(EvictedSessions(old(clients), id), mid, clients);
      ForOnward(old(clients), mid, clients, 2 * Count(EvictedOnly(InfosOf(old(clients)), id).Keys),
                OwedRemoval(perms, old(clients), old(channels), id), 1);
      PatienceChain(old(clients), mid, clients, {}, 2 * Count(old(clients).Keys) + Count(old(channels).Keys), 1);
    }

    method DeleteChannel(client: ClientId, nonce: nat, id: ChannelId, stored: bool)
      requires Valid()
      modifies this`channels, this`clients, this`tables
      ensures Valid()
      ensures var removed := stored && CheckKnown(perms, old(channels), old(clients), client, id).None?;
              && Survivors(if removed then EvictedSessions(old(clients), id) else old(clients), clients)
              && channels == (if removed then old(channels) - {id} else old(channels))
      ensures Patience(old(clients), clients, {}, 1 + 2 * Count(old(clients).Keys) + Count(old(channels).Keys))
      ensures PatienceFor(old(clients), clients, 1 + 2 * Count(EvictedOnly(InfosOf(old(clients)), id).Keys),
                          OwedRemoval(perms, old(clients), old(channels), id))
      ensures Acyclic(old(channels)) ==> Acyclic(channels)
      ensures old(Synced(tables, perms, channels)) ==> Synced(tables, perms, channels)
      ensures HeardLast(clients, client,
                        Response(nonce, CheckKnown(perms, old(channels), old(clients), client, id), stored))
    {
      hide *;
      ResponseTo(nonce, CheckKnown(perms, channels, clients, client, id), stored);
      Quiet(clients, 0);
      var refusal := CheckKnown(perms, channels, clients, client, id);
      if refusal.Some? {
        Refuse(client, nonce, refusal.value);
        DeclinedFor(old(clients), clients, 1 + 2 * Count(old(clients).Keys) + Count(old(channels).Keys),
                    1 + 2 * Count(EvictedOnly(InfosOf(old(clients)), id).Keys),
                    OwedRemoval(perms, old(clients), old(channels), id));
      } else if !stored {
        Refuse(client, nonce, Internal);
        DeclinedFor(old(clients), clients, 1 + 2 * Count(old(clients).Keys) + Count(old(channels).Keys),
                    1 + 2 * Count(EvictedOnly(InfosOf(old(clients)), id).Keys),
                    OwedRemoval(perms, old(clients), old(channels), id));
      } else {
        if Synced(tables, perms, channels) {
          RemovedStored(tables, perms, channels, id);
        }
        if Acyclic(channels) {
          DeleteKeepsForest(channels, id);
        }
        RemoveChannel(client, nonce, id);
      }
    }

    // ---- Sessions and moderation ---------------------------------------------------------------------------

    /** Ids count up and wrap at 2^32, skipping 0. Whoever still had the id is replaced. */
    method Admit(fingerprint: Fingerprint, levelOk: bool,
                 nickname: Option<string>) returns (refusal: Option<AuthFailure>)
      requires Valid()
      modifies this`clients, this`nextClientId
      ensures Valid() && NobodyEntered(old(clients), clients)
      ensures refusal == Admission(maxUsers, old(clients), levelOk, nickname)
      ensures refusal.Some? ==> clients == old(clients) && nextClientId == old(nextClientId)
      ensures refusal.None? ==>
                && nextClientId == NextId(old(nextClientId))
                && var start := Arrived(old(clients), perms.roles, channels,
                                        Newcomer(perms, owner, old(nextClientId), fingerprint, nickname.value));
                   Survivors(start, clients) && Patience(start, clients, {}, 1)
      ensures refusal.None? ==>
                AllHeard(old(clients), clients,
                         UserJoined(Newcomer(perms, owner, old(nextClientId), fingerprint, nickname.value)),
                         Some(old(nextClientId)))
    {
      hide *;
      Quiet(clients, 0);
      AdmissionIs(maxUsers, clients, levelOk, nickname);
      if !levelOk {
        return Some(SecurityLevelTooLow);
      }
      if nickname.None? {
        return Some(NicknameRejected);
      }
      if |clients| >= maxUsers {
        return Some(ServerFull);
      }
      var info := Newcomer(perms, owner, nextClientId, fingerprint, nickname.value);
      NewcomerOk(perms, owner, nextClientId, fingerprint, nickname.value, channels);
      nextClientId := NextId(nextClientId);
      Open();
      ArrivePlan(perms, channels, clients, owner, maxUsers, info);
      ghost var views := ViewsOf(clients);
      clients := Arrived(clients, perms.roles, channels, info);
      ghost var start := clients;
      Broadcast(UserJoined(info), Some(info.clientId), views[info.clientId := start[info.clientId].view]);
      Conclude(start, Told(views[info.clientId := start[info.clientId].view], UserJoined(info), Some(info.clientId)));
      EnteredChain(old(clients), start, clients);
      ArrivedQueues(old(clients), perms.roles, channels, info);
      HeardUnder(old(clients), start, clients, UserJoined(info), Some(info.clientId));
      return None;
    }

    /** A session ends, or is ended: the others are told. */
    method Remove(gone: ClientId, except: Option<ClientId>)
      requires Valid() && (except == None || except == Some(gone))
      modifies this`clients
      ensures Valid() && gone !in clients && Survivors(old(clients) - {gone}, clients)
      ensures Patience(old(clients) - {gone}, clients, {}, 1)
      ensures AllHeard(old(clients), clients, UserLeft(gone), None)
    {
      hide *;
      Open();
      LeavePlan(perms, channels, clients, owner, maxUsers, gone, except);
      ghost var views := ViewsOf(clients);
      clients := clients - {gone};
      ghost var start := clients;
      Broadcast(UserLeft(gone), except, views);
      Conclude(start, Told(views, UserLeft(gone), except));
      StaysGone(start, clients, gone);
      HeardWithout(old(clients), gone, clients, UserLeft(gone), except);
      HeardByAll(old(clients), clients, UserLeft(gone), except, gone);
    }

    method Disconnect(gone: ClientId)
      requires Valid()
      modifies this`clients
      ensures Valid() && gone !in clients && Survivors(old(clients) - {gone}, clients)
      ensures Patience(old(clients) - {gone}, clients, {}, 1)
      ensures gone in old(clients) ==> AllHeard(old(clients), clients, UserLeft(gone), None)
    {
      hide *;
      Quiet(clients, 1);
      if gone in clients {
        Remove(gone, Some(gone));
      } else {
        AlreadyGone(clients, gone);
      }
    }

    method Kick(actor: ClientId, nonce: nat, target: ClientId)
      requires Valid()
      modifies this`clients
      ensures Valid()
      ensures if Authorize(perms, owner, old(clients), actor, KICK_MEMBERS, target).Accepted?
              then
                && target !in clients && Survivors(old(clients) - {target}, clients)
                && Patience(old(clients) - {target}, clients, {}, 2)
              else Survivors(old(clients), clients) && Patience(old(clients), clients, {}, 1)
      ensures var verdict := Authorize(perms, owner, old(clients), actor, KICK_MEMBERS, target);
              && HeardLast(clients, actor, Response(nonce, RefusalOf(verdict), true))
              && (verdict.Accepted? ==> AllHeard(old(clients), clients, UserLeft(target), None))
    {
      hide *;
      ResponseTo(nonce, RefusalOf(Authorize(perms, owner, clients, actor, KICK_MEMBERS, target)), true);
      Quiet(clients, 0);
      var verdict := Authorize(perms, owner, clients, actor, KICK_MEMBERS, target);
      RefusalIs(verdict);
      if verdict.Refused? {
        Refuse(actor, nonce, verdict.code);
      } else {
        Remove(target, None);
        ghost var mid := clients;
        Acknowledge(actor, nonce);
        StaysGone(mid, clients, target);
        HeardThen(old(clients), mid, clients, UserLeft(target), None);
        Onward(old(clients) - {target}, mid, clients, 1, 1);
      }
    }

    method ExpelOne(victim: ClientId, ghost victims: set<ClientId>)
      requires Valid() && victim in victims
      modifies this`clients
      ensures Valid() && Survivors(old(clients), clients) && clients.Keys <= old(clients).Keys - {victim}
      ensures Patience(old(clients), clients, victims, 1)
    {
      hide *;
      Quiet(clients, 1);
      if victim in clients {
        Remove(victim, None);
        SentAway(old(clients), victim, clients, 1);
        PatienceMore(old(clients), clients, {victim}, 1, victims, 1);
      } else {
        PatienceMore(old(clients), clients, {}, 1, victims, 1);
      }
      FewerLeft(old(clients), clients, victim);
    }

    /** One session after another is ended. */
    method Expel(victims: set<ClientId>)
      requires Valid() && AllHere(clients, victims)
      modifies this`clients
      ensures Valid() && Survivors(old(clients) - victims, clients)
      ensures Patience(old(clients) - victims, clients, {}, 2 * Count(victims))
    {
      hide *;
      var todo := victims;
      ghost var sent := 0;
      Quiet(clients, 0);
      PatienceMore(clients, clients, {}, 0, victims, 0);
      NonePurged(clients, victims);
      while todo != {}
        invariant todo <= victims && Valid() && Survivors(old(clients), clients)
        invariant Purged(clients, victims, todo)
        invariant sent + Count(todo) == Count(victims) && Patience(old(clients), clients, victims, sent)
        decreases todo
      {
        var victim :| victim in todo;
        ghost var mid := clients;
        ExpelOne(victim, victims);
        PatienceChain(old(clients), mid, clients, victims, sent, 1);
        SurvivorsChain(old(clients), mid, clients);
        OneFewer(todo, victim);
        PurgedOne(mid, clients, victims, todo, victim);
        sent, todo := sent + 1, todo - {victim};
      }
      NoneToCount(todo);
      AllGone(old(clients), clients, victims, sent);
    }

    /** Every live session of the fingerprint goes, not just one. */
    method Ban(actor: ClientId, nonce: nat, target: Fingerprint, stored: bool)
      requires Valid()
      modifies this`clients
      ensures Valid()
      ensures if stored && MayBan(perms, owner, old(clients), actor, target)
              then
                var victims := SessionsWith(old(clients), target);
                && (forall c :: c in clients ==> clients[c].info.fingerprint != target)
                && Survivors(old(clients) - victims, clients)
                && Patience(old(clients) - victims, clients, {}, 2 * Count(victims) + 1)
              else Survivors(old(clients), clients) && Patience(old(clients), clients, {}, 1)
      ensures HeardLast(clients, actor, Response(nonce, BanRefusal(perms, owner, old(clients), actor, target), stored))
    {
      hide *;
      ResponseTo(nonce, BanRefusal(perms, owner, clients, actor, target), stored);
      BanRefusalIs(perms, owner, clients, actor, target);
      if !MayBan(perms, owner, clients, actor, target) {
        Refuse(actor, nonce, NotPermitted);
      } else if !stored {
        Refuse(actor, nonce, Internal);
      } else {
        var victims := SessionsWith(clients, target);
        SessionsAre(clients, target);
        Expel(victims);
        ghost var mid := clients;
        Acknowledge(actor, nonce);
        Onward(old(clients) - victims, mid, clients, 2 * Count(victims), 1);
        NoneLeft(old(clients), clients, target);
      }
    }

    /** Replace what one member shows of itself and tell everyone. */
    method Refresh(info: UserInfo)
      requires Valid() && info.clientId in clients && SameStanding(info, clients[info.clientId].info)
      requires InfoOk(info.clientId, info, perms, owner, channels)
      requires info.channel == clients[info.clientId].info.channel
      modifies this`clients
      ensures Valid() && Survivors(old(clients)[info.clientId := old(clients)[info.clientId].(info := info)], clients)
      ensures Patience(old(clients), clients, {}, 1)
      ensures AllHeard(old(clients), clients, UserUpdated(info), None)
    {
      hide *;
      Open();
      RefreshPlan(perms, channels, clients, owner, maxUsers, info);
      ghost var views := ViewsOf(clients);
      clients := clients[info.clientId := clients[info.clientId].(info := info)];
      ghost var start := clients;
      Broadcast(UserUpdated(info), None, views);
      Conclude(start, Told(views, UserUpdated(info), None));
      SameQueue(old(clients), info.clientId, info, clients, 1);
      HeardWith(old(clients), info.clientId, info, clients, UserUpdated(info));
    }

    /** Put one member in a room, or in none, and tell everyone. */
    method Place(c: ClientId, room: Option<ChannelId>)
      requires Valid() && c in clients && (room.Some? ==> room.value in channels)
      modifies this`clients
      ensures Valid() && Survivors(Moved(old(clients), c, room), clients)
      ensures Patience(old(clients), clients, {}, 1)
      ensures AllHeard(old(clients), clients, UserMoved(c, old(clients)[c].info.channel, room), None)
    {
      hide *;
      Open();
      MovedInfo(perms, channels, clients, owner, maxUsers, c, room);
      var info := clients[c].info.(channel := room);
      RefreshPlan(perms, channels, clients, owner, maxUsers, info);
      ghost var views := ViewsOf(clients);
      var from := clients[c].info.channel;
      clients := clients[c := clients[c].(info := info)];
      ghost var start := clients;
      MoveIsInert(views, c, from, room);
      Broadcast(UserMoved(c, from, room), None, views);
      Conclude(start, views);
      SameQueue(old(clients), c, info, clients, 1);
      HeardWith(old(clients), c, info, clients, UserMoved(c, from, room));
    }

    method SetServerMute(actor: ClientId, nonce: nat, target: ClientId, muted: bool)
      requires Valid()
      modifies this`clients
      ensures Valid() && Patience(old(clients), clients, {}, 2)
      ensures var verdict := Authorize(perms, owner, old(clients), actor, MUTE_MEMBERS, target);
              Survivors(if verdict.Accepted? then Muted(old(clients), target, muted) else old(clients), clients)
      ensures var verdict := Authorize(perms, owner, old(clients), actor, MUTE_MEMBERS, target);
              && HeardLast(clients, actor, Response(nonce, RefusalOf(verdict), true))
              && (verdict.Accepted? ==>
                    target in old(clients) &&
                    target in Muted(old(clients), target, muted) &&
                    AllHeard(old(clients), clients, UserUpdated(Muted(old(clients), target, muted)[target].info), None))
    {
      hide *;
      ResponseTo(nonce, RefusalOf(Authorize(perms, owner, clients, actor, MUTE_MEMBERS, target)), true);
      Quiet(clients, 0);
      var verdict := Authorize(perms, owner, clients, actor, MUTE_MEMBERS, target);
      RefusalIs(verdict);
      if verdict.Refused? {
        Refuse(actor, nonce, verdict.code);
        Declined(old(clients), clients, 2);
      } else {
        Open();
        AuthorizedIsHere(perms, owner, clients, actor, MUTE_MEMBERS, target);
        OwnState(perms, channels, clients, owner, maxUsers, target);
        var info := clients[target].info;
        var changed := info.(voice := info.voice.(serverMuted := muted));
        DeafImpliesMuted(target, info, perms, owner, channels);
        SameMember(target, info, changed, perms, owner, channels);
        SameRoomStays(clients, target, changed);
        MutedIs(clients, target, muted);
        Refresh(changed);
        ghost var mid := clients;
        Acknowledge(actor, nonce);
        PatienceChain(old(clients), mid, clients, {}, 1, 1);
        SurvivorsChain(Muted(old(clients), target, muted), mid, clients);
        HeardThen(old(clients), mid, clients, UserUpdated(changed), None);
      }
    }

    method SetVoiceState(client: ClientId, selfMuted: bool, selfDeafened: bool)
      requires Valid()
      modifies this`clients
      ensures Valid() && Patience(old(clients), clients, {}, 1)
      ensures Survivors(Voiced(old(clients), client, selfMuted, selfDeafened), clients)
      ensures client in old(clients) ==>
                client in Voiced(old(clients), client, selfMuted, selfDeafened) &&
                AllHeard(old(clients), clients,
                         UserUpdated(Voiced(old(clients), client, selfMuted, selfDeafened)[client].info), None)
    {
      hide *;
      Quiet(clients, 1);
      VoicedIs(clients, client, selfMuted, selfDeafened);
      if client in clients {
        Open();
        OwnState(perms, channels, clients, owner, maxUsers, client);
        var info := clients[client].info;
        var voice := info.voice.(selfMuted := selfMuted, selfDeafened := selfDeafened);
        if selfDeafened {
          voice := voice.(selfMuted := true);
        }
        var changed := info.(voice := voice);
        SameMember(client, info, changed, perms, owner, channels);
        SameRoomStays(clients, client, changed);
        Refresh(changed);
      }
    }

    /** The nickname arrives sanitised, or not at all when nothing printable was left of it. */
    method SetNickname(client: ClientId, nickname: Option<string>)
      requires Valid()
      modifies this`clients
      ensures Valid() && Patience(old(clients), clients, {}, 1)
      ensures Survivors(if nickname.None? then old(clients) else Renamed(old(clients), client, nickname.value), clients)
      ensures nickname.None? ==> HeardLast(clients, client, Error(Malformed))
      ensures nickname.Some? && client in old(clients) ==>
                client in Renamed(old(clients), client, nickname.value) &&
                AllHeard(old(clients), clients,
                         UserUpdated(Renamed(old(clients), client, nickname.value)[client].info), None)
    {
      hide *;
      if nickname.None? || client !in clients {
        ErrorIsInert(Malformed);
        NobodyRenamed(clients, client);
        SendInert(client, Error(Malformed));
      } else {
        Open();
        OwnState(perms, channels, clients, owner, maxUsers, client);
        var info := clients[client].info;
        var changed := info.(nickname := nickname.value);
        DeafImpliesMuted(client, info, perms, owner, channels);
        SameMember(client, info, changed, perms, owner, channels);
        SameRoomStays(clients, client, changed);
        RenamedIs(clients, client, nickname.value);
        Refresh(changed);
      }
    }

    method JoinChannel(client: ClientId, room: ChannelId)
      requires Valid()
      modifies this`clients
      ensures Valid() && NoNewcomers(old(clients), clients) && CapsKept(old(clients), channels, clients, channels)
      ensures Patience(old(clients), clients, {}, 1)
      ensures var refusal := CheckJoin(perms, channels, old(clients), client, room);
              Survivors(if refusal.None? then Moved(old(clients), client, Some(room)) else old(clients), clients)
      ensures var refusal := CheckJoin(perms, channels, old(clients), client, room);
              if refusal.Some? then HeardLast(clients, client, Error(refusal.value))
              else
                client in old(clients) &&
                AllHeard(old(clients), clients, UserMoved(client, old(clients)[client].info.channel, Some(room)), None)
    {
      hide *;
      Open();
      var refusal := CheckJoin(perms, channels, clients, client, room);
      if refusal.Some? {
        ErrorIsInert(refusal.value);
        SendInert(client, Error(refusal.value));
        SurvivorsStayed(old(clients), clients);
        StayedMeans(perms, channels, old(clients), owner, maxUsers, clients);
      } else {
        JoinMayEnter(perms, channels, clients, client, room);
        Place(client, Some(room));
        MovedNobodyNew(old(clients), client, Some(room), clients);
        EnterCaps(old(clients), channels, clients, client, Some(room));
      }
    }

    method LeaveChannel(client: ClientId)
      requires Valid()
      modifies this`clients
      ensures Valid() && Survivors(Moved(old(clients), client, None), clients)
      ensures Patience(old(clients), clients, {}, 1)
      ensures client in old(clients) ==>
                AllHeard(old(clients), clients, UserMoved(client, old(clients)[client].info.channel, None), None)
    {
      hide *;
      if client in clients {
        Place(client, None);
      } else {
        NobodyMoved(clients, client);
        BroadcastInert(UserMoved(client, None, None));
      }
    }

    method MoveMember(actor: ClientId, nonce: nat, target: ClientId, to: Option<ChannelId>)
      requires Valid()
      modifies this`clients
      ensures Valid() && NoNewcomers(old(clients), clients) && CapsKept(old(clients), channels, clients, channels)
      ensures Patience(old(clients), clients, {}, 2)
      ensures var refusal := CheckMove(perms, channels, old(clients), owner, actor, target, to);
              Survivors(if refusal.None? then Moved(old(clients), target, to) else old(clients), clients)
      ensures var refusal := CheckMove(perms, channels, old(clients), owner, actor, target, to);
              && HeardLast(clients, actor, Response(nonce, refusal, true))
              && (refusal.None? ==>
                    target in old(clients) &&
                    AllHeard(old(clients), clients, UserMoved(target, old(clients)[target].info.channel, to), None))
    {
      hide *;
      ResponseTo(nonce, CheckMove(perms, channels, clients, owner, actor, target, to), true);
      Open();
      var refusal := CheckMove(perms, channels, clients, owner, actor, target, to);
      if refusal.Some? {
        Refuse(actor, nonce, refusal.value);
        Declined(old(clients), clients, 2);
        StayedMeans(perms, channels, old(clients), owner, maxUsers, clients);
      } else {
        MoveMayEnter(perms, channels, clients, owner, actor, target, to);
        Place(target, to);
        ghost var mid := clients;
        Acknowledge(actor, nonce);
        PatienceChain(old(clients), mid, clients, {}, 1, 1);
        SurvivorsChain(Moved(old(clients), target, to), mid, clients);
        HeardThen(old(clients), mid, clients, UserMoved(target, old(clients)[target].info.channel, to), None);
        MovedNobodyNew(old(clients), target, to, clients);
        EnterCaps(old(clients), channels, clients, target, to);
      }
    }

    /** The client takes the oldest frame off its queue and folds it into its view. */
    method Deliver(client: ClientId)
      requires Valid()
      modifies this`clients
      ensures Valid() && clients.Keys == old(clients).Keys
      ensures clients ==
              if client in old(clients) && old(clients)[client].queue != []
              then old(clients)[client := Delivered(old(clients)[client])]
              else old(clients)
    {
      hide *;
      Open();
      Quiet(clients, 0);
      if client in clients && clients[client].queue != [] {
        Unpack(perms, channels, clients, owner, maxUsers);
        DeliveryKeepsSeen(clients, client);
        SameObserved(perms, channels, clients, clients[client := Delivered(clients[client])], owner, maxUsers);
        clients := clients[client := Delivered(clients[client])];
        Close();
        assert clients.Keys == old(clients).Keys;
      }
    }

    /** One voice frame goes to everyone else in the sender's room who listens, whatever order clients come in. */
    method RelayVoice(from: ClientId) returns (to: set<ClientId>)
      requires Valid()
      ensures to == Listeners(perms, channels, clients, from)
    {
      hide Valid, MayIn;
      to := {};
      if !MaySpeak(perms, channels, clients, from) {
        return;
      }
      var todo := clients.Keys;
      while todo != {}
        invariant todo <= clients.Keys && to == set c | c in clients && c !in todo && Listens(clients, from, c)
        decreases todo
      {
        var c :| c in todo;
        if Listens(clients, from, c) {
          to := to + {c};
        }
        todo := todo - {c};
      }
    }

    // ---- Whole runs -----------------------------------------------------------------------------------------

    ghost function Now(): Moment
      reads this
    {
      Moment(perms, channels, clients, nextClientId, tables)
    }

    method HandleRoles(e: Event)
      requires Valid() && e.Roles?
      modifies this`perms, this`channels, this`clients, this`tables
      ensures Stepped(owner, maxUsers, old(Now()), e, Now())
      ensures Answered(owner, maxUsers, old(Now()), e, Now())
    {
      hide *;
      NowIs();
      CommandMeans(tables, perms, clients, e, channels);
      match e.cmd {
        case CreateRole(name, permissions) => CreateRole(e.client, e.nonce, name, permissions, e.stored, e.alsoStored);
        case UpdateRole(_, _, _, _) => UpdateRole(e.client, e.nonce, e.cmd, e.stored);
        case DeleteRole(id) => DeleteRole(e.client, e.nonce, id, e.stored, e.alsoStored);
        case ReorderRoles(positions) => ReorderRoles(e.client, e.nonce, positions, e.stored);
        case SetMemberRoles(member, ids) => SetMemberRoles(e.client, e.nonce, member, ids, e.stored);
      }
      Open();
      NowIs();
      RolesStepped(owner, maxUsers, old(Now()), e, Now());
      RolesAnswered(owner, maxUsers, old(Now()), e, Now());
    }

    lemma NowIs()
      ensures Now() == Moment(perms, channels, clients, nextClientId, tables)
    {
    }

    method HandleChannels(e: Event)
      requires Valid() && e.Channels?
      modifies this`channels, this`clients, this`tables
      ensures Stepped(owner, maxUsers, old(Now()), e, Now())
      ensures Answered(owner, maxUsers, old(Now()), e, Now())
    {
      hide *;
      NowIs();
      FramesAre(Now(), e);
      match e.command {
        case SetOverwrite(client, nonce, channel, target, allow, deny, stored) =>
          SetChannelOverwrite(client, nonce, channel, target, allow, deny, stored);
          OverwriteMoved(owner, old(Now()), e.command, channels);
          NowIs();
          OverwriteAnswered(owner, maxUsers, old(Now()), e, Now());
          PatienceMore(old(clients), clients, {}, 1 + Count(old(channels).Keys), {}, Frames(old(Now()), e));
        case ClearOverwrite(client, nonce, channel, target, stored) =>
          DeleteChannelOverwrite(client, nonce, channel, target, stored);
          ClearanceMoved(owner, old(Now()), e.command, channels);
          NowIs();
          ClearanceAnswered(owner, maxUsers, old(Now()), e, Now());
          PatienceMore(old(clients), clients, {}, 1 + Count(old(channels).Keys), {}, Frames(old(Now()), e));
        case NewChannel(client, nonce, draft, stored) =>
          var created := CreateChannel(client, nonce, draft, stored);
          CreationMoved(owner, old(Now()), e.command, channels, created);
          NowIs();
          CreationAnswered(owner, maxUsers, old(Now()), e, Now(), created);
        case EditChannel(client, nonce, draft, stored) =>
          var hung := UpdateChannel(client, nonce, draft, stored);
          EditMoved(owner, old(Now()), e.command, channels);
          NowIs();
          EditAnswered(owner, maxUsers, old(Now()), e, Now(), hung);
          PatienceMore(old(clients), clients, {}, 1 + Count(old(channels).Keys), {}, Frames(old(Now()), e));
        case DropChannel(client, nonce, id, stored) =>
          RemovesIs(old(Now()), e.command);
          DeleteChannel(client, nonce, id, stored);
          RemovalMoved(owner, old(Now()), e.command, channels);
          NowIs();
          RemovalAnswered(owner, maxUsers, old(Now()), e, Now());
      }
      Open();
      NowIs();
      ChannelsStepped(owner, maxUsers, old(Now()), e, Now());
    }

    method HandleMember(e: Event)
      requires Valid() && e.Members?
      modifies this`clients
      ensures Stepped(owner, maxUsers, old(Now()), e, Now())
      ensures Answered(owner, maxUsers, old(Now()), e, Now())
    {
      hide Valid, ValidState, Stepped, Survivors, Patience, Now, Frames, Count, CapsKept, NoNewcomers, Authorize;
      hide CheckMove, CheckJoin, MayBan, Moved, Voiced, Renamed, Muted, Delivered, SessionsWith, Inert;
      NowIs();
      FramesAre(Now(), e);
      ghost var n := 2;
      match e.act {
        case Join(client, room) =>
          JoinChannel(client, room);
          n := 1;
        case Relocate(client, nonce, target, to) => MoveMember(client, nonce, target, to);
        case Leave(client) =>
          Disconnect(client);
          n := 1;
        case Receive(client) =>
          Deliver(client);
          Quiet(clients, 0);
          n := 0;
        case KickMember(client, nonce, target) =>
          Kick(client, nonce, target);
          n := if Authorize(perms, owner, old(clients), client, KICK_MEMBERS, target).Accepted? then 2 else 1;
        case BanMember(client, nonce, member, stored) =>
          Ban(client, nonce, member, stored);
          n := if stored && MayBan(perms, owner, old(clients), client, member)
               then 2 * Count(SessionsWith(old(clients), member)) + 1 else 1;
        case MuteMember(client, nonce, target, muted) => SetServerMute(client, nonce, target, muted);
        case Exit(client) =>
          LeaveChannel(client);
          n := 1;
        case Voice(client, muted, deafened) =>
          SetVoiceState(client, muted, deafened);
          n := 1;
        case Rename(client, nickname) =>
          SetNickname(client, nickname);
          n := 1;
        case Reply(client, tag) =>
          OtherIsInert(tag);
          SendInert(client, Other(tag));
          n := 1;
      }
      Open();
      NowIs();
      MembersStepped(owner, maxUsers, old(Now()), e, Now(), n);
    }

    method HandleArrival(e: Event)
      requires Valid() && e.Arrive?
      modifies this`clients, this`nextClientId
      ensures Stepped(owner, maxUsers, old(Now()), e, Now())
      ensures Answered(owner, maxUsers, old(Now()), e, Now())
    {
      hide *;
      NowIs();
      Quiet(clients, 1);
      var refusal := Admit(e.fingerprint, e.levelOk, e.nickname);
      Open();
      NowIs();
      ArrivalStepped(owner, maxUsers, old(Now()), e, Now());
      AdmissionIs(maxUsers, old(clients), e.levelOk, e.nickname);
      ArrivalAnswered(owner, maxUsers, old(Now()), e, Now());
    }

    /** One step of the server. */
    method Handle(e: Event)
      requires Valid()
      modifies this
      ensures Valid() && Stepped(owner, maxUsers, old(Now()), e, Now())
      ensures Answered(owner, maxUsers, old(Now()), e, Now())
    {
      hide *;
      match e {
        case Arrive(_, _, _) => HandleArrival(e);
        case Roles(_, _, _, _, _) => HandleRoles(e);
        case Channels(_) => HandleChannels(e);
        case Members(_) => HandleMember(e);
      }
      StepParts(owner, maxUsers, old(Now()), e, Now());
      NowIs();
      Close();
    }

    /** Any run: `trace` is the server at every boundary, each event taking it one step on. */
    method Run(events: seq<Event>) returns (ghost trace: seq<Moment>)
      requires Valid()
      modifies this
      ensures Valid() && IsRun(owner, maxUsers, events, trace)
      ensures AllAnswered(owner, maxUsers, events, trace)
      ensures trace[0] == old(Now()) && trace[|events|] == Now()
    {
      hide *;
      trace := [Now()];
      RunStarts(owner, maxUsers, events, trace);
      NoneAnswered(owner, maxUsers, events, trace);
      for i := 0 to |events|
        invariant Valid() && |trace| == i + 1 && trace[0] == old(Now()) && trace[i] == Now()
        invariant IsRun(owner, maxUsers, events[..i], trace) && AllAnswered(owner, maxUsers, events[..i], trace)
      {
        Handle(events[i]);
        RunGrows(owner, maxUsers, events, i, trace, Now());
        AnsweredGrows(owner, maxUsers, events, i, trace, Now());
        trace := trace + [Now()];
      }
      assert events[..|events|] == events;
    }

    /**
    No climbing, for the running server, whoever else is connected: if the role commands carried out all came from a
    crew of non-owners, the roles at or above its highest rung keep their bits, holders and order, and nobody gained
    one.
    */
    method RunByCrew(events: seq<Event>, ghost crew: set<Fingerprint>, ghost top: nat)
      returns (ghost trace: seq<Moment>)
      requires Valid() && top < |perms.roles|
      requires forall m :: m in crew ==> owner != Some(m) && Hierarchy.Top(perms, m) <= top
      modifies this
      ensures Valid() && IsRun(owner, maxUsers, events, trace)
      ensures trace[0] == old(Now()) && trace[|events|] == Now()
      ensures IssuedBy(Script(owner, events, trace, |events|), crew) ==> SeniorsHold(old(perms), perms, top)
    {
      hide *;
      Open();
      NowIs();
      ghost var start := Now();
      trace := Run(events);
      NowIs();
      RunShape(owner, maxUsers, events, trace);
      ValidAtIs(owner, maxUsers, trace[0]);
      if IssuedBy(Script(owner, events, trace, |events|), crew) {
        CrewCannotClimb(owner, maxUsers, events, trace, |events|, crew, top);
      }
    }

    /** A run whose writes were all stored, then a restart from the tables. */
    method RunAndRestart(events: seq<Event>, seed: ChannelMap) returns (ps: PermState, rooms: ChannelMap)
      requires Valid() && Synced(tables, perms, channels) && AllStore(events)
      requires forall c :: c in seed ==> seed[c].id == c && seed[c].overwrites == []
      modifies this
      ensures Valid()
      ensures SameAnswers(perms, channels, ps, rooms) <==> channels != map[] || seed == map[]
    {
      hide *;
      NowIs();
      ghost var trace := Run(events);
      NowIs();
      RunShape(owner, maxUsers, events, trace);
      RunKeepsSynced(owner, maxUsers, events, trace, |events|);
      Open();
      Unpack(perms, channels, clients, owner, maxUsers);
      RolesStored(tables, perms, channels);
      var reloaded;
      ps, rooms, reloaded := Restart(tables, seed);
      RestartEquivalence(tables, perms, channels, seed, ps, rooms, reloaded);
    }
  }
}
