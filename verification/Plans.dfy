/**
What one command is about to make true, stated on values: for each mutation, the facts the fan-out and the resync need
and the state everyone left at the end will be right about (crates/pickle-server/src/state.rs, admin.rs).
*/
module Plans {
  import opened Common
  import opened Perms
  import opened RoleTable
  import opened Channels
  import opened Mirror
  import opened Visibility
  import opened ServerState
  import opened Store

  /**
  `m` is what a client lists while it is being brought from `was` to `channels`: only touched rooms may be out of
  date.
  */
  ghost predicate Stale(m: ChannelMap, was: set<ChannelId>, touched: set<ChannelId>, channels: ChannelMap) {
    m.Keys == was && forall id :: id in was && id in channels && id !in touched ==> m[id] == channels[id]
  }

  ghost predicate AllStale(clients: Clients, views: Views, was: map<ClientId, set<ChannelId>>,
                           touched: set<ChannelId>, channels: ChannelMap) {
    forall c :: c in clients ==> c in views && c in was && Stale(views[c].channels, was[c], touched, channels)
  }

  type Lists = map<ClientId, set<ChannelId>>

  function VisibleIds(roles: seq<Role>, clients: Clients, channels: ChannelMap): Lists {
    map c | c in clients :: Visible(roles, clients[c].info, channels).Keys
  }

  function WithInfos(clients: Clients, infos: Infos): Clients
    requires clients.Keys <= infos.Keys
  {
    map c | c in clients :: clients[c].(info := infos[c])
  }

  function WithList(views: Views, c: ClientId, list: ChannelMap): Views {
    if c in views then views[c := views[c].(channels := list)] else views
  }

  function Rooms(channels: ChannelMap, ids: set<ChannelId>): ChannelMap {
    map id | id in ids && id in channels :: channels[id]
  }

  lemma ListGains(views: Views, c: ClientId, list: ChannelMap, channel: Channel)
    ensures ToldOne(WithList(views, c, list), c, ChannelCreated(channel)) ==
            WithList(views, c, list[channel.id := channel])
    ensures ToldOne(WithList(views, c, list), c, ChannelUpdated(channel)) ==
            WithList(views, c, list[channel.id := channel])
  {
  }

  function Shrunk(list: ChannelMap, gone: set<ChannelId>): ChannelMap { list - gone }

  lemma ListLoses(views: Views, c: ClientId, list: ChannelMap, lost: set<ChannelId>, todo: set<ChannelId>,
                  id: ChannelId)
    requires id in todo && todo <= lost
    ensures ToldOne(WithList(views, c, Shrunk(list, lost - todo)), c, ChannelRemoved(id)) ==
            WithList(views, c, Shrunk(list, lost - (todo - {id})))
  {
    assert Shrunk(list, lost - todo) - {id} == Shrunk(list, lost - (todo - {id}));
  }

  lemma NothingMoved(list: ChannelMap, channels: ChannelMap)
    ensures Shrunk(list, {}) == list && Grown(list, channels, {}) == list
  {
  }

  function Grown(list: ChannelMap, channels: ChannelMap,
                 done: set<ChannelId>): ChannelMap { list + Rooms(channels, done) }

  lemma GrownByOne(list: ChannelMap, channels: ChannelMap, ids: set<ChannelId>, todo: set<ChannelId>, id: ChannelId)
    requires ChannelsOk(channels) && id in channels && id in todo && todo <= ids
    ensures Grown(list, channels, ids - todo)[channels[id].id := channels[id]] ==
            Grown(list, channels, ids - (todo - {id}))
  {
  }

  /** Clients not yet visited by the resync still have their old list; the others have the rooms they may see now. */
  ghost predicate HalfSynced(clients: Clients, views: Views, current: Views, todo: set<ClientId>,
                             after: Lists, channels: ChannelMap)
  {
    forall c :: c in clients ==>
      && c in views && c in current && c in after
      && current[c] == if c in todo then views[c] else views[c].(channels := Rooms(channels, after[c]))
  }

  lemma HalfSyncedStarts(clients: Clients, views: Views, was: Lists, touched: set<ChannelId>,
                         roles: seq<Role>, channels: ChannelMap)
    requires AllStale(clients, views, was, touched, channels)
    ensures HalfSynced(clients, views, views, was.Keys, VisibleIds(roles, clients, channels), channels)
  {
  }

  lemma HalfSyncedStep(start: Clients, clients: Clients, views: Views, current: Views, todo: set<ClientId>,
                       after: Lists, channels: ChannelMap, c: ClientId)
    requires HalfSynced(start, views, current, todo, after, channels) && Survivors(start, clients) && c in todo
    requires c in start
    ensures HalfSynced(clients, views, WithList(current, c, Rooms(channels, after[c])), todo - {c}, after, channels)
  {
  }

  lemma HalfSyncedSkip(clients: Clients, views: Views, current: Views, todo: set<ClientId>,
                       after: Lists, channels: ChannelMap, c: ClientId)
    requires HalfSynced(clients, views, current, todo, after, channels) && !(c in after && c in clients)
    ensures HalfSynced(clients, views, current, todo - {c}, after, channels)
  {
  }

  /** What one client's turn starts from. */
  lemma HalfSyncedAt(start: Clients, clients: Clients, views: Views, current: Views, todo: set<ClientId>,
                     was: Lists, touched: set<ChannelId>, roles: seq<Role>,
                     channels: ChannelMap, c: ClientId)
    requires AllStale(start, views, was, touched, channels) && Survivors(start, clients) && c in clients && c in todo
    requires HalfSynced(clients, views, current, todo, VisibleIds(roles, start, channels), channels)
    ensures c in views && c in was && WithList(current, c, views[c].channels) == current
    ensures c in VisibleIds(roles, start, channels) && VisibleIds(roles, start, channels)[c] <= channels.Keys
    ensures Stale(views[c].channels, was[c], touched, channels)
  {
  }

  lemma {:induction false} HalfSyncedEnds(start: Clients, clients: Clients, views: Views, current: Views,
                                          roles: seq<Role>, channels: ChannelMap)
    requires Survivors(start, clients) && Tracks(clients, current)
    requires HalfSynced(clients, views, current, {}, VisibleIds(roles, start, channels), channels)
    ensures Tracks(clients, Resynced(views, InfosOf(start), roles, channels))
  {
    hide Seen, Alike, Visible;
    RoomsAreVisible(start, roles, channels);
    TracksOnLive(clients, current, Resynced(views, InfosOf(start), roles, channels));
  }

  /** Gains, losses and changes together turn a stale list into the current one. */
  lemma ListCurrent(list: ChannelMap, was: set<ChannelId>, now: set<ChannelId>, touched: set<ChannelId>,
                    channels: ChannelMap)
    requires Stale(list, was, touched, channels) && now <= channels.Keys
    ensures var kept := Shrunk(Grown(list, channels, Gained(was, now)), Gained(now, was));
            Grown(kept, channels, Changed(was, now, touched)) == Rooms(channels, now)
    ensures Gained(was, now) <= channels.Keys && Changed(was, now, touched) <= channels.Keys
  {
  }

  lemma {:induction false} BroadcastReaches(s: Session, v: View, f: Frame, live: set<ClientId>, fewer: set<ClientId>)
    requires Alike(Seen(s), v, live) && fewer <= live
    ensures Alike(Seen(s), v, fewer)
    ensures |s.queue| < QUEUE_DEPTH ==> Alike(Seen(Offer(s, f)), Apply(v, f), fewer)
  {
    AlikeShrinks(Seen(s), v, live, fewer);
    if |s.queue| < QUEUE_DEPTH {
      OfferSeen(s, f);
      AlikeApply(Seen(s), v, fewer, f);
    }
  }

  function Offered(clients: Clients, f: Frame, except: Option<ClientId>): Clients {
    map c | c in clients :: if Some(c) == except then clients[c] else Offer(clients[c], f)
  }

  function Overflowed(clients: Clients, except: Option<ClientId>): set<ClientId> {
    set c | c in clients && Some(c) != except && |clients[c].queue| >= QUEUE_DEPTH
  }

  /** Those about to be dropped aside, each client's view is the given one as far as the rest are concerned. */
  ghost predicate TracksBut(clients: Clients, views: Views, ids: set<ClientId>) {
    && QueuesOk(clients)
    && forall c :: c in clients && c !in ids ==> c in views && Alike(Seen(clients[c]), views[c], clients.Keys - ids)
  }

  /** Clients with room for a broadcast see it; those without are exactly the ones to be dropped. */
  lemma {:induction false} OfferedTracks(clients: Clients, views: Views, f: Frame, except: Option<ClientId>)
    requires Tracks(clients, views)
    ensures TracksBut(Offered(clients, f, except), Told(views, f, except), Overflowed(clients, except))
    ensures Offered(clients, f, except).Keys == clients.Keys && Survivors(clients, Offered(clients, f, except))
  {
    hide Seen, Alike, Apply;
    var offered := Offered(clients, f, except);
    assert offered.Keys == clients.Keys;
    forall c | c in offered && c !in Overflowed(clients, except)
      ensures Alike(Seen(offered[c]), Told(views, f, except)[c], offered.Keys - Overflowed(clients, except))
    {
      BroadcastReaches(clients[c], views[c], f, clients.Keys, clients.Keys - Overflowed(clients, except));
    }
  }

  lemma {:induction false} SentTracks(clients: Clients, views: Views, to: ClientId, f: Frame)
    requires Tracks(clients, views) && to in clients && |clients[to].queue| < QUEUE_DEPTH
    ensures var sent := clients[to := Offer(clients[to], f)];
            && sent.Keys == clients.Keys && Survivors(clients, sent) && Tracks(sent, ToldOne(views, to, f))
            && PatientAmong(clients, sent, {to}, 1)
  {
    hide Seen, Alike, Apply, PatientAmong;
    OfferSeen(clients[to], f);
    AlikeApply(Seen(clients[to]), views[to], clients.Keys, f);
    assert clients[to := Offer(clients[to], f)].Keys == clients.Keys;
    SentOne(clients, clients[to := Offer(clients[to], f)], to, f);
  }

  lemma {:induction false} FullTracks(clients: Clients, views: Views, to: ClientId, f: Frame)
    requires Tracks(clients, views)
    ensures TracksBut(clients, ToldOne(views, to, f), {to})
  {
    hide Seen, Alike, Apply;
    forall c | c in clients && c !in {to} ensures Alike(Seen(clients[c]), views[c], clients.Keys - {to}) {
      AlikeShrinks(Seen(clients[c]), views[c], clients.Keys, clients.Keys - {to});
    }
  }

  lemma ToNobody(clients: Clients, views: Views, to: ClientId, f: Frame)
    requires Tracks(clients, views) && to !in clients
    ensures Survivors(clients, clients) && Tracks(clients, ToldOne(views, to, f))
  {
    hide Seen, Alike, Apply;
  }

  // ---- Who hears what ----------------------------------------------------------------------------

  /** Whoever is still connected was sent this last. */
  ghost predicate HeardLast(clients: Clients, c: ClientId, f: Frame) {
    c in clients ==> |clients[c].queue| > 0 && clients[c].queue[|clients[c].queue| - 1] == f
  }

  /** Everyone still connected, one aside, has this next after what was queued for them before. */
  ghost predicate AllHeard(before: Clients, after: Clients, f: Frame, except: Option<ClientId>) {
    forall c :: c in before && c in after && Some(c) != except ==> before[c].queue + [f] <= after[c].queue
  }

  lemma {:induction false} SentIsHeard(clients: Clients, to: ClientId, f: Frame)
    requires to in clients && |clients[to].queue| < QUEUE_DEPTH
    ensures HeardLast(clients[to := Offer(clients[to], f)], to, f)
  {
  }

  lemma NobodyToHear(clients: Clients, c: ClientId, f: Frame)
    requires c !in clients
    ensures HeardLast(clients, c, f)
  {
  }

  lemma {:induction false} BroadcastIsHeard(before: Clients, f: Frame, except: Option<ClientId>, after: Clients)
    requires Survivors(Offered(before, f, except), after)
    requires after.Keys == before.Keys - Overflowed(before, except)
    ensures AllHeard(before, after, f, except)
  {
  }

  lemma {:induction false} HeardThen(a: Clients, b: Clients, c: Clients, f: Frame, except: Option<ClientId>)
    requires AllHeard(a, b, f, except) && Survivors(b, c)
    ensures AllHeard(a, c, f, except)
  {
    forall x | x in a && x in c && Some(x) != except ensures a[x].queue + [f] <= c[x].queue {
      assert b[x].queue <= c[x].queue;
    }
  }

  lemma {:induction false} HeardUnder(a: Clients, a': Clients, b: Clients, f: Frame, except: Option<ClientId>)
    requires AllHeard(a', b, f, except)
    requires forall c :: c in a && c in b && Some(c) != except ==> c in a' && a'[c].queue == a[c].queue
    ensures AllHeard(a, b, f, except)
  {
  }

  lemma HeardWithout(a: Clients, gone: ClientId, b: Clients, f: Frame, except: Option<ClientId>)
    requires AllHeard(a - {gone}, b, f, except) && gone !in b
    ensures AllHeard(a, b, f, except)
  {
  }

  lemma HeardWith(a: Clients, c: ClientId, info: UserInfo, b: Clients, f: Frame)
    requires c in a && AllHeard(a[c := a[c].(info := info)], b, f, None)
    ensures AllHeard(a, b, f, None)
  {
  }

  /** Nobody is excepted who is gone anyway. */
  lemma HeardByAll(before: Clients, after: Clients, f: Frame, except: Option<ClientId>, gone: ClientId)
    requires AllHeard(before, after, f, except) && gone !in after && (except.Some? ==> except == Some(gone))
    ensures AllHeard(before, after, f, None)
  {
  }

  /** One client is gone and the others are told, if they have room for it. */
  function Dropped(clients: Clients, id: ClientId): Clients {
    map c | c in clients && c != id :: Offer(clients[c], UserLeft(id))
  }

  /** Some of those to be dropped are gone; the others are as they were told, farewells aside. */
  ghost predicate Dropping(start: Clients, now: Clients, ids: set<ClientId>, todo: set<ClientId>, views: Views) {
    && todo <= ids && now.Keys == start.Keys - (ids - todo)
    && Survivors(start, now) && QueuesOk(now) && OnlyFarewells(start, now)
    && forall c :: c in now && c !in ids ==> c in views && Alike(Seen(now[c]), views[c], start.Keys - ids)
  }

  lemma DroppingStarts(clients: Clients, ids: set<ClientId>, views: Views)
    requires TracksBut(clients, views, ids)
    ensures Dropping(clients, clients, ids, ids, views)
  {
    hide Seen, Alike;
  }

  lemma {:induction false} DroppingStep(start: Clients, now: Clients, ids: set<ClientId>, todo: set<ClientId>,
                                        views: Views, id: ClientId)
    requires Dropping(start, now, ids, todo, views) && id in todo && id in now
    ensures Dropping(start, Dropped(now, id), ids, todo - {id}, views)
  {
    hide Seen, Alike, Apply, OnlyFarewells, Offer;
    var next, live := Dropped(now, id), start.Keys - ids;
    OnlyFarewell(start, now, id);
    OfferIs(now, UserLeft(id));
    assert next.Keys == start.Keys - (ids - (todo - {id}));
    forall c | c in next && c !in ids ensures Alike(Seen(next[c]), views[c], live) {
      OfferFarewell(now[c], id, views[c], live);
    }
  }

  lemma OfferIs(clients: Clients, f: Frame)
    requires QueuesOk(clients)
    ensures forall c :: c in clients ==>
              Continues(clients[c], Offer(clients[c], f)) && |Offer(clients[c], f).queue| <= QUEUE_DEPTH
  {
  }

  lemma DroppingSkip(start: Clients, now: Clients, ids: set<ClientId>, todo: set<ClientId>, views: Views, id: ClientId)
    requires Dropping(start, now, ids, todo, views) && id in todo && id !in now
    ensures Dropping(start, now, ids, todo - {id}, views)
  {
    hide Seen, Alike, Apply, OnlyFarewells, Survivors, QueuesOk;
  }

  lemma DroppingEnds(start: Clients, now: Clients, ids: set<ClientId>, views: Views)
    requires Dropping(start, now, ids, {}, views)
    ensures now.Keys == start.Keys - ids && Survivors(start, now) && Tracks(now, views) && OnlyFarewells(start, now)
  {
    hide Seen, Alike;
    assert now.Keys == start.Keys - ids;
  }

  lemma RoomsAreVisible(clients: Clients, roles: seq<Role>, channels: ChannelMap)
    ensures forall c :: c in clients ==>
              Rooms(channels, VisibleIds(roles, clients, channels)[c]) == Visible(roles, InfosOf(clients)[c], channels)
  {
  }

  lemma {:induction false} NothingAnnounced(views: Views)
    ensures AllAnnounced(views, views, map[])
  {
    forall c | c in views ensures Announced(views[c], views[c], map[]) {
      assert views[c].users + Standings(map[]) == views[c].users;
    }
  }

  lemma {:induction false} AnnouncedOneMore(views: Views, after: Views, told: Infos, done: Infos, u: ClientId)
    requires OneStandingEach(told) && u in told && u !in done
    requires forall x :: x in done ==> x in told && done[x] == told[x]
    requires AllAnnounced(views, after, done)
    ensures AllAnnounced(views, Told(after, UserUpdated(told[u]), None), done[u := told[u]])
  {
    forall c | c in views ensures Announced(views[c], Apply(after[c], UserUpdated(told[u])), done[u := told[u]]) {
      AnnounceOne(views[c], after[c], told, done, u);
    }
  }

  // ---- Supporting facts about commands ---------------------------------------------------------------

  lemma {:induction false} SamePeople(infos: Infos, ps: PermState, ps': PermState, owner: Option<Fingerprint>,
                                      channels: ChannelMap, maxUsers: nat)
    requires InfosOk(infos, ps, owner, channels, maxUsers) && ps'.members == ps.members
    ensures InfosOk(infos, ps', owner, channels, maxUsers)
  {
    forall c | c in infos ensures InfoOk(c, infos[c], ps', owner, channels) {
      assert InfoOk(c, infos[c], ps, owner, channels);
    }
  }

  lemma {:induction false} CreateStored(t: Tables, ps: PermState, channels: ChannelMap, name: string,
                                        permissions: Permissions)
    requires TableOk(ps.roles)
    ensures Synced(t, ps, channels) ==>
              var role := NewRole(ps, name, permissions);
              var rows := SetRolePositions(t.roles, ShiftedPositions(ps.roles));
              InsertRole(rows, role).Some? && Synced(t.(roles := InsertRole(rows, role).value), AfterCreate(ps, role),
                                                     channels)
  {
    if Synced(t, ps, channels) {
      CreateMatches(t.roles, ps, name, permissions);
      SameGrants(t.grants, ps, AfterCreate(ps, NewRole(ps, name, permissions)));
    }
  }

  lemma {:induction false} SameGrants(grants: set<(Fingerprint, RoleId)>, ps: PermState, ps': PermState)
    requires GrantsMatch(grants, ps) && ps'.members == ps.members
    ensures GrantsMatch(grants, ps')
  {
    forall m, id ensures (m, id) in grants <==> id in Grants(ps', m) {
      assert (m, id) in grants <==> id in Grants(ps, m);
    }
  }

  lemma {:induction false} UpdateStored(t: Tables, ps: PermState, channels: ChannelMap, k: nat, updated: Role)
    requires TableOk(ps.roles) && k < |ps.roles| && updated.id == ps.roles[k].id && updated.position == k
    ensures Synced(t, ps, channels) ==>
              Synced(t.(roles := UpdateRoleRow(t.roles, updated)), ps.(roles := ReplaceRole(ps.roles, updated)),
                     channels)
  {
    if Synced(t, ps, channels) {
      UpdateMatches(t.roles, ps.roles, k, updated);
      SameGrants(t.grants, ps, ps.(roles := ReplaceRole(ps.roles, updated)));
    }
  }

  /** Whoever is left of those a mutation started with is told enough to be right about what it left behind. */
  ghost predicate Ready(infos: Infos, views: Views, ps: PermState, channels: ChannelMap, owner: Option<Fingerprint>,
                        maxUsers: nat) {
    && PermsOk(ps) && ChannelsOk(channels)
    && InfosOk(infos, ps, owner, channels, maxUsers)
    && AllRight(views, infos, ps.roles, channels)
  }

  lemma AllStaleFewer(before: Clients, after: Clients, views: Views, was: Lists,
                      touched: set<ChannelId>, channels: ChannelMap)
    requires AllStale(before, views, was, touched, channels) && Survivors(before, after)
    ensures AllStale(after, views, was, touched, channels)
  {
  }

  // ---- Who is dropped, and who is not ------------------------------------------------------------

  /**
  What n frames for one client may do to it, farewells to the departed included: its queue grows by no more than n and
  one for each departure, and it is dropped only if that did not fit.
  */
  ghost predicate Bears(before: Clients, after: Clients, c: ClientId, n: nat)
    requires c in before
  {
    if c in after then |after[c].queue| <= |before[c].queue| + n + |before| - |after|
    else |before[c].queue| + n + |before| - |after| > QUEUE_DEPTH
  }

  /** Frames for some clients, at most n each: nobody else is dropped. */
  ghost predicate PatientAmong(before: Clients, after: Clients, who: set<ClientId>, n: nat) {
    && after.Keys <= before.Keys && |after| <= |before|
    && (forall c :: c in before ==>
          Bears(before, after, c, if c in who then n else 0)) && (forall c :: c in before && c !in who ==> c in after)
  }

  /** At most n frames for everyone: those expelled aside, a client that had room for them is still there. */
  ghost predicate Patience(before: Clients, after: Clients, expelled: set<ClientId>, n: nat) {
    && after.Keys <= before.Keys && |after| <= |before|
    && forall c :: c in before && (c in after || c !in expelled) ==> Bears(before, after, c, n)
  }

  lemma {:induction false} AmongChain(a: Clients, b: Clients, c: Clients, who: set<ClientId>, n: nat, m: nat)
    requires Survivors(a, b) && Survivors(b, c) && PatientAmong(a, b, who, n) && PatientAmong(b, c, who, m)
    ensures Survivors(a, c) && PatientAmong(a, c, who, n + m)
  {
  }

  /** How many frames each client is due, nobody else any. */
  ghost predicate PatientBy(before: Clients, after: Clients, due: map<ClientId, nat>) {
    && after.Keys <= before.Keys && |after| <= |before|
    && (forall c :: c in before ==> Bears(before, after, c, if c in due then due[c] else 0))
    && (forall c :: c in before && c !in due ==> c in after)
  }

  /** Frames for one more client, after those for others. */
  lemma {:induction false} ByMore(a: Clients, b: Clients, c: Clients, due: map<ClientId, nat>, one: ClientId, m: nat)
    requires Survivors(a, b) && Survivors(b, c) && PatientBy(a, b, due) && PatientAmong(b, c, {one}, m)
    requires one !in due
    ensures Survivors(a, c) && PatientBy(a, c, due[one := m])
  {
    hide Survivors;
    SurvivorsChain(a, b, c);
    forall x | x in a ensures Bears(a, c, x, if x == one then m else if x in due then due[x] else 0) {
      BearsMore(a, b, c, due, one, m, x);
    }
  }

  lemma {:induction false} BearsMore(a: Clients, b: Clients, c: Clients, due: map<ClientId, nat>, one: ClientId,
                                     m: nat, x: ClientId)
    requires PatientBy(a, b, due) && PatientAmong(b, c, {one}, m) && one !in due && x in a
    ensures Bears(a, c, x, if x == one then m else if x in due then due[x] else 0)
  {
    assert Bears(a, b, x, if x in due then due[x] else 0);
    if x in b {
      assert Bears(b, c, x, if x == one then m else 0);
    }
  }

  lemma {:induction false} ByNobody(a: Clients)
    ensures PatientBy(a, a, map[])
  {
  }

  lemma {:induction false} ByLess(a: Clients, b: Clients, less: map<ClientId, nat>, due: map<ClientId, nat>)
    requires PatientBy(a, b, less) && forall c :: c in less ==> c in due && less[c] <= due[c]
    ensures PatientBy(a, b, due)
  {
  }

  /** No more than n are due to anybody. */
  lemma {:induction false} ByAll(a: Clients, b: Clients, due: map<ClientId, nat>, n: nat)
    requires PatientBy(a, b, due) && forall c :: c in due ==> due[c] <= n
    ensures Patience(a, b, {}, n)
  {
  }

  /** The frames a resync owes each client: one for each room its list gains, loses or keeps changed. */
  function Dues(before: Lists, after: Lists, touched: set<ChannelId>): map<ClientId, nat> {
    map c | c in before && c in after :: SyncFrames(before[c], after[c], touched)
  }

  lemma DuesAre(before: Lists, after: Lists, touched: set<ChannelId>)
    ensures var dues := Dues(before, after, touched);
            && (forall c :: c in dues <==> c in before && c in after)
            && (forall c :: c in dues ==> dues[c] == SyncFrames(before[c], after[c], touched))
  {
    hide SyncFrames;
  }

  lemma {:induction false} DuesWithin(before: Lists, roles: seq<Role>, clients: Clients, channels: ChannelMap,
                                      touched: set<ChannelId>, rooms: set<ChannelId>)
    requires AllWithin(before, rooms) && channels.Keys <= rooms
    ensures var dues := Dues(before, VisibleIds(roles, clients, channels), touched);
            forall c :: c in dues ==> dues[c] <= Count(rooms)
  {
    hide SyncFrames, Count;
    var after := VisibleIds(roles, clients, channels);
    forall c | c in before && c in after ensures SyncFrames(before[c], after[c], touched) <= Count(rooms) {
      OneFrameARoom(before[c], after[c], touched, rooms);
    }
  }

  /** What the resync after each command owes everyone. */
  function OwedUpdate(roles: seq<Role>, next: seq<Role>, clients: Clients, channels: ChannelMap): map<ClientId, nat> {
    Dues(VisibleIds(roles, clients, channels), VisibleIds(next, clients, channels), {})
  }

  function OwedDelete(ps: PermState, clients: Clients, channels: ChannelMap, id: RoleId): map<ClientId, nat> {
    Dues(VisibleIds(ps.roles, clients, channels),
         VisibleIds(AfterDelete(ps, id).roles, StrippedSessions(clients, id), StripRole(channels, id)),
         Naming(channels, id))
  }

  function OwedGrant(ps: PermState, clients: Clients, channels: ChannelMap, member: Fingerprint,
                     ids: seq<RoleId>): map<ClientId, nat> {
    Dues(VisibleIds(ps.roles, clients, channels),
         VisibleIds(ps.roles, RegrantedSessions(clients, member, ids), channels), {})
  }

  function OwedEdit(ps: PermState, clients: Clients, channels: ChannelMap, next: ChannelMap,
                    touched: set<ChannelId>): map<ClientId, nat> {
    Dues(VisibleIds(ps.roles, clients, channels), VisibleIds(ps.roles, clients, next), touched)
  }

  function OwedRemoval(ps: PermState, clients: Clients, channels: ChannelMap, id: ChannelId): map<ClientId, nat> {
    Dues(VisibleIds(ps.roles, clients, channels),
         VisibleIds(ps.roles, EvictedSessions(clients, id), channels - {id}), {})
  }

  lemma OwedAre(roles: seq<Role>, next: seq<Role>, ps: PermState, clients: Clients, channels: ChannelMap,
                channels': ChannelMap, touched: set<ChannelId>)
    ensures OwedUpdate(roles, next, clients, channels) ==
            Dues(VisibleIds(roles, clients, channels), VisibleIds(next, clients, channels), {})
    ensures OwedEdit(ps, clients, channels, channels', touched) ==
            Dues(VisibleIds(ps.roles, clients, channels), VisibleIds(ps.roles, clients, channels'), touched)
  {
    hide Dues, VisibleIds;
  }

  lemma OwedDeleteIs(ps: PermState, clients: Clients, channels: ChannelMap, id: RoleId)
    ensures OwedDelete(ps, clients, channels, id) ==
            Dues(VisibleIds(ps.roles, clients, channels),
                 VisibleIds(AfterDelete(ps, id).roles, StrippedSessions(clients, id), StripRole(channels, id)),
                 Naming(channels, id))
  {
    hide Dues, VisibleIds, AfterDelete, StrippedSessions, StripRole, Naming;
  }

  lemma OwedGrantIs(ps: PermState, clients: Clients, channels: ChannelMap, member: Fingerprint, ids: seq<RoleId>)
    ensures OwedGrant(ps, clients, channels, member, ids) ==
            Dues(VisibleIds(ps.roles, clients, channels),
                 VisibleIds(AfterGrant(ps, member, ids).roles, RegrantedSessions(clients, member, ids), channels), {})
  {
    hide Dues, VisibleIds, RegrantedSessions;
  }

  lemma OwedRemovalIs(ps: PermState, clients: Clients, channels: ChannelMap, id: ChannelId)
    ensures OwedRemoval(ps, clients, channels, id) ==
            Dues(VisibleIds(ps.roles, clients, channels),
                 VisibleIds(ps.roles, EvictedSessions(clients, id), channels - {id}), {})
  {
    hide Dues, VisibleIds, EvictedSessions;
  }

  /** At most n frames for everyone, and to each what it is due besides. */
  ghost predicate PatienceFor(before: Clients, after: Clients, n: nat, due: map<ClientId, nat>) {
    && after.Keys <= before.Keys && |after| <= |before|
    && forall c :: c in before ==> Bears(before, after, c, n + if c in due then due[c] else 0)
  }

  /** Whoever had room for its frames, and for a farewell to each connected client, is still there. */
  lemma {:induction false} RoomForDues(a: Clients, b: Clients, n: nat, due: map<ClientId, nat>, c: ClientId)
    requires PatienceFor(a, b, n, due) && c in a
    requires |a[c].queue| + n + (if c in due then due[c] else 0) + |a| <= QUEUE_DEPTH
    ensures c in b
  {
  }

  lemma {:induction false} ForAfter(a: Clients, b: Clients, c: Clients, n: nat, due: map<ClientId, nat>)
    requires Patience(a, b, {}, n) && PatientBy(b, c, due)
    ensures PatienceFor(a, c, n, due)
  {
    forall x | x in a ensures Bears(a, c, x, n + if x in due then due[x] else 0) {
      assert Bears(a, b, x, n);
    }
  }

  lemma {:induction false} ForOnward(a: Clients, b: Clients, c: Clients, n: nat, due: map<ClientId, nat>, m: nat)
    requires PatienceFor(a, b, n, due) && Patience(b, c, {}, m)
    ensures PatienceFor(a, c, n + m, due)
  {
    forall x | x in a ensures Bears(a, c, x, n + m + if x in due then due[x] else 0) {
      assert Bears(a, b, x, n + if x in due then due[x] else 0);
    }
  }

  lemma {:induction false} ForDeclined(a: Clients, b: Clients, n: nat, due: map<ClientId, nat>)
    requires Patience(a, b, {}, 1) && 1 <= n
    ensures PatienceFor(a, b, n, due)
  {
  }

  /** The same queues under other infos. */
  lemma {:induction false} ForQueues(a: Clients, infos: Infos, b: Clients, n: nat, due: map<ClientId, nat>)
    requires infos.Keys == a.Keys && PatienceFor(WithInfos(a, infos), b, n, due)
    ensures PatienceFor(a, b, n, due)
  {
    assert WithInfos(a, infos).Keys == a.Keys;
    assert |WithInfos(a, infos)| == |WithInfos(a, infos).Keys| && |a| == |a.Keys|;
  }

  /** Frames about some of the connected, then a resync. */
  lemma {:induction false} ForRetold(a: Clients, infos: Infos, b: Clients, c: Clients, told: nat,
                                     due: map<ClientId, nat>)
    requires infos.Keys == a.Keys && Patience(WithInfos(a, infos), b, {}, told) && PatientBy(b, c, due)
    ensures PatienceFor(a, c, told, due)
  {
    hide Patience, PatientBy, PatienceFor, WithInfos;
    ForAfter(WithInfos(a, infos), b, c, told, due);
    ForQueues(a, infos, c, told, due);
  }

  /** What is owed counts for those dropped in between as well. */
  lemma {:induction false} OwedFewer(start: Clients, a: Clients, b: Clients, before: Lists, roles: seq<Role>,
                                     channels: ChannelMap, touched: set<ChannelId>)
    requires Survivors(start, a) && PatientBy(a, b, Dues(before, VisibleIds(roles, a, channels), touched))
    ensures PatientBy(a, b, Dues(before, VisibleIds(roles, start, channels), touched))
  {
    hide SyncFrames, Visible, PatientBy;
    ByLess(a, b, Dues(before, VisibleIds(roles, a, channels), touched),
           Dues(before, VisibleIds(roles, start, channels), touched));
  }

  lemma {:induction false} AmongNobody(a: Clients, who: set<ClientId>, n: nat)
    ensures PatientAmong(a, a, who, n)
  {
  }

  lemma {:induction false} AmongAll(a: Clients, b: Clients, who: set<ClientId>, n: nat)
    requires PatientAmong(a, b, who, n)
    ensures Patience(a, b, {}, n)
  {
  }

  lemma {:induction false} PatienceChain(a: Clients, b: Clients, c: Clients, expelled: set<ClientId>, n: nat, m: nat)
    requires Patience(a, b, expelled, n) && Patience(b, c, expelled, m)
    ensures Patience(a, c, expelled, n + m)
  {
  }

  lemma {:induction false} PatienceMore(a: Clients, b: Clients, expelled: set<ClientId>, n: nat, more: set<ClientId>,
                                        m: nat)
    requires Patience(a, b, expelled, n) && expelled <= more && n <= m
    ensures Patience(a, b, more, m)
  {
  }

  /** The same queues under other infos. */
  lemma {:induction false} SameQueues(a: Clients, infos: Infos, b: Clients, n: nat)
    requires infos.Keys == a.Keys && Patience(WithInfos(a, infos), b, {}, n)
    ensures Patience(a, b, {}, n)
  {
    assert WithInfos(a, infos).Keys == a.Keys;
    assert |WithInfos(a, infos)| == |WithInfos(a, infos).Keys| && |a| == |a.Keys|;
  }

  /** Frames about some of the connected, then a resync, as everyone bears them. */
  lemma {:induction false} Retold(a: Clients, infos: Infos, b: Clients, c: Clients, told: nat, people: nat, rooms: nat)
    requires infos.Keys == a.Keys && Patience(WithInfos(a, infos), b, {}, told) && Patience(b, c, {}, rooms)
    requires told <= people
    ensures Patience(a, c, {}, people + rooms)
  {
    hide Patience, WithInfos;
    PatienceChain(WithInfos(a, infos), b, c, {}, told, rooms);
    SameQueues(a, infos, c, told + rooms);
    PatienceMore(a, c, {}, told + rooms, {}, people + rooms);
  }

  lemma {:induction false} SameQueue(a: Clients, c: ClientId, info: UserInfo, b: Clients, n: nat)
    requires c in a && Patience(a[c := a[c].(info := info)], b, {}, n)
    ensures Patience(a, b, {}, n)
  {
    assert a[c := a[c].(info := info)].Keys == a.Keys;
    assert |a[c := a[c].(info := info)]| == |a[c := a[c].(info := info)].Keys| && |a| == |a.Keys|;
  }

  /** Someone is sent away before the rest are told. */
  lemma {:induction false} SentAway(a: Clients, gone: ClientId, b: Clients, n: nat)
    requires Patience(a - {gone}, b, {}, n)
    ensures Patience(a, b, {gone}, n)
  {
    assert (a - {gone}).Keys == a.Keys - {gone};
    assert |a - {gone}| == |(a - {gone}).Keys| && |a| == |a.Keys|;
    Fewer((a - {gone}).Keys, a.Keys);
  }

  /** Several are sent away, each farewell counted for those who stay. */
  lemma {:induction false} SentAwayAll(a: Clients, gone: set<ClientId>, b: Clients, n: nat)
    requires Patience(a, b, gone, n) && gone <= a.Keys && b.Keys !! gone
    ensures Patience(a - gone, b, {}, n + Count(gone))
  {
    assert (a - gone).Keys == a.Keys - gone && |a.Keys - gone| == |a.Keys| - |gone|;
    assert |a - gone| == |(a - gone).Keys| && |a| == |a.Keys| && |b| == |b.Keys|;
    Fewer(b.Keys, (a - gone).Keys);
  }

  ghost predicate SameQueuesIn(a: Clients, b: Clients) {
    a.Keys == b.Keys && forall c :: c in a ==> a[c].queue == b[c].queue
  }

  lemma {:induction false} PatienceOf(a: Clients, a': Clients, b: Clients, n: nat)
    requires SameQueuesIn(a, a') && Patience(a, b, {}, n)
    ensures Patience(a', b, {}, n)
  {
    assert |a| == |a.Keys| && |a'| == |a'.Keys|;
  }

  /** So a client with room for the frames and for a farewell to each one that left is still there. */
  lemma {:induction false} RoomIsEnough(a: Clients, b: Clients, expelled: set<ClientId>, n: nat, c: ClientId)
    requires Patience(a, b, expelled, n) && c in a && c !in expelled
    requires |a[c].queue| + n + |a| <= QUEUE_DEPTH
    ensures c in b
  {
  }

  function Count<T>(s: set<T>): nat { |s| }

  lemma {:induction false} OneFewer<T>(s: set<T>, x: T)
    requires x in s
    ensures Count(s - {x}) + 1 == Count(s)
  {
  }

  lemma NoneToCount<T>(s: set<T>)
    ensures s == {} ==> Count(s) == 0
  {
  }

  /** The channels that entered a list, or left it going the other way. */
  function Gained(was: set<ChannelId>, now: set<ChannelId>): set<ChannelId> { now - was }

  /** The channels still listed that changed. */
  function Changed(was: set<ChannelId>, now: set<ChannelId>, touched: set<ChannelId>): set<ChannelId> {
    was * now * touched
  }

  /** How many frames bring one list up to date. */
  function SyncFrames(was: set<ChannelId>, now: set<ChannelId>, touched: set<ChannelId>): nat {
    Count(Gained(was, now)) + Count(Gained(now, was)) + Count(Changed(was, now, touched))
  }

  lemma SyncFramesAre(was: set<ChannelId>, now: set<ChannelId>, touched: set<ChannelId>)
    ensures SyncFrames(was, now, touched) ==
            Count(Gained(was, now)) + Count(Gained(now, was)) + Count(Changed(was, now, touched))
  {
    hide Gained, Changed, Count;
  }

  lemma {:induction false} OneFrameARoom(was: set<ChannelId>, now: set<ChannelId>, touched: set<ChannelId>,
                                         rooms: set<ChannelId>)
    requires was <= rooms && now <= rooms
    ensures SyncFrames(was, now, touched) <= Count(rooms)
  {
    var gained, lost, kept := now - was, was - now, was * now * touched;
    assert gained !! lost && (gained + lost) !! kept;
    assert |gained + lost| == |gained| + |lost| && |gained + lost + kept| == |gained + lost| + |kept|;
    Fewer(gained + lost + kept, rooms);
  }

  /** How many frames announce n users: an eviction takes two each. */
  function Notices(n: nat, evicted: bool): nat { if evicted then 2 * n else n }

  lemma NoticesMore(n: nat, evicted: bool)
    ensures Notices(n, true) == 2 * n && Notices(n, false) == n && Notices(0, evicted) == 0
    ensures Notices(n + 1, evicted) == Notices(n, evicted) + if evicted then 2 else 1
  {
  }

  /** The departed are gone; the others have at most their farewells more in their queues. */
  ghost predicate OnlyFarewells(before: Clients, after: Clients) {
    && after.Keys <= before.Keys && |after| <= |before|
    && forall c :: c in after ==> |after[c].queue| <= |before[c].queue| + |before| - |after|
  }

  lemma {:induction false} OnlyFarewell(start: Clients, now: Clients, id: ClientId)
    requires OnlyFarewells(start, now) && id in now
    ensures OnlyFarewells(start, Dropped(now, id))
  {
    var next := Dropped(now, id);
    assert next.Keys == now.Keys - {id};
    assert |next| == |next.Keys| && |now| == |now.Keys|;
  }

  lemma {:induction false} SentOne(before: Clients, after: Clients, to: ClientId, f: Frame)
    requires to in before && after == before[to := Offer(before[to], f)]
    ensures PatientAmong(before, after, {to}, 1)
  {
    assert after.Keys == before.Keys;
    assert |after| == |after.Keys| && |before| == |before.Keys|;
  }

  lemma {:induction false} DroppedOne(before: Clients, after: Clients, to: ClientId)
    requires OnlyFarewells(before, after) && to in before && |before[to].queue| >= QUEUE_DEPTH
    requires after.Keys == before.Keys - {to}
    ensures PatientAmong(before, after, {to}, 1)
  {
  }

  lemma {:induction false} BroadcastBears(before: Clients, f: Frame, except: Option<ClientId>, after: Clients)
    requires OnlyFarewells(Offered(before, f, except), after)
    requires after.Keys == before.Keys - Overflowed(before, except)
    ensures Patience(before, after, {}, 1)
  {
    var offered := Offered(before, f, except);
    assert offered.Keys == before.Keys;
    assert |offered| == |offered.Keys| && |before| == |before.Keys|;
  }

  /** Every list in question is drawn from these rooms. */
  ghost predicate AllWithin(lists: Lists, rooms: set<ChannelId>) {
    forall c :: c in lists ==> lists[c] <= rooms
  }

  lemma VisibleWithin(roles: seq<Role>, clients: Clients, channels: ChannelMap, rooms: set<ChannelId>)
    requires channels.Keys <= rooms
    ensures AllWithin(VisibleIds(roles, clients, channels), rooms)
  {
  }

  lemma {:induction false} FewTold(told: Infos, clients: Clients)
    requires told.Keys <= clients.Keys
    ensures Count(told.Keys) <= Count(clients.Keys)
  {
    Fewer(told.Keys, clients.Keys);
  }

  lemma {:induction false} FewHolders(clients: Clients, id: RoleId)
    ensures Count(Holders(InfosOf(clients), id).Keys) <= Count(clients.Keys)
  {
    hide Count;
    FewTold(Holders(InfosOf(clients), id), clients);
  }

  lemma {:induction false} FewSessions(clients: Clients, member: Fingerprint, ids: seq<RoleId>)
    ensures Count(SessionsOf(Regranted(InfosOf(clients), member, ids), member).Keys) <= Count(clients.Keys)
  {
    hide Count;
    FewTold(SessionsOf(Regranted(InfosOf(clients), member, ids), member), clients);
  }

  lemma {:induction false} FewEvicted(clients: Clients, room: ChannelId)
    ensures Count(EvictedOnly(InfosOf(clients), room).Keys) <= Count(clients.Keys)
  {
    hide Count;
    FewTold(EvictedOnly(InfosOf(clients), room), clients);
  }

  /** One step on: whoever is left, and what they bore to be left. */
  lemma {:induction false} Onward(a: Clients, b: Clients, c: Clients, n: nat, m: nat)
    requires Survivors(a, b) && Survivors(b, c) && Patience(a, b, {}, n) && Patience(b, c, {}, m)
    ensures Survivors(a, c) && Stayed(a, c) && Patience(a, c, {}, n + m)
  {
    hide Patience;
    PatienceChain(a, b, c, {}, n, m);
  }

  lemma SurvivorsChain(a: Clients, b: Clients, c: Clients)
    requires Survivors(a, b) && Survivors(b, c)
    ensures Survivors(a, c)
  {
  }

  /** Clients dropped before the resync started do not matter to it. */
  lemma {:induction false} ResyncedSurvivors(before: Clients, mid: Clients, clients: Clients, views: Views,
                                             roles: seq<Role>, channels: ChannelMap)
    requires Survivors(before, mid) && Survivors(mid, clients)
    requires Tracks(clients, Resynced(views, InfosOf(mid), roles, channels))
    ensures Tracks(clients, Resynced(views, InfosOf(before), roles, channels))
  {
    TracksOnLive(clients, Resynced(views, InfosOf(mid), roles, channels),
                 Resynced(views, InfosOf(before), roles, channels));
  }

  lemma {:induction false} SettledSurvivors(before: Clients, clients: Clients, views: Views, ps: PermState,
                                            owner: Option<Fingerprint>, channels: ChannelMap, maxUsers: nat)
    requires Survivors(before, clients) && Tracks(clients, views)
    requires Ready(InfosOf(before), views, ps, channels, owner, maxUsers)
    ensures ValidState(ps, channels, clients, owner, maxUsers)
  {
    Settled(clients, views, InfosOf(before), ps, owner, channels, maxUsers);
  }

  // ---- Plans: what a command is about to make true -----------------------------------------------------

  lemma {:induction false} StaleAsBefore(views: Views, told: Views, clients: Clients, roles: seq<Role>,
                                         channels: ChannelMap)
    requires AllRight(views, InfosOf(clients), roles, channels)
    requires forall c :: c in clients ==> c in told && told[c].channels == views[c].channels
    ensures AllStale(clients, told, VisibleIds(roles, clients, channels), {}, channels)
  {
    forall c | c in clients ensures Stale(told[c].channels, VisibleIds(roles, clients, channels)[c], {}, channels) {
      assert Right(views[c], InfosOf(clients)[c], roles, channels, InfosOf(clients));
    }
  }

  lemma {:induction false} UpdatePlan(ps: PermState, channels: ChannelMap, clients: Clients,
                                      owner: Option<Fingerprint>, maxUsers: nat, k: nat, updated: Role)
    requires ValidState(ps, channels, clients, owner, maxUsers)
    requires k < |ps.roles| && updated.id == ps.roles[k].id && updated.position == k
    ensures Tracks(clients, ViewsOf(clients)) && ChannelsOk(channels)
    ensures var told := Told(ViewsOf(clients), RoleUpdated(updated), None);
            AllStale(clients, told, VisibleIds(ps.roles, clients, channels), {}, channels)
    ensures var told := Told(ViewsOf(clients), RoleUpdated(updated), None);
            var next := ps.(roles := ReplaceRole(ps.roles, updated));
            Ready(InfosOf(clients), Resynced(told, InfosOf(clients), next.roles, channels), next, channels, owner,
                  maxUsers)
  {
    hide *;
    var views, infos := ViewsOf(clients), InfosOf(clients);
    var told, next := Told(views, RoleUpdated(updated), None), ps.(roles := ReplaceRole(ps.roles, updated));
    Unpack(ps, channels, clients, owner, maxUsers);
    UpdateKeepsPermsOk(ps, k, updated);
    UpdateAllRight(views, infos, ps.roles, channels, k, updated);
    ListsKept(clients, RoleUpdated(updated));
    StaleAsBefore(views, told, clients, ps.roles, channels);
    SamePeople(infos, ps, next, owner, channels, maxUsers);
    Pack(infos, Resynced(told, infos, next.roles, channels), next, channels, owner, maxUsers);
  }

  lemma {:induction false} Unpack(ps: PermState, channels: ChannelMap, clients: Clients, owner: Option<Fingerprint>,
                                  maxUsers: nat)
    requires ValidState(ps, channels, clients, owner, maxUsers)
    ensures PermsOk(ps) && TableOk(ps.roles) && ChannelsOk(channels)
    ensures InfosOk(InfosOf(clients), ps, owner, channels, maxUsers)
    ensures AllRight(ViewsOf(clients), InfosOf(clients), ps.roles, channels) && Tracks(clients, ViewsOf(clients))
    ensures QueuesOk(clients)
  {
    TracksSelf(clients);
  }

  lemma Pack(infos: Infos, views: Views, ps: PermState, channels: ChannelMap, owner: Option<Fingerprint>, maxUsers: nat)
    requires PermsOk(ps) && ChannelsOk(channels) && InfosOk(infos, ps, owner, channels, maxUsers)
    requires AllRight(views, infos, ps.roles, channels)
    ensures Ready(infos, views, ps, channels, owner, maxUsers)
  {
  }

  lemma {:induction false} ApplyKeepsList(v: View, f: Frame)
    requires !f.ChannelCreated? && !f.ChannelUpdated? && !f.ChannelRemoved?
    ensures Apply(v, f).channels == v.channels
  {
    hide SortByPosition, SetPositions, UpsertRole, RemoveRole, RemoveGrant;
  }

  lemma {:induction false} ListsKept(clients: Clients, f: Frame)
    requires !f.ChannelCreated? && !f.ChannelUpdated? && !f.ChannelRemoved?
    ensures forall c :: c in clients ==>
              && c in Told(ViewsOf(clients), f, None)
              && Told(ViewsOf(clients), f, None)[c].channels == ViewsOf(clients)[c].channels
  {
    hide Apply, Seen;
    forall c | c in clients ensures Apply(ViewsOf(clients)[c], f).channels == ViewsOf(clients)[c].channels {
      ApplyKeepsList(ViewsOf(clients)[c], f);
    }
  }

  // ---- Starting from new infos ---------------------------------------------------------------------------

  lemma WithInfosTracks(clients: Clients, views: Views, infos: Infos)
    requires Tracks(clients, views) && infos.Keys == clients.Keys
    ensures Tracks(WithInfos(clients, infos), views) && InfosOf(WithInfos(clients, infos)) == infos
  {
  }

  lemma StaleWithInfos(clients: Clients, infos: Infos, views: Views, was: Lists,
                       touched: set<ChannelId>, channels: ChannelMap)
    requires AllStale(clients, views, was, touched, channels) && infos.Keys == clients.Keys
    ensures AllStale(WithInfos(clients, infos), views, was, touched, channels)
  {
  }

  /** Frames about roles and users leave every list where it was. */
  lemma {:induction false} StaleTold(clients: Clients, views: Views, f: Frame, was: Lists,
                                     touched: set<ChannelId>, channels: ChannelMap)
    requires AllStale(clients, views, was, touched, channels) && !f.ChannelCreated? && !f.ChannelUpdated?
    requires !f.ChannelRemoved?
    ensures AllStale(clients, Told(views, f, None), was, touched, channels)
  {
    hide Apply, Stale;
    forall c | c in clients ensures Apply(views[c], f).channels == views[c].channels {
      ApplyKeepsList(views[c], f);
    }
  }

  lemma {:induction false} StaleAnnounced(clients: Clients, views: Views, after: Views, told: Infos,
                                          was: Lists, touched: set<ChannelId>,
                                          channels: ChannelMap)
    requires AllStale(clients, views, was, touched, channels) && AllAnnounced(views, after, told)
    ensures AllStale(clients, after, was, touched, channels)
  {
    forall c | c in clients ensures c in after && Stale(after[c].channels, was[c], touched, channels) {
      assert Announced(views[c], after[c], told);
    }
  }

  /** What a client lists before a change to the channels is stale by no more than that change. */
  lemma {:induction false} StaleByChange(views: Views, clients: Clients, roles: seq<Role>, channels: ChannelMap,
                                         next: ChannelMap, touched: set<ChannelId>)
    requires AllRight(views, InfosOf(clients), roles, channels)
    requires forall id :: id in channels && id in next && id !in touched ==> next[id] == channels[id]
    ensures AllStale(clients, views, VisibleIds(roles, clients, channels), touched, next)
  {
    forall c | c in clients
      ensures c in views && Stale(views[c].channels, VisibleIds(roles, clients, channels)[c], touched, next)
    {
      assert Right(views[c], InfosOf(clients)[c], roles, channels, InfosOf(clients));
    }
  }

  // ---- New grants for one member ----------------------------------------------------------------------------

  lemma {:induction false} RegrantedInfos(infos: Infos, ps: PermState, channels: ChannelMap,
                                          owner: Option<Fingerprint>, maxUsers: nat, member: Fingerprint,
                                          ids: seq<RoleId>)
    requires InfosOk(infos, ps, owner, channels, maxUsers)
    ensures InfosOk(Regranted(infos, member, ids), AfterGrant(ps, member, ids), owner, channels, maxUsers)
    ensures forall c :: c in infos ==> infos[c].clientId == c
  {
    var infos' := Regranted(infos, member, ids);
    var next := AfterGrant(ps, member, ids);
    FewerInfos(infos, infos');
    forall c | c in infos ensures InfoOk(c, infos'[c], next, owner, channels) && infos[c].clientId == c {
      assert InfoOk(c, infos[c], ps, owner, channels);
    }
  }

  lemma GrantKeepsPermsOk(ps: PermState, member: Fingerprint, ids: seq<RoleId>)
    requires PermsOk(ps) && Grantable(ps.roles, ids)
    ensures PermsOk(AfterGrant(ps, member, ids)) && AfterGrant(ps, member, ids).roles == ps.roles
  {
  }

  lemma {:induction false} GrantPlan(ps: PermState, channels: ChannelMap, clients: Clients,
                                     owner: Option<Fingerprint>, maxUsers: nat, member: Fingerprint, ids: seq<RoleId>)
    requires ValidState(ps, channels, clients, owner, maxUsers) && Grantable(ps.roles, ids)
    ensures var infos' := Regranted(InfosOf(clients), member, ids);
            && infos'.Keys == clients.Keys && InfosOf(WithInfos(clients, infos')) == infos'
            && ChannelsOk(channels) && OneStandingEach(SessionsOf(infos', member))
            && Tracks(WithInfos(clients, infos'), ViewsOf(clients))
            && AllStale(WithInfos(clients, infos'), ViewsOf(clients), VisibleIds(ps.roles, clients, channels), {},
                        channels)
            && Stayed(clients, WithInfos(clients, infos'))
  {
    hide *;
    var infos := InfosOf(clients);
    var infos' := Regranted(infos, member, ids);
    Unpack(ps, channels, clients, owner, maxUsers);
    RegrantedInfos(infos, ps, channels, owner, maxUsers, member, ids);
    RegrantedKeys(clients, member, ids);
    OneStanding(infos', SessionsOf(infos', member), AfterGrant(ps, member, ids), owner, channels, maxUsers);
    WithInfosTracks(clients, ViewsOf(clients), infos');
    StaleByChange(ViewsOf(clients), clients, ps.roles, channels, channels, {});
    StaleWithInfos(clients, infos', ViewsOf(clients), VisibleIds(ps.roles, clients, channels), {}, channels);
    InPlace(clients, infos');
  }

  function RegrantedSessions(clients: Clients, member: Fingerprint, ids: seq<RoleId>): Clients {
    WithInfos(clients, Regranted(InfosOf(clients), member, ids))
  }

  lemma RegrantedKeys(clients: Clients, member: Fingerprint, ids: seq<RoleId>)
    ensures var infos' := Regranted(InfosOf(clients), member, ids);
            && infos'.Keys == clients.Keys && WithInfos(clients, infos') == RegrantedSessions(clients, member, ids)
            && (forall u :: u in SessionsOf(infos', member) ==>
                  u in infos' && SessionsOf(infos', member)[u] == infos'[u])
            && (forall c :: c in clients ==>
                  infos'[c].channel == clients[c].info.channel && infos'[c].fingerprint == clients[c].info.fingerprint)
  {
  }

  /** Nobody connected since, and nobody changed identity. */
  ghost predicate NoNewcomers(before: Clients, after: Clients) {
    forall c :: c in after ==> c in before && after[c].info.fingerprint == before[c].info.fingerprint
  }

  lemma InPlace(clients: Clients, infos: Infos)
    requires infos.Keys == clients.Keys
    requires forall c :: c in clients ==>
               infos[c].channel == clients[c].info.channel && infos[c].fingerprint == clients[c].info.fingerprint
    ensures Stayed(clients, WithInfos(clients, infos))
  {
  }

  lemma {:induction false} GrantReady(ps: PermState, channels: ChannelMap, clients: Clients,
                                      owner: Option<Fingerprint>, maxUsers: nat, member: Fingerprint,
                                      ids: seq<RoleId>, after: Views)
    requires ValidState(ps, channels, clients, owner, maxUsers) && Grantable(ps.roles, ids)
    requires AllAnnounced(ViewsOf(clients), after, SessionsOf(Regranted(InfosOf(clients), member, ids), member))
    ensures var infos' := Regranted(InfosOf(clients), member, ids);
            Ready(infos', Resynced(after, infos', AfterGrant(ps, member, ids).roles, channels),
                  AfterGrant(ps, member, ids), channels, owner, maxUsers)
  {
    hide *;
    var infos := InfosOf(clients);
    var infos' := Regranted(infos, member, ids);
    var next := AfterGrant(ps, member, ids);
    Unpack(ps, channels, clients, owner, maxUsers);
    GrantKeepsPermsOk(ps, member, ids);
    RegrantedInfos(infos, ps, channels, owner, maxUsers, member, ids);
    GrantAllRight(ViewsOf(clients), after, infos, ps.roles, channels, member, ids);
    Pack(infos', Resynced(after, infos', next.roles, channels), next, channels, owner, maxUsers);
  }

  // ---- A deleted role ------------------------------------------------------------------------------------------

  /** The channels with an overwrite naming the role. */
  function Naming(channels: ChannelMap, role: RoleId): set<ChannelId> {
    set id | id in channels && OverwriteFor(channels[id].overwrites, ForRole(role)).Some?
  }

  lemma {:induction false} StripTouches(channels: ChannelMap, role: RoleId)
    requires ChannelsOk(channels)
    ensures forall id :: id in channels && id in StripRole(channels, role) && id !in Naming(channels, role) ==>
              StripRole(channels, role)[id] == channels[id]
    ensures ChannelsOk(StripRole(channels, role)) && StripRole(channels, role).Keys == channels.Keys
    ensures SameCaps(channels, StripRole(channels, role))
  {
    forall id | id in channels ensures UniqueTargets(DropTarget(channels[id].overwrites, ForRole(role))) {
      DropKeepsUnique(channels[id].overwrites, ForRole(role));
    }
    forall id | id in channels && id !in Naming(channels, role) ensures StripRole(channels, role)[id] == channels[id] {
      assert forall o :: o in channels[id].overwrites ==> o.target != ForRole(role);
    }
  }

  /** No surviving channel's cap changed. */
  ghost predicate SameCaps(before: ChannelMap, after: ChannelMap) {
    forall room :: room in before && room in after ==> after[room].maxUsers == before[room].maxUsers
  }

  lemma {:induction false} StrippedInfos(infos: Infos, ps: PermState, channels: ChannelMap,
                                         owner: Option<Fingerprint>, maxUsers: nat, gone: RoleId)
    requires InfosOk(infos, ps, owner, channels, maxUsers)
    ensures InfosOk(Stripped(infos, gone), AfterDelete(ps, gone), owner, StripRole(channels, gone), maxUsers)
  {
    var infos' := Stripped(infos, gone);
    FewerInfos(infos, infos');
    forall c | c in infos ensures InfoOk(c, infos'[c], AfterDelete(ps, gone), owner, StripRole(channels, gone)) {
      assert InfoOk(c, infos[c], ps, owner, channels);
    }
  }

  function StrippedSessions(clients: Clients, gone: RoleId): Clients {
    WithInfos(clients, Stripped(InfosOf(clients), gone))
  }

  lemma StrippedKeys(clients: Clients, gone: RoleId)
    ensures var infos' := Stripped(InfosOf(clients), gone);
            && infos'.Keys == clients.Keys && WithInfos(clients, infos') == StrippedSessions(clients, gone)
            && (forall u :: u in Holders(InfosOf(clients), gone) ==>
                  u in infos' && Holders(InfosOf(clients), gone)[u] == infos'[u])
            && (forall c :: c in clients ==>
                  infos'[c].channel == clients[c].info.channel && infos'[c].fingerprint == clients[c].info.fingerprint)
  {
  }

  lemma {:induction false} DeletePlan(ps: PermState, channels: ChannelMap, clients: Clients,
                                      owner: Option<Fingerprint>, maxUsers: nat, gone: RoleId)
    requires ValidState(ps, channels, clients, owner, maxUsers)
    ensures var infos' := Stripped(InfosOf(clients), gone);
            && infos'.Keys == clients.Keys && InfosOf(WithInfos(clients, infos')) == infos'
            && ChannelsOk(StripRole(channels, gone)) && SameCaps(channels, StripRole(channels, gone))
            && StripRole(channels, gone).Keys == channels.Keys
            && OneStandingEach(Holders(InfosOf(clients), gone)) && OneStandingEach(infos')
            && Tracks(WithInfos(clients, infos'), ViewsOf(clients))
            && AllStale(WithInfos(clients, infos'), ViewsOf(clients), VisibleIds(ps.roles, clients, channels),
                        Naming(channels, gone), StripRole(channels, gone))
            && Stayed(clients, WithInfos(clients, infos'))
  {
    hide *;
    var infos := InfosOf(clients);
    var infos' := Stripped(infos, gone);
    var stripped := StripRole(channels, gone);
    Unpack(ps, channels, clients, owner, maxUsers);
    StrippedInfos(infos, ps, channels, owner, maxUsers, gone);
    StrippedKeys(clients, gone);
    StripTouches(channels, gone);
    OneStanding(infos', Holders(infos, gone), AfterDelete(ps, gone), owner, stripped, maxUsers);
    OneStanding(infos', infos', AfterDelete(ps, gone), owner, stripped, maxUsers);
    WithInfosTracks(clients, ViewsOf(clients), infos');
    StaleByChange(ViewsOf(clients), clients, ps.roles, channels, stripped, Naming(channels, gone));
    StaleWithInfos(clients, infos', ViewsOf(clients), VisibleIds(ps.roles, clients, channels), Naming(channels, gone),
                   stripped);
    InPlace(clients, infos');
  }

  lemma {:induction false} DeleteReady(ps: PermState, channels: ChannelMap, clients: Clients,
                                       owner: Option<Fingerprint>, maxUsers: nat, k: nat, told: Views, after: Views)
    requires ValidState(ps, channels, clients, owner, maxUsers) && 0 < k < |ps.roles|
    requires told ==
             Told(Told(ViewsOf(clients), RoleDeleted(ps.roles[k].id), None),
                  RolesReordered(Ordering(AfterDelete(ps, ps.roles[k].id).roles)), None)
    requires AllAnnounced(told, after, Holders(InfosOf(clients), ps.roles[k].id))
    ensures var gone := ps.roles[k].id;
            var infos' := Stripped(InfosOf(clients), gone);
            var next, stripped := AfterDelete(ps, gone), StripRole(channels, gone);
            Ready(infos', Resynced(after, infos', next.roles, stripped), next, stripped, owner, maxUsers)
  {
    hide *;
    var gone := ps.roles[k].id;
    var infos := InfosOf(clients);
    var infos', next, stripped := Stripped(infos, gone), AfterDelete(ps, gone), StripRole(channels, gone);
    Unpack(ps, channels, clients, owner, maxUsers);
    DeletePlan(ps, channels, clients, owner, maxUsers, gone);
    DeleteShape(ps, k);
    DeleteKeepsPermsOk(ps, k);
    StrippedInfos(infos, ps, channels, owner, maxUsers, gone);
    DeleteAllRight(ViewsOf(clients), told, after, infos, ps, channels, stripped, k);
    Pack(infos', Resynced(after, infos', next.roles, stripped), next, stripped, owner, maxUsers);
  }

  // ---- Reordered and created roles ---------------------------------------------------------------------------------

  lemma {:induction false} OwnGrants(infos: Infos, ps: PermState, owner: Option<Fingerprint>, channels: ChannelMap,
                                     maxUsers: nat)
    requires InfosOk(infos, ps, owner, channels, maxUsers)
    ensures forall c :: c in infos ==> infos[c].roles == Grants(ps, infos[c].fingerprint)
  {
    forall c | c in infos ensures infos[c].roles == Grants(ps, infos[c].fingerprint) {
      assert InfoOk(c, infos[c], ps, owner, channels);
    }
  }

  lemma {:induction false} ReorderPlan(ps: PermState, channels: ChannelMap, clients: Clients,
                                       owner: Option<Fingerprint>, maxUsers: nat, positions: Positions)
    requires ValidState(ps, channels, clients, owner, maxUsers) && NamesEveryRoleDensely(ps.roles, positions)
    requires !MovesEveryone(positions)
    ensures Tracks(clients, ViewsOf(clients))
    ensures Ready(InfosOf(clients), Told(ViewsOf(clients), RolesReordered(positions), None),
                  AfterReorder(ps, positions), channels, owner, maxUsers)
  {
    hide *;
    var views, infos := ViewsOf(clients), InfosOf(clients);
    Unpack(ps, channels, clients, owner, maxUsers);
    OwnGrants(infos, ps, owner, channels, maxUsers);
    ReorderKeepsPermsOk(ps, positions);
    ReorderAllRight(views, infos, ps, channels, positions);
    ReorderMembers(ps, positions);
    SamePeople(infos, ps, AfterReorder(ps, positions), owner, channels, maxUsers);
    Pack(infos, Told(views, RolesReordered(positions), None), AfterReorder(ps, positions), channels, owner, maxUsers);
  }

  lemma ReorderMembers(ps: PermState, positions: Positions)
    ensures AfterReorder(ps, positions).members == ps.members
  {
  }

  lemma {:induction false} CreatePlan(ps: PermState, channels: ChannelMap, clients: Clients,
                                      owner: Option<Fingerprint>, maxUsers: nat, name: string,
                                      permissions: Permissions)
    requires ValidState(ps, channels, clients, owner, maxUsers)
    ensures Tracks(clients, ViewsOf(clients))
    ensures var role := NewRole(ps, name, permissions);
            var next := AfterCreate(ps, role);
            Ready(InfosOf(clients),
                  Told(Told(ViewsOf(clients), RoleCreated(role), None), RolesReordered(Ordering(next.roles)), None),
                  next, channels, owner, maxUsers)
  {
    hide *;
    var views, infos := ViewsOf(clients), InfosOf(clients);
    var role := NewRole(ps, name, permissions);
    var next := AfterCreate(ps, role);
    Unpack(ps, channels, clients, owner, maxUsers);
    OwnGrants(infos, ps, owner, channels, maxUsers);
    CreateShape(ps, name, permissions);
    NewRoleIsNew(ps, name, permissions);
    CreateKeepsPermsOk(ps, name, permissions);
    CreateAllRight(views, infos, ps, channels, role);
    SamePeople(infos, ps, next, owner, channels, maxUsers);
    Pack(infos, Told(Told(views, RoleCreated(role), None), RolesReordered(Ordering(next.roles)), None), next, channels,
         owner, maxUsers);
  }

  lemma NewRoleIsNew(ps: PermState, name: string, permissions: Permissions)
    requires TableOk(ps.roles)
    ensures |ps.roles| > 0 && forall r :: r in ps.roles ==> r.id != NewRole(ps, name, permissions).id
  {
  }

  // ---- Changed channels --------------------------------------------------------------------------

  lemma {:induction false} SameRooms(infos: Infos, ps: PermState, owner: Option<Fingerprint>, channels: ChannelMap,
                                     next: ChannelMap, maxUsers: nat)
    requires InfosOk(infos, ps, owner, channels, maxUsers) && channels.Keys <= next.Keys
    ensures InfosOk(infos, ps, owner, next, maxUsers)
  {
    forall c | c in infos ensures InfoOk(c, infos[c], ps, owner, next) {
      assert InfoOk(c, infos[c], ps, owner, channels);
    }
  }

  lemma {:induction false} ChannelsPlan(ps: PermState, channels: ChannelMap, clients: Clients,
                                        owner: Option<Fingerprint>, maxUsers: nat, next: ChannelMap,
                                        touched: set<ChannelId>)
    requires ValidState(ps, channels, clients, owner, maxUsers) && ChannelsOk(next) && channels.Keys <= next.Keys
    requires forall id :: id in channels && id in next && id !in touched ==> next[id] == channels[id]
    ensures Tracks(clients, ViewsOf(clients))
    ensures AllStale(clients, ViewsOf(clients), VisibleIds(ps.roles, clients, channels), touched, next)
    ensures Ready(InfosOf(clients), Resynced(ViewsOf(clients), InfosOf(clients), ps.roles, next), ps, next, owner,
                  maxUsers)
  {
    hide *;
    var views, infos := ViewsOf(clients), InfosOf(clients);
    Unpack(ps, channels, clients, owner, maxUsers);
    SameRooms(infos, ps, owner, channels, next, maxUsers);
    StaleByChange(views, clients, ps.roles, channels, next, touched);
    ChannelsAllRight(views, infos, ps.roles, channels, next);
    Pack(infos, Resynced(views, infos, ps.roles, next), ps, next, owner, maxUsers);
  }

  function Evicted(infos: Infos, room: ChannelId): Infos {
    map c | c in infos :: if infos[c].channel == Some(room) then infos[c].(channel := None) else infos[c]
  }

  function EvictedOnly(infos: Infos, room: ChannelId): Infos {
    map c | c in infos && infos[c].channel == Some(room) :: infos[c].(channel := None)
  }

  lemma {:induction false} EvictedInfos(infos: Infos, ps: PermState, owner: Option<Fingerprint>, channels: ChannelMap,
                                        maxUsers: nat, room: ChannelId)
    requires InfosOk(infos, ps, owner, channels, maxUsers)
    ensures InfosOk(Evicted(infos, room), ps, owner, channels - {room}, maxUsers)
    ensures forall u :: u in infos ==> SameStanding(infos[u], Evicted(infos, room)[u])
  {
    var infos' := Evicted(infos, room);
    FewerInfos(infos, infos');
    forall c | c in infos ensures InfoOk(c, infos'[c], ps, owner, channels - {room}) {
      assert InfoOk(c, infos[c], ps, owner, channels);
    }
  }

  function EvictedSessions(clients: Clients, room: ChannelId): Clients {
    WithInfos(clients, Evicted(InfosOf(clients), room))
  }

  lemma EvictedKeys(clients: Clients, room: ChannelId)
    ensures var infos := InfosOf(clients);
            var infos', told := Evicted(infos, room), EvictedOnly(infos, room);
            && infos'.Keys == clients.Keys && infos.Keys == clients.Keys
            && WithInfos(clients, infos') == EvictedSessions(clients, room)
            && (forall u :: u in told ==> u in infos' && told[u] == infos'[u])
            && Stayed(clients, WithInfos(clients, infos'))
  {
  }

  lemma RoomRemoved(channels: ChannelMap, room: ChannelId)
    requires ChannelsOk(channels)
    ensures ChannelsOk(channels - {room}) && SameCaps(channels, channels - {room})
    ensures forall id :: id in channels && id in channels - {room} ==> (channels - {room})[id] == channels[id]
  {
  }

  lemma {:induction false} EvictPlan(ps: PermState, channels: ChannelMap, clients: Clients,
                                     owner: Option<Fingerprint>, maxUsers: nat, room: ChannelId)
    requires ValidState(ps, channels, clients, owner, maxUsers)
    ensures var infos' := Evicted(InfosOf(clients), room);
            && infos'.Keys == clients.Keys && InfosOf(WithInfos(clients, infos')) == infos'
            && ChannelsOk(channels - {room}) && SameCaps(channels, channels - {room})
            && OneStandingEach(EvictedOnly(InfosOf(clients), room))
            && Tracks(WithInfos(clients, infos'), ViewsOf(clients))
            && AllStale(WithInfos(clients, infos'), ViewsOf(clients), VisibleIds(ps.roles, clients, channels), {},
                        channels - {room})
            && Stayed(clients, WithInfos(clients, infos'))
  {
    hide *;
    var infos := InfosOf(clients);
    var infos' := Evicted(infos, room);
    Unpack(ps, channels, clients, owner, maxUsers);
    EvictedInfos(infos, ps, owner, channels, maxUsers, room);
    EvictedKeys(clients, room);
    RoomRemoved(channels, room);
    OneStanding(infos', EvictedOnly(infos, room), ps, owner, channels - {room}, maxUsers);
    WithInfosTracks(clients, ViewsOf(clients), infos');
    StaleByChange(ViewsOf(clients), clients, ps.roles, channels, channels - {room}, {});
    StaleWithInfos(clients, infos', ViewsOf(clients), VisibleIds(ps.roles, clients, channels), {}, channels - {room});
  }

  lemma {:induction false} EvictReady(ps: PermState, channels: ChannelMap, clients: Clients,
                                      owner: Option<Fingerprint>, maxUsers: nat, room: ChannelId, after: Views)
    requires ValidState(ps, channels, clients, owner, maxUsers)
    requires AllAnnounced(ViewsOf(clients), after, EvictedOnly(InfosOf(clients), room))
    ensures var infos' := Evicted(InfosOf(clients), room);
            Ready(infos', Resynced(after, infos', ps.roles, channels - {room}), ps, channels - {room}, owner, maxUsers)
  {
    hide *;
    var infos := InfosOf(clients);
    var infos' := Evicted(infos, room);
    Unpack(ps, channels, clients, owner, maxUsers);
    EvictedInfos(infos, ps, owner, channels, maxUsers, room);
    EvictedKeys(clients, room);
    RoomRemoved(channels, room);
    OneStanding(infos, infos, ps, owner, channels, maxUsers);
    EvictAllRight(ViewsOf(clients), after, infos, infos', EvictedOnly(infos, room), ps.roles, channels,
                  channels - {room});
    Pack(infos', Resynced(after, infos', ps.roles, channels - {room}), ps, channels - {room}, owner, maxUsers);
  }

  // ---- One member's own state, arrivals and departures -------------------------------------------

  lemma {:induction false} RefreshedInfos(clients: Clients, ps: PermState, owner: Option<Fingerprint>,
                                          channels: ChannelMap, maxUsers: nat, info: UserInfo)
    requires InfosOk(InfosOf(clients), ps, owner, channels, maxUsers)
    requires info.clientId in clients && SameStanding(info, clients[info.clientId].info)
    requires InfoOk(info.clientId, info, ps, owner, channels)
    ensures var start := clients[info.clientId := clients[info.clientId].(info := info)];
            && InfosOk(InfosOf(start), ps, owner, channels, maxUsers)
            && info.clientId in InfosOf(start) && InfosOf(start)[info.clientId] == info && NoNewcomers(clients, start)
            && InfosOf(start).Keys == InfosOf(clients).Keys
            && (forall u :: u in InfosOf(clients) ==> SameStanding(InfosOf(clients)[u], InfosOf(start)[u]))
  {
    var start := clients[info.clientId := clients[info.clientId].(info := info)];
    FewerInfos(InfosOf(clients), InfosOf(start));
    forall c | c in InfosOf(start) ensures InfoOk(c, InfosOf(start)[c], ps, owner, channels) {
      if c != info.clientId { assert InfoOk(c, InfosOf(clients)[c], ps, owner, channels); }
    }
  }

  lemma {:induction false} RefreshTracks(clients: Clients, views: Views, info: UserInfo)
    requires Tracks(clients, views) && info.clientId in clients
    ensures Tracks(clients[info.clientId := clients[info.clientId].(info := info)], views)
  {
    var start := clients[info.clientId := clients[info.clientId].(info := info)];
    assert start.Keys == clients.Keys;
  }

  lemma {:induction false} RefreshPlan(ps: PermState, channels: ChannelMap, clients: Clients,
                                       owner: Option<Fingerprint>, maxUsers: nat, info: UserInfo)
    requires ValidState(ps, channels, clients, owner, maxUsers)
    requires info.clientId in clients && SameStanding(info, clients[info.clientId].info)
    requires InfoOk(info.clientId, info, ps, owner, channels)
    ensures var start := clients[info.clientId := clients[info.clientId].(info := info)];
            && Tracks(start, ViewsOf(clients)) && NoNewcomers(clients, start)
            && Ready(InfosOf(start), ViewsOf(clients), ps, channels, owner, maxUsers)
            && Ready(InfosOf(start), Told(ViewsOf(clients), UserUpdated(info), None), ps, channels, owner, maxUsers)
  {
    hide *;
    var views := ViewsOf(clients);
    var start := clients[info.clientId := clients[info.clientId].(info := info)];
    Unpack(ps, channels, clients, owner, maxUsers);
    RefreshedInfos(clients, ps, owner, channels, maxUsers, info);
    RefreshTracks(clients, views, info);
    OneStanding(InfosOf(clients), InfosOf(clients), ps, owner, channels, maxUsers);
    RefreshAllRight(views, InfosOf(clients), InfosOf(start), ps.roles, channels, info);
    Pack(InfosOf(start), views, ps, channels, owner, maxUsers);
    Pack(InfosOf(start), Told(views, UserUpdated(info), None), ps, channels, owner, maxUsers);
  }

  function Arrived(clients: Clients, roles: seq<Role>, channels: ChannelMap, info: UserInfo): Clients {
    clients[info.clientId := Session(info, [], Welcome(info, roles, channels, InfosOf(clients)[info.clientId := info]))]
  }

  lemma ArrivedQueues(clients: Clients, roles: seq<Role>, channels: ChannelMap, info: UserInfo)
    ensures var after := Arrived(clients, roles, channels, info);
            forall c :: c in clients && c != info.clientId ==> c in after && after[c].queue == clients[c].queue
    ensures info.clientId in Arrived(clients, roles, channels, info)
  {
    hide Welcome;
  }

  lemma {:induction false} OneMoreInfo(infos: Infos, ps: PermState, owner: Option<Fingerprint>, channels: ChannelMap,
                                       maxUsers: nat, info: UserInfo)
    requires InfosOk(infos, ps, owner, channels, maxUsers) && |infos| < maxUsers
    requires InfoOk(info.clientId, info, ps, owner, channels)
    ensures InfosOk(infos[info.clientId := info], ps, owner, channels, maxUsers)
  {
    hide InfoOk;
    var infos' := infos[info.clientId := info];
    assert infos'.Keys == infos.Keys + {info.clientId};
    assert |infos'| == |infos'.Keys| && |infos| == |infos.Keys|;
  }

  lemma {:induction false} SameSize(clients: Clients)
    ensures |InfosOf(clients)| == |clients|
  {
    assert InfosOf(clients).Keys == clients.Keys;
    assert |InfosOf(clients)| == |InfosOf(clients).Keys| && |clients| == |clients.Keys|;
  }

  lemma {:induction false} ArrivedInfos(clients: Clients, roles: seq<Role>, channels: ChannelMap, info: UserInfo)
    ensures InfosOf(Arrived(clients, roles, channels, info)) == InfosOf(clients)[info.clientId := info]
  {
    hide Welcome;
  }

  lemma {:induction false} FewerInfosOk(infos: Infos, ps: PermState, owner: Option<Fingerprint>, channels: ChannelMap,
                                        maxUsers: nat, gone: ClientId)
    requires InfosOk(infos, ps, owner, channels, maxUsers)
    ensures InfosOk(infos - {gone}, ps, owner, channels, maxUsers)
  {
    hide InfoOk;
    FewerInfos(infos, infos - {gone});
  }

  lemma LeftInfos(clients: Clients, gone: ClientId)
    ensures InfosOf(clients - {gone}) == InfosOf(clients) - {gone} && Stayed(clients, clients - {gone})
  {
  }

  lemma {:induction false} LeftTracks(clients: Clients, views: Views, gone: ClientId)
    requires Tracks(clients, views)
    ensures Tracks(clients - {gone}, views)
  {
    forall c | c in clients - {gone} ensures Alike(Seen(clients[c]), views[c], (clients - {gone}).Keys) {
      AlikeShrinks(Seen(clients[c]), views[c], clients.Keys, (clients - {gone}).Keys);
    }
  }

  lemma {:induction false} LeavePlan(ps: PermState, channels: ChannelMap, clients: Clients,
                                     owner: Option<Fingerprint>, maxUsers: nat, gone: ClientId,
                                     except: Option<ClientId>)
    requires ValidState(ps, channels, clients, owner, maxUsers) && (except == None || except == Some(gone))
    ensures Tracks(clients - {gone}, ViewsOf(clients))
    ensures Stayed(clients, clients - {gone})
    ensures Ready(InfosOf(clients - {gone}), Told(ViewsOf(clients), UserLeft(gone), except), ps, channels, owner,
                  maxUsers)
  {
    hide *;
    var views, infos := ViewsOf(clients), InfosOf(clients);
    Unpack(ps, channels, clients, owner, maxUsers);
    FewerInfosOk(infos, ps, owner, channels, maxUsers, gone);
    LeftInfos(clients, gone);
    LeftTracks(clients, views, gone);
    LeaveAllRight(views, infos, ps.roles, channels, gone, except);
    Pack(infos - {gone}, Told(views, UserLeft(gone), except), ps, channels, owner, maxUsers);
  }

  lemma ArrivedTracks(clients: Clients, roles: seq<Role>, channels: ChannelMap, info: UserInfo)
    requires QueuesOk(clients)
    ensures var start := Arrived(clients, roles, channels, info);
            && Tracks(start, ViewsOf(clients)[info.clientId := start[info.clientId].view])
            && (info.channel.None? ==> NobodyEntered(clients, start))
  {
  }

  lemma {:induction false} ArrivePlan(ps: PermState, channels: ChannelMap, clients: Clients,
                                      owner: Option<Fingerprint>, maxUsers: nat, info: UserInfo)
    requires ValidState(ps, channels, clients, owner, maxUsers) && |clients| < maxUsers && info.channel.None?
    requires InfoOk(info.clientId, info, ps, owner, channels)
    ensures var start := Arrived(clients, ps.roles, channels, info);
            && info.clientId in start && NobodyEntered(clients, start)
            && Tracks(start, ViewsOf(clients)[info.clientId := start[info.clientId].view])
            && Ready(InfosOf(start),
                     Told(ViewsOf(clients)[info.clientId := start[info.clientId].view], UserJoined(info),
                          Some(info.clientId)),
                     ps, channels, owner, maxUsers)
  {
    hide *;
    var views, infos := ViewsOf(clients), InfosOf(clients);
    var start := Arrived(clients, ps.roles, channels, info);
    var infos' := infos[info.clientId := info];
    Unpack(ps, channels, clients, owner, maxUsers);
    SameSize(clients);
    OneMoreInfo(infos, ps, owner, channels, maxUsers, info);
    ArrivedInfos(clients, ps.roles, channels, info);
    ArrivedTracks(clients, ps.roles, channels, info);
    ArrivedView(clients, ps.roles, channels, info);
    OneStanding(infos', infos', ps, owner, channels, maxUsers);
    JoinAllRight(views, infos, infos', ps.roles, channels, info, start[info.clientId].view);
    Pack(infos', Told(views[info.clientId := start[info.clientId].view], UserJoined(info), Some(info.clientId)), ps,
         channels, owner, maxUsers);
  }

  lemma ArrivedView(clients: Clients, roles: seq<Role>, channels: ChannelMap, info: UserInfo)
    ensures var start := Arrived(clients, roles, channels, info);
            && info.clientId in start
            && start[info.clientId].view == Welcome(info, roles, channels, InfosOf(clients)[info.clientId := info])
  {
  }

  // ---- Who is still there ------------------------------------------------------------------------

  /** Nobody connected and nobody entered a room. */
  ghost predicate Stayed(before: Clients, after: Clients) { NobodyEntered(before, after) && NoNewcomers(before, after) }

  lemma SurvivorsStayed(a: Clients, b: Clients)
    requires Survivors(a, b)
    ensures Stayed(a, b)
  {
  }

  /** One answer to the sender, where more could have been sent. */
  lemma {:induction false} DeclinedFor(a: Clients, b: Clients, n: nat, m: nat, due: map<ClientId, nat>)
    requires Survivors(a, b) && Patience(a, b, {}, 1) && 1 <= n && 1 <= m
    ensures Stayed(a, b) && Patience(a, b, {}, n) && PatienceFor(a, b, m, due)
  {
    hide Patience, PatienceFor, Survivors, Stayed;
    Declined(a, b, n);
    ForDeclined(a, b, m, due);
  }

  lemma {:induction false} Declined(a: Clients, b: Clients, n: nat)
    requires Survivors(a, b) && Patience(a, b, {}, 1) && 1 <= n
    ensures Stayed(a, b) && Patience(a, b, {}, n)
  {
    PatienceMore(a, b, {}, 1, {}, n);
  }

  lemma Quiet(clients: Clients, n: nat)
    ensures Survivors(clients, clients) && Stayed(clients, clients) && Patience(clients, clients, {}, n)
  {
  }

  lemma {:induction false} StayedCaps(ps: PermState, channels: ChannelMap, before: Clients,
                                      owner: Option<Fingerprint>, maxUsers: nat, after: Clients,
                                      channels': ChannelMap)
    requires ValidState(ps, channels, before, owner, maxUsers) && Stayed(before, after) && SameCaps(channels, channels')
    ensures CapsKept(before, channels, after, channels')
  {
    ValidRoomsLive(ps, channels, before, owner, maxUsers);
    NobodyEnteredCaps(before, channels, after, channels');
  }

  // ---- What an accepted command means ------------------------------------------------------------

  lemma CreateAccepted(ps: PermState, actor: Actor, owner: Option<Fingerprint>, name: string,
                       permissions: Permissions, next: PermState)
    requires Decide(ps, actor, owner, RoleTable.CreateRole(name, permissions)) == Accepted(next)
    ensures next == AfterCreate(ps, NewRole(ps, name, permissions))
  {
  }

  lemma {:induction false} UpdateAccepted(ps: PermState, actor: Actor, owner: Option<Fingerprint>, cmd: RoleCommand,
                                          next: PermState) returns (k: nat)
    requires cmd.UpdateRole? && TableOk(ps.roles) && Decide(ps, actor, owner, cmd) == Accepted(next)
    ensures k < |ps.roles| && FindRole(ps.roles, cmd.id) == Some(ps.roles[k])
    ensures var updated := Updated(ps.roles[k], cmd);
            && updated.id == ps.roles[k].id && updated.position == k
            && next == ps.(roles := ReplaceRole(ps.roles, updated))
  {
    k := IndexOf(ps.roles, cmd.id);
  }

  lemma {:induction false} DeleteAccepted(ps: PermState, actor: Actor, owner: Option<Fingerprint>, id: RoleId,
                                          next: PermState) returns (k: nat)
    requires TableOk(ps.roles) && Decide(ps, actor, owner, RoleTable.DeleteRole(id)) == Accepted(next)
    ensures 0 < k < |ps.roles| && ps.roles[k].id == id && next == AfterDelete(ps, id)
  {
    hide AfterDelete, CanManageRole, UniqueIds;
    k := IndexOf(ps.roles, id);
  }

  lemma ReorderAccepted(ps: PermState, actor: Actor, owner: Option<Fingerprint>, positions: Positions, next: PermState)
    requires Decide(ps, actor, owner, RoleTable.ReorderRoles(positions)) == Accepted(next)
    ensures NamesEveryRoleDensely(ps.roles, positions) && next == AfterReorder(ps, positions)
    ensures !MovesEveryone(positions)
  {
  }

  lemma GrantAccepted(ps: PermState, actor: Actor, owner: Option<Fingerprint>, member: Fingerprint, ids: seq<RoleId>,
                      next: PermState)
    requires Decide(ps, actor, owner, RoleTable.SetMemberRoles(member, ids)) == Accepted(next)
    ensures Grantable(ps.roles, ids) && next == AfterGrant(ps, member, ids)
  {
  }

  lemma {:induction false} ReorderStored(t: Tables, ps: PermState, channels: ChannelMap, positions: Positions)
    requires TableOk(ps.roles) && NamesEveryRoleDensely(ps.roles, positions) && Synced(t, ps, channels)
    ensures Synced(t.(roles := SetRolePositions(t.roles, positions)), AfterReorder(ps, positions), channels)
  {
    ReorderMatches(t.roles, ps, positions);
    SameGrants(t.grants, ps, AfterReorder(ps, positions));
  }

  lemma {:induction false} GrantStored(t: Tables, ps: PermState, channels: ChannelMap, member: Fingerprint,
                                       ids: seq<RoleId>)
    requires Synced(t, ps, channels) && ReplaceGrants(t.grants, member, ids).Some?
    ensures Synced(t.(grants := ReplaceGrants(t.grants, member, ids).value), AfterGrant(ps, member, ids), channels)
  {
    GrantMatches(t.grants, ps, member, ids);
  }

  lemma RepeatsRefused(grants: set<(Fingerprint, RoleId)>, member: Fingerprint, ids: seq<RoleId>)
    ensures ReplaceGrants(grants, member, ids).Some? <==> NoRepeats(ids)
  {
  }

  // ---- The checks of the channel commands, in their order ----------------------------------------

  function CheckOverwrite(ps: PermState, channels: ChannelMap, clients: Clients, owner: Option<Fingerprint>,
                          client: ClientId, channel: ChannelId, target: OverwriteTarget, allow: Permissions,
                          deny: Permissions): Outcome<Overwrite>
  {
    if !MayGlobally(ps, clients, client, MANAGE_ROLES) then Refused(NotPermitted)
    else if !MayIn(ps, channels, clients, client, channel, VIEW_CHANNEL) then Refused(NoSuchChannel)
    else
      var o := Overwrite(target, allow * CHANNEL_SCOPED, deny * CHANNEL_SCOPED);
      if o.allow * o.deny != {} then Refused(Malformed)
      else if target.ForRole? && !Exists(ps.roles, target.role) then Refused(Malformed)
      else
        var who := clients[client].info.fingerprint;
        var actor := ActorOf(ps, who, owner);
        var mine := Resolve(ps.roles, actor.roles, who, actor.owner, Some(channels[channel].overwrites));
        if !actor.owner && !(ADMINISTRATOR <= actor.base) && !(o.allow + o.deny <= mine) then Refused(NotPermitted)
        else Accepted(o)
  }

  function CheckOverwriteRemoval(ps: PermState, channels: ChannelMap, clients: Clients, client: ClientId,
                                 channel: ChannelId): Option<ErrorCode> {
    if !MayGlobally(ps, clients, client, MANAGE_ROLES) then Some(NotPermitted)
    else if !MayIn(ps, channels, clients, client, channel, VIEW_CHANNEL) then Some(NoSuchChannel)
    else None
  }

  /** `validate_channel` up to the loop check, which only an update makes. */
  function CheckFields(channels: ChannelMap, name: string, parent: Option<ChannelId>): Option<ErrorCode> {
    if Trim(name) == "" then Some(Malformed)
    else if parent.Some? && parent.value !in channels then Some(Malformed)
    else None
  }

  function CheckCreate(ps: PermState, channels: ChannelMap, clients: Clients, client: ClientId, name: string,
                       parent: Option<ChannelId>): Option<ErrorCode> {
    if !MayGlobally(ps, clients, client, MANAGE_CHANNELS)
    then Some(NotPermitted)
    else CheckFields(channels, name, parent)
  }

  function CheckKnown(ps: PermState, channels: ChannelMap, clients: Clients, client: ClientId,
                      id: ChannelId): Option<ErrorCode> {
    if !MayGlobally(ps, clients, client, MANAGE_CHANNELS) then Some(NotPermitted)
    else if !MayIn(ps, channels, clients, client, id, VIEW_CHANNEL) then Some(NoSuchChannel)
    else None
  }

  lemma KnownExists(ps: PermState, channels: ChannelMap, clients: Clients, client: ClientId, id: ChannelId)
    ensures CheckKnown(ps, channels, clients, client, id).None? ==> id in channels
    ensures CheckOverwriteRemoval(ps, channels, clients, client, id).None? ==> id in channels
  {
  }

  lemma CheckedExists(ps: PermState, channels: ChannelMap, clients: Clients, owner: Option<Fingerprint>,
                      client: ClientId,
                      channel: ChannelId, target: OverwriteTarget, allow: Permissions, deny: Permissions)
    ensures CheckOverwrite(ps, channels, clients, owner, client, channel, target, allow, deny).Accepted? ==>
              channel in channels
  {
  }

  // ---- One channel replaced ----------------------------------------------------------------------

  lemma OneReplaced(channels: ChannelMap, updated: Channel)
    requires ChannelsOk(channels) && updated.id in channels && UniqueTargets(updated.overwrites)
    ensures var next := channels[updated.id := updated];
            && ChannelsOk(next) && channels.Keys == next.Keys
            && (forall id :: id in channels && id in next && id !in {updated.id} ==> next[id] == channels[id])
  {
  }

  lemma {:induction false} OneAdded(channels: ChannelMap, created: Channel)
    requires ChannelsOk(channels) && created.id !in channels && created.overwrites == []
    ensures var next := channels[created.id := created];
            && ChannelsOk(next) && channels.Keys <= next.Keys && Count(next.Keys) <= Count(channels.Keys) + 1
            && (forall id :: id in channels && id in next && id !in {} ==> next[id] == channels[id])
  {
    assert channels[created.id := created].Keys == channels.Keys + {created.id};
  }

  lemma {:induction false} CreatedStored(t: Tables, ps: PermState, channels: ChannelMap, created: Channel)
    requires Synced(t, ps, channels) && created.id !in channels && created.overwrites == []
    ensures InsertChannel(t.channels, created).Some?
    ensures Synced(t.(channels := InsertChannel(t.channels, created).value), ps, channels[created.id := created])
  {
    var next := channels[created.id := created];
    forall c, x | c in next ensures OverwriteFor(next[c].overwrites, x) == StoredOverwrite(t.overwrites, c, x) {
      if c == created.id {
        assert (c, x) in t.overwrites ==> (c, x).0 in channels;
      }
    }
  }

  lemma {:induction false} UpdatedStored(t: Tables, ps: PermState, channels: ChannelMap, updated: Channel)
    requires Synced(t, ps, channels) && updated.id in channels && updated.overwrites == channels[updated.id].overwrites
    ensures Synced(t.(channels := UpdateChannelRow(t.channels, updated)), ps, channels[updated.id := updated])
  {
    var next := channels[updated.id := updated];
    forall c, x | c in next ensures OverwriteFor(next[c].overwrites, x) == StoredOverwrite(t.overwrites, c, x) {
      assert next[c].overwrites == channels[c].overwrites;
    }
  }

  lemma {:induction false} RemovedStored(t: Tables, ps: PermState, channels: ChannelMap, id: ChannelId)
    requires Synced(t, ps, channels)
    ensures Synced(DeleteChannelRows(t, id), ps, channels - {id})
  {
    var next, rows := channels - {id}, DeleteChannelRows(t, id);
    forall c, x | c in next ensures OverwriteFor(next[c].overwrites, x) == StoredOverwrite(rows.overwrites, c, x) {
      assert next[c] == channels[c];
    }
  }

  // ---- Moving about ------------------------------------------------------------------------------

  function Moved(clients: Clients, c: ClientId, room: Option<ChannelId>): Clients {
    if c in clients then clients[c := clients[c].(info := clients[c].info.(channel := room))] else clients
  }

  function Others(clients: Clients, room: ChannelId, c: ClientId): set<ClientId> {
    set o | o in clients && clients[o].info.channel == Some(room) && o != c
  }

  predicate Full(channels: ChannelMap, clients: Clients, room: ChannelId, c: ClientId)
    requires room in channels
  {
    channels[room].maxUsers.Some? && |Others(clients, room, c)| >= channels[room].maxUsers.value
  }

  /** Whether the relay forwards what this client says: in a voice room it may speak in, and muted by nobody. */
  predicate MaySpeak(ps: PermState, channels: ChannelMap, clients: Clients, from: ClientId) {
    && from in clients && !clients[from].info.voice.selfMuted && !clients[from].info.voice.serverMuted
    && clients[from].info.channel.Some? && clients[from].info.channel.value in channels
    && HasVoice(channels[clients[from].info.channel.value].kind)
    && MayIn(ps, channels, clients, from, clients[from].info.channel.value, SPEAK)
  }

  /** Who one voice frame is forwarded to. */
  function Listeners(ps: PermState, channels: ChannelMap, clients: Clients, from: ClientId): set<ClientId> {
    if MaySpeak(ps, channels, clients, from)
    then set c | c in clients && Listens(clients, from, c)
    else {}
  }

  predicate Listens(clients: Clients, from: ClientId, c: ClientId)
    requires from in clients && c in clients
  {
    c != from && clients[c].info.channel == clients[from].info.channel && !clients[c].info.voice.selfDeafened
  }

  function CheckJoin(ps: PermState, channels: ChannelMap, clients: Clients, c: ClientId,
                     room: ChannelId): Option<ErrorCode> {
    if room !in channels then Some(NoSuchChannel)
    else if c !in clients then Some(NotAuthenticated)
    else if !MayIn(ps, channels, clients, c, room, VIEW_CHANNEL) then Some(NoSuchChannel)
    else if !HasVoice(channels[room].kind) then Some(NotPermitted)
    else if !MayIn(ps, channels, clients, c, room, CONNECT) then Some(NotPermitted)
    else if Full(channels, clients, room, c) then Some(ChannelFull)
    else None
  }

  function CheckMove(ps: PermState, channels: ChannelMap, clients: Clients, owner: Option<Fingerprint>,
                     actor: ClientId, target: ClientId, to: Option<ChannelId>): Option<ErrorCode> {
    var verdict := Authorize(ps, owner, clients, actor, MOVE_MEMBERS, target);
    if verdict.Refused? then Some(verdict.code)
    else if to.None? then None
    else if !MayIn(ps, channels, clients, actor, to.value, VIEW_CHANNEL) then Some(NoSuchChannel)
    else if !MayIn(ps, channels, clients, actor, to.value, CONNECT) then Some(NotPermitted)
    else if !HasVoice(channels[to.value].kind) then Some(NotPermitted)
    else if Full(channels, clients, to.value, target) then Some(ChannelFull)
    else None
  }

  lemma JoinMayEnter(ps: PermState, channels: ChannelMap, clients: Clients, c: ClientId, room: ChannelId)
    requires CheckJoin(ps, channels, clients, c, room).None?
    ensures c in clients && room in channels && !Full(channels, clients, room, c)
  {
  }

  lemma MoveMayEnter(ps: PermState, channels: ChannelMap, clients: Clients, owner: Option<Fingerprint>,
                     actor: ClientId, target: ClientId, to: Option<ChannelId>)
    requires CheckMove(ps, channels, clients, owner, actor, target, to).None?
    ensures target in clients && (to.Some? ==> to.value in channels && !Full(channels, clients, to.value, target))
  {
  }

  lemma {:induction false} MovedInfo(ps: PermState, channels: ChannelMap, clients: Clients,
                                     owner: Option<Fingerprint>, maxUsers: nat, c: ClientId, room: Option<ChannelId>)
    requires ValidState(ps, channels, clients, owner, maxUsers) && c in clients
    requires (room.Some? ==> room.value in channels)
    ensures var info := clients[c].info.(channel := room);
            && info.clientId == c && SameStanding(info, clients[c].info) && InfoOk(c, info, ps, owner, channels)
            && Moved(clients, c, room) == clients[c := clients[c].(info := info)]
  {
    assert InfoOk(c, InfosOf(clients)[c], ps, owner, channels);
  }

  /** One client walking into a room that had space left takes no room over its cap. */
  lemma {:induction false} EnterCaps(before: Clients, channels: ChannelMap, after: Clients, c: ClientId,
                                     room: Option<ChannelId>)
    requires c in before && Survivors(Moved(before, c, room), after)
    requires room.Some? ==> room.value in channels && !Full(channels, before, room.value, c)
    ensures CapsKept(before, channels, after, channels)
  {
    forall r | r in channels ensures WithinCap(before, channels, r) ==> WithinCap(after, channels, r) {
      if room == Some(r) {
        assert Occupants(after, r) <= Others(before, r, c) + {c};
        Fewer(Occupants(after, r), Others(before, r, c) + {c});
      } else {
        assert Occupants(after, r) <= Occupants(before, r);
        Fewer(Occupants(after, r), Occupants(before, r));
      }
    }
  }

  lemma SameRoomStays(before: Clients, c: ClientId, info: UserInfo)
    requires c in before && info.channel == before[c].info.channel && info.fingerprint == before[c].info.fingerprint
    ensures Stayed(before, before[c := before[c].(info := info)])
  {
  }

  lemma MovedNobodyNew(before: Clients, c: ClientId, room: Option<ChannelId>, after: Clients)
    requires Survivors(Moved(before, c, room), after)
    ensures NoNewcomers(before, after)
  {
  }

  lemma {:induction false} OwnState(ps: PermState, channels: ChannelMap, clients: Clients, owner: Option<Fingerprint>,
                                    maxUsers: nat, c: ClientId)
    requires ValidState(ps, channels, clients, owner, maxUsers) && c in clients
    ensures clients[c].info.clientId == c && InfoOk(c, clients[c].info, ps, owner, channels)
  {
    assert InfoOk(c, InfosOf(clients)[c], ps, owner, channels);
  }

  /** Only what the member says about themselves changed. */
  lemma SameMember(c: ClientId, info: UserInfo, info': UserInfo, ps: PermState, owner: Option<Fingerprint>,
                   channels: ChannelMap)
    requires InfoOk(c, info, ps, owner, channels) && info' == info.(nickname := info'.nickname, voice := info'.voice)
    requires info'.voice.selfDeafened ==> info'.voice.selfMuted
    ensures InfoOk(c, info', ps, owner, channels) && SameStanding(info', info)
  {
  }

  // ---- Delivery ----------------------------------------------------------------------------------

  function Delivered(s: Session): Session
    requires s.queue != []
  {
    s.(queue := s.queue[1..], view := Apply(s.view, s.queue[0]))
  }

  /**
  Moving the first queued frame into the view changes nothing that counts: not what will be seen, not who is there.
  */
  lemma {:induction false} DeliveryKeepsSeen(clients: Clients, c: ClientId)
    requires c in clients && clients[c].queue != [] && QueuesOk(clients)
    ensures var after := clients[c := Delivered(clients[c])];
            && InfosOf(after) == InfosOf(clients) && ViewsOf(after) == ViewsOf(clients)
            && QueuesOk(after)
  {
    assert Seen(Delivered(clients[c])) == Seen(clients[c]);
  }

  lemma {:induction false} SameObserved(ps: PermState, channels: ChannelMap, clients: Clients, after: Clients,
                                        owner: Option<Fingerprint>, maxUsers: nat)
    requires ValidState(ps, channels, clients, owner, maxUsers)
    requires InfosOf(after) == InfosOf(clients) && ViewsOf(after) == ViewsOf(clients) && QueuesOk(after)
    ensures ValidState(ps, channels, after, owner, maxUsers)
  {
    hide PermsOk, InfosOk, AllRight, ChannelsOk, QueuesOk, InfosOf, ViewsOf;
  }

  // ---- Small steps of the channel and session commands -------------------------------------------

  function WithOverwriteOn(c: Channel, o: Overwrite): Channel { c.(overwrites := WithOverwrite(c.overwrites, o)) }

  function WithoutTarget(c: Channel,
                         target: OverwriteTarget): Channel { c.(overwrites := DropTarget(c.overwrites, target)) }

  /** A new channel as the handler builds it: no overwrites of its own yet. */
  function Drafted(draft: Channel,
                   id: ChannelId): Channel { draft.(id := id, name := Trim(draft.name), overwrites := []) }

  /** New fields, the overwrites that were there before. */
  function Redrafted(draft: Channel,
                     existing: Channel): Channel { draft.(name := Trim(draft.name), overwrites := existing.overwrites) }

  lemma {:induction false} OverwriteSet(t: Tables, ps: PermState, channels: ChannelMap, c: ChannelId, o: Overwrite)
    requires ChannelsOk(channels) && c in channels
    ensures var next := channels[c := WithOverwriteOn(channels[c], o)];
            && ChannelsOk(next) && channels.Keys == next.Keys
            && (forall id :: id in channels && id in next && id !in {c} ==> next[id] == channels[id])
            && (Synced(t, ps, channels) ==> Synced(t.(overwrites := UpsertOverwrite(t.overwrites, c, o)), ps, next))
  {
    WithOverwriteLookup(channels[c].overwrites, o, o.target);
    OneReplaced(channels, WithOverwriteOn(channels[c], o));
    if Synced(t, ps, channels) { UpsertOverwriteSynced(t, ps, channels, c, o); }
  }

  lemma {:induction false} OverwriteCleared(t: Tables, ps: PermState, channels: ChannelMap, c: ChannelId,
                                            target: OverwriteTarget)
    requires ChannelsOk(channels) && c in channels
    ensures var next := channels[c := WithoutTarget(channels[c], target)];
            && ChannelsOk(next) && channels.Keys == next.Keys
            && (forall id :: id in channels && id in next && id !in {c} ==> next[id] == channels[id])
            && (Synced(t, ps, channels) ==> Synced(t.(overwrites := t.overwrites - {(c, target)}), ps, next))
  {
    DropTargetLookup(channels[c].overwrites, target, target);
    OneReplaced(channels, WithoutTarget(channels[c], target));
    if Synced(t, ps, channels) { DeleteOverwriteSynced(t, ps, channels, c, target); }
  }

  lemma {:induction false} DraftAdded(t: Tables, ps: PermState, channels: ChannelMap, draft: Channel, id: ChannelId)
    requires IsNextChannelId(channels, id)
    ensures var channel := Drafted(draft, id);
            && id !in channels && channel.id == id && channel.overwrites == []
            && (Synced(t, ps, channels) ==> InsertChannel(t.channels, channel).Some?)
            && (Synced(t, ps, channels) ==> Synced(t.(channels := InsertChannel(t.channels, channel).value), ps,
                                                   channels[id := channel]))
            && (Acyclic(channels) ==> (Acyclic(channels[id := channel]) <==> !Reaches(channels, draft.parent, id)))
  {
    var channel := Drafted(draft, id);
    if Synced(t, ps, channels) { CreatedStored(t, ps, channels, channel); }
    if Acyclic(channels) { CreateKeepsForestIff(channels, channel); }
  }

  lemma {:induction false} RedraftKept(t: Tables, ps: PermState, channels: ChannelMap, draft: Channel)
    requires draft.id in channels
    ensures var updated := Redrafted(draft, channels[draft.id]);
            && (Synced(t, ps, channels) ==> Synced(t.(channels := UpdateChannelRow(t.channels, updated)), ps,
                                                   channels[draft.id := updated]))
            && (Acyclic(channels) ==>
                  (Acyclic(channels[draft.id := updated]) <==> !Reaches(channels, draft.parent, draft.id)))
  {
    var updated := Redrafted(draft, channels[draft.id]);
    if Synced(t, ps, channels) { UpdatedStored(t, ps, channels, updated); }
    if Acyclic(channels) { UpdateKeepsForest(channels, updated); }
  }

  lemma RedraftOk(channels: ChannelMap, draft: Channel)
    requires ChannelsOk(channels) && draft.id in channels
    ensures var next := channels[draft.id := Redrafted(draft, channels[draft.id])];
            && ChannelsOk(next) && channels.Keys == next.Keys
            && (forall id :: id in channels && id in next && id !in {draft.id} ==> next[id] == channels[id])
  {
  }

  /** A member as `admit` first records it. */
  function Newcomer(ps: PermState, owner: Option<Fingerprint>, id: ClientId, fingerprint: Fingerprint,
                    nickname: string): UserInfo {
    UserInfo(id, fingerprint, nickname, None, VoiceState(false, false, false, false), Grants(ps, fingerprint),
             owner == Some(fingerprint))
  }

  lemma NewcomerOk(ps: PermState, owner: Option<Fingerprint>, id: ClientId, fingerprint: Fingerprint,
                   nickname: string, channels: ChannelMap)
    ensures var info := Newcomer(ps, owner, id, fingerprint, nickname);
            info.clientId == id && info.channel == None && InfoOk(id, info, ps, owner, channels)
  {
  }

  lemma EnteredChain(a: Clients, b: Clients, c: Clients)
    requires NobodyEntered(a, b) && Survivors(b, c)
    ensures NobodyEntered(a, c)
  {
  }

  lemma StaysGone(a: Clients, b: Clients, gone: ClientId)
    requires Survivors(a, b) && gone !in a
    ensures gone !in b
  {
  }

  lemma AlreadyGone(clients: Clients, gone: ClientId)
    requires gone !in clients
    ensures clients - {gone} == clients
  {
  }

  predicate MayBan(ps: PermState, owner: Option<Fingerprint>, clients: Clients, actor: ClientId, target: Fingerprint) {
    && MayGlobally(ps, clients, actor, BAN_MEMBERS)
    && clients[actor].info.fingerprint != target
    && Outranks(ps, owner, clients, actor, target)
  }

  function SessionsWith(clients: Clients, target: Fingerprint): set<ClientId> {
    set c | c in clients && clients[c].info.fingerprint == target
  }

  lemma FewerLeft(a: Clients, b: Clients, gone: ClientId)
    requires (b == a && gone !in a) || Survivors(a - {gone}, b)
    ensures b.Keys <= a.Keys - {gone} && Survivors(a, b)
  {
  }

  /** Those of the victims already seen to are gone. */
  ghost predicate Purged(clients: Clients, victims: set<ClientId>, todo: set<ClientId>) {
    forall c :: c in victims && c !in todo ==> c !in clients
  }

  lemma NonePurged(clients: Clients, victims: set<ClientId>)
    ensures Purged(clients, victims, victims)
  {
  }

  lemma PurgedOne(a: Clients, b: Clients, victims: set<ClientId>, todo: set<ClientId>, victim: ClientId)
    requires Purged(a, victims, todo) && b.Keys <= a.Keys - {victim}
    ensures Purged(b, victims, todo - {victim})
  {
  }

  predicate AllHere(clients: Clients, victims: set<ClientId>) { victims <= clients.Keys }

  lemma {:induction false} AllGone(before: Clients, after: Clients, victims: set<ClientId>, n: nat)
    requires Survivors(before, after) && Purged(after, victims, {}) && AllHere(before, victims)
    requires Patience(before, after, victims, n)
    ensures Survivors(before - victims, after) && Patience(before - victims, after, {}, n + Count(victims))
  {
    hide Patience, Count;
    SentAwayAll(before, victims, after, n);
  }

  lemma SessionsAre(clients: Clients, target: Fingerprint)
    ensures AllHere(clients, SessionsWith(clients, target))
  {
  }

  lemma NoneLeft(before: Clients, after: Clients, target: Fingerprint)
    requires Survivors(before - SessionsWith(before, target), after)
    ensures forall c :: c in after ==> after[c].info.fingerprint != target
  {
  }

  lemma MoveIsInert(views: Views, c: ClientId, from: Option<ChannelId>, to: Option<ChannelId>)
    ensures Told(views, UserMoved(c, from, to), None) == views
  {
  }

  lemma NobodyMoved(clients: Clients, c: ClientId)
    requires c !in clients
    ensures Moved(clients, c, None) == clients && Inert(UserMoved(c, None, None))
  {
  }

  lemma ErrorIsInert(code: ErrorCode)
    ensures Inert(Frame.Error(code))
  {
  }

  lemma AuthorizedIsHere(ps: PermState, owner: Option<Fingerprint>, clients: Clients, actor: ClientId,
                         bit: Permissions, target: ClientId)
    requires Authorize(ps, owner, clients, actor, bit, target).Accepted?
    ensures target in clients
  {
  }

  /** One member's recorded info replaced. */
  function Noted(clients: Clients, c: ClientId, info: UserInfo): Clients {
    if c in clients then clients[c := clients[c].(info := info)] else clients
  }

  function Muted(clients: Clients, c: ClientId, muted: bool): Clients {
    if c in clients then
      var info := clients[c].info;
      Noted(clients, c, info.(voice := info.voice.(serverMuted := muted)))
    else clients
  }

  lemma MutedIs(clients: Clients, c: ClientId, muted: bool)
    requires c in clients
    ensures var info := clients[c].info;
            Muted(clients, c, muted) ==
            clients[c := clients[c].(info := info.(voice := info.voice.(serverMuted := muted)))]
  {
  }

  function Renamed(clients: Clients, c: ClientId, nickname: string): Clients {
    if c in clients then Noted(clients, c, clients[c].info.(nickname := nickname)) else clients
  }

  lemma RenamedIs(clients: Clients, c: ClientId, nickname: string)
    requires c in clients
    ensures Renamed(clients, c, nickname) == clients[c := clients[c].(info := clients[c].info.(nickname := nickname))]
  {
  }

  lemma NobodyRenamed(clients: Clients, c: ClientId)
    ensures c !in clients ==> forall nickname :: Renamed(clients, c, nickname) == clients
  {
  }

  lemma DeafImpliesMuted(c: ClientId, info: UserInfo, ps: PermState, owner: Option<Fingerprint>, channels: ChannelMap)
    requires InfoOk(c, info, ps, owner, channels)
    ensures info.voice.selfDeafened ==> info.voice.selfMuted
  {
  }

  /** Deafening implies muting. */
  function Voiced(clients: Clients, c: ClientId, selfMuted: bool, selfDeafened: bool): Clients {
    if c in clients then
      var info := clients[c].info;
      var voice := info.voice.(selfMuted := selfMuted || selfDeafened, selfDeafened := selfDeafened);
      Noted(clients, c, info.(voice := voice))
    else clients
  }

  lemma VoicedIs(clients: Clients, c: ClientId, selfMuted: bool, selfDeafened: bool)
    ensures c !in clients ==> Voiced(clients, c, selfMuted, selfDeafened) == clients
    ensures c in clients ==>
              var info := clients[c].info;
              var voice := info.voice.(selfMuted := selfMuted || selfDeafened, selfDeafened := selfDeafened);
              Voiced(clients, c, selfMuted, selfDeafened) == clients[c := clients[c].(info := info.(voice := voice))]
  {
  }

  lemma {:induction false} StayedMeans(ps: PermState, channels: ChannelMap, before: Clients,
                                       owner: Option<Fingerprint>, maxUsers: nat, after: Clients)
    requires ValidState(ps, channels, before, owner, maxUsers) && Stayed(before, after)
    ensures NoNewcomers(before, after) && CapsKept(before, channels, after, channels)
  {
    StayedCaps(ps, channels, before, owner, maxUsers, after, channels);
  }

  /** Both writes of a role creation go through, the insert not clashing with a row already there. */
  predicate CreatePersists(t: Tables, ps: PermState, name: string, permissions: Permissions, shiftStored: bool,
                           insertStored: bool) {
    && shiftStored && insertStored
    && InsertRole(SetRolePositions(t.roles, ShiftedPositions(ps.roles)), NewRole(ps, name, permissions)).Some?
  }

  lemma PersistsMeans(t: Tables, ps: PermState, name: string, permissions: Permissions, shiftStored: bool,
                      insertStored: bool)
    ensures CreatePersists(t, ps, name, permissions, shiftStored, insertStored) <==>
              && shiftStored && insertStored
              && InsertRole(SetRolePositions(t.roles, ShiftedPositions(ps.roles)), NewRole(ps, name, permissions)).Some?
  {
  }

  /** The tables once the positions are shifted and the role is in, if it can be. */
  function AfterInsert(t: Tables, ps: PermState, role: Role): Tables {
    var rows := InsertRole(SetRolePositions(t.roles, ShiftedPositions(ps.roles)), role);
    if rows.Some? then t.(roles := rows.value) else t
  }

  lemma InsertIs(t: Tables, ps: PermState, name: string, permissions: Permissions)
    ensures var role := NewRole(ps, name, permissions);
            var rows := InsertRole(SetRolePositions(t.roles, ShiftedPositions(ps.roles)), role);
            rows.Some? ==> AfterInsert(t, ps, role) == t.(roles := rows.value)
  {
    hide InsertRole, SetRolePositions;
  }

  lemma {:induction false} CreateGoesThrough(t: Tables, ps: PermState, channels: ChannelMap, name: string,
                                             permissions: Permissions)
    requires TableOk(ps.roles) && Synced(t, ps, channels)
    ensures CreatePersists(t, ps, name, permissions, true, true)
    ensures var role := NewRole(ps, name, permissions);
            Synced(AfterInsert(t, ps, role), AfterCreate(ps, role), channels)
  {
    hide InsertRole, SetRolePositions, Synced, NewRole, AfterCreate, TableOk;
    CreateStored(t, ps, channels, name, permissions);
  }
}
