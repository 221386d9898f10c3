/**
The server's state as a whole: what it would allow, what makes it valid, what each kind of change does to everyone's
view, and what a valid state means to a client
(crates/pickle-server/src/state.rs, admin.rs, moderation.rs, apps/desktop/src-tauri/src/perms.rs).
*/
module ServerState {
  import opened Common
  import opened Perms
  import opened RoleTable
  import opened Channels
  import opened Mirror
  import opened Visibility

  // ---- What the server is allowed to answer ---------------------------------------------

  predicate MayGlobally(ps: PermState, clients: Clients, c: ClientId, bits: Permissions) {
    c in clients &&
    var info := clients[c].info;
    bits <= Resolve(ps.roles, info.roles, info.fingerprint, info.owner, None)
  }

  predicate MayIn(ps: PermState, channels: ChannelMap, clients: Clients, c: ClientId, channel: ChannelId,
                  bits: Permissions) {
    c in clients && channel in channels && bits <= BitsIn(ps.roles, clients[c].info, channels[channel])
  }

  predicate Outranks(ps: PermState, owner: Option<Fingerprint>, clients: Clients, c: ClientId, target: Fingerprint) {
    c in clients && CanActOn(ps.roles, clients[c].info.roles, clients[c].info.owner, Grants(ps, target),
                             owner == Some(target))
  }

  /** `authorize_against_online`: the bit, the target's existence, and rank. */
  function Authorize(ps: PermState, owner: Option<Fingerprint>, clients: Clients, c: ClientId, bit: Permissions,
                     target: ClientId): Outcome<Fingerprint> {
    if !MayGlobally(ps, clients, c, bit) then Refused(NotPermitted)
    else if target !in clients then Refused(Malformed)
    else if !Outranks(ps, owner, clients, c, clients[target].info.fingerprint) then Refused(NotPermitted)
    else Accepted(clients[target].info.fingerprint)
  }

  // ---- The state invariant --------------------------------------------------------------

  ghost predicate InfoOk(c: ClientId, info: UserInfo, ps: PermState, owner: Option<Fingerprint>, channels: ChannelMap) {
    && info.clientId == c
    && info.roles == Grants(ps, info.fingerprint)
    && info.owner == (owner == Some(info.fingerprint))
    && (info.channel.Some? ==> info.channel.value in channels)
    && (info.voice.selfDeafened ==> info.voice.selfMuted)
  }

  ghost predicate InfosOk(infos: Infos, ps: PermState, owner: Option<Fingerprint>, channels: ChannelMap,
                          maxUsers: nat) {
    |infos| <= maxUsers && forall c :: c in infos ==> InfoOk(c, infos[c], ps, owner, channels)
  }

  ghost predicate QueuesOk(clients: Clients) {
    forall c :: c in clients ==> |clients[c].queue| <= QUEUE_DEPTH
  }

  ghost predicate ValidState(ps: PermState, channels: ChannelMap, clients: Clients, owner: Option<Fingerprint>,
                             maxUsers: nat) {
    && PermsOk(ps) && ChannelsOk(channels)
    && InfosOk(InfosOf(clients), ps, owner, channels, maxUsers)
    && QueuesOk(clients)
    && AllRight(ViewsOf(clients), InfosOf(clients), ps.roles, channels)
  }

  lemma TracksSelf(clients: Clients)
    requires QueuesOk(clients)
    ensures Tracks(clients, ViewsOf(clients))
  {
  }

  lemma {:induction false} FewerInfos(infos: Infos, fewer: Infos)
    requires fewer.Keys <= infos.Keys
    ensures |fewer| <= |infos|
  {
    Fewer(fewer.Keys, infos.Keys);
    assert |fewer| == |fewer.Keys| && |infos| == |infos.Keys|;
  }

  lemma {:induction false} Fewer<T>(a: set<T>, b: set<T>)
    requires a <= b
    ensures |a| <= |b|
    decreases a
  {
    if a != {} {
      var x :| x in a;
      Fewer(a - {x}, b - {x});
    }
  }

  /** Everyone was told the right things; whoever is left is in a valid state. */
  lemma {:induction false} Settled(clients: Clients, views: Views, infos: Infos, ps: PermState,
                                   owner: Option<Fingerprint>, channels: ChannelMap, maxUsers: nat)
    requires PermsOk(ps) && ChannelsOk(channels)
    requires Tracks(clients, views) && AllRight(views, infos, ps.roles, channels)
    requires InfosOk(infos, ps, owner, channels, maxUsers)
    requires forall c :: c in clients ==> c in infos && clients[c].info == infos[c]
    ensures ValidState(ps, channels, clients, owner, maxUsers)
  {
    SurvivorsAreRight(clients, views, infos, ps.roles, channels);
    FewerInfos(infos, InfosOf(clients));
    forall c | c in InfosOf(clients) ensures InfoOk(c, InfosOf(clients)[c], ps, owner, channels) {
      assert InfoOk(c, infos[c], ps, owner, channels);
    }
  }

  lemma {:induction false} OneStanding(infos: Infos, told: Infos, ps: PermState, owner: Option<Fingerprint>,
                                       channels: ChannelMap, maxUsers: nat)
    requires InfosOk(infos, ps, owner, channels, maxUsers)
    requires forall u :: u in told ==> u in infos && told[u] == infos[u]
    ensures OneStandingEach(told)
  {
    forall u | u in told ensures InfoOk(u, told[u], ps, owner, channels) {
      assert InfoOk(u, infos[u], ps, owner, channels);
    }
  }

  // ---- Inert frames ---------------------------------------------------------------------

  /** Frames the mirror ignores. */
  predicate Inert(f: Frame) { f.Ack? || f.CommandFailed? || f.Error? || f.Other? || f.UserMoved? }

  lemma InertTold(views: Views, f: Frame, except: Option<ClientId>, c: ClientId)
    requires Inert(f)
    ensures Told(views, f, except) == views && ToldOne(views, c, f) == views
  {
  }

  // ---- Room capacity --------------------------------------------------------------------

  function Occupants(clients: Clients, room: ChannelId): set<ClientId> {
    set c | c in clients && clients[c].info.channel == Some(room)
  }

  ghost predicate WithinCap(clients: Clients, channels: ChannelMap, room: ChannelId)
    requires room in channels
  {
    channels[room].maxUsers.Some? ==> |Occupants(clients, room)| <= channels[room].maxUsers.value
  }

  /** No room goes from within its cap to over it, and a room that was not there before starts empty. */
  ghost predicate CapsKept(clients: Clients, channels: ChannelMap, clients': Clients, channels': ChannelMap) {
    forall room :: room in channels' ==>
      if room in channels then WithinCap(clients, channels, room) ==> WithinCap(clients', channels', room)
      else Occupants(clients', room) == {}
  }

  /** Nobody entered a room. */
  ghost predicate NobodyEntered(before: Clients, after: Clients) {
    forall c :: c in after && after[c].info.channel.Some? ==>
      c in before && after[c].info.channel == before[c].info.channel
  }

  ghost predicate RoomsLive(clients: Clients, channels: ChannelMap) {
    forall c :: c in clients && clients[c].info.channel.Some? ==> clients[c].info.channel.value in channels
  }

  lemma {:induction false} NobodyEnteredCaps(before: Clients, channels: ChannelMap, after: Clients,
                                             channels': ChannelMap)
    requires NobodyEntered(before, after) && RoomsLive(before, channels)
    requires forall room :: room in channels && room in channels' ==>
               channels'[room].maxUsers == channels[room].maxUsers
    ensures CapsKept(before, channels, after, channels')
  {
    forall room | room in channels'
      ensures if room in channels then WithinCap(before, channels, room) ==> WithinCap(after, channels', room)
              else Occupants(after, room) == {}
    {
      assert Occupants(after, room) <= Occupants(before, room);
      Fewer(Occupants(after, room), Occupants(before, room));
    }
  }

  lemma {:induction false} ValidRoomsLive(ps: PermState, channels: ChannelMap, clients: Clients,
                                          owner: Option<Fingerprint>, maxUsers: nat)
    requires ValidState(ps, channels, clients, owner, maxUsers)
    ensures RoomsLive(clients, channels)
  {
    forall c | c in clients && clients[c].info.channel.Some? ensures clients[c].info.channel.value in channels {
      assert InfoOk(c, InfosOf(clients)[c], ps, owner, channels);
    }
  }

  // ---- Whole-command view lemmas -------------------------------------------------------------

  lemma {:induction false} CreateAllRight(views: Views, infos: Infos, ps: PermState, channels: ChannelMap, role: Role)
    requires AllRight(views, infos, ps.roles, channels) && PermsOk(ps)
    requires forall c :: c in infos ==> infos[c].roles == Grants(ps, infos[c].fingerprint)
    requires TableOk(CreatedTable(ps.roles, role)) && forall r :: r in ps.roles ==> r.id != role.id
    ensures var next := CreatedTable(ps.roles, role);
            AllRight(Told(Told(views, RoleCreated(role), None), RolesReordered(Ordering(next)), None), infos, next,
                     channels)
  {
    forall c | c in infos
      ensures Right(Apply(Apply(views[c], RoleCreated(role)), RolesReordered(Ordering(CreatedTable(ps.roles, role)))),
                    infos[c], CreatedTable(ps.roles, role), channels, infos)
    {
      CreateRight(views[c], infos[c], ps, channels, infos, role);
    }
  }

  lemma {:induction false} ReorderAllRight(views: Views, infos: Infos, ps: PermState, channels: ChannelMap,
                                           positions: Positions)
    requires AllRight(views, infos, ps.roles, channels) && PermsOk(ps) && NamesEveryRoleDensely(ps.roles, positions)
    requires forall c :: c in infos ==> infos[c].roles == Grants(ps, infos[c].fingerprint)
    ensures AllRight(Told(views, RolesReordered(positions), None), infos, AfterReorder(ps, positions).roles, channels)
  {
    forall c | c in infos
      ensures Right(Apply(views[c], RolesReordered(positions)), infos[c], AfterReorder(ps, positions).roles, channels,
                    infos)
    {
      ReorderRight(views[c], infos[c], ps, channels, infos, positions);
    }
  }

  /** Every listed client's channel list brought up to date. */
  function Resynced(views: Views, infos: Infos, roles: seq<Role>, channels: ChannelMap): Views {
    map c | c in views :: if c in infos then views[c].(channels := Visible(roles, infos[c], channels)) else views[c]
  }

  lemma {:induction false} UpdateAllRight(views: Views, infos: Infos, roles: seq<Role>, channels: ChannelMap, k: nat,
                                          updated: Role)
    requires AllRight(views, infos, roles, channels) && TableOk(roles)
    requires k < |roles| && updated.id == roles[k].id && updated.position == k
    ensures var next := ReplaceRole(roles, updated);
            AllRight(Resynced(Told(views, RoleUpdated(updated), None), infos, next, channels), infos, next, channels)
  {
    var next := ReplaceRole(roles, updated);
    forall c | c in infos
      ensures Right(Apply(views[c], RoleUpdated(updated)).(channels := Visible(next, infos[c], channels)), infos[c],
                    next, channels, infos)
    {
      UpdateRight(views[c], infos[c], roles, channels, infos, k, updated);
    }
  }

  /** A change to channels alone: nothing but the lists needs bringing up to date. */
  lemma {:induction false} ChannelsAllRight(views: Views, infos: Infos, roles: seq<Role>, channels: ChannelMap,
                                            channels': ChannelMap)
    requires AllRight(views, infos, roles, channels)
    ensures AllRight(Resynced(views, infos, roles, channels'), infos, roles, channels')
  {
    forall c | c in infos
      ensures Right(Resynced(views, infos, roles, channels')[c], infos[c], roles, channels', infos)
    {
      assert Right(views[c], infos[c], roles, channels, infos);
    }
  }

  ghost predicate AllAnnounced(views: Views, views': Views, told: Infos) {
    views'.Keys == views.Keys && forall c :: c in views ==> Announced(views[c], views'[c], told)
  }

  function Regranted(infos: Infos, member: Fingerprint, ids: seq<RoleId>): Infos {
    map c | c in infos :: if infos[c].fingerprint == member then infos[c].(roles := ids) else infos[c]
  }

  function SessionsOf(infos: Infos, member: Fingerprint): Infos {
    map c | c in infos && infos[c].fingerprint == member :: infos[c]
  }

  lemma {:induction false} GrantOneRight(v: View, w: View, infos: Infos, roles: seq<Role>, channels: ChannelMap,
                                         member: Fingerprint, ids: seq<RoleId>, c: ClientId)
    requires c in infos && infos[c].clientId == c && Right(v, infos[c], roles, channels, infos)
    requires Announced(v, w, SessionsOf(Regranted(infos, member, ids), member))
    ensures var infos' := Regranted(infos, member, ids);
            Right(w.(channels := Visible(roles, infos'[c], channels)), infos'[c], roles, channels, infos')
  {
    var infos' := Regranted(infos, member, ids);
    GrantRight(v, w, infos[c], infos'[c], roles, channels, infos, infos', SessionsOf(infos', member));
  }

  lemma {:induction false} GrantAllRight(views: Views, views': Views, infos: Infos, roles: seq<Role>,
                                         channels: ChannelMap, member: Fingerprint, ids: seq<RoleId>)
    requires AllRight(views, infos, roles, channels)
    requires forall c :: c in infos ==> infos[c].clientId == c
    requires AllAnnounced(views, views', SessionsOf(Regranted(infos, member, ids), member))
    ensures AllRight(Resynced(views', Regranted(infos, member, ids), roles, channels), Regranted(infos, member, ids),
                     roles, channels)
  {
    forall c | c in infos
      ensures var infos' := Regranted(infos, member, ids);
              Right(views'[c].(channels := Visible(roles, infos'[c], channels)), infos'[c], roles, channels, infos')
    {
      GrantOneRight(views[c], views'[c], infos, roles, channels, member, ids, c);
    }
  }

  function Stripped(infos: Infos, gone: RoleId): Infos {
    map c | c in infos :: infos[c].(roles := RemoveGrant(infos[c].roles, gone))
  }

  function Holders(infos: Infos, gone: RoleId): Infos {
    map c | c in infos && gone in infos[c].roles :: infos[c].(roles := RemoveGrant(infos[c].roles, gone))
  }

  lemma {:induction false} DeleteOneRight(v: View, w: View, infos: Infos, ps: PermState, channels: ChannelMap,
                                          stripped: ChannelMap, k: nat, c: ClientId)
    requires c in infos && Right(v, infos[c], ps.roles, channels, infos) && TableOk(ps.roles) && 0 < k < |ps.roles|
    requires Announced(Apply(Apply(v, RoleDeleted(ps.roles[k].id)),
                             RolesReordered(Ordering(DeletedTable(ps.roles, k)))), w, Holders(infos, ps.roles[k].id))
    requires OneStandingEach(Stripped(infos, ps.roles[k].id))
    ensures var infos' := Stripped(infos, ps.roles[k].id);
            var next := DeletedTable(ps.roles, k);
            Right(w.(channels := Visible(next, infos'[c], stripped)), infos'[c], next, stripped, infos')
  {
    var infos' := Stripped(infos, ps.roles[k].id);
    var told := Holders(infos, ps.roles[k].id);
    forall u | u in told && told[u].fingerprint == infos[c].fingerprint ensures SameStanding(told[u], infos'[c]) {
      assert told[u] == infos'[u];
    }
    DeleteRight(v, w, infos[c], infos'[c], ps, channels, stripped, infos, infos', told, k);
  }

  lemma {:induction false} DeleteAllRight(views: Views, told: Views, views': Views, infos: Infos, ps: PermState,
                                          channels: ChannelMap, stripped: ChannelMap, k: nat)
    requires AllRight(views, infos, ps.roles, channels) && TableOk(ps.roles) && 0 < k < |ps.roles|
    requires told ==
             Told(Told(views, RoleDeleted(ps.roles[k].id), None), RolesReordered(Ordering(DeletedTable(ps.roles, k))),
                  None)
    requires AllAnnounced(told, views', Holders(infos, ps.roles[k].id))
    requires OneStandingEach(Stripped(infos, ps.roles[k].id))
    ensures AllRight(Resynced(views', Stripped(infos, ps.roles[k].id), DeletedTable(ps.roles, k), stripped),
                     Stripped(infos, ps.roles[k].id), DeletedTable(ps.roles, k), stripped)
  {
    hide Right, Apply, Visible, RemoveGrant, Announced, OneStandingEach;
    forall c | c in infos
      ensures var infos' := Stripped(infos, ps.roles[k].id);
              var next := DeletedTable(ps.roles, k);
              Right(views'[c].(channels := Visible(next, infos'[c], stripped)), infos'[c], next, stripped, infos')
    {
      assert told[c] == Apply(Apply(views[c], RoleDeleted(ps.roles[k].id)),
                              RolesReordered(Ordering(DeletedTable(ps.roles, k))));
      DeleteOneRight(views[c], views'[c], infos, ps, channels, stripped, k, c);
    }
  }

  /** Users whose standing is unchanged are re-announced, or move, or change their voice state. */
  lemma {:induction false} RefreshAllRight(views: Views, infos: Infos, infos': Infos, roles: seq<Role>,
                                           channels: ChannelMap, user: UserInfo)
    requires AllRight(views, infos, roles, channels)
    requires infos'.Keys == infos.Keys && forall u :: u in infos ==> SameStanding(infos[u], infos'[u])
    requires OneStandingEach(infos) && user.clientId in infos' && infos'[user.clientId] == user
    ensures AllRight(views, infos', roles, channels)
    ensures AllRight(Told(views, UserUpdated(user), None), infos', roles, channels)
  {
    hide Right, Apply, Visible;
    forall c | c in infos'
      ensures Right(views[c], infos'[c], roles, channels, infos')
      ensures Right(Apply(views[c], UserUpdated(user)), infos'[c], roles, channels, infos')
    {
      assert Right(views[c], infos[c], roles, channels, infos);
      assert SameStanding(infos[user.clientId], user);
      RefreshRight(views[c], infos[c], infos'[c], roles, channels, infos, infos', user);
    }
  }

  lemma {:induction false} LeaveAllRight(views: Views, infos: Infos, roles: seq<Role>, channels: ChannelMap,
                                         gone: ClientId, except: Option<ClientId>)
    requires AllRight(views, infos, roles, channels) && (except == None || except == Some(gone))
    ensures AllRight(Told(views, UserLeft(gone), except), infos - {gone}, roles, channels)
  {
    forall c | c in infos - {gone}
      ensures Right(Apply(views[c], UserLeft(gone)), infos[c], roles, channels, infos - {gone})
    {
      LeaveRight(views[c], infos[c], roles, channels, infos, gone);
    }
  }

  lemma {:induction false} JoinOneRight(v: View, infos: Infos, roles: seq<Role>, channels: ChannelMap, user: UserInfo,
                                        c: ClientId)
    requires c in infos && c != user.clientId && Right(v, infos[c], roles, channels, infos)
    requires OneStandingEach(infos[user.clientId := user])
    ensures Right(Apply(v, UserJoined(user)), infos[c], roles, channels, infos[user.clientId := user])
  {
    var infos' := infos[user.clientId := user];
    assert infos'[user.clientId] == user && infos'[c] == infos[c];
    JoinRight(v, infos[c], roles, channels, infos, user);
  }

  lemma {:induction false} JoinAllRight(views: Views, infos: Infos, infos': Infos, roles: seq<Role>,
                                        channels: ChannelMap, user: UserInfo, welcome: View)
    requires AllRight(views, infos, roles, channels) && OneStandingEach(infos')
    requires infos' == infos[user.clientId := user] && welcome == Welcome(user, roles, channels, infos')
    ensures AllRight(Told(views[user.clientId := welcome], UserJoined(user), Some(user.clientId)), infos', roles,
                     channels)
  {
    WelcomeRight(user, roles, channels, infos');
    var after := Told(views[user.clientId := welcome], UserJoined(user), Some(user.clientId));
    forall c | c in infos' ensures c in after && Right(after[c], infos'[c], roles, channels, infos') {
      if c != user.clientId {
        JoinOneRight(views[c], infos, roles, channels, user, c);
      }
    }
  }

  /** Evicted users are announced with the room they no longer stand in; their standing is what it was. */
  lemma {:induction false} EvictAllRight(views: Views, views': Views, infos: Infos, infos': Infos, told: Infos,
                                         roles: seq<Role>, channels: ChannelMap, channels': ChannelMap)
    requires AllRight(views, infos, roles, channels) && AllAnnounced(views, views', told) && OneStandingEach(infos)
    requires infos'.Keys == infos.Keys && forall u :: u in infos ==> SameStanding(infos[u], infos'[u])
    requires forall u :: u in told ==> u in infos' && told[u] == infos'[u]
    ensures AllRight(Resynced(views', infos', roles, channels'), infos', roles, channels')
  {
    forall c | c in infos'
      ensures Right(views'[c].(channels := Visible(roles, infos'[c], channels')), infos'[c], roles, channels', infos')
    {
      assert Right(views[c], infos[c], roles, channels, infos);
      assert Announced(views[c], views'[c], told);
      forall u | u in told && told[u].fingerprint == infos[c].fingerprint ensures SameStanding(told[u], infos[c]) {
        assert SameStanding(infos[u], infos'[u]) && SameStanding(infos[u], infos[c]);
      }
      OwnAfterAnnounce(views[c], views'[c], told, infos[c]);
      assert SameStanding(infos[c], infos'[c]);
      forall u | u in infos' ensures u in views'[c].users && views'[c].users[u] == StandingOf(infos'[u]) {
        assert SameStanding(infos[u], infos'[u]);
      }
    }
  }

  // ---- Agreement, as a client sees it -----------------------------------------------------------

  /** At every boundary, folding what is queued gives a client exactly the server's roles, its grants and its rooms. */
  lemma {:induction false} MirrorAgreement(ps: PermState, channels: ChannelMap, clients: Clients,
                                           owner: Option<Fingerprint>, maxUsers: nat, c: ClientId)
    requires ValidState(ps, channels, clients, owner, maxUsers) && c in clients
    ensures var v := Seen(clients[c]);
            && v.roles == ps.roles
            && v.myRoles == Grants(ps, v.fingerprint)
            && (forall id :: id in v.channels <==> MayIn(ps, channels, clients, c, id, VIEW_CHANNEL))
            && (forall id :: id in v.channels ==> id in channels && v.channels[id] == channels[id])
            && (forall u :: u in clients ==> u in v.users && v.users[u] == StandingOf(clients[u].info))
  {
    assert Right(ViewsOf(clients)[c], InfosOf(clients)[c], ps.roles, channels, InfosOf(clients));
    assert InfoOk(c, InfosOf(clients)[c], ps, owner, channels);
    forall u | u in clients
      ensures u in Seen(clients[c]).users && Seen(clients[c]).users[u] == StandingOf(clients[u].info)
    {
      assert u in InfosOf(clients);
    }
  }

  /** So what the client enables is what the server would accept, channel by channel and bit by bit. */
  lemma {:induction false} PermissionsAgree(ps: PermState, channels: ChannelMap, clients: Clients,
                                            owner: Option<Fingerprint>, maxUsers: nat, c: ClientId)
    requires ValidState(ps, channels, clients, owner, maxUsers) && c in clients
    ensures var v := Seen(clients[c]);
            && (forall bits :: bits <= Bits(v, None) <==> MayGlobally(ps, clients, c, bits))
            && (forall id, bits :: id in v.channels ==>
                  (bits <= Bits(v, Some(v.channels[id].overwrites)) <==> MayIn(ps, channels, clients, c, id, bits)))
            && (forall id :: id in MyPermissionsOf(v).channels ==>
                  && MyPermissionsOf(v).channels[id].send == MayIn(ps, channels, clients, c, id, SEND_MESSAGES)
                  && MyPermissionsOf(v).channels[id].readHistory == MayIn(ps, channels, clients, c, id, READ_HISTORY)
                  && MyPermissionsOf(v).channels[id].connect == MayIn(ps, channels, clients, c, id, CONNECT)
                  && MyPermissionsOf(v).channels[id].speak == MayIn(ps, channels, clients, c, id, SPEAK))
            && MyPermissionsOf(v).channels.Keys == v.channels.Keys
            && MyPermissionsOf(v).isOwner == (owner == Some(clients[c].info.fingerprint))
            && MyPermissionsOf(v).isAdmin == MayGlobally(ps, clients, c, {0})
            && (MyPermissionsOf(v).canOpenAdmin <==>
                  || owner == Some(clients[c].info.fingerprint)
                  || exists b :: b in {1, 2, 3, 4, 5, 22, 23} && MayGlobally(ps, clients, c, {b}))
  {
    assert Right(ViewsOf(clients)[c], InfosOf(clients)[c], ps.roles, channels, InfosOf(clients));
  }

  lemma OptionsAre(v: View, target: ClientId, them: Standing)
    requires target in v.users && v.users[target] == them
    ensures var may :=
              && them.fingerprint != v.fingerprint
              && CanActOn(v.roles, v.myRoles, v.owner, them.roles, them.owner);
            var base := Bits(v, None);
            ModerationOptionsOf(v, target) ==
            ModerationOptions(may && KICK_MEMBERS <= base, may && BAN_MEMBERS <= base, may && MUTE_MEMBERS <= base,
                              may && MOVE_MEMBERS <= base)
  {
  }

  /** And the moderation menu offers an action against a connected member exactly when the server would carry it out. */
  lemma {:induction false} ModerationAgrees(ps: PermState, channels: ChannelMap, clients: Clients,
                                            owner: Option<Fingerprint>, maxUsers: nat, c: ClientId, target: ClientId)
    requires ValidState(ps, channels, clients, owner, maxUsers) && c in clients && target in clients
    ensures var options := ModerationOptionsOf(Seen(clients[c]), target);
            && options.canKick == Authorize(ps, owner, clients, c, KICK_MEMBERS, target).Accepted?
            && options.canMute == Authorize(ps, owner, clients, c, MUTE_MEMBERS, target).Accepted?
            && options.canMove == Authorize(ps, owner, clients, c, MOVE_MEMBERS, target).Accepted?
            && options.canBan == (MayGlobally(ps, clients, c, BAN_MEMBERS)
                                  && clients[target].info.fingerprint != clients[c].info.fingerprint
                                  && Outranks(ps, owner, clients, c, clients[target].info.fingerprint))
  {
    var v := Seen(clients[c]);
    var mine, theirs := clients[c].info, clients[target].info;
    assert Right(ViewsOf(clients)[c], InfosOf(clients)[c], ps.roles, channels, InfosOf(clients));
    assert InfoOk(c, InfosOf(clients)[c], ps, owner, channels);
    assert InfoOk(target, InfosOf(clients)[target], ps, owner, channels);
    assert v.users[target] == StandingOf(InfosOf(clients)[target]);
    OptionsAre(v, target, StandingOf(theirs));
    StandingAgrees(ps, owner, clients, c, target, v);
  }

  lemma StandingAgrees(ps: PermState, owner: Option<Fingerprint>, clients: Clients, c: ClientId, target: ClientId,
                       v: View)
    requires c in clients && target in clients
    requires var i := clients[c].info; i.roles == Grants(ps, i.fingerprint) && i.owner == (owner == Some(i.fingerprint))
    requires var i := clients[target].info;
             i.roles == Grants(ps, i.fingerprint) && i.owner == (owner == Some(i.fingerprint))
    requires var i := clients[c].info;
             && v.roles == ps.roles && v.myRoles == i.roles
             && v.owner == i.owner && v.fingerprint == i.fingerprint
    ensures var them := clients[target].info;
            Outranks(ps, owner, clients, c, them.fingerprint) ==
            (them.fingerprint != v.fingerprint && CanActOn(v.roles, v.myRoles, v.owner, them.roles, them.owner))
    ensures forall bits :: MayGlobally(ps, clients, c, bits) <==> bits <= Bits(v, None)
  {
  }
}
