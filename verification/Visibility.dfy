/**
Sessions, their bounded queues, and what it means for a client's view to be right
(crates/pickle-server/src/state.rs, apps/desktop/src-tauri/src/perms.rs).

A session is modelled with both of its ends: the control queue on the server and the view the client has folded so far.
*/
module Visibility {
  import opened Common
  import opened Perms
  import opened RoleTable
  import opened Channels
  import opened Mirror

  /** `CONTROL_QUEUE_DEPTH`. */
  const QUEUE_DEPTH: nat := 64

  datatype Session = Session(info: UserInfo, queue: seq<Frame>, view: View)

  type Clients = map<ClientId, Session>
  type Infos = map<ClientId, UserInfo>
  type Views = map<ClientId, View>

  /** The client's view once everything still queued for it has been delivered. */
  function Seen(s: Session): View { Fold(s.view, s.queue) }

  function InfosOf(clients: Clients): Infos { map c | c in clients :: clients[c].info }

  function ViewsOf(clients: Clients): Views { map c | c in clients :: Seen(clients[c]) }

  // ---- Visibility --------------------------------------------------------------------

  function BitsIn(roles: seq<Role>, info: UserInfo, channel: Channel): Permissions {
    Resolve(roles, info.roles, info.fingerprint, info.owner, Some(channel.overwrites))
  }

  predicate CanView(roles: seq<Role>, info: UserInfo, channel: Channel) { VIEW_CHANNEL <= BitsIn(roles, info, channel) }

  function Visible(roles: seq<Role>, info: UserInfo, channels: ChannelMap): ChannelMap {
    map id | id in channels && CanView(roles, info, channels[id]) :: channels[id]
  }

  /** Two infos resolution and rank cannot tell apart. */
  predicate SameStanding(a: UserInfo, b: UserInfo) { StandingOf(a) == StandingOf(b) }

  // ---- A right view --------------------------------------------------------------------

  ghost predicate KnowsUsers(v: View, infos: Infos) {
    forall u :: u in infos ==> u in v.users && v.users[u] == StandingOf(infos[u])
  }

  /**
  The client knows who it is, the table, its own grants, exactly the channels it may view, and everyone connected.
  */
  ghost predicate Right(v: View, info: UserInfo, roles: seq<Role>, channels: ChannelMap, infos: Infos) {
    && v.fingerprint == info.fingerprint && v.owner == info.owner && v.myRoles == info.roles
    && v.roles == roles
    && v.channels == Visible(roles, info, channels)
    && KnowsUsers(v, infos)
  }

  ghost predicate AllRight(views: Views, infos: Infos, roles: seq<Role>, channels: ChannelMap) {
    forall c :: c in infos ==> c in views && Right(views[c], infos[c], roles, channels, infos)
  }

  // ---- Views that differ only in departed users --------------------------------------------

  predicate SameUser(a: map<ClientId, Standing>, b: map<ClientId, Standing>, u: ClientId) {
    (u in a <==> u in b) && (u in a && u in b ==> a[u] == b[u])
  }

  ghost predicate Alike(v: View, w: View, live: set<ClientId>) {
    && v.fingerprint == w.fingerprint && v.owner == w.owner && v.roles == w.roles && v.myRoles == w.myRoles
    && v.channels == w.channels
    && forall u :: u in live ==> SameUser(v.users, w.users, u)
  }

  lemma {:induction false} AlikeApply(v: View, w: View, live: set<ClientId>, f: Frame)
    requires Alike(v, w, live)
    ensures Alike(Apply(v, f), Apply(w, f), live)
  {
    hide SortByPosition, SetPositions, UpsertRole, RemoveRole, RemoveGrant;
    if f.UserJoined? || f.UserUpdated? || f.UserLeft? {
      forall u | u in live ensures SameUser(Apply(v, f).users, Apply(w, f).users, u) {
        assert SameUser(v.users, w.users, u);
      }
    }
  }

  lemma AlikeShrinks(v: View, w: View, live: set<ClientId>, fewer: set<ClientId>)
    requires Alike(v, w, live) && fewer <= live
    ensures Alike(v, w, fewer)
  {
  }

  /** Queue a frame if there is room for it. */
  function Offer(s: Session, f: Frame): Session {
    if |s.queue| < QUEUE_DEPTH then s.(queue := s.queue + [f]) else s
  }

  lemma {:induction false} OfferSeen(s: Session, f: Frame)
    requires |s.queue| < QUEUE_DEPTH
    ensures Seen(Offer(s, f)) == Apply(Seen(s), f)
  {
    FoldSnoc(s.view, s.queue, f);
  }

  /** Whether or not it found room, the farewell of a departed client changes nothing about the living. */
  lemma {:induction false} OfferFarewell(s: Session, gone: ClientId, w: View, live: set<ClientId>)
    requires Alike(Seen(s), w, live) && gone !in live
    ensures Alike(Seen(Offer(s, UserLeft(gone))), w, live)
  {
    if |s.queue| < QUEUE_DEPTH {
      OfferSeen(s, UserLeft(gone));
      forall u | u in live ensures SameUser(Apply(Seen(s), UserLeft(gone)).users, w.users, u) {
        assert SameUser(Seen(s).users, w.users, u);
      }
    }
  }

  // ---- Tracking what everyone is told --------------------------------------------------------

  /** Each connected client's view is the given one, departed users aside, and its queue is within bounds. */
  ghost predicate Tracks(clients: Clients, views: Views) {
    forall c :: c in clients ==>
      c in views && |clients[c].queue| <= QUEUE_DEPTH && Alike(Seen(clients[c]), views[c], clients.Keys)
  }

  /** The server only ever appends to a queue, and the client's side is the client's own. */
  ghost predicate Continues(before: Session, after: Session) {
    after.info == before.info && after.view == before.view && before.queue <= after.queue
  }

  /** Nobody connected; those still connected are recorded as before, with more frames queued at most. */
  ghost predicate Survivors(before: Clients, after: Clients) {
    after.Keys <= before.Keys && forall c :: c in after ==> Continues(before[c], after[c])
  }

  function Told(views: Views, f: Frame, except: Option<ClientId>): Views {
    map c | c in views :: if Some(c) == except then views[c] else Apply(views[c], f)
  }

  function ToldOne(views: Views, c: ClientId, f: Frame): Views {
    if c in views then views[c := Apply(views[c], f)] else views
  }

  lemma TracksOnLive(clients: Clients, views: Views, views': Views)
    requires Tracks(clients, views)
    requires forall c :: c in clients ==> c in views' && views'[c] == views[c]
    ensures Tracks(clients, views')
  {
  }

  /** If every original client was told the right things, every survivor's view is right among the survivors. */
  lemma {:induction false} SurvivorsAreRight(clients: Clients, views: Views, infos: Infos, roles: seq<Role>,
                                             channels: ChannelMap)
    requires Tracks(clients, views) && AllRight(views, infos, roles, channels)
    requires forall c :: c in clients ==> c in infos && clients[c].info == infos[c]
    ensures AllRight(ViewsOf(clients), InfosOf(clients), roles, channels)
  {
    var live := InfosOf(clients);
    forall c | c in live ensures Right(ViewsOf(clients)[c], live[c], roles, channels, live) {
      assert Right(views[c], infos[c], roles, channels, infos);
      assert Alike(Seen(clients[c]), views[c], clients.Keys);
      forall u | u in live ensures u in Seen(clients[c]).users && Seen(clients[c]).users[u] == StandingOf(live[u]) {
        assert SameUser(Seen(clients[c]).users, views[c].users, u);
      }
    }
  }

  // ---- Command by command: what the frames do to a right view ----------------------------------

  lemma {:induction false} BitsKept(roles: seq<Role>, roles': seq<Role>, info: UserInfo, channel: Channel)
    requires forall id :: id == EVERYONE || id in info.roles ==>
               RolePermissions(roles, id) == RolePermissions(roles', id)
    ensures BitsIn(roles, info, channel) == BitsIn(roles', info, channel)
  {
    ResolveCongruent(roles, roles', info.roles, info.roles, info.fingerprint, info.owner, Some(channel.overwrites),
                     Some(channel.overwrites));
  }

  lemma {:induction false} VisibleKept(roles: seq<Role>, roles': seq<Role>, info: UserInfo, channels: ChannelMap)
    requires forall id :: id == EVERYONE || id in info.roles ==>
               RolePermissions(roles, id) == RolePermissions(roles', id)
    ensures Visible(roles, info, channels) == Visible(roles', info, channels)
  {
    forall id | id in channels ensures CanView(roles, info, channels[id]) == CanView(roles', info, channels[id]) {
      BitsKept(roles, roles', info, channels[id]);
    }
  }

  lemma {:induction false} HeldExists(ps: PermState, info: UserInfo, id: RoleId)
    requires PermsOk(ps) && info.roles == Grants(ps, info.fingerprint) && (id == EVERYONE || id in info.roles)
    ensures Exists(ps.roles, id)
  {
    if id == EVERYONE {
      TableIndex(ps.roles, 0);
    } else {
      assert Grantable(ps.roles, ps.members[info.fingerprint]);
    }
  }

  /** Creating a role changes no held role's bits, so nobody's channel list moves and none is resent. */
  lemma {:induction false} CreateKeepsBits(roles: seq<Role>, role: Role, id: RoleId)
    requires TableOk(roles) && TableOk(CreatedTable(roles, role)) && Exists(roles, id)
    ensures RolePermissions(CreatedTable(roles, role), id) == RolePermissions(roles, id)
  {
    var i := IndexOf(roles, id);
    TableIndex(CreatedTable(roles, role), if i == 0 then 0 else i + 1);
  }

  lemma {:induction false} CreateKeepsVisible(info: UserInfo, ps: PermState, channels: ChannelMap, role: Role)
    requires PermsOk(ps) && TableOk(CreatedTable(ps.roles, role)) && info.roles == Grants(ps, info.fingerprint)
    ensures Visible(ps.roles, info, channels) == Visible(CreatedTable(ps.roles, role), info, channels)
  {
    var next := CreatedTable(ps.roles, role);
    forall id | id == EVERYONE || id in info.roles ensures RolePermissions(ps.roles, id) == RolePermissions(next, id) {
      HeldExists(ps, info, id);
      CreateKeepsBits(ps.roles, role, id);
    }
    VisibleKept(ps.roles, next, info, channels);
  }

  lemma RightWithTable(v: View, info: UserInfo, roles: seq<Role>, roles': seq<Role>, channels: ChannelMap, infos: Infos)
    requires Right(v, info, roles, channels, infos) && Visible(roles, info, channels) == Visible(roles', info, channels)
    ensures Right(v.(roles := roles'), info, roles', channels, infos)
  {
  }

  lemma {:induction false} CreateRight(v: View, info: UserInfo, ps: PermState, channels: ChannelMap, infos: Infos,
                                       role: Role)
    requires Right(v, info, ps.roles, channels, infos) && PermsOk(ps) && info.roles == Grants(ps, info.fingerprint)
    requires TableOk(CreatedTable(ps.roles, role)) && forall r :: r in ps.roles ==> r.id != role.id
    ensures var next := CreatedTable(ps.roles, role);
            Right(Apply(Apply(v, RoleCreated(role)), RolesReordered(Ordering(next))), info, next, channels, infos)
  {
    var next := CreatedTable(ps.roles, role);
    CreateReachesClient(ps.roles, role);
    CreateKeepsVisible(info, ps, channels, role);
    RightWithTable(v, info, ps.roles, next, channels, infos);
    var mid := UpsertRole(ps.roles, role);
    CreateFrame(v, role, mid);
    ReorderFrame(v.(roles := mid), Ordering(next), next);
  }

  lemma {:induction false} CreateFrame(v: View, role: Role, mid: seq<Role>)
    requires UpsertRole(v.roles, role) == mid
    ensures Apply(v, RoleCreated(role)) == v.(roles := mid)
  {
    hide SortByPosition, UpsertRole;
  }

  lemma {:induction false} ReorderFrame(v: View, positions: Positions, next: seq<Role>)
    requires SortByPosition(SetPositions(v.roles, positions)) == next
    ensures Apply(v, RolesReordered(positions)) == v.(roles := next)
  {
    hide SortByPosition, SetPositions;
  }

  lemma {:induction false} ReorderKeepsBits(ps: PermState, positions: Positions, id: RoleId)
    requires TableOk(ps.roles) && NamesEveryRoleDensely(ps.roles, positions) && Exists(ps.roles, id)
    ensures RolePermissions(AfterReorder(ps, positions).roles, id) == RolePermissions(ps.roles, id)
  {
    ReorderShape(ps, positions);
    var i := IndexOf(ps.roles, id);
    assert Placed(ps.roles[i], positions) in AfterReorder(ps, positions).roles;
    FindRoleIs(AfterReorder(ps, positions).roles, Placed(ps.roles[i], positions));
  }

  lemma {:induction false} ReorderRight(v: View, info: UserInfo, ps: PermState, channels: ChannelMap, infos: Infos,
                                        positions: Positions)
    requires Right(v, info, ps.roles, channels, infos) && PermsOk(ps) && info.roles == Grants(ps, info.fingerprint)
    requires NamesEveryRoleDensely(ps.roles, positions)
    ensures Right(Apply(v, RolesReordered(positions)), info, AfterReorder(ps, positions).roles, channels, infos)
  {
    hide SortByPosition, SetPositions, Resolve, TableOk, GrantsOk;
    var next := AfterReorder(ps, positions);
    ReorderReachesClient(ps, positions);
    forall id | id == EVERYONE || id in info.roles
      ensures RolePermissions(ps.roles, id) == RolePermissions(next.roles, id)
    {
      HeldExists(ps, info, id);
      ReorderKeepsBits(ps, positions, id);
    }
    VisibleKept(ps.roles, next.roles, info, channels);
  }

  lemma {:induction false} UpdateRight(v: View, info: UserInfo, roles: seq<Role>, channels: ChannelMap, infos: Infos,
                                       k: nat, updated: Role)
    requires Right(v, info, roles, channels, infos) && TableOk(roles)
    requires k < |roles| && updated.id == roles[k].id && updated.position == k
    ensures var next := ReplaceRole(roles, updated);
            Right(Apply(v, RoleUpdated(updated)).(channels := Visible(next, info, channels)), info, next, channels,
                  infos)
  {
    hide SortByPosition, UpsertRole, Resolve;
    ReplaceShape(roles, updated, k);
    UpdateReachesClient(roles, k, updated);
  }

  ghost predicate Mentions(told: Infos, who: Fingerprint) {
    exists u :: u in told && told[u].fingerprint == who
  }

  ghost predicate SpeaksFor(told: Infos, who: Fingerprint, roles: seq<RoleId>, owner: bool) {
    forall u :: u in told && told[u].fingerprint == who ==> told[u].roles == roles && told[u].owner == owner
  }

  function Standings(told: Infos): map<ClientId, Standing> { map u | u in told :: StandingOf(told[u]) }

  /** What announcing some users does to a view, in whatever order they are announced. */
  ghost predicate Announced(v: View, w: View, told: Infos) {
    && w.fingerprint == v.fingerprint && w.roles == v.roles && w.channels == v.channels
    && w.users == v.users + Standings(told)
    && if Mentions(told, v.fingerprint) then SpeaksFor(told, v.fingerprint, w.myRoles, w.owner)
       else w.myRoles == v.myRoles && w.owner == v.owner
  }

  /** Sessions of one member always carry one standing. */
  ghost predicate OneStandingEach(told: Infos) {
    && (forall u :: u in told ==> told[u].clientId == u)
    && forall u, w :: u in told && w in told && told[u].fingerprint == told[w].fingerprint ==>
      SameStanding(told[u], told[w])
  }

  lemma StandingsGrow(users: map<ClientId, Standing>, told: Infos, done: Infos, u: ClientId)
    requires u in told
    ensures (users + Standings(done))[u := StandingOf(told[u])] == users + Standings(done[u := told[u]])
  {
  }

  lemma {:induction false} MentionsGrow(told: Infos, done: Infos, u: ClientId, who: Fingerprint)
    requires OneStandingEach(told) && u in told && u !in done
    requires forall x :: x in done ==> x in told && done[x] == told[x]
    ensures Mentions(done[u := told[u]], who) <==> Mentions(done, who) || told[u].fingerprint == who
    ensures told[u].fingerprint == who ==> SpeaksFor(done[u := told[u]], who, told[u].roles, told[u].owner)
    ensures forall roles, owner :: told[u].fingerprint != who && SpeaksFor(done, who, roles, owner) ==>
              SpeaksFor(done[u := told[u]], who, roles, owner)
  {
    var more := done[u := told[u]];
    assert more[u] == told[u];
    if Mentions(done, who) {
      var x :| x in done && done[x].fingerprint == who;
      assert x in more && more[x] == done[x];
    }
    forall x | x in more && more[x].fingerprint == who && told[u].fingerprint == who
      ensures more[x].roles == told[u].roles && more[x].owner == told[u].owner
    {
      assert more[x] == told[x];
      assert SameStanding(told[u], told[x]);
    }
  }

  lemma {:induction false} AnnounceOne(v: View, w: View, told: Infos, done: Infos, u: ClientId)
    requires OneStandingEach(told) && u in told && u !in done
    requires forall x :: x in done ==> x in told && done[x] == told[x]
    requires Announced(v, w, done)
    ensures Announced(v, Apply(w, UserUpdated(told[u])), done[u := told[u]])
  {
    StandingsGrow(v.users, told, done, u);
    MentionsGrow(told, done, u, v.fingerprint);
  }

  /** New grants for one member: their sessions are announced, then every channel list is brought up to date. */
  lemma {:induction false} GrantRight(v: View, w: View, info: UserInfo, info': UserInfo, roles: seq<Role>,
                                      channels: ChannelMap,
                   infos: Infos, infos': Infos, told: Infos)
    requires Right(v, info, roles, channels, infos) && Announced(v, w, told)
    requires infos'.Keys == infos.Keys && told.Keys <= infos'.Keys
    requires forall u :: u in told ==> told[u] == infos'[u]
    requires forall u :: u in infos && u !in told ==> infos'[u] == infos[u]
    requires info.clientId in infos && infos[info.clientId] == info && infos'[info.clientId] == info'
    requires info'.fingerprint == info.fingerprint
    requires info.clientId !in told ==> forall u :: u in told ==> told[u].fingerprint != info.fingerprint
    ensures Right(w.(channels := Visible(roles, info', channels)), info', roles, channels, infos')
  {
    forall u | u in infos' ensures u in w.users && w.users[u] == StandingOf(infos'[u]) {
      assert u in v.users;
    }
  }

  lemma DeleteKnowsUsers(users: map<ClientId, Standing>, infos: Infos, infos': Infos, told: Infos, gone: RoleId)
    requires forall u :: u in infos ==> u in users && users[u] == StandingOf(infos[u])
    requires infos'.Keys == infos.Keys && told.Keys <= infos'.Keys
    requires forall u :: u in infos ==> infos'[u] == infos[u].(roles := RemoveGrant(infos[u].roles, gone))
    requires forall u :: u in told ==> told[u] == infos'[u]
    requires forall u :: u in infos && u !in told ==> gone !in infos[u].roles
    ensures var after := users + Standings(told);
            forall u :: u in infos' ==> u in after && after[u] == StandingOf(infos'[u])
  {
  }

  /**
  After a role is deleted: the frame strips it from the table and from one's own grants, then holders are announced.
  */
  lemma {:induction false} DeleteRight(v: View, w: View, info: UserInfo, info': UserInfo, ps: PermState,
                                       channels: ChannelMap, stripped: ChannelMap,
                    infos: Infos, infos': Infos, told: Infos, k: nat)
    requires Right(v, info, ps.roles, channels, infos) && TableOk(ps.roles) && 0 < k < |ps.roles|
    requires Announced(Apply(Apply(v, RoleDeleted(ps.roles[k].id)),
                             RolesReordered(Ordering(DeletedTable(ps.roles, k)))), w, told)
    requires infos'.Keys == infos.Keys && told.Keys <= infos'.Keys
    requires forall u :: u in infos ==> infos'[u] == infos[u].(roles := RemoveGrant(infos[u].roles, ps.roles[k].id))
    requires forall u :: u in told ==> told[u] == infos'[u]
    requires forall u :: u in infos && u !in told ==> ps.roles[k].id !in infos[u].roles
    requires info' == info.(roles := RemoveGrant(info.roles, ps.roles[k].id))
    requires forall u :: u in told && told[u].fingerprint == info.fingerprint ==> SameStanding(told[u], info')
    ensures Right(w.(channels := Visible(DeletedTable(ps.roles, k), info', stripped)), info', DeletedTable(ps.roles, k),
                  stripped, infos')
  {
    DeleteReachesClient(ps.roles, k);
    DeleteFrames(v, ps.roles[k].id, DeletedTable(ps.roles, k));
    DeleteKnowsUsers(v.users, infos, infos', told, ps.roles[k].id);
    OwnAfterAnnounce(v.(roles := DeletedTable(ps.roles, k), myRoles := RemoveGrant(v.myRoles, ps.roles[k].id)), w, told,
                     info');
  }

  lemma {:induction false} DeleteFrames(v: View, gone: RoleId, next: seq<Role>)
    ensures Apply(Apply(v, RoleDeleted(gone)), RolesReordered(Ordering(next))) ==
            v.(roles := SortByPosition(SetPositions(RemoveRole(v.roles, gone), Ordering(next))),
               myRoles := RemoveGrant(v.myRoles, gone))
  {
    hide SortByPosition, SetPositions, RemoveRole, RemoveGrant, Ordering;
  }

  lemma {:induction false} OwnAfterAnnounce(v: View, w: View, told: Infos, mine: UserInfo)
    requires Announced(v, w, told) && v.fingerprint == mine.fingerprint
    requires forall u :: u in told && told[u].fingerprint == mine.fingerprint ==> SameStanding(told[u], mine)
    requires v.myRoles == mine.roles && v.owner == mine.owner
    ensures w.myRoles == mine.roles && w.owner == mine.owner
  {
    if u :| u in told && told[u].fingerprint == mine.fingerprint {
      assert SameStanding(told[u], mine);
    }
  }

  /**
  A user whose standing did not change is announced again, or simply moves: nothing about a right view goes wrong.
  */
  lemma {:induction false} RefreshRight(v: View, info: UserInfo, info': UserInfo, roles: seq<Role>,
                                        channels: ChannelMap, infos: Infos, infos': Infos, user: UserInfo)
    requires Right(v, info, roles, channels, infos)
    requires infos'.Keys == infos.Keys && forall u :: u in infos ==> SameStanding(infos[u], infos'[u])
    requires SameStanding(info, info') && user.clientId in infos' && infos'[user.clientId] == user
    requires user.fingerprint == info.fingerprint ==> SameStanding(user, info)
    ensures Right(v, info', roles, channels, infos')
    ensures Right(Apply(v, UserUpdated(user)), info', roles, channels, infos')
  {
    forall u | u in infos' ensures u in v.users && v.users[u] == StandingOf(infos'[u]) {
      assert SameStanding(infos[u], infos'[u]);
    }
  }

  lemma LeaveRight(v: View, info: UserInfo, roles: seq<Role>, channels: ChannelMap, infos: Infos, gone: ClientId)
    requires Right(v, info, roles, channels, infos)
    ensures Right(Apply(v, UserLeft(gone)), info, roles, channels, infos - {gone})
  {
  }

  lemma JoinRight(v: View, info: UserInfo, roles: seq<Role>, channels: ChannelMap, infos: Infos, user: UserInfo)
    requires Right(v, info, roles, channels, infos)
    requires user.fingerprint == info.fingerprint ==> SameStanding(user, info)
    ensures Right(Apply(v, UserJoined(user)), info, roles, channels, infos[user.clientId := user])
  {
  }

  /** The view a client builds from the welcome frame, which lists it among the users. */
  function Welcome(info: UserInfo, roles: seq<Role>, channels: ChannelMap, infos: Infos): View
    requires info.clientId in infos
  {
    var me := infos[info.clientId];
    View(info.fingerprint, me.owner, roles, me.roles, Visible(roles, info, channels),
         map u | u in infos :: StandingOf(infos[u]))
  }

  lemma WelcomeRight(info: UserInfo, roles: seq<Role>, channels: ChannelMap, infos: Infos)
    requires info.clientId in infos && infos[info.clientId] == info
    ensures Right(Welcome(info, roles, channels, infos), info, roles, channels, infos)
  {
  }
}
