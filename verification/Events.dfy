/**
What can happen to the server, what one event does to it and what a whole run of events does
(crates/pickle-server/src/state.rs, admin.rs, moderation.rs, session.rs).
*/
module Events {
  import opened Common
  import opened Perms
  import opened RoleTable
  import opened Channels
  import opened Mirror
  import opened Visibility
  import opened ServerState
  import opened Store
  import opened Plans
  import Hierarchy
  import Minting
  import History
  import Reuse

  /** The permission state a role command leads to when it is allowed and stored. */
  function Committed(ps: PermState, owner: Option<Fingerprint>, clients: Clients, c: ClientId,
                     cmd: RoleCommand): PermState {
    if c in clients then Hierarchy.After(ps, owner, Hierarchy.Issued(clients[c].info.fingerprint, cmd)) else ps
  }

  /** Whether a role command passes the gate and its handler's checks. */
  predicate Accepts(ps: PermState, owner: Option<Fingerprint>, clients: Clients, c: ClientId, cmd: RoleCommand) {
    c in clients && Hierarchy.Execute(ps, owner, Hierarchy.Issued(clients[c].info.fingerprint, cmd)).Accepted?
  }

  /** The gate reads the sender's recorded grants, the handler the table's: in a valid state they are the same. */
  lemma {:induction false} Gated(ps: PermState, owner: Option<Fingerprint>, channels: ChannelMap, clients: Clients,
                                 maxUsers: nat, c: ClientId, cmd: RoleCommand)
    requires ValidState(ps, channels, clients, owner, maxUsers)
    ensures !MayGlobally(ps, clients, c, MANAGE_ROLES) ==>
              !Accepts(ps, owner, clients, c, cmd) && Committed(ps, owner, clients, c, cmd) == ps
    ensures MayGlobally(ps, clients, c, MANAGE_ROLES) ==>
              c in clients &&
              var verdict := Decide(ps, ActorOf(ps, clients[c].info.fingerprint, owner), owner, cmd);
              && Accepts(ps, owner, clients, c, cmd) == verdict.Accepted?
              && Committed(ps, owner, clients, c, cmd) == if verdict.Accepted? then verdict.value else ps
  {
    hide Decide, Resolve, AllRight, PermsOk, QueuesOk, ChannelsOk;
    if c in clients {
      assert InfoOk(c, InfosOf(clients)[c], ps, owner, channels);
    }
  }

  datatype AuthFailure = SecurityLevelTooLow | NicknameRejected | ServerFull

  /** Channel commands. The `stored` flags say whether the database took the write. */
  datatype ChannelEvent =
    | SetOverwrite(client: ClientId, nonce: nat, channel: ChannelId, target: OverwriteTarget, allow: Permissions,
                   deny: Permissions, stored: bool)
    | ClearOverwrite(client: ClientId, nonce: nat, channel: ChannelId, target: OverwriteTarget, stored: bool)
    | NewChannel(client: ClientId, nonce: nat, draft: Channel, stored: bool)
    | EditChannel(client: ClientId, nonce: nat, draft: Channel, stored: bool)
    | DropChannel(client: ClientId, nonce: nat, id: ChannelId, stored: bool)

  /**
  What members do about themselves and each other, deliveries and departures; `Reply` is any other answer to one
  client.
  */
  datatype MemberEvent =
    | Leave(client: ClientId)
    | Receive(client: ClientId)
    | KickMember(client: ClientId, nonce: nat, targetClient: ClientId)
    | BanMember(client: ClientId, nonce: nat, member: Fingerprint, stored: bool)
    | MuteMember(client: ClientId, nonce: nat, targetClient: ClientId, muted: bool)
    | Relocate(client: ClientId, nonce: nat, targetClient: ClientId, to: Option<ChannelId>)
    | Join(client: ClientId, room: ChannelId)
    | Exit(client: ClientId)
    | Voice(client: ClientId, selfMuted: bool, selfDeafened: bool)
    | Rename(client: ClientId, nickname: Option<string>)
    | Reply(client: ClientId, tag: nat)

  /** Everything that can happen to the server. */
  datatype Event =
    | Arrive(fingerprint: Fingerprint, levelOk: bool, nickname: Option<string>)
    | Roles(client: ClientId, nonce: nat, cmd: RoleCommand, stored: bool, alsoStored: bool)
    | Channels(command: ChannelEvent)
    | Members(act: MemberEvent)

  predicate EditsChannel(e: Event) { e.Channels? && e.command.EditChannel? }

  predicate Stores(e: Event) { e.Roles? ==> e.stored && e.alsoStored }

  predicate AllStore(events: seq<Event>) { forall i :: 0 <= i < |events| ==> Stores(events[i]) }

  function People(clients: Clients): set<Fingerprint> { set c | c in clients :: clients[c].info.fingerprint }

  function Newcomers(events: seq<Event>): set<Fingerprint> { set e | e in events && e.Arrive? :: e.fingerprint }

  ghost predicate IssuedBy(script: seq<Hierarchy.Issued>, crew: set<Fingerprint>) {
    forall i :: 0 <= i < |script| ==> script[i].who in crew
  }

  // ---- One event ---------------------------------------------------------------------------

  /** The server between two events. */
  datatype Moment = Moment(perms: PermState, channels: ChannelMap, clients: Clients, nextClientId: ClientId,
                           tables: Tables)

  /** Whether the database takes what an accepted role command writes. */
  predicate Persists(t: Tables, ps: PermState, cmd: RoleCommand, stored: bool, alsoStored: bool) {
    match cmd
    case CreateRole(name, permissions) => CreatePersists(t, ps, name, permissions, stored, alsoStored)
    case SetMemberRoles(_, ids) => stored && NoRepeats(ids)
    case _ => stored
  }

  /** The role command an event carries out, if it does: an accepted and stored one, by its sender. */
  function Commanded(owner: Option<Fingerprint>, m: Moment, e: Event): seq<Hierarchy.Issued> {
    if e.Roles? && Accepts(m.perms, owner, m.clients, e.client, e.cmd)
       && Persists(m.tables, m.perms, e.cmd, e.stored, e.alsoStored)
    then [Hierarchy.Issued(m.clients[e.client].info.fingerprint, e.cmd)]
    else []
  }

  function Admission(maxUsers: nat, clients: Clients, levelOk: bool, nickname: Option<string>): Option<AuthFailure> {
    if !levelOk then Some(SecurityLevelTooLow)
    else if nickname.None? then Some(NicknameRejected)
    else if |clients| >= maxUsers then Some(ServerFull)
    else None
  }

  lemma AdmissionIs(maxUsers: nat, clients: Clients, levelOk: bool, nickname: Option<string>)
    ensures Admission(maxUsers, clients, levelOk, nickname) ==
            if !levelOk then Some(SecurityLevelTooLow) else if nickname.None? then Some(NicknameRejected)
            else if |clients| >= maxUsers then Some(ServerFull) else None
  {
  }

  /** Ids count up and wrap at 2^32, skipping 0. */
  function NextId(id: ClientId): ClientId { if id + 1 >= 0x1_0000_0000 then 1 else id + 1 }

  /** What a member's act makes of who is connected and what is recorded about them, before anyone is told. */
  function Did(owner: Option<Fingerprint>, m: Moment, act: MemberEvent): Clients {
    match act
    case Leave(client) => m.clients - {client}
    case Receive(client) =>
      if client in m.clients && m.clients[client].queue != []
      then m.clients[client := Delivered(m.clients[client])] else m.clients
    case KickMember(client, _, target) =>
      if Authorize(m.perms, owner, m.clients, client, KICK_MEMBERS, target).Accepted? then m.clients - {target}
      else m.clients
    case BanMember(client, _, member, stored) =>
      if stored && MayBan(m.perms, owner, m.clients, client, member) then m.clients - SessionsWith(m.clients, member)
      else m.clients
    case MuteMember(client, _, target, muted) =>
      if Authorize(m.perms, owner, m.clients, client, MUTE_MEMBERS, target).Accepted?
      then Muted(m.clients, target, muted) else m.clients
    case Relocate(client, _, target, to) =>
      if CheckMove(m.perms, m.channels, m.clients, owner, client, target, to).None? then Moved(m.clients, target, to)
      else m.clients
    case Join(client, room) =>
      if CheckJoin(m.perms, m.channels, m.clients, client, room).None? then Moved(m.clients, client, Some(room))
      else m.clients
    case Exit(client) => Moved(m.clients, client, None)
    case Voice(client, selfMuted, selfDeafened) => Voiced(m.clients, client, selfMuted, selfDeafened)
    case Rename(client, nickname) =>
      if nickname.Some? then Renamed(m.clients, client, nickname.value) else m.clients
    case Reply(_, _) => m.clients
  }

  /** A role command's effect on what is recorded about the connected. */
  function Recorded(clients: Clients, cmd: RoleCommand): Clients {
    match cmd
    case DeleteRole(id) => StrippedSessions(clients, id)
    case SetMemberRoles(member, ids) => RegrantedSessions(clients, member, ids)
    case _ => clients
  }

  predicate Removes(m: Moment, e: ChannelEvent) {
    e.DropChannel? && e.stored && CheckKnown(m.perms, m.channels, m.clients, e.client, e.id).None?
  }

  /** Who is connected after an event and what is recorded about them, before anyone is told. */
  function Acted(owner: Option<Fingerprint>, maxUsers: nat, m: Moment, e: Event): Clients {
    match e
    case Arrive(fingerprint, levelOk, nickname) =>
      if Admission(maxUsers, m.clients, levelOk, nickname).None?
      then Arrived(m.clients, m.perms.roles, m.channels,
                   Newcomer(m.perms, owner, m.nextClientId, fingerprint, nickname.value))
      else m.clients
    case Roles(_, _, cmd, _, _) => if Commanded(owner, m, e) != [] then Recorded(m.clients, cmd) else m.clients
    case Channels(command) =>
      if Removes(m, command) then EvictedSessions(m.clients, command.id) else m.clients
    case Members(act) => Did(owner, m, act)
  }

  /** No client is sent more frames than this by one event, farewells aside. */
  function Frames(m: Moment, e: Event): nat {
    var people, rooms := Count(m.clients.Keys), Count(m.channels.Keys);
    match e
    case Arrive(_, _, _) => 1
    case Roles(_, _, cmd, _, _) => RoleFrames(cmd, people, rooms)
    case Channels(command) => if command.DropChannel? then 1 + 2 * people + rooms else 2 + rooms
    case Members(act) =>
      if act.Receive? then 0
      else if act.BanMember? then 1 + 2 * Count(SessionsWith(m.clients, act.member))
      else 2
  }

  function RoleFrames(cmd: RoleCommand, people: nat, rooms: nat): nat {
    match cmd
    case CreateRole(_, _) => 3
    case UpdateRole(_, _, _, _) => 2 + rooms
    case DeleteRole(_) => 3 + people + rooms
    case ReorderRoles(_) => 2
    case SetMemberRoles(_, _) => 1 + people + rooms
  }

  ghost predicate Created(channels: ChannelMap, draft: Channel, next: ChannelMap) {
    exists id :: IsNextChannelId(channels, id) && next == channels[id := Drafted(draft, id)]
  }

  /** What a channel command makes of the channels. The walk that looks for a loop does not end on every map. */
  ghost predicate ChannelsMoved(owner: Option<Fingerprint>, m: Moment, e: ChannelEvent, next: ChannelMap) {
    var ps, channels, clients := m.perms, m.channels, m.clients;
    match e
    case SetOverwrite(client, _, channel, target, allow, deny, stored) =>
      var verdict := CheckOverwrite(ps, channels, clients, owner, client, channel, target, allow, deny);
      if stored && verdict.Accepted?
      then channel in channels && next == channels[channel := WithOverwriteOn(channels[channel], verdict.value)]
      else next == channels
    case ClearOverwrite(client, _, channel, target, stored) =>
      if stored && CheckOverwriteRemoval(ps, channels, clients, client, channel).None?
      then channel in channels && next == channels[channel := WithoutTarget(channels[channel], target)]
      else next == channels
    case NewChannel(client, _, draft, stored) =>
      var allowed := stored && CheckCreate(ps, channels, clients, client, draft.name, draft.parent).None?;
      && (Created(channels, draft, next) || next == channels)
      && (Created(channels, draft, next) ==> allowed)
      && (Synced(m.tables, ps, channels) && allowed ==> Created(channels, draft, next))
    case EditChannel(client, _, draft, stored) =>
      if stored && EditAllowed(ps, channels, clients, client, draft)
      then draft.id in channels && next == channels[draft.id := Redrafted(draft, channels[draft.id])]
      else next == channels
    case DropChannel(_, _, id, _) => next == if Removes(m, e) then channels - {id} else channels
  }

  ghost predicate EditAllowed(ps: PermState, channels: ChannelMap, clients: Clients, client: ClientId, draft: Channel) {
    && CheckKnown(ps, channels, clients, client, draft.id).None?
    && CheckFields(channels, draft.name, draft.parent).None?
    && !Reaches(channels, draft.parent, draft.id) && !NeverEnds(channels, draft.parent, draft.id)
  }

  /** An edit that passes its checks and whose parent leads neither to the channel nor to the top. */
  ghost predicate HangingEdit(ps: PermState, channels: ChannelMap, clients: Clients, client: ClientId, draft: Channel) {
    && CheckKnown(ps, channels, clients, client, draft.id).None?
    && CheckFields(channels, draft.name, draft.parent).None?
    && NeverEnds(channels, draft.parent, draft.id)
  }

  lemma EditIs(ps: PermState, channels: ChannelMap, clients: Clients, client: ClientId, draft: Channel)
    ensures EditAllowed(ps, channels, clients, client, draft) <==>
              && CheckKnown(ps, channels, clients, client, draft.id).None?
              && CheckFields(channels, draft.name, draft.parent).None?
              && !Reaches(channels, draft.parent, draft.id) && !NeverEnds(channels, draft.parent, draft.id)
    ensures HangingEdit(ps, channels, clients, client, draft) <==>
              && CheckKnown(ps, channels, clients, client, draft.id).None?
              && CheckFields(channels, draft.name, draft.parent).None?
              && NeverEnds(channels, draft.parent, draft.id)
  {
  }

  ghost predicate Rearranged(owner: Option<Fingerprint>, m: Moment, e: Event, next: ChannelMap) {
    match e
    case Roles(_, _, cmd, _, _) =>
      next == if cmd.DeleteRole? && Commanded(owner, m, e) != [] then StripRole(m.channels, cmd.id) else m.channels
    case Channels(command) => ChannelsMoved(owner, m, command, next)
    case _ => next == m.channels
  }

  /**
  One event takes the server from `m` to `next`. The state is valid again; permissions change as the event's own role
  command says; the channels as its own channel command says; everyone connected is recorded as the event leaves them,
  with frames appended to their queues at most; and of those it leaves connected only clients without room for the
  frames are dropped.
  */
  ghost predicate Stepped(owner: Option<Fingerprint>, maxUsers: nat, m: Moment, e: Event, next: Moment) {
    && ValidState(next.perms, next.channels, next.clients, owner, maxUsers)
    && next.perms == Hierarchy.Run(m.perms, owner, Commanded(owner, m, e))
    && Rearranged(owner, m, e, next.channels)
    && Survivors(Acted(owner, maxUsers, m, e), next.clients)
    && Patience(Acted(owner, maxUsers, m, e), next.clients, {}, Frames(m, e))
    && next.nextClientId == (if e.Arrive? && Admission(maxUsers, m.clients, e.levelOk, e.nickname).None?
                             then NextId(m.nextClientId) else m.nextClientId)
    && (Synced(m.tables, m.perms, m.channels) && Stores(e) ==> Synced(next.tables, next.perms, next.channels))
  }

  // ---- What is answered -----------------------------------------------------------------------

  /** One answer to a command: why it was refused, that it was not stored, or that it is done. */
  function Response(nonce: nat, refusal: Option<ErrorCode>, stored: bool): Frame {
    if refusal.Some? then CommandFailed(nonce, refusal.value)
    else if !stored then CommandFailed(nonce, Internal)
    else Ack(nonce)
  }

  function RefusalOf<T>(verdict: Outcome<T>): Option<ErrorCode> {
    match verdict
    case Refused(code) => Some(code)
    case Accepted(_) => None
  }

  /** The gate's refusal, then the handler's own. */
  function RoleRefusal(ps: PermState, owner: Option<Fingerprint>, clients: Clients, c: ClientId,
                       cmd: RoleCommand): Option<ErrorCode> {
    if !MayGlobally(ps, clients, c, MANAGE_ROLES) then Some(NotPermitted)
    else RefusalOf(Decide(ps, ActorOf(ps, clients[c].info.fingerprint, owner), owner, cmd))
  }

  ghost function EditRefusal(ps: PermState, channels: ChannelMap, clients: Clients, client: ClientId,
                             draft: Channel): Option<ErrorCode> {
    var known := CheckKnown(ps, channels, clients, client, draft.id);
    var fields := CheckFields(channels, draft.name, draft.parent);
    if known.Some? then known
    else if fields.Some? then fields
    else if Reaches(channels, draft.parent, draft.id) then Some(Malformed)
    else None
  }

  function BanRefusal(ps: PermState, owner: Option<Fingerprint>, clients: Clients, c: ClientId,
                      member: Fingerprint): Option<ErrorCode> {
    if MayBan(ps, owner, clients, c, member) then None else Some(NotPermitted)
  }

  /** The last frame a channel command queues for its sender. An edit whose parent walk hangs answers nobody. */
  ghost predicate ChannelAnswered(owner: Option<Fingerprint>, m: Moment, e: ChannelEvent, next: Moment) {
    var ps, channels, clients := m.perms, m.channels, m.clients;
    match e
    case SetOverwrite(client, nonce, channel, target, allow, deny, stored) =>
      var verdict := CheckOverwrite(ps, channels, clients, owner, client, channel, target, allow, deny);
      HeardLast(next.clients, client, Response(nonce, RefusalOf(verdict), stored))
    case ClearOverwrite(client, nonce, channel, _, stored) =>
      HeardLast(next.clients, client,
                Response(nonce, CheckOverwriteRemoval(ps, channels, clients, client, channel), stored))
    case NewChannel(client, nonce, draft, _) =>
      HeardLast(next.clients, client,
                Response(nonce, CheckCreate(ps, channels, clients, client, draft.name, draft.parent),
                                            next.channels != channels))
    case EditChannel(client, nonce, draft, stored) =>
      !HangingEdit(ps, channels, clients, client, draft) ==>
        HeardLast(next.clients, client, Response(nonce, EditRefusal(ps, channels, clients, client, draft), stored))
    case DropChannel(client, nonce, id, stored) =>
      HeardLast(next.clients, client, Response(nonce, CheckKnown(ps, channels, clients, client, id), stored))
  }

  /** What a member's act queues: an answer to its sender last, and to everyone the frame that tells of it. */
  ghost predicate MemberAnswered(owner: Option<Fingerprint>, m: Moment, act: MemberEvent, next: Moment) {
    var before, after := m.clients, next.clients;
    match act
    case Leave(client) => client in before ==> AllHeard(before, after, UserLeft(client), None)
    case Receive(_) => true
    case KickMember(client, nonce, target) =>
      var verdict := Authorize(m.perms, owner, before, client, KICK_MEMBERS, target);
      && HeardLast(after, client, Response(nonce, RefusalOf(verdict), true))
      && (verdict.Accepted? ==> AllHeard(before, after, UserLeft(target), None))
    case BanMember(client, nonce, member, stored) =>
      HeardLast(after, client, Response(nonce, BanRefusal(m.perms, owner, before, client, member), stored))
    case MuteMember(client, nonce, target, muted) =>
      var verdict := Authorize(m.perms, owner, before, client, MUTE_MEMBERS, target);
      && HeardLast(after, client, Response(nonce, RefusalOf(verdict), true))
      && (verdict.Accepted? && target in before ==>
            AllHeard(before, after, UserUpdated(Muted(before, target, muted)[target].info), None))
    case Relocate(client, nonce, target, to) =>
      var refusal := CheckMove(m.perms, m.channels, before, owner, client, target, to);
      && HeardLast(after, client, Response(nonce, refusal, true))
      && (refusal.None? && target in before ==>
            AllHeard(before, after, UserMoved(target, before[target].info.channel, to), None))
    case Join(client, room) =>
      var refusal := CheckJoin(m.perms, m.channels, before, client, room);
      if refusal.Some? then HeardLast(after, client, Error(refusal.value))
      else client in before && AllHeard(before, after, UserMoved(client, before[client].info.channel, Some(room)), None)
    case Exit(client) =>
      client in before ==> AllHeard(before, after, UserMoved(client, before[client].info.channel, None), None)
    case Voice(client, muted, deafened) =>
      client in before ==>
        AllHeard(before, after, UserUpdated(Voiced(before, client, muted, deafened)[client].info), None)
    case Rename(client, nickname) =>
      if nickname.None? then HeardLast(after, client, Error(Malformed))
      else
        client in before ==>
          AllHeard(before, after, UserUpdated(Renamed(before, client, nickname.value)[client].info), None)
    case Reply(client, tag) => HeardLast(after, client, Other(tag))
  }

  /** What one event has everybody hear: a newcomer is announced, a command answered, and an act told of. */
  ghost predicate Answered(owner: Option<Fingerprint>, maxUsers: nat, m: Moment, e: Event, next: Moment) {
    match e
    case Arrive(fingerprint, levelOk, nickname) =>
      Admission(maxUsers, m.clients, levelOk, nickname).None? ==>
        AllHeard(m.clients, next.clients,
                 UserJoined(Newcomer(m.perms, owner, m.nextClientId, fingerprint, nickname.value)),
                 Some(m.nextClientId))
    case Roles(client, nonce, cmd, stored, alsoStored) =>
      HeardLast(next.clients, client, Response(nonce, RoleRefusal(m.perms, owner, m.clients, client, cmd),
                                            Persists(m.tables, m.perms, cmd, stored, alsoStored)))
    case Channels(command) => ChannelAnswered(owner, m, command, next)
    case Members(act) => MemberAnswered(owner, m, act, next)
  }

  /** Every step of a run is answered. */
  ghost predicate AllAnswered(owner: Option<Fingerprint>, maxUsers: nat, events: seq<Event>, trace: seq<Moment>) {
    |trace| == |events| + 1 &&
    forall i :: 0 <= i < |events| ==> Answered(owner, maxUsers, trace[i], events[i], trace[i + 1])
  }

  lemma NoneAnswered(owner: Option<Fingerprint>, maxUsers: nat, events: seq<Event>, trace: seq<Moment>)
    requires |trace| == 1
    ensures AllAnswered(owner, maxUsers, events[..0], trace)
  {
  }

  lemma {:induction false} AnsweredGrows(owner: Option<Fingerprint>, maxUsers: nat, events: seq<Event>, i: nat,
                                         trace: seq<Moment>, next: Moment)
    requires i < |events| && AllAnswered(owner, maxUsers, events[..i], trace)
    requires Answered(owner, maxUsers, trace[i], events[i], next)
    ensures AllAnswered(owner, maxUsers, events[..i + 1], trace + [next])
  {
    hide Answered;
    var longer := trace + [next];
    forall k | 0 <= k < i + 1 ensures Answered(owner, maxUsers, longer[k], events[..i + 1][k], longer[k + 1]) {
      if k < i {
        assert events[..i][k] == events[k] && longer[k] == trace[k] && longer[k + 1] == trace[k + 1];
      }
    }
  }

  lemma RolesAnswered(owner: Option<Fingerprint>, maxUsers: nat, m: Moment, e: Event, next: Moment)
    requires e.Roles?
    requires HeardLast(next.clients, e.client,
                       Response(e.nonce, RoleRefusal(m.perms, owner, m.clients, e.client, e.cmd),
                                                        Persists(m.tables, m.perms, e.cmd, e.stored, e.alsoStored)))
    ensures Answered(owner, maxUsers, m, e, next)
  {
    hide HeardLast, Response, RoleRefusal, Persists;
  }

  lemma OverwriteAnswered(owner: Option<Fingerprint>, maxUsers: nat, m: Moment, e: Event, next: Moment)
    requires e.Channels? && e.command.SetOverwrite?
    requires var c := e.command;
             HeardLast(next.clients, c.client,
                       Response(c.nonce,
                                RefusalOf(CheckOverwrite(m.perms, m.channels, m.clients, owner, c.client, c.channel,
                                                                  c.target, c.allow, c.deny)), c.stored))
    ensures Answered(owner, maxUsers, m, e, next)
  {
    hide HeardLast, Response, CheckOverwrite;
  }

  lemma ClearanceAnswered(owner: Option<Fingerprint>, maxUsers: nat, m: Moment, e: Event, next: Moment)
    requires e.Channels? && e.command.ClearOverwrite?
    requires var c := e.command;
             HeardLast(next.clients, c.client,
                       Response(c.nonce, CheckOverwriteRemoval(m.perms, m.channels, m.clients, c.client, c.channel),
                                c.stored))
    ensures Answered(owner, maxUsers, m, e, next)
  {
    hide HeardLast, Response, CheckOverwriteRemoval;
  }

  lemma {:induction false} CreationAnswered(owner: Option<Fingerprint>, maxUsers: nat, m: Moment, e: Event,
                                            next: Moment, created: Option<ChannelId>)
    requires e.Channels? && e.command.NewChannel?
    requires var c := e.command;
             HeardLast(next.clients, c.client,
                       Response(c.nonce, CheckCreate(m.perms, m.channels, m.clients, c.client, c.draft.name,
                                                     c.draft.parent), created.Some?))
    requires created.Some? ==>
               && IsNextChannelId(m.channels, created.value)
               && next.channels == m.channels[created.value := Drafted(e.command.draft, created.value)]
    requires created.None? ==> next.channels == m.channels
    ensures Answered(owner, maxUsers, m, e, next)
  {
    hide HeardLast, Response, CheckCreate, IsNextChannelId;
    if created.Some? {
      NextIdIsNew(m.channels, created.value);
    }
  }

  lemma EditAnswered(owner: Option<Fingerprint>, maxUsers: nat, m: Moment, e: Event, next: Moment, hung: bool)
    requires e.Channels? && e.command.EditChannel?
    requires hung <==> HangingEdit(m.perms, m.channels, m.clients, e.command.client, e.command.draft)
    requires var c := e.command;
             !hung ==>
               HeardLast(next.clients, c.client,
                         Response(c.nonce, EditRefusal(m.perms, m.channels, m.clients, c.client, c.draft), c.stored))
    ensures Answered(owner, maxUsers, m, e, next)
  {
    hide HeardLast, Response, EditRefusal, HangingEdit;
  }

  lemma RemovalAnswered(owner: Option<Fingerprint>, maxUsers: nat, m: Moment, e: Event, next: Moment)
    requires e.Channels? && e.command.DropChannel?
    requires var c := e.command;
             HeardLast(next.clients, c.client,
                       Response(c.nonce, CheckKnown(m.perms, m.channels, m.clients, c.client, c.id), c.stored))
    ensures Answered(owner, maxUsers, m, e, next)
  {
    hide HeardLast, Response, CheckKnown;
  }

  lemma ArrivalAnswered(owner: Option<Fingerprint>, maxUsers: nat, m: Moment, e: Event, next: Moment)
    requires e.Arrive?
    requires Admission(maxUsers, m.clients, e.levelOk, e.nickname).None? ==>
               e.nickname.Some? &&
               AllHeard(m.clients, next.clients,
                        UserJoined(Newcomer(m.perms, owner, m.nextClientId, e.fingerprint, e.nickname.value)),
                        Some(m.nextClientId))
    ensures Answered(owner, maxUsers, m, e, next)
  {
    hide AllHeard, Newcomer;
  }

  lemma RefusalIs<T>(verdict: Outcome<T>)
    ensures RefusalOf(verdict) == if verdict.Refused? then Some(verdict.code) else None
  {
  }

  lemma ResponseTo(nonce: nat, refusal: Option<ErrorCode>, done: bool)
    ensures Response(nonce, refusal, done) ==
            if refusal.Some? then CommandFailed(nonce, refusal.value)
            else if done then Ack(nonce) else CommandFailed(nonce, Internal)
  {
  }

  lemma EditRefusalIs(ps: PermState, channels: ChannelMap, clients: Clients, client: ClientId, draft: Channel)
    ensures EditRefusal(ps, channels, clients, client, draft) ==
            var known := CheckKnown(ps, channels, clients, client, draft.id);
            var fields := CheckFields(channels, draft.name, draft.parent);
            if known.Some? then known
            else if fields.Some? then fields
            else if Reaches(channels, draft.parent, draft.id) then Some(Malformed)
            else None
  {
  }

  lemma BanRefusalIs(ps: PermState, owner: Option<Fingerprint>, clients: Clients, c: ClientId, member: Fingerprint)
    ensures BanRefusal(ps, owner, clients, c, member) ==
            if MayBan(ps, owner, clients, c, member) then None else Some(NotPermitted)
  {
  }

  /** The gate passed exactly what is not refused. */
  lemma {:induction false} RoleRefusalIs(ps: PermState, owner: Option<Fingerprint>, channels: ChannelMap,
                                         clients: Clients, maxUsers: nat, c: ClientId, cmd: RoleCommand)
    requires ValidState(ps, channels, clients, owner, maxUsers)
    ensures RoleRefusal(ps, owner, clients, c, cmd).None? <==> Accepts(ps, owner, clients, c, cmd)
    ensures RoleRefusal(ps, owner, clients, c, cmd) ==
            if !MayGlobally(ps, clients, c, MANAGE_ROLES) then Some(NotPermitted)
            else RefusalOf(Decide(ps, ActorOf(ps, clients[c].info.fingerprint, owner), owner, cmd))
  {
    hide ValidState, Decide, MayGlobally, Accepts;
    Gated(ps, owner, channels, clients, maxUsers, c, cmd);
  }

  // ---- From a handler's contract to a step ------------------------------------------------------

  /** What the parts of a role command's step are for each command. */
  lemma CommandMeans(t: Tables, ps: PermState, clients: Clients, e: Event, channels: ChannelMap)
    requires e.Roles?
    ensures Stores(e) <==> e.stored && e.alsoStored
    ensures var people, rooms := Count(clients.Keys), Count(channels.Keys);
            var persists, recorded := Persists(t, ps, e.cmd, e.stored, e.alsoStored), Recorded(clients, e.cmd);
            match e.cmd
            case CreateRole(name, permissions) =>
              && persists == CreatePersists(t, ps, name, permissions, e.stored, e.alsoStored)
              && recorded == clients && RoleFrames(e.cmd, people, rooms) == 3
            case UpdateRole(_, _, _, _) =>
              persists == e.stored && recorded == clients && RoleFrames(e.cmd, people, rooms) == 2 + rooms
            case DeleteRole(id) =>
              && persists == e.stored && recorded == StrippedSessions(clients, id)
              && RoleFrames(e.cmd, people, rooms) == 3 + people + rooms
            case ReorderRoles(_) =>
              persists == e.stored && recorded == clients && RoleFrames(e.cmd, people, rooms) == 2
            case SetMemberRoles(member, ids) =>
              && persists == (e.stored && NoRepeats(ids))
              && recorded == RegrantedSessions(clients, member, ids)
              && RoleFrames(e.cmd, people, rooms) == 1 + people + rooms
  {
    hide CreatePersists, Stripped, Regranted, Count;
  }

  lemma {:induction false} RolesStepped(owner: Option<Fingerprint>, maxUsers: nat, m: Moment, e: Event, next: Moment)
    requires e.Roles? && ValidState(next.perms, next.channels, next.clients, owner, maxUsers)
    requires var persists := Persists(m.tables, m.perms, e.cmd, e.stored, e.alsoStored);
             var done := persists && Accepts(m.perms, owner, m.clients, e.client, e.cmd);
             && next.perms == (if persists then Committed(m.perms, owner, m.clients, e.client, e.cmd) else m.perms)
             && next.channels == (if e.cmd.DeleteRole? && done then StripRole(m.channels, e.cmd.id) else m.channels)
             && Survivors(if done then Recorded(m.clients, e.cmd) else m.clients, next.clients)
    requires Patience(m.clients, next.clients, {}, RoleFrames(e.cmd, Count(m.clients.Keys), Count(m.channels.Keys)))
    requires Synced(m.tables, m.perms, m.channels) && Stores(e) ==> Synced(next.tables, next.perms, next.channels)
    requires next.nextClientId == m.nextClientId
    ensures Stepped(owner, maxUsers, m, e, next)
  {
    hide Persists, ValidState, Synced, Stores, Patience, Survivors, StripRole, Count, RoleFrames, Recorded;
    hide SameQueuesIn;
    CommandRuns(owner, m, e);
    RecordedQueues(m.clients, e.cmd);
    var acted := Acted(owner, maxUsers, m, e);
    PatienceOf(m.clients, acted, next.clients, RoleFrames(e.cmd, Count(m.clients.Keys), Count(m.channels.Keys)));
  }

  lemma {:induction false} CommandRuns(owner: Option<Fingerprint>, m: Moment, e: Event)
    requires e.Roles?
    ensures Hierarchy.Run(m.perms, owner, Commanded(owner, m, e)) ==
            if Persists(m.tables, m.perms, e.cmd, e.stored, e.alsoStored)
            then Committed(m.perms, owner, m.clients, e.client, e.cmd) else m.perms
    ensures Commanded(owner, m, e) != [] <==>
              && Persists(m.tables, m.perms, e.cmd, e.stored, e.alsoStored)
              && Accepts(m.perms, owner, m.clients, e.client, e.cmd)
  {
    hide Persists, Hierarchy.Execute;
    var script := Commanded(owner, m, e);
    if script != [] {
      assert script[1..] == [];
      assert Hierarchy.Run(Hierarchy.After(m.perms, owner, script[0]), owner, []) ==
             Hierarchy.After(m.perms, owner, script[0]);
    }
  }

  lemma {:induction false} RecordedQueues(clients: Clients, cmd: RoleCommand)
    ensures SameQueuesIn(clients, clients) && SameQueuesIn(clients, Recorded(clients, cmd))
  {
    hide RemoveGrant;
  }

  lemma RemovesIs(m: Moment, e: ChannelEvent)
    requires e.DropChannel?
    ensures Removes(m, e) <==> e.stored && CheckKnown(m.perms, m.channels, m.clients, e.client, e.id).None?
  {
  }

  lemma OverwriteMoved(owner: Option<Fingerprint>, m: Moment, e: ChannelEvent, next: ChannelMap)
    requires e.SetOverwrite?
    requires var verdict := CheckOverwrite(m.perms, m.channels, m.clients, owner, e.client, e.channel, e.target,
                                           e.allow, e.deny);
             if e.stored && verdict.Accepted?
             then
               && e.channel in m.channels
               && next == m.channels[e.channel := WithOverwriteOn(m.channels[e.channel], verdict.value)]
             else next == m.channels
    ensures ChannelsMoved(owner, m, e, next) && !Removes(m, e)
  {
    hide CheckOverwrite;
  }

  lemma ClearanceMoved(owner: Option<Fingerprint>, m: Moment, e: ChannelEvent, next: ChannelMap)
    requires e.ClearOverwrite?
    requires if e.stored && CheckOverwriteRemoval(m.perms, m.channels, m.clients, e.client, e.channel).None?
             then
               && e.channel in m.channels
               && next == m.channels[e.channel := WithoutTarget(m.channels[e.channel], e.target)]
             else next == m.channels
    ensures ChannelsMoved(owner, m, e, next) && !Removes(m, e)
  {
    hide CheckOverwriteRemoval;
  }

  lemma {:induction false} CreationMoved(owner: Option<Fingerprint>, m: Moment, e: ChannelEvent, next: ChannelMap,
                                         created: Option<ChannelId>)
    requires e.NewChannel?
    requires created.Some? ==>
               && IsNextChannelId(m.channels, created.value)
               && next == m.channels[created.value := Drafted(e.draft, created.value)]
    requires created.None? ==> next == m.channels
    requires var allowed := e.stored && CheckCreate(m.perms, m.channels, m.clients, e.client, e.draft.name,
                                                    e.draft.parent).None?;
             (created.Some? ==> allowed) && (Synced(m.tables, m.perms, m.channels) && allowed ==> created.Some?)
    ensures ChannelsMoved(owner, m, e, next) && !Removes(m, e)
  {
    hide CheckCreate, Synced, IsNextChannelId;
    if created.None? && Created(m.channels, e.draft, next) {
      var id :| IsNextChannelId(m.channels, id) && next == m.channels[id := Drafted(e.draft, id)];
      NextIdIsNew(m.channels, id);
    }
  }

  lemma NextIdIsNew(channels: ChannelMap, id: ChannelId)
    requires IsNextChannelId(channels, id)
    ensures id !in channels
  {
  }

  lemma EditMoved(owner: Option<Fingerprint>, m: Moment, e: ChannelEvent, next: ChannelMap)
    requires e.EditChannel?
    requires EditAllowed(m.perms, m.channels, m.clients, e.client, e.draft) ==> e.draft.id in m.channels
    requires next ==
             if e.stored && EditAllowed(m.perms, m.channels, m.clients, e.client, e.draft) && e.draft.id in m.channels
                     then m.channels[e.draft.id := Redrafted(e.draft, m.channels[e.draft.id])] else m.channels
    ensures ChannelsMoved(owner, m, e, next) && !Removes(m, e)
  {
    hide EditAllowed;
  }

  lemma RemovalMoved(owner: Option<Fingerprint>, m: Moment, e: ChannelEvent, next: ChannelMap)
    requires e.DropChannel? && next == if Removes(m, e) then m.channels - {e.id} else m.channels
    ensures ChannelsMoved(owner, m, e, next)
  {
    hide Removes;
  }

  lemma {:induction false} ChannelsStepped(owner: Option<Fingerprint>, maxUsers: nat, m: Moment, e: Event,
                                           next: Moment)
    requires e.Channels? && ValidState(next.perms, next.channels, next.clients, owner, maxUsers)
    requires next.perms == m.perms && next.nextClientId == m.nextClientId
    requires ChannelsMoved(owner, m, e.command, next.channels)
    requires Survivors(if Removes(m, e.command) then EvictedSessions(m.clients, e.command.id) else m.clients,
                       next.clients)
    requires Patience(m.clients, next.clients, {}, Frames(m, e))
    requires Synced(m.tables, m.perms, m.channels) ==> Synced(next.tables, next.perms, next.channels)
    ensures Stepped(owner, maxUsers, m, e, next)
  {
    hide ChannelsMoved, ValidState, Synced, Patience, Survivors, SameQueuesIn, Frames, CheckKnown;
    EvictedQueues(m.clients, if e.command.DropChannel? then e.command.id else 0);
    PatienceOf(m.clients, Acted(owner, maxUsers, m, e), next.clients, Frames(m, e));
  }

  lemma {:induction false} EvictedQueues(clients: Clients, room: ChannelId)
    ensures SameQueuesIn(clients, clients)
    ensures SameQueuesIn(clients, EvictedSessions(clients, room))
  {
  }

  lemma FramesAre(m: Moment, e: Event)
    ensures var people, rooms := Count(m.clients.Keys), Count(m.channels.Keys);
            Frames(m, e) ==
            match e
            case Arrive(_, _, _) => 1
            case Roles(_, _, cmd, _, _) => RoleFrames(cmd, people, rooms)
            case Channels(command) => if command.DropChannel? then 1 + 2 * people + rooms else 2 + rooms
            case Members(act) =>
              if act.Receive? then 0
              else if act.BanMember? then 1 + 2 * Count(SessionsWith(m.clients, act.member))
              else 2
  {
    hide RoleFrames, Count, SessionsWith;
  }

  /** Acts that change what is recorded and leave every session and its queue alone. */
  predicate InPlace(act: MemberEvent) {
    !act.Leave? && !act.Receive? && !act.KickMember? && !act.BanMember?
  }

  lemma {:induction false} DidQueues(owner: Option<Fingerprint>, m: Moment, act: MemberEvent)
    requires InPlace(act)
    ensures SameQueuesIn(m.clients, Did(owner, m, act))
  {
    hide Authorize, CheckMove, CheckJoin, MayBan;
  }

  lemma {:induction false} MembersStepped(owner: Option<Fingerprint>, maxUsers: nat, m: Moment, e: Event,
                                          next: Moment, n: nat)
    requires e.Members? && ValidState(next.perms, next.channels, next.clients, owner, maxUsers)
    requires next == m.(clients := next.clients)
    requires Survivors(Did(owner, m, e.act), next.clients)
    requires Patience(if InPlace(e.act) then m.clients else Did(owner, m, e.act), next.clients, {}, n)
    requires n <= Frames(m, e)
    ensures Stepped(owner, maxUsers, m, e, next)
  {
    hide Did, ValidState, Synced, Patience, Survivors, Frames, SameQueuesIn, InPlace;
    var before := if InPlace(e.act) then m.clients else Did(owner, m, e.act);
    PatienceMore(before, next.clients, {}, n, {}, Frames(m, e));
    if InPlace(e.act) {
      DidQueues(owner, m, e.act);
      PatienceOf(m.clients, Did(owner, m, e.act), next.clients, Frames(m, e));
    }
  }

  lemma {:induction false} ArrivalStepped(owner: Option<Fingerprint>, maxUsers: nat, m: Moment, e: Event,
                                          next: Moment)
    requires e.Arrive? && ValidState(next.perms, next.channels, next.clients, owner, maxUsers)
    requires next == m.(clients := next.clients, nextClientId := next.nextClientId)
    requires if Admission(maxUsers, m.clients, e.levelOk, e.nickname).Some?
             then next.clients == m.clients && next.nextClientId == m.nextClientId
             else
               var start := Arrived(m.clients, m.perms.roles, m.channels,
                                    Newcomer(m.perms, owner, m.nextClientId, e.fingerprint, e.nickname.value));
               && next.nextClientId == NextId(m.nextClientId)
               && Survivors(start, next.clients) && Patience(start, next.clients, {}, 1)
    ensures Stepped(owner, maxUsers, m, e, next)
  {
    hide ValidState, Synced, Patience, Survivors, Arrived, Newcomer, Admission, NextId;
    Quiet(m.clients, 1);
  }

  // ---- What one event keeps ------------------------------------------------------------------

  /** A channel was made under a parent that already led, through a dangling link, to the id it was given. */
  ghost predicate LoopMade(m: Moment, e: Event, next: ChannelMap) {
    && e.Channels? && e.command.NewChannel?
    && exists id :: IsNextChannelId(m.channels, id) && id in next && Reaches(m.channels, e.command.draft.parent, id)
  }

  lemma {:induction false} SameNextId(channels: ChannelMap, a: ChannelId, b: ChannelId)
    requires IsNextChannelId(channels, a) && IsNextChannelId(channels, b)
    ensures a == b
  {
  }

  /** Whatever the event, a forest stays a forest unless a created channel closed a loop. */
  lemma {:induction false} StepKeepsForest(owner: Option<Fingerprint>, m: Moment, e: Event, next: ChannelMap)
    requires ChannelsOk(m.channels) && Acyclic(m.channels) && Rearranged(owner, m, e, next)
    ensures Acyclic(next) <==> !LoopMade(m, e, next)
  {
    hide Acyclic, Reaches, NeverEnds, CheckOverwrite, CheckKnown, Synced, Resolve, Commanded;
    if e.Channels? && e.command.NewChannel? {
      CreationAndForest(m, e, next);
    } else if e.Channels? && e.command.EditChannel? {
      if next != m.channels {
        UpdateKeepsForest(m.channels, Redrafted(e.command.draft, m.channels[e.command.draft.id]));
      }
    } else if e.Channels? && e.command.DropChannel? {
      DeleteKeepsForest(m.channels, e.command.id);
    } else {
      SameParentsKeepForest(m.channels, next);
    }
  }

  lemma {:induction false} CreationAndForest(m: Moment, e: Event, next: ChannelMap)
    requires Acyclic(m.channels) && e.Channels? && e.command.NewChannel?
    requires next == m.channels || Created(m.channels, e.command.draft, next)
    ensures Acyclic(next) <==> !LoopMade(m, e, next)
  {
    hide Acyclic, Reaches;
    var draft := e.command.draft;
    if next != m.channels {
      var id :| IsNextChannelId(m.channels, id) && next == m.channels[id := Drafted(draft, id)];
      CreateKeepsForestIff(m.channels, Drafted(draft, id));
      forall other | IsNextChannelId(m.channels, other) ensures other == id {
        SameNextId(m.channels, other, id);
      }
    }
  }

  /** Only joining a room and being moved to one lets anybody in. */
  predicate Enters(e: Event) { e.Members? && (e.act.Join? || e.act.Relocate?) }

  lemma {:induction false} ActedInPlace(owner: Option<Fingerprint>, maxUsers: nat, m: Moment, e: Event)
    requires !Enters(e)
    ensures NobodyEntered(m.clients, Acted(owner, maxUsers, m, e))
  {
    hide Commanded, Welcome, Authorize, MayBan, CheckKnown, Admission;
  }

  lemma {:induction false} ActedPeople(owner: Option<Fingerprint>, maxUsers: nat, m: Moment, e: Event)
    ensures forall c :: c in Acted(owner, maxUsers, m, e) ==>
              Acted(owner, maxUsers, m, e)[c].info.fingerprint in People(m.clients) + Newcomers([e])
  {
    hide Commanded, Welcome, Authorize, MayBan, CheckKnown, CheckJoin, CheckMove, Admission;
    assert [e][0] == e;
  }

  lemma {:induction false} RearrangedCaps(owner: Option<Fingerprint>, m: Moment, e: Event, next: ChannelMap)
    requires ChannelsOk(m.channels) && Rearranged(owner, m, e, next) && !EditsChannel(e)
    ensures SameCaps(m.channels, next)
  {
    hide Commanded, CheckOverwrite, CheckKnown, CheckCreate, Synced, DropTarget, OverwriteFor;
  }

  lemma EntersIs(e: Event)
    requires Enters(e)
    ensures e.Members? && (e.act.Join? || e.act.Relocate?)
  {
  }

  lemma EnteredIs(owner: Option<Fingerprint>, maxUsers: nat, m: Moment, e: Event)
    requires Enters(e)
    ensures var acted, act := Acted(owner, maxUsers, m, e), e.act;
            || acted == m.clients
            || (act.Join? && acted == Moved(m.clients, act.client, Some(act.room))
                && CheckJoin(m.perms, m.channels, m.clients, act.client, act.room).None?)
            || (act.Relocate? && acted == Moved(m.clients, act.targetClient, act.to)
                && CheckMove(m.perms, m.channels, m.clients, owner, act.client, act.targetClient, act.to).None?)
  {
  }

  /** No event but an edit of a channel takes a room over its cap, and a new room starts empty. */
  lemma {:induction false} StepKeepsCaps(owner: Option<Fingerprint>, maxUsers: nat, m: Moment, e: Event, next: Moment)
    requires ValidState(m.perms, m.channels, m.clients, owner, maxUsers) && !EditsChannel(e)
    requires Stepped(owner, maxUsers, m, e, next)
    ensures CapsKept(m.clients, m.channels, next.clients, next.channels)
  {
    hide *;
    StepParts(owner, maxUsers, m, e, next);
    Unpack(m.perms, m.channels, m.clients, owner, maxUsers);
    ValidRoomsLive(m.perms, m.channels, m.clients, owner, maxUsers);
    RearrangedCaps(owner, m, e, next.channels);
    CapsOf(m.channels, next.channels);
    var acted := Acted(owner, maxUsers, m, e);
    if Enters(e) {
      EnteredIs(owner, maxUsers, m, e);
      EntersIs(e);
      MembersKeepChannels(owner, m, e, next.channels);
      if acted == m.clients {
        SurvivorsStayed(m.clients, next.clients);
        StayedMeans(m.perms, m.channels, m.clients, owner, maxUsers, next.clients);
      } else if e.act.Join? {
        JoinMayEnter(m.perms, m.channels, m.clients, e.act.client, e.act.room);
        EnterCaps(m.clients, m.channels, next.clients, e.act.client, Some(e.act.room));
      } else {
        MoveMayEnter(m.perms, m.channels, m.clients, owner, e.act.client, e.act.targetClient, e.act.to);
        EnterCaps(m.clients, m.channels, next.clients, e.act.targetClient, e.act.to);
      }
    } else {
      ActedInPlace(owner, maxUsers, m, e);
      EnteredChain(m.clients, acted, next.clients);
      NobodyEnteredCaps(m.clients, m.channels, next.clients, next.channels);
    }
  }

  lemma StepParts(owner: Option<Fingerprint>, maxUsers: nat, m: Moment, e: Event, next: Moment)
    requires Stepped(owner, maxUsers, m, e, next)
    ensures ValidState(next.perms, next.channels, next.clients, owner, maxUsers)
    ensures next.perms == Hierarchy.Run(m.perms, owner, Commanded(owner, m, e))
    ensures Rearranged(owner, m, e, next.channels) && Survivors(Acted(owner, maxUsers, m, e), next.clients)
    ensures Synced(m.tables, m.perms, m.channels) && Stores(e) ==> Synced(next.tables, next.perms, next.channels)
  {
  }

  lemma MembersKeepChannels(owner: Option<Fingerprint>, m: Moment, e: Event, next: ChannelMap)
    requires e.Members? && Rearranged(owner, m, e, next)
    ensures next == m.channels
  {
  }

  lemma CapsOf(before: ChannelMap, after: ChannelMap)
    requires SameCaps(before, after)
    ensures forall room :: room in before && room in after ==> after[room].maxUsers == before[room].maxUsers
  {
  }

  // ---- Whole runs ------------------------------------------------------------------------------

  ghost predicate IsRun(owner: Option<Fingerprint>, maxUsers: nat, events: seq<Event>, trace: seq<Moment>) {
    && |trace| == |events| + 1
    && forall i :: 0 <= i < |events| ==> Stepped(owner, maxUsers, trace[i], events[i], trace[i + 1])
  }

  lemma RunStarts(owner: Option<Fingerprint>, maxUsers: nat, events: seq<Event>, trace: seq<Moment>)
    requires |trace| == 1
    ensures IsRun(owner, maxUsers, events[..0], trace)
  {
  }

  lemma {:induction false} RunGrows(owner: Option<Fingerprint>, maxUsers: nat, events: seq<Event>, i: nat,
                                    trace: seq<Moment>, next: Moment)
    requires i < |events| && |trace| == i + 1 && IsRun(owner, maxUsers, events[..i], trace)
    requires Stepped(owner, maxUsers, trace[i], events[i], next)
    ensures IsRun(owner, maxUsers, events[..i + 1], trace + [next])
  {
    hide Stepped;
    var longer := trace + [next];
    forall j | 0 <= j < i + 1 ensures Stepped(owner, maxUsers, longer[j], events[..i + 1][j], longer[j + 1]) {
      if j < i {
        assert longer[j] == trace[j] && longer[j + 1] == trace[j + 1] && events[..i + 1][j] == events[..i][j];
      } else {
        assert longer[j] == trace[i] && longer[j + 1] == next;
      }
    }
  }

  /** The role commands the first n events carry out, in order. */
  function Script(owner: Option<Fingerprint>, events: seq<Event>, trace: seq<Moment>, n: nat): seq<Hierarchy.Issued>
    requires n <= |events| < |trace|
  {
    if n == 0 then [] else Script(owner, events, trace, n - 1) + Commanded(owner, trace[n - 1], events[n - 1])
  }

  lemma {:induction false} RunConcat(ps: PermState, owner: Option<Fingerprint>, a: seq<Hierarchy.Issued>,
                                     b: seq<Hierarchy.Issued>)
    ensures Hierarchy.Run(ps, owner, a + b) == Hierarchy.Run(Hierarchy.Run(ps, owner, a), owner, b)
    decreases |a|
  {
    if a == [] {
      assert a + b == b;
    } else {
      assert (a + b)[0] == a[0] && (a + b)[1..] == a[1..] + b;
      RunConcat(Hierarchy.After(ps, owner, a[0]), owner, a[1..], b);
    }
  }

  /** At every point of a run the permission state is what the role commands carried out so far lead to. */
  lemma {:induction false} ScriptLeads(owner: Option<Fingerprint>, maxUsers: nat, events: seq<Event>,
                                       trace: seq<Moment>, n: nat)
    requires IsRun(owner, maxUsers, events, trace) && n <= |events|
    ensures trace[n].perms == Hierarchy.Run(trace[0].perms, owner, Script(owner, events, trace, n))
  {
    hide *;
    RunShape(owner, maxUsers, events, trace);
    if n == 0 {
      ScriptStarts(owner, events, trace, trace[0].perms);
    } else {
      ScriptLeads(owner, maxUsers, events, trace, n - 1);
      StepOf(owner, maxUsers, events, trace, n - 1);
      StepParts(owner, maxUsers, trace[n - 1], events[n - 1], trace[n]);
      ScriptGrows(owner, events, trace, n);
      RunConcat(trace[0].perms, owner, Script(owner, events, trace, n - 1),
                Commanded(owner, trace[n - 1], events[n - 1]));
    }
  }

  lemma RunShape(owner: Option<Fingerprint>, maxUsers: nat, events: seq<Event>, trace: seq<Moment>)
    requires IsRun(owner, maxUsers, events, trace)
    ensures |trace| == |events| + 1
  {
  }

  lemma StepOf(owner: Option<Fingerprint>, maxUsers: nat, events: seq<Event>, trace: seq<Moment>, i: nat)
    requires IsRun(owner, maxUsers, events, trace) && i < |events|
    ensures |trace| == |events| + 1 && Stepped(owner, maxUsers, trace[i], events[i], trace[i + 1])
  {
  }

  lemma ScriptStarts(owner: Option<Fingerprint>, events: seq<Event>, trace: seq<Moment>, ps: PermState)
    requires |events| < |trace|
    ensures Script(owner, events, trace, 0) == [] && Hierarchy.Run(ps, owner, []) == ps
  {
  }

  lemma ScriptGrows(owner: Option<Fingerprint>, events: seq<Event>, trace: seq<Moment>, n: nat)
    requires 0 < n <= |events| < |trace|
    ensures Script(owner, events, trace, n) ==
            Script(owner, events, trace, n - 1) + Commanded(owner, trace[n - 1], events[n - 1])
  {
  }

  /** Whoever is connected was connected at the start or arrived, and nobody else issues role commands. */
  lemma {:induction false} RunPeople(owner: Option<Fingerprint>, maxUsers: nat, events: seq<Event>,
                                     trace: seq<Moment>, n: nat)
    requires IsRun(owner, maxUsers, events, trace) && n <= |events|
    ensures People(trace[n].clients) <= People(trace[0].clients) + Newcomers(events)
    ensures IssuedBy(Script(owner, events, trace, n), People(trace[0].clients) + Newcomers(events))
  {
    hide *;
    RunShape(owner, maxUsers, events, trace);
    var crew := People(trace[0].clients) + Newcomers(events);
    if n == 0 {
      ScriptStarts(owner, events, trace, trace[0].perms);
      IssuedByBoth([], [], crew);
    } else {
      RunPeople(owner, maxUsers, events, trace, n - 1);
      StepOf(owner, maxUsers, events, trace, n - 1);
      StepPeople(owner, maxUsers, trace[n - 1], events[n - 1], trace[n]);
      NewcomerCounted(events, n - 1);
      SentByOneOfThem(owner, trace[n - 1], events[n - 1], crew);
      ScriptGrows(owner, events, trace, n);
      IssuedByBoth(Script(owner, events, trace, n - 1), Commanded(owner, trace[n - 1], events[n - 1]), crew);
    }
  }

  lemma {:induction false} NewcomerCounted(events: seq<Event>, i: nat)
    requires i < |events|
    ensures Newcomers([events[i]]) <= Newcomers(events)
  {
    assert forall f :: f in Newcomers([events[i]]) ==> events[i].Arrive? && events[i].fingerprint == f;
  }

  lemma SentByOneOfThem(owner: Option<Fingerprint>, m: Moment, e: Event, crew: set<Fingerprint>)
    requires People(m.clients) <= crew
    ensures IssuedBy(Commanded(owner, m, e), crew)
  {
  }

  lemma IssuedByBoth(a: seq<Hierarchy.Issued>, b: seq<Hierarchy.Issued>, crew: set<Fingerprint>)
    ensures IssuedBy([], crew)
    ensures IssuedBy(a, crew) && IssuedBy(b, crew) ==> IssuedBy(a + b, crew)
  {
  }

  lemma {:induction false} StepPeople(owner: Option<Fingerprint>, maxUsers: nat, m: Moment, e: Event, next: Moment)
    requires Stepped(owner, maxUsers, m, e, next)
    ensures People(next.clients) <= People(m.clients) + Newcomers([e])
  {
    hide Stepped, Acted, Newcomers;
    StepParts(owner, maxUsers, m, e, next);
    ActedPeople(owner, maxUsers, m, e);
  }

  /** If every write was stored, the tables hold what memory holds at every point. */
  lemma {:induction false} RunKeepsSynced(owner: Option<Fingerprint>, maxUsers: nat, events: seq<Event>,
                                          trace: seq<Moment>, n: nat)
    requires IsRun(owner, maxUsers, events, trace) && n <= |events| && AllStore(events)
    requires Synced(trace[0].tables, trace[0].perms, trace[0].channels)
    ensures Synced(trace[n].tables, trace[n].perms, trace[n].channels)
  {
    hide *;
    RunShape(owner, maxUsers, events, trace);
    if n > 0 {
      RunKeepsSynced(owner, maxUsers, events, trace, n - 1);
      StepOf(owner, maxUsers, events, trace, n - 1);
      StoresEach(events, n - 1);
      StepParts(owner, maxUsers, trace[n - 1], events[n - 1], trace[n]);
    }
  }

  lemma StoresEach(events: seq<Event>, i: nat)
    requires AllStore(events) && i < |events|
    ensures Stores(events[i])
  {
  }

  ghost predicate ValidAt(owner: Option<Fingerprint>, maxUsers: nat, m: Moment) {
    ValidState(m.perms, m.channels, m.clients, owner, maxUsers)
  }

  lemma ValidAtIs(owner: Option<Fingerprint>, maxUsers: nat, m: Moment)
    requires ValidState(m.perms, m.channels, m.clients, owner, maxUsers)
    ensures ValidAt(owner, maxUsers, m)
  {
  }

  /** A run that starts valid is valid throughout. */
  lemma {:induction false} RunStaysValid(owner: Option<Fingerprint>, maxUsers: nat, events: seq<Event>,
                                         trace: seq<Moment>, n: nat)
    requires IsRun(owner, maxUsers, events, trace) && n <= |events| && ValidAt(owner, maxUsers, trace[0])
    ensures ValidAt(owner, maxUsers, trace[n])
  {
    hide *;
    RunShape(owner, maxUsers, events, trace);
    if n > 0 {
      StepOf(owner, maxUsers, events, trace, n - 1);
      ValidAfter(owner, maxUsers, trace[n - 1], events[n - 1], trace[n]);
    }
  }

  lemma ValidAfter(owner: Option<Fingerprint>, maxUsers: nat, m: Moment, e: Event, next: Moment)
    requires Stepped(owner, maxUsers, m, e, next)
    ensures ValidAt(owner, maxUsers, next)
  {
    hide ValidState;
  }

  /**
  What a connected client makes of everything queued for it is what the server holds and would allow: the role table,
  its own grants, the channels it may view, its permissions everywhere, and what it may do to whom.
  */
  ghost predicate InAgreement(owner: Option<Fingerprint>, m: Moment, c: ClientId)
    requires c in m.clients
  {
    var v := Seen(m.clients[c]);
    && v.roles == m.perms.roles && v.myRoles == Grants(m.perms, v.fingerprint)
    && (forall id :: id in v.channels <==> MayIn(m.perms, m.channels, m.clients, c, id, VIEW_CHANNEL))
    && (forall id :: id in v.channels ==> id in m.channels && v.channels[id] == m.channels[id])
    && (forall bits :: bits <= Bits(v, None) <==> MayGlobally(m.perms, m.clients, c, bits))
    && (forall id, bits :: id in v.channels ==>
          (bits <= Bits(v, Some(v.channels[id].overwrites)) <==>
           MayIn(m.perms, m.channels, m.clients, c, id, bits)))
    && forall target :: target in m.clients ==> MayAgree(owner, m, c, target)
  }

  /** The moderation menu offers exactly what the server would carry out. */
  ghost predicate MayAgree(owner: Option<Fingerprint>, m: Moment, c: ClientId, target: ClientId)
    requires c in m.clients && target in m.clients
  {
    var options := ModerationOptionsOf(Seen(m.clients[c]), target);
    && options.canKick == Authorize(m.perms, owner, m.clients, c, KICK_MEMBERS, target).Accepted?
    && options.canMute == Authorize(m.perms, owner, m.clients, c, MUTE_MEMBERS, target).Accepted?
    && options.canMove == Authorize(m.perms, owner, m.clients, c, MOVE_MEMBERS, target).Accepted?
    && options.canBan == MayBan(m.perms, owner, m.clients, c, m.clients[target].info.fingerprint)
  }

  lemma {:induction false} ValidAgrees(owner: Option<Fingerprint>, maxUsers: nat, m: Moment, c: ClientId)
    requires ValidAt(owner, maxUsers, m) && c in m.clients
    ensures InAgreement(owner, m, c)
  {
    hide ValidState, Seen, MayIn, Bits, Authorize, ModerationOptionsOf, MayGlobally, Outranks;
    MirrorAgreement(m.perms, m.channels, m.clients, owner, maxUsers, c);
    PermissionsAgree(m.perms, m.channels, m.clients, owner, maxUsers, c);
    forall target | target in m.clients ensures MayAgree(owner, m, c, target) {
      ModerationAgrees(m.perms, m.channels, m.clients, owner, maxUsers, c, target);
      BanIs(m.perms, owner, m.clients, c, m.clients[target].info.fingerprint);
    }
  }

  lemma BanIs(ps: PermState, owner: Option<Fingerprint>, clients: Clients, c: ClientId, target: Fingerprint)
    requires c in clients
    ensures MayBan(ps, owner, clients, c, target) <==>
              && MayGlobally(ps, clients, c, BAN_MEMBERS) && target != clients[c].info.fingerprint
              && Outranks(ps, owner, clients, c, target)
  {
  }

  /** Agreement over whole runs: at every point, for everybody connected. */
  lemma {:induction false} RunAgrees(owner: Option<Fingerprint>, maxUsers: nat, events: seq<Event>,
                                     trace: seq<Moment>, n: nat, c: ClientId)
    requires IsRun(owner, maxUsers, events, trace) && n <= |events| && ValidAt(owner, maxUsers, trace[0])
    requires c in trace[n].clients
    ensures InAgreement(owner, trace[n], c)
  {
    hide InAgreement, ValidAt, Stepped;
    RunStaysValid(owner, maxUsers, events, trace, n);
    ValidAgrees(owner, maxUsers, trace[n], c);
  }

  /** Channels that start as a forest are one throughout, exactly as long as no created channel closes a loop. */
  lemma {:induction false} RunKeepsForest(owner: Option<Fingerprint>, maxUsers: nat, events: seq<Event>,
                                          trace: seq<Moment>, n: nat)
    requires IsRun(owner, maxUsers, events, trace) && n <= |events| && ValidAt(owner, maxUsers, trace[0])
    requires Acyclic(trace[0].channels)
    ensures (forall k :: 0 <= k <= n ==> Acyclic(trace[k].channels)) <==>
            (forall i :: 0 <= i < n ==> !LoopMade(trace[i], events[i], trace[i + 1].channels))
  {
    hide *;
    RunShape(owner, maxUsers, events, trace);
    if n > 0 {
      RunKeepsForest(owner, maxUsers, events, trace, n - 1);
      if Acyclic(trace[n - 1].channels) {
        RunStaysValid(owner, maxUsers, events, trace, n - 1);
        StepOf(owner, maxUsers, events, trace, n - 1);
        StepParts(owner, maxUsers, trace[n - 1], events[n - 1], trace[n]);
        ValidChannels(owner, maxUsers, trace[n - 1]);
        StepKeepsForest(owner, trace[n - 1], events[n - 1], trace[n].channels);
      }
    }
  }

  lemma ValidChannels(owner: Option<Fingerprint>, maxUsers: nat, m: Moment)
    requires ValidAt(owner, maxUsers, m)
    ensures ChannelsOk(m.channels) && PermsOk(m.perms)
  {
  }

  ghost predicate Hangs(m: Moment, e: Event) {
    && e.Channels? && e.command.EditChannel?
    && HangingEdit(m.perms, m.channels, m.clients, e.command.client, e.command.draft)
  }

  /** And so no edit hangs, in a run whose created channels close no loop. */
  lemma {:induction false} RunNeverHangs(owner: Option<Fingerprint>, maxUsers: nat, events: seq<Event>,
                                         trace: seq<Moment>, n: nat)
    requires IsRun(owner, maxUsers, events, trace) && n < |events| && ValidAt(owner, maxUsers, trace[0])
    requires Acyclic(trace[0].channels)
    requires forall i :: 0 <= i < n ==> !LoopMade(trace[i], events[i], trace[i + 1].channels)
    ensures !Hangs(trace[n], events[n])
  {
    hide Stepped, Acyclic, LoopMade, ValidAt, CheckKnown, CheckFields, NeverEnds;
    RunKeepsForest(owner, maxUsers, events, trace, n);
    assert Acyclic(trace[n].channels);
    if Hangs(trace[n], events[n]) {
      ForestWalksEnd(trace[n].channels, events[n].command.draft.parent, events[n].command.draft.id);
    }
  }

  // ---- What new ids inherit ------------------------------------------------------------------------

  /** What an event does to the live channels. */
  lemma {:induction false} RoomsAct(owner: Option<Fingerprint>, m: Moment, e: Event, next: ChannelMap,
                                    log: History.Messages) returns (act: Reuse.Act)
    requires Rearranged(owner, m, e, next)
    ensures !act.Say? && Reuse.Next(Reuse.Rooms(m.channels.Keys, log), act, Reuse.Rooms(next.Keys, log))
    ensures act.Drop? <==> e.Channels? && e.command.DropChannel? && Removes(m, e.command)
    ensures act.Drop? ==> act.id == e.command.id
    ensures act.Make? <==> e.Channels? && e.command.NewChannel? && next != m.channels
    ensures act.Make? ==> act.id !in m.channels && act.id in next
  {
    hide CheckOverwrite, CheckKnown, CheckCreate, Synced, Commanded, DropTarget, Resolve;
    act := Reuse.Other;
    if e.Channels? && e.command.DropChannel? {
      if Removes(m, e.command) {
        act := Reuse.Drop(e.command.id);
        assert next.Keys == m.channels.Keys - {e.command.id};
      }
    } else if e.Channels? && e.command.NewChannel? {
      if next != m.channels {
        var draft := e.command.draft;
        var id :| IsNextChannelId(m.channels, id) && next == m.channels[id := Drafted(draft, id)];
        act := Reuse.Make(id);
        assert next.Keys == m.channels.Keys + {id};
      }
    } else {
      assert next.Keys == m.channels.Keys;
    }
  }

  /** Messages go to live channels and are kept when their channel goes. */
  ghost predicate Logged(m: Moment, log: History.Messages, next: History.Messages) {
    || next == log
    || exists id: History.MessageId, channel: ChannelId, content ::
         id !in log && channel in m.channels
         && next == log[id := History.Message(channel, content)]
  }

  /** The message log beside a run, each entry written before the event of its step. */
  ghost predicate IsLog(trace: seq<Moment>, logs: seq<History.Messages>) {
    |logs| == |trace| && forall i :: 0 <= i < |trace| - 1 ==> Logged(trace[i], logs[i], logs[i + 1])
  }

  predicate DropsHighest(m: Moment, e: Event) {
    && e.Channels? && e.command.DropChannel? && Removes(m, e.command)
    && forall c :: c in m.channels ==> c <= e.command.id
  }

  lemma {:induction false} LogKeepsNothingWaiting(m: Moment, log: History.Messages, next: History.Messages)
    requires Reuse.NothingWaiting(Reuse.Rooms(m.channels.Keys, log)) && Logged(m, log, next)
    ensures Reuse.NothingWaiting(Reuse.Rooms(m.channels.Keys, next))
  {
  }

  lemma {:induction false} StepStartsEmpty(owner: Option<Fingerprint>, m: Moment, e: Event, next: ChannelMap,
                                           log: History.Messages)
    requires Rearranged(owner, m, e, next) && !DropsHighest(m, e)
    requires Reuse.NothingWaiting(Reuse.Rooms(m.channels.Keys, log))
    ensures Reuse.NothingWaiting(Reuse.Rooms(next.Keys, log))
    ensures e.Channels? && e.command.NewChannel? ==>
              forall id :: id in next && id !in m.channels ==> History.Matching(log, id, None) == {}
  {
    hide Removes, Rearranged, Reuse.NothingWaiting, History.Matching;
    var act := RoomsAct(owner, m, e, next, log);
    Reuse.StepKeepsNothingWaiting(Reuse.Rooms(m.channels.Keys, log), act, Reuse.Rooms(next.Keys, log));
    if act.Make? {
      forall id | id in next && id !in m.channels ensures id == act.id {
        assert id in Reuse.Rooms(next.Keys, log).live;
      }
    }
  }

  lemma {:induction false} NewcomerIsBare(owner: Option<Fingerprint>, m: Moment, e: Event, next: ChannelMap,
                                          id: ChannelId)
    requires Rearranged(owner, m, e, next) && id in next && id !in m.channels
    ensures next[id].overwrites == []
  {
    hide CheckOverwrite, CheckKnown, CheckCreate, Synced, Commanded, DropTarget, Resolve, CheckFields, Acyclic;
  }

  lemma NoneStored(rows: OverwriteRows, channels: ChannelMap, id: ChannelId)
    requires NoOrphans(rows, channels) && id !in channels
    ensures forall target :: (id, target) !in rows
  {
    assert forall target :: (id, target) in rows ==> (id, target).0 in channels;
  }

  /**
  In a run whose writes were stored a channel that appears has no overwrite, in memory or in the tables, whatever
  channel bore its id before and whatever was stored for that one.
  */
  lemma {:induction false} RunStartsBare(owner: Option<Fingerprint>, maxUsers: nat, events: seq<Event>,
                                         trace: seq<Moment>, n: nat, id: ChannelId)
    requires IsRun(owner, maxUsers, events, trace) && n < |events| && AllStore(events)
    requires Synced(trace[0].tables, trace[0].perms, trace[0].channels)
    requires id in trace[n + 1].channels && id !in trace[n].channels
    ensures trace[n + 1].channels[id].overwrites == []
    ensures forall target ::
              (id, target) !in trace[n].tables.overwrites && (id, target) !in trace[n + 1].tables.overwrites
  {
    hide RowsMatch, GrantsMatch, ChannelsMatch, Stepped, Rearranged, AllStore;
    RunKeepsSynced(owner, maxUsers, events, trace, n);
    RunKeepsSynced(owner, maxUsers, events, trace, n + 1);
    assert Stepped(owner, maxUsers, trace[n], events[n], trace[n + 1]);
    StepParts(owner, maxUsers, trace[n], events[n], trace[n + 1]);
    NewcomerIsBare(owner, trace[n], events[n], trace[n + 1].channels, id);
    NoneStored(trace[n].tables.overwrites, trace[n].channels, id);
    forall target ensures (id, target) !in trace[n + 1].tables.overwrites {
      assert StoredOverwrite(trace[n + 1].tables.overwrites, id, target) ==
             OverwriteFor(trace[n + 1].channels[id].overwrites, target);
    }
  }

  /**
  In a run that never drops its highest channel, whatever is said meanwhile, created channels start with no history.
  */
  lemma {:induction false} RunStartsEmpty(owner: Option<Fingerprint>, maxUsers: nat, events: seq<Event>,
                                          trace: seq<Moment>, logs: seq<History.Messages>, n: nat)
    requires IsRun(owner, maxUsers, events, trace) && IsLog(trace, logs) && n < |events|
    requires Reuse.NothingWaiting(Reuse.Rooms(trace[0].channels.Keys, logs[0]))
    requires forall i :: 0 <= i <= n ==> !DropsHighest(trace[i], events[i])
    ensures Reuse.NothingWaiting(Reuse.Rooms(trace[n + 1].channels.Keys, logs[n + 1]))
    ensures events[n].Channels? && events[n].command.NewChannel? ==>
              forall id :: id in trace[n + 1].channels && id !in trace[n].channels ==>
                History.Matching(logs[n + 1], id, None) == {}
  {
    hide Reuse.NothingWaiting, History.Matching, Stepped, DropsHighest, Logged, Rearranged;
    if n > 0 {
      RunStartsEmpty(owner, maxUsers, events, trace, logs, n - 1);
    }
    assert Stepped(owner, maxUsers, trace[n], events[n], trace[n + 1]);
    StepParts(owner, maxUsers, trace[n], events[n], trace[n + 1]);
    LogKeepsNothingWaiting(trace[n], logs[n], logs[n + 1]);
    StepStartsEmpty(owner, trace[n], events[n], trace[n + 1].channels, logs[n + 1]);
  }

  /** Role overwrites name roles there are. */
  ghost predicate TargetsExist(ps: PermState, channels: ChannelMap) {
    forall id, o :: id in channels && o in channels[id].overwrites && o.target.ForRole? ==>
      Exists(ps.roles, o.target.role)
  }

  lemma {:induction false} TableKeepsId(next: seq<Role>, id: RoleId, j: nat)
    requires j < |next| && next[j].id == id
    ensures Exists(next, id)
  {
    assert next[j] in next;
  }

  lemma {:induction false} CreateKeepsId(ps: PermState, name: string, permissions: Permissions, i: nat)
    requires PermsOk(ps) && i < |ps.roles|
    ensures Exists(AfterCreate(ps, NewRole(ps, name, permissions)).roles, ps.roles[i].id)
  {
    hide FindRole, AfterCreate, CreatedTable;
    CreateShape(ps, name, permissions);
    var table := CreatedTable(ps.roles, NewRole(ps, name, permissions));
    if i == 0 {
      TableKeepsId(table, ps.roles[i].id, 0);
    } else {
      assert table[i + 1] == ps.roles[i].(position := i + 1);
      TableKeepsId(table, ps.roles[i].id, i + 1);
    }
  }

  lemma {:induction false} DeleteKeepsId(ps: PermState, k: nat, i: nat)
    requires PermsOk(ps) && 0 < k < |ps.roles| && i < |ps.roles| && i != k
    ensures Exists(AfterDelete(ps, ps.roles[k].id).roles, ps.roles[i].id)
  {
    hide FindRole, AfterDelete, DeletedTable;
    DeleteShape(ps, k);
    var table := DeletedTable(ps.roles, k);
    if i < k {
      TableKeepsId(table, ps.roles[i].id, i);
    } else {
      assert table[i - 1] == ps.roles[i - 1 + 1].(position := i - 1);
      TableKeepsId(table, ps.roles[i].id, i - 1);
    }
  }

  lemma {:induction false} ReorderKeepsId(ps: PermState, positions: Positions, i: nat)
    requires PermsOk(ps) && NamesEveryRoleDensely(ps.roles, positions) && i < |ps.roles|
    ensures Exists(AfterReorder(ps, positions).roles, ps.roles[i].id)
  {
    hide FindRole, AfterReorder, FindPosition, NamesEveryRoleDensely;
    ReorderShape(ps, positions);
    var table := AfterReorder(ps, positions).roles;
    assert Placed(ps.roles[i], positions) in table;
    var j :| 0 <= j < |table| && table[j] == Placed(ps.roles[i], positions);
    TableKeepsId(table, ps.roles[i].id, j);
  }

  /** Only a deletion takes a role away. */
  lemma {:induction false} DecideKeepsIds(ps: PermState, actor: Actor, owner: Option<Fingerprint>, cmd: RoleCommand,
                                          id: RoleId)
    requires PermsOk(ps) && Decide(ps, actor, owner, cmd).Accepted? && Exists(ps.roles, id)
    requires !(cmd.DeleteRole? && cmd.id == id)
    ensures Exists(Decide(ps, actor, owner, cmd).value.roles, id)
  {
    hide AfterCreate, AfterReorder, AfterDelete, ReplaceRole, Trim, NewRole, MaxRoleId, NamesEveryRoleDensely;
    hide MovesOnlyBelow, DiffIsManageable, CanManageRole, FindRole;
    var i := IndexOf(ps.roles, id);
    match cmd
    case CreateRole(name, permissions) =>
      CreateKeepsId(ps, name, permissions, i);
    case UpdateRole(_, _, _, _) =>
      var k := IndexOf(ps.roles, cmd.id);
      ReplaceShape(ps.roles, Updated(ps.roles[k], cmd), k);
      TableKeepsId(ps.roles[k := Updated(ps.roles[k], cmd)], id, i);
    case DeleteRole(gone) =>
      var k := IndexOf(ps.roles, gone);
      DeleteKeepsId(ps, k, i);
    case ReorderRoles(positions) =>
      ReorderKeepsId(ps, positions, i);
    case SetMemberRoles(_, _) =>
  }

  lemma {:induction false} CommandKeepsIds(owner: Option<Fingerprint>, m: Moment, e: Event, next: PermState, id: RoleId)
    requires PermsOk(m.perms) && next == Hierarchy.Run(m.perms, owner, Commanded(owner, m, e))
    requires Exists(m.perms.roles, id)
    requires !(e.Roles? && Commanded(owner, m, e) != [] && e.cmd.DeleteRole? && e.cmd.id == id)
    ensures Exists(next.roles, id)
  {
    hide Decide, FindRole, Persists, Resolve;
    if e.Roles? {
      CommandRuns(owner, m, e);
      if Commanded(owner, m, e) != [] {
        var who := m.clients[e.client].info.fingerprint;
        DecideKeepsIds(m.perms, ActorOf(m.perms, who, owner), owner, e.cmd, id);
      }
    } else {
      assert Commanded(owner, m, e) == [];
    }
  }

  /** Where an overwrite comes from: it was there and survived, or it was just set on a role there is. */
  lemma {:induction false} OverwriteSource(owner: Option<Fingerprint>, m: Moment, e: Event, next: ChannelMap,
                                           id: ChannelId, o: Overwrite)
    requires Rearranged(owner, m, e, next) && id in next && o in next[id].overwrites && o.target.ForRole?
    ensures || (&& id in m.channels && o in m.channels[id].overwrites
                && !(e.Roles? && Commanded(owner, m, e) != [] && e.cmd.DeleteRole? && e.cmd.id == o.target.role))
            || (!e.Roles? && Exists(m.perms.roles, o.target.role))
  {
    hide CheckKnown, CheckCreate, Synced, Commanded, Resolve, MayGlobally, MayIn, FindRole, Reaches, NeverEnds;
  }

  /** Every step keeps role overwrites to roles there are. */
  lemma {:induction false} StepKeepsTargets(owner: Option<Fingerprint>, maxUsers: nat, m: Moment, e: Event,
                                            next: Moment)
    requires ValidAt(owner, maxUsers, m) && TargetsExist(m.perms, m.channels) && Stepped(owner, maxUsers, m, e, next)
    ensures TargetsExist(next.perms, next.channels)
  {
    hide ValidAt, Stepped, Rearranged, Commanded, Hierarchy.Run, FindRole;
    StepParts(owner, maxUsers, m, e, next);
    ValidChannels(owner, maxUsers, m);
    forall id, o | id in next.channels && o in next.channels[id].overwrites && o.target.ForRole?
      ensures Exists(next.perms.roles, o.target.role)
    {
      OverwriteSource(owner, m, e, next.channels, id, o);
      CommandKeepsIds(owner, m, e, next.perms, o.target.role);
    }
  }

  lemma {:induction false} RunKeepsTargets(owner: Option<Fingerprint>, maxUsers: nat, events: seq<Event>,
                                           trace: seq<Moment>, n: nat)
    requires IsRun(owner, maxUsers, events, trace) && n <= |events| && ValidAt(owner, maxUsers, trace[0])
    requires TargetsExist(trace[0].perms, trace[0].channels)
    ensures TargetsExist(trace[n].perms, trace[n].channels)
  {
    hide Stepped, ValidAt, TargetsExist;
    if n > 0 {
      RunKeepsTargets(owner, maxUsers, events, trace, n - 1);
      RunStaysValid(owner, maxUsers, events, trace, n - 1);
      assert Stepped(owner, maxUsers, trace[n - 1], events[n - 1], trace[n]);
      StepKeepsTargets(owner, maxUsers, trace[n - 1], events[n - 1], trace[n]);
    }
  }

  /** Nobody holds the role, no session shows it and no overwrite names it. */
  ghost predicate Untied(m: Moment, id: RoleId) {
    && (forall member :: id !in Grants(m.perms, member))
    && (forall c :: c in m.clients ==> id !in m.clients[c].info.roles)
    && (forall room, o :: room in m.channels && o in m.channels[room].overwrites ==> o.target != ForRole(id))
  }

  lemma {:induction false} CreatedIs(owner: Option<Fingerprint>, m: Moment, e: Event, next: PermState)
    requires PermsOk(m.perms) && e.Roles? && e.cmd.CreateRole? && Commanded(owner, m, e) != []
    requires next == Hierarchy.Run(m.perms, owner, Commanded(owner, m, e))
    ensures var role := NewRole(m.perms, e.cmd.name, e.cmd.permissions);
            next.members == m.perms.members && role in next.roles && !Exists(m.perms.roles, role.id)
  {
    hide Persists, Resolve, AfterCreate, FindRole, Trim;
    CommandRuns(owner, m, e);
    CreateShape(m.perms, e.cmd.name, e.cmd.permissions);
    var role := NewRole(m.perms, e.cmd.name, e.cmd.permissions);
    assert CreatedTable(m.perms.roles, role)[1] == role;
  }

  /** Whatever bore its id before, a created role starts untied: nobody holds it and no overwrite names it. */
  lemma {:induction false} NewRoleIsUntied(owner: Option<Fingerprint>, maxUsers: nat, m: Moment, e: Event, next: Moment)
    requires ValidAt(owner, maxUsers, m) && TargetsExist(m.perms, m.channels) && Stepped(owner, maxUsers, m, e, next)
    requires e.Roles? && e.cmd.CreateRole? && Commanded(owner, m, e) != []
    ensures Untied(next, NewRole(m.perms, e.cmd.name, e.cmd.permissions).id)
  {
    hide ValidAt, Stepped, Commanded, Hierarchy.Run, FindRole, NewRole, TableOk;
    var id := NewRole(m.perms, e.cmd.name, e.cmd.permissions).id;
    StepParts(owner, maxUsers, m, e, next);
    ValidAfter(owner, maxUsers, m, e, next);
    ValidChannels(owner, maxUsers, m);
    CreatedIs(owner, m, e, next.perms);
    forall member ensures id !in Grants(next.perms, member) {
      assert member in m.perms.members ==> Grantable(m.perms.roles, m.perms.members[member]);
    }
    forall c | c in next.clients ensures id !in next.clients[c].info.roles {
      RecordedGrants(owner, maxUsers, next, c);
    }
  }

  lemma {:induction false} RecordedGrants(owner: Option<Fingerprint>, maxUsers: nat, m: Moment, c: ClientId)
    requires ValidAt(owner, maxUsers, m) && c in m.clients
    ensures m.clients[c].info.roles == Grants(m.perms, m.clients[c].info.fingerprint)
  {
    OwnState(m.perms, m.channels, m.clients, owner, maxUsers, c);
  }

  ghost predicate NoRoomOverfull(m: Moment) {
    forall room :: room in m.channels ==> WithinCap(m.clients, m.channels, room)
  }

  /** Without edits of channels, rooms that start within their caps stay within them, and so do rooms made later. */
  lemma {:induction false} RunKeepsCaps(owner: Option<Fingerprint>, maxUsers: nat, events: seq<Event>,
                                        trace: seq<Moment>, n: nat)
    requires IsRun(owner, maxUsers, events, trace) && n <= |events| && ValidAt(owner, maxUsers, trace[0])
    requires NoRoomOverfull(trace[0]) && forall i :: 0 <= i < |events| ==> !EditsChannel(events[i])
    ensures NoRoomOverfull(trace[n])
  {
    hide *;
    RunShape(owner, maxUsers, events, trace);
    if n > 0 {
      RunKeepsCaps(owner, maxUsers, events, trace, n - 1);
      RunStaysValid(owner, maxUsers, events, trace, n - 1);
      StepOf(owner, maxUsers, events, trace, n - 1);
      OverfullNowhere(owner, maxUsers, trace[n - 1], events[n - 1], trace[n]);
    }
  }

  lemma {:induction false} OverfullNowhere(owner: Option<Fingerprint>, maxUsers: nat, m: Moment, e: Event,
                                           next: Moment)
    requires ValidAt(owner, maxUsers, m) && Stepped(owner, maxUsers, m, e, next)
    requires NoRoomOverfull(m) && !EditsChannel(e)
    ensures NoRoomOverfull(next)
  {
    hide Stepped, ValidState, EditsChannel, Occupants;
    StepKeepsCaps(owner, maxUsers, m, e, next);
  }

  /**
  No climbing, for the running server, whoever else is connected: if every role command carried out came from a crew of
  non-owners, then at every point the roles at or above the crew's highest rung keep their bits, holders and order, and
  nobody has gained one.
  */
  lemma {:induction false} CrewCannotClimb(owner: Option<Fingerprint>, maxUsers: nat, events: seq<Event>,
                                           trace: seq<Moment>, n: nat, crew: set<Fingerprint>, top: nat)
    requires IsRun(owner, maxUsers, events, trace) && n <= |events| && ValidAt(owner, maxUsers, trace[0])
    requires |trace| > |events| && top < |trace[0].perms.roles| && IssuedBy(Script(owner, events, trace, n), crew)
    requires forall m :: m in crew ==> owner != Some(m) && Hierarchy.Top(trace[0].perms, m) <= top
    ensures SeniorsHold(trace[0].perms, trace[n].perms, top)
  {
    hide *;
    ScriptLeads(owner, maxUsers, events, trace, n);
    ValidChannels(owner, maxUsers, trace[0]);
    IssuedByEach(Script(owner, events, trace, n), crew);
    Hierarchy.NoClimbing(trace[0].perms, owner, top, crew, Script(owner, events, trace, n));
    SeniorsHoldIs(trace[0].perms, trace[n].perms, top);
  }

  /** No minting either: bits outside what the crew and the roles below its rung started with reach nobody's role. */
  lemma {:induction false} CrewMintsNothing(owner: Option<Fingerprint>, maxUsers: nat, events: seq<Event>,
                                            trace: seq<Moment>, n: nat, crew: set<Fingerprint>, top: nat,
                                            bits: Permissions)
    requires IsRun(owner, maxUsers, events, trace) && n <= |events| && ValidAt(owner, maxUsers, trace[0])
    requires |trace| > |events| && top < |trace[0].perms.roles| && IssuedBy(Script(owner, events, trace, n), crew)
    requires forall m :: m in crew ==> owner != Some(m) && Hierarchy.Top(trace[0].perms, m) <= top
    requires Minting.Closed(bits) && Minting.StartsWithin(trace[0].perms, crew, bits)
    requires forall i :: 0 <= i < top ==> trace[0].perms.roles[i].permissions <= bits
    ensures Minting.JuniorsWithin(trace[0].perms, trace[n].perms, top, bits)
    ensures forall m :: m in crew ==> Minting.Reach(ActorOf(trace[n].perms, m, owner)) <= bits
  {
    hide *;
    ScriptLeads(owner, maxUsers, events, trace, n);
    ValidChannels(owner, maxUsers, trace[0]);
    IssuedByEach(Script(owner, events, trace, n), crew);
    Minting.CrewCannotMint(trace[0].perms, owner, top, crew, bits, Script(owner, events, trace, n));
  }

  lemma IssuedByEach(script: seq<Hierarchy.Issued>, crew: set<Fingerprint>)
    requires IssuedBy(script, crew)
    ensures forall i :: 0 <= i < |script| ==> script[i].who in crew
  {
  }

  /** From a rung up, roles keep their bits, holders and order; below it, whatever anybody gained. */
  ghost predicate SeniorsHold(start: PermState, end: PermState, top: nat)
    requires top < |start.roles|
  {
    && (forall i: nat :: top <= i < |start.roles| ==> Hierarchy.Untouched(start, end, start.roles[i]))
    && (forall i: nat, j: nat :: top <= i < j < |start.roles| ==>
          Hierarchy.Outranks(end, start.roles[j].id, start.roles[i].id))
    && (forall m, id :: id in Grants(end, m) && id !in Grants(start, m) ==>
          Hierarchy.Outranks(end, start.roles[top].id, id))
  }

  lemma SeniorsHoldIs(start: PermState, end: PermState, top: nat)
    requires top < |start.roles|
    requires forall i: nat :: top <= i < |start.roles| ==> Hierarchy.Untouched(start, end, start.roles[i])
    requires forall i: nat, j: nat :: top <= i < j < |start.roles| ==>
               Hierarchy.Outranks(end, start.roles[j].id, start.roles[i].id)
    requires forall m, id :: id in Grants(end, m) && id !in Grants(start, m) ==>
               Hierarchy.Outranks(end, start.roles[top].id, id)
    ensures SeniorsHold(start, end, top)
  {
  }

  lemma OtherIsInert(tag: nat)
    ensures Inert(Other(tag))
  {
  }

  lemma {:induction false} RolesStored(t: Tables, ps: PermState, channels: ChannelMap)
    requires Synced(t, ps, channels) && TableOk(ps.roles)
    ensures t.roles != map[]
  {
    TableIndex(ps.roles, 0);
    assert EVERYONE in t.roles;
  }
}
