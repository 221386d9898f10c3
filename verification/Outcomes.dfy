/**
What each session and channel command comes to, from the event's own fields: when it is carried out, as bits, ranks and
room, and what is different afterwards (crates/pickle-server/src/state.rs, admin.rs, moderation.rs, session.rs).
*/
module Outcomes {
  import opened Common
  import opened Perms
  import opened RoleTable
  import opened Channels
  import opened Mirror
  import opened Visibility
  import opened ServerState
  import opened Store
  import opened Plans
  import opened Events
  import opened Authority

  function Who(m: Moment, c: ClientId): Fingerprint
    requires c in m.clients
  {
    m.clients[c].info.fingerprint
  }

  /** Room in the queue for n frames and a farewell to everyone connected. */
  predicate Roomy(m: Moment, c: ClientId, n: nat) {
    c in m.clients && |m.clients[c].queue| + n + |m.clients| <= 64
  }

  ghost predicate Acts(owner: Option<Fingerprint>, m: Moment, c: ClientId, b: Bit, target: ClientId) {
    MayAct(m.perms, owner, m.clients, c, b, target)
  }

  ghost predicate Has(owner: Option<Fingerprint>, m: Moment, c: ClientId, b: Bit) {
    c in m.clients && Holds(m.perms, owner, Who(m, c), b)
  }

  ghost predicate HasIn(owner: Option<Fingerprint>, m: Moment, c: ClientId, room: ChannelId, b: Bit) {
    c in m.clients && room in m.channels && HoldsIn(m.perms, owner, Who(m, c), m.channels[room].overwrites, b)
  }

  /** Fewer others in the room than its cap. */
  ghost predicate HasSpace(m: Moment, room: ChannelId, x: ClientId)
    requires room in m.channels
  {
    m.channels[room].maxUsers.Some? ==>
      |set o | o in m.clients && o != x && m.clients[o].info.channel == Some(room)| < m.channels[room].maxUsers.value
  }

  /** A voice room that may be seen and entered and has space for one who may be in it already. */
  ghost predicate Enterable(owner: Option<Fingerprint>, m: Moment, c: ClientId, room: ChannelId, x: ClientId) {
    && HasIn(owner, m, c, room, SEES) && HasIn(owner, m, c, room, ENTERS) && m.channels[room].kind != Text
    && HasSpace(m, room, x)
  }

  // ---- Members -------------------------------------------------------------------------------------------

  lemma {:induction false} MemberStep(owner: Option<Fingerprint>, maxUsers: nat, m: Moment, e: Event, next: Moment)
    requires Stepped(owner, maxUsers, m, e, next) && e.Members?
    ensures Survivors(Did(owner, m, e.act), next.clients)
    ensures Patience(Did(owner, m, e.act), next.clients, {}, Frames(m, e))
    ensures next.channels == m.channels && next.perms == m.perms
  {
    hide Did, ValidState, Survivors, Patience, Frames, Synced;
    assert Commanded(owner, m, e) == [];
  }

  /** Whoever an act leaves connected and who has room is still there. */
  lemma {:induction false} StillThere(a: Clients, b: Clients, m: Moment, n: nat, c: ClientId)
    requires Patience(a, b, {}, n) && c in a && Roomy(m, c, n) && a.Keys <= m.clients.Keys
    requires a[c].queue == m.clients[c].queue
    ensures c in b
  {
    hide Patience;
    assert |a| == |a.Keys| && |m.clients| == |m.clients.Keys|;
    Fewer(a.Keys, m.clients.Keys);
    RoomIsEnough(a, b, {}, n, c);
  }

  /** A kick removes its target exactly when the sender may kick and outranks them, and nobody who has room besides. */
  lemma {:induction false} KickOutcome(owner: Option<Fingerprint>, maxUsers: nat, m: Moment, e: Event, next: Moment,
                                       x: ClientId)
    requires ValidAt(owner, maxUsers, m) && Stepped(owner, maxUsers, m, e, next)
    requires e.Members? && e.act.KickMember?
    ensures var kicked := Acts(owner, m, e.act.client, KICK, e.act.targetClient);
            && (x in next.clients ==> x in m.clients && !(kicked && x == e.act.targetClient))
            && (Roomy(m, x, 2) ==> (x in next.clients <==> !(kicked && x == e.act.targetClient)))
            && (x in next.clients ==> next.clients[x].info == m.clients[x].info)
  {
    hide ValidState, Authorize, MayAct, Patience, Stepped;
    MemberStep(owner, maxUsers, m, e, next);
    AuthorizeIff(m.perms, m.channels, m.clients, owner, maxUsers, e.act.client, KICK, e.act.targetClient);
    var after := Did(owner, m, e.act);
    if Roomy(m, x, 2) && x in after {
      StillThere(after, next.clients, m, 2, x);
    }
  }

  /** A ban that is stored removes every session of its target, exactly when the sender may ban and outranks them. */
  lemma {:induction false} BanOutcome(owner: Option<Fingerprint>, maxUsers: nat, m: Moment, e: Event, next: Moment,
                                      x: ClientId)
    requires ValidAt(owner, maxUsers, m) && Stepped(owner, maxUsers, m, e, next)
    requires e.Members? && e.act.BanMember?
    ensures var banned := && e.act.stored && Has(owner, m, e.act.client, BAN)
                          && RanksOver(m.perms, owner, Who(m, e.act.client), e.act.member);
            && (x in next.clients ==> x in m.clients && !(banned && Who(m, x) == e.act.member))
            && (Roomy(m, x, Frames(m, e)) ==> (x in next.clients <==> !(banned && Who(m, x) == e.act.member)))
            && (x in next.clients ==> next.clients[x].info == m.clients[x].info)
  {
    hide ValidState, RanksOver, Outranks, Patience, Stepped, Holds, Frames, MayGlobally;
    MemberStep(owner, maxUsers, m, e, next);
    MayGloballyIff(m.perms, m.channels, m.clients, owner, maxUsers, e.act.client, BAN);
    if e.act.client in m.clients {
      OutranksIff(m.perms, m.channels, m.clients, owner, maxUsers, e.act.client, e.act.member);
      NotOneself(m.perms, owner, Who(m, e.act.client), e.act.member);
    }
    var after := Did(owner, m, e.act);
    if Roomy(m, x, Frames(m, e)) && x in after {
      StillThere(after, next.clients, m, Frames(m, e), x);
    }
  }

  lemma {:induction false} NotOneself(ps: PermState, owner: Option<Fingerprint>, who: Fingerprint, target: Fingerprint)
    ensures RanksOver(ps, owner, who, target) ==> who != target
  {
    if RanksOver(ps, owner, who, target) {
      RankIsOneWay(ps, owner, who, target);
    }
  }

  /** A server mute sets its target's flag exactly when the sender may mute and outranks them, and nothing else. */
  lemma {:induction false} MuteOutcome(owner: Option<Fingerprint>, maxUsers: nat, m: Moment, e: Event, next: Moment,
                                       x: ClientId)
    requires ValidAt(owner, maxUsers, m) && Stepped(owner, maxUsers, m, e, next)
    requires e.Members? && e.act.MuteMember?
    ensures x in next.clients ==>
              && x in m.clients
              && var info := m.clients[x].info;
                 next.clients[x].info ==
                 if x == e.act.targetClient && Acts(owner, m, e.act.client, MUTE, x)
                 then info.(voice := info.voice.(serverMuted := e.act.muted)) else info
    ensures Roomy(m, x, 2) ==> x in next.clients
  {
    hide ValidState, Authorize, MayAct, Patience, Stepped;
    MemberStep(owner, maxUsers, m, e, next);
    AuthorizeIff(m.perms, m.channels, m.clients, owner, maxUsers, e.act.client, MUTE, e.act.targetClient);
    var after := Did(owner, m, e.act);
    if Roomy(m, x, 2) {
      StillThere(after, next.clients, m, 2, x);
    }
  }

  lemma {:induction false} FullIff(channels: ChannelMap, clients: Clients, room: ChannelId, x: ClientId)
    requires room in channels
    ensures Full(channels, clients, room, x) <==>
            && channels[room].maxUsers.Some?
            && |set o | o in clients && o != x
            && clients[o].info.channel == Some(room)| >= channels[room].maxUsers.value
  {
    assert Others(clients, room, x) == set o | o in clients && o != x && clients[o].info.channel == Some(room);
  }

  /**
  A move takes its target where the sender says exactly when the sender may move members, outranks this one and, unless
  it is out of every room, could enter the room there is space in. Nobody else moves.
  */
  lemma {:induction false} RelocateOutcome(owner: Option<Fingerprint>, maxUsers: nat, m: Moment, e: Event,
                                           next: Moment, x: ClientId)
    requires ValidAt(owner, maxUsers, m) && Stepped(owner, maxUsers, m, e, next)
    requires e.Members? && e.act.Relocate?
    ensures var moved := && Acts(owner, m, e.act.client, MOVE, e.act.targetClient)
                         && (e.act.to.Some? ==>
                               Enterable(owner, m, e.act.client, e.act.to.value, e.act.targetClient));
            x in next.clients ==>
              && x in m.clients
              && next.clients[x].info ==
                 if moved && x == e.act.targetClient then m.clients[x].info.(channel := e.act.to) else m.clients[x].info
    ensures Roomy(m, x, 2) ==> x in next.clients
  {
    hide ValidState, Authorize, MayAct, Patience, Stepped, MayIn, HoldsIn, Full;
    MemberStep(owner, maxUsers, m, e, next);
    AuthorizeIff(m.perms, m.channels, m.clients, owner, maxUsers, e.act.client, MOVE, e.act.targetClient);
    if e.act.to.Some? {
      MayInIff(m.perms, m.channels, m.clients, owner, maxUsers, e.act.client, e.act.to.value, SEES);
      MayInIff(m.perms, m.channels, m.clients, owner, maxUsers, e.act.client, e.act.to.value, ENTERS);
      if e.act.to.value in m.channels {
        FullIff(m.channels, m.clients, e.act.to.value, e.act.targetClient);
      }
    }
    var after := Did(owner, m, e.act);
    if Roomy(m, x, 2) {
      StillThere(after, next.clients, m, 2, x);
    }
  }

  /** A member enters a room exactly when it has voice, they may see and enter it, and there is space. */
  lemma {:induction false} JoinOutcome(owner: Option<Fingerprint>, maxUsers: nat, m: Moment, e: Event, next: Moment,
                                       x: ClientId)
    requires ValidAt(owner, maxUsers, m) && Stepped(owner, maxUsers, m, e, next)
    requires e.Members? && e.act.Join?
    ensures x in next.clients ==>
              && x in m.clients
              && next.clients[x].info ==
                 if x == e.act.client && Enterable(owner, m, x, e.act.room, x)
                 then m.clients[x].info.(channel := Some(e.act.room)) else m.clients[x].info
    ensures Roomy(m, x, 2) ==> x in next.clients
  {
    hide ValidState, Patience, Stepped, MayIn, HoldsIn, Full;
    MemberStep(owner, maxUsers, m, e, next);
    MayInIff(m.perms, m.channels, m.clients, owner, maxUsers, e.act.client, e.act.room, SEES);
    MayInIff(m.perms, m.channels, m.clients, owner, maxUsers, e.act.client, e.act.room, ENTERS);
    if e.act.room in m.channels {
      FullIff(m.channels, m.clients, e.act.room, e.act.client);
    }
    var after := Did(owner, m, e.act);
    if Roomy(m, x, 2) {
      StillThere(after, next.clients, m, 2, x);
    }
  }

  /** What a member's act about themselves makes of their record. */
  function AsAsked(info: UserInfo, act: MemberEvent): UserInfo {
    match act
    case Exit(_) => info.(channel := None)
    case Voice(_, mute, deaf) => info.(voice := info.voice.(selfMuted := mute || deaf, selfDeafened := deaf))
    case Rename(_, nickname) => if nickname.Some? then info.(nickname := nickname.value) else info
    case _ => info
  }

  predicate OwnAct(act: MemberEvent) {
    act.Exit? || act.Voice? || act.Rename? || act.Reply? || act.Receive? || act.Leave?
  }

  lemma {:induction false} OwnDoes(owner: Option<Fingerprint>, m: Moment, act: MemberEvent, x: ClientId)
    requires OwnAct(act)
    ensures var after := Did(owner, m, act);
            && after.Keys == m.clients.Keys - (if act.Leave? then {act.client} else {})
            && (x in after ==>
                  after[x].info == if x == act.client then AsAsked(m.clients[x].info, act) else m.clients[x].info)
            && (x in after && !(act.Receive? && x == act.client) ==> after[x].queue == m.clients[x].queue)
  {
    hide Fold;
  }

  /** What members do about themselves changes their own record only, as they asked, and needs no permission. */
  lemma {:induction false} OwnOutcome(owner: Option<Fingerprint>, maxUsers: nat, m: Moment, e: Event, next: Moment,
                                      x: ClientId)
    requires Stepped(owner, maxUsers, m, e, next) && e.Members? && OwnAct(e.act)
    ensures x in next.clients ==>
              && x in m.clients && !(e.act.Leave? && x == e.act.client)
              && next.clients[x].info ==
                 if x == e.act.client then AsAsked(m.clients[x].info, e.act) else m.clients[x].info
    ensures Roomy(m, x, 2) && !(e.act.Leave? && x == e.act.client) && !(e.act.Receive? && x == e.act.client) ==>
              x in next.clients
  {
    hide ValidState, Patience, Stepped, Did, AsAsked;
    MemberStep(owner, maxUsers, m, e, next);
    OwnDoes(owner, m, e.act, x);
    var after := Did(owner, m, e.act);
    if Roomy(m, x, 2) && x in after && after[x].queue == m.clients[x].queue {
      PatienceMore(after, next.clients, {}, Frames(m, e), {}, 2);
      StillThere(after, next.clients, m, 2, x);
    }
  }

  /** Delivering hands a client the oldest frame queued for it, and nobody else anything. */
  lemma {:induction false} ReceiveOutcome(owner: Option<Fingerprint>, maxUsers: nat, m: Moment, e: Event, next: Moment,
                                          x: ClientId)
    requires Stepped(owner, maxUsers, m, e, next) && e.Members? && x in next.clients
    ensures x in m.clients
    ensures if e.act.Receive? && x == e.act.client && m.clients[x].queue != []
            then
              && next.clients[x].view == Apply(m.clients[x].view, m.clients[x].queue[0])
              && m.clients[x].queue[1..] <= next.clients[x].queue
            else next.clients[x].view == m.clients[x].view && m.clients[x].queue <= next.clients[x].queue
  {
    hide ValidState, Patience, Stepped, Apply, Authorize, CheckMove, CheckJoin, MayBan;
    MemberStep(owner, maxUsers, m, e, next);
  }

  /** A newcomer is let in exactly when the identity is strong enough, the name usable and there is a seat. */
  lemma {:induction false} ArriveOutcome(owner: Option<Fingerprint>, maxUsers: nat, m: Moment, e: Event, next: Moment,
                                         x: ClientId)
    requires Stepped(owner, maxUsers, m, e, next) && e.Arrive?
    ensures var admitted := e.levelOk && e.nickname.Some? && |m.clients| < maxUsers;
            && next.perms == m.perms && next.channels == m.channels
            && (x in next.clients ==> x in m.clients || (admitted && x == m.nextClientId))
            && (x in next.clients && admitted && x == m.nextClientId ==>
                  next.clients[x].info ==
                  UserInfo(x, e.fingerprint, e.nickname.value, None, VoiceState(false, false, false, false),
                           Grants(m.perms, e.fingerprint), owner == Some(e.fingerprint)))
            && (x in next.clients && !(admitted && x == m.nextClientId) ==> next.clients[x].info == m.clients[x].info)
            && (admitted && |m.clients| + 2 <= 64 ==> m.nextClientId in next.clients)
            && next.nextClientId ==
               if !admitted then m.nextClientId
               else if m.nextClientId >= 0xFFFF_FFFF then 1 else m.nextClientId + 1
  {
    hide ValidState, Patience, Welcome, Synced, Frames;
    assert Commanded(owner, m, e) == [];
    if e.levelOk && e.nickname.Some? && |m.clients| < maxUsers && |m.clients| + 2 <= 64 {
      NewcomerStays(owner, maxUsers, m, e, next);
    }
  }

  lemma {:induction false} NewcomerStays(owner: Option<Fingerprint>, maxUsers: nat, m: Moment, e: Event, next: Moment)
    requires Stepped(owner, maxUsers, m, e, next) && e.Arrive?
    requires e.levelOk && e.nickname.Some? && |m.clients| < maxUsers && |m.clients| + 2 <= 64
    ensures m.nextClientId in next.clients
  {
    hide ValidState, Patience, Welcome, Synced, Survivors, Rearranged, Commanded;
    var after := Acted(owner, maxUsers, m, e);
    assert after.Keys == m.clients.Keys + {m.nextClientId};
    assert |after| == |after.Keys| && |m.clients| == |m.clients.Keys|;
    Fewer(after.Keys, m.clients.Keys + {m.nextClientId});
    RoomIsEnough(after, next.clients, {}, 1, m.nextClientId);
  }

  // ---- Channels ------------------------------------------------------------------------------------------

  lemma {:induction false} ChannelStep(owner: Option<Fingerprint>, maxUsers: nat, m: Moment, e: Event, next: Moment)
    requires Stepped(owner, maxUsers, m, e, next) && e.Channels?
    ensures ChannelsMoved(owner, m, e.command, next.channels) && next.perms == m.perms
    ensures Survivors(if Removes(m, e.command) then EvictedSessions(m.clients, e.command.id) else m.clients,
                      next.clients)
  {
    hide ValidState, Survivors, Patience, Frames, Synced, ChannelsMoved, CheckKnown;
    assert Commanded(owner, m, e) == [];
  }

  /** Short of a deletion, no channel command changes what is recorded about anybody. */
  lemma {:induction false} ChannelsKeepRecords(owner: Option<Fingerprint>, maxUsers: nat, m: Moment, e: Event,
                                               next: Moment, x: ClientId)
    requires Stepped(owner, maxUsers, m, e, next) && e.Channels? && !e.command.DropChannel? && x in next.clients
    ensures x in m.clients && next.clients[x].info == m.clients[x].info
  {
    hide ValidState, Stepped, ChannelsMoved, CheckKnown;
    ChannelStep(owner, maxUsers, m, e, next);
  }

  /** The bits an overwrite may speak of. */
  function ScopedIn(bits: Permissions): Permissions { set b | b in bits && Scoped(b) }

  lemma ScopedIs(bits: Permissions)
    ensures bits * CHANNEL_SCOPED == ScopedIn(bits)
  {
  }

  /**
  Setting an overwrite takes managing roles, seeing the channel, no bit both allowed and denied, a role that exists, and
  every bit it speaks of, held in that channel.
  */
  ghost predicate MaySet(owner: Option<Fingerprint>, m: Moment, c: ClientId, channel: ChannelId,
                         target: OverwriteTarget, allow: Permissions, deny: Permissions) {
    && Has(owner, m, c, ROLES) && HasIn(owner, m, c, channel, SEES)
    && (forall b :: b in allow && b in deny ==> !Scoped(b))
    && (target.ForRole? ==> exists r :: r in m.perms.roles && r.id == target.role)
    && (forall b :: (b in allow || b in deny) && Scoped(b) ==> HasIn(owner, m, c, channel, b))
  }

  lemma {:induction false} ScopedWithin(owner: Option<Fingerprint>, maxUsers: nat, m: Moment, c: ClientId,
                                        channel: ChannelId, bits: Permissions)
    requires ValidAt(owner, maxUsers, m) && c in m.clients && channel in m.channels
    ensures bits * CHANNEL_SCOPED <= Resolve(m.perms.roles, Grants(m.perms, Who(m, c)), Who(m, c),
                                             owner == Some(Who(m, c)), Some(m.channels[channel].overwrites)) <==>
            forall b :: b in bits && Scoped(b) ==> HasIn(owner, m, c, channel, b)
  {
    hide ValidState, HoldsIn, Resolve;
    RecordedAs(m.perms, m.channels, m.clients, owner, maxUsers, c);
    var mine := Resolve(m.perms.roles, Grants(m.perms, Who(m, c)), Who(m, c), owner == Some(Who(m, c)),
                        Some(m.channels[channel].overwrites));
    forall b: Bit | Scoped(b) ensures b in mine <==> HasIn(owner, m, c, channel, b) {
      ResolvesInTo(m.perms, owner, Who(m, c), m.channels[channel].overwrites, b);
    }
    assert forall b: Bit :: b in CHANNEL_SCOPED <==> Scoped(b);
  }

  /** The owner's and an administrator's pass is that they hold everything. */
  lemma {:induction false} EveryBit(owner: Option<Fingerprint>, maxUsers: nat, m: Moment, c: ClientId,
                                    channel: ChannelId, b: Bit)
    requires ValidAt(owner, maxUsers, m) && c in m.clients && channel in m.channels
    requires var actor := ActorOf(m.perms, Who(m, c), owner); actor.owner || ADMINISTRATOR <= actor.base
    ensures HasIn(owner, m, c, channel, b)
  {
    hide ValidState, Resolve, Precedence, InBase;
    RecordedAs(m.perms, m.channels, m.clients, owner, maxUsers, c);
    ResolvesTo(m.perms, owner, Who(m, c), ADMIN);
  }

  lemma {:induction false} SetAcceptedIff(owner: Option<Fingerprint>, maxUsers: nat, m: Moment, c: ClientId,
                                          channel: ChannelId, target: OverwriteTarget, allow: Permissions,
                                          deny: Permissions)
    requires ValidAt(owner, maxUsers, m)
    ensures CheckOverwrite(m.perms, m.channels, m.clients, owner, c, channel, target, allow, deny).Accepted? <==>
            MaySet(owner, m, c, channel, target, allow, deny)
  {
    hide ValidState, Has, HasIn, MayGlobally, MayIn, Resolve;
    MayGloballyIff(m.perms, m.channels, m.clients, owner, maxUsers, c, ROLES);
    MayInIff(m.perms, m.channels, m.clients, owner, maxUsers, c, channel, SEES);
    HasIs(owner, m, c, ROLES);
    HasInIs(owner, m, c, channel, SEES);
    ScopedApart(allow, deny);
    if c in m.clients && channel in m.channels {
      ScopedWithin(owner, maxUsers, m, c, channel, allow);
      ScopedWithin(owner, maxUsers, m, c, channel, deny);
      var actor := ActorOf(m.perms, Who(m, c), owner);
      forall b: Bit | actor.owner || ADMINISTRATOR <= actor.base ensures HasIn(owner, m, c, channel, b) {
        EveryBit(owner, maxUsers, m, c, channel, b);
      }
    }
  }

  lemma HasIs(owner: Option<Fingerprint>, m: Moment, c: ClientId, b: Bit)
    ensures Has(owner, m, c, b) <==> c in m.clients && Holds(m.perms, owner, m.clients[c].info.fingerprint, b)
  {
    hide Holds;
  }

  lemma HasInIs(owner: Option<Fingerprint>, m: Moment, c: ClientId, id: ChannelId, b: Bit)
    ensures HasIn(owner, m, c, id, b) <==>
            && c in m.clients && id in m.channels
            && HoldsIn(m.perms, owner, m.clients[c].info.fingerprint, m.channels[id].overwrites, b)
  {
    hide HoldsIn;
  }

  lemma ScopedApart(allow: Permissions, deny: Permissions)
    ensures (allow * CHANNEL_SCOPED) * (deny * CHANNEL_SCOPED) == {} <==>
            forall b :: b in allow && b in deny ==> !Scoped(b)
  {
    assert forall b: Bit :: b in CHANNEL_SCOPED <==> Scoped(b);
    if (allow * CHANNEL_SCOPED) * (deny * CHANNEL_SCOPED) == {} {
      forall b | b in allow && b in deny ensures !Scoped(b) {
        assert b !in (allow * CHANNEL_SCOPED) * (deny * CHANNEL_SCOPED);
      }
    }
  }

  /** Only this channel's overwrite for this target may differ; everything else about the channels is as it was. */
  ghost predicate OnlyOverwrite(m: Moment, next: Moment, channel: ChannelId, target: OverwriteTarget,
                                now: Option<Overwrite>) {
    && next.perms == m.perms && channel in m.channels && next.channels.Keys == m.channels.Keys
    && (forall id :: id in m.channels ==>
          next.channels[id].(overwrites := []) == m.channels[id].(overwrites := []))
    && forall id, t :: id in m.channels ==>
         OverwriteFor(next.channels[id].overwrites, t) ==
         if id == channel && t == target then now else OverwriteFor(m.channels[id].overwrites, t)
  }

  lemma {:induction false} OneOverwrite(m: Moment, next: Moment, channel: ChannelId, target: OverwriteTarget,
                                        now: Option<Overwrite>, overwrites: seq<Overwrite>)
    requires channel in m.channels && next.perms == m.perms
    requires next.channels == m.channels[channel := m.channels[channel].(overwrites := overwrites)]
    requires forall t :: OverwriteFor(overwrites, t) ==
                         if t == target then now else OverwriteFor(m.channels[channel].overwrites, t)
    ensures OnlyOverwrite(m, next, channel, target, now)
  {
    hide OverwriteFor;
  }

  lemma {:induction false} SetOne(m: Moment, next: Moment, channel: ChannelId, o: Overwrite)
    requires ChannelsOk(m.channels) && channel in m.channels && next.perms == m.perms
    requires next.channels == m.channels[channel := WithOverwriteOn(m.channels[channel], o)]
    ensures OnlyOverwrite(m, next, channel, o.target, Some(o))
  {
    hide OverwriteFor, WithOverwrite, OnlyOverwrite;
    var was := m.channels[channel].overwrites;
    forall t ensures OverwriteFor(WithOverwrite(was, o), t) == if t == o.target then Some(o) else OverwriteFor(was, t) {
      WithOverwriteLookup(was, o, t);
    }
    OneOverwrite(m, next, channel, o.target, Some(o), WithOverwrite(was, o));
  }

  lemma {:induction false} ClearOne(m: Moment, next: Moment, channel: ChannelId, target: OverwriteTarget)
    requires ChannelsOk(m.channels) && channel in m.channels && next.perms == m.perms
    requires next.channels == m.channels[channel := WithoutTarget(m.channels[channel], target)]
    ensures OnlyOverwrite(m, next, channel, target, None)
  {
    hide OverwriteFor, DropTarget, OnlyOverwrite;
    var was := m.channels[channel].overwrites;
    forall t ensures OverwriteFor(DropTarget(was, target), t) ==
                     if t == target then None else OverwriteFor(was, t)
    {
      DropTargetLookup(was, target, t);
    }
    OneOverwrite(m, next, channel, target, None, DropTarget(was, target));
  }

  /** An overwrite is set as asked, scoped bits only, exactly when it may be and is stored; else nothing changes. */
  lemma {:induction false} SetOutcome(owner: Option<Fingerprint>, maxUsers: nat, m: Moment, e: Event, next: Moment)
    requires ValidAt(owner, maxUsers, m) && Stepped(owner, maxUsers, m, e, next)
    requires e.Channels? && e.command.SetOverwrite?
    ensures var c := e.command;
            if c.stored && MaySet(owner, m, c.client, c.channel, c.target, c.allow, c.deny)
            then OnlyOverwrite(m, next, c.channel, c.target,
                               Some(Overwrite(c.target, ScopedIn(c.allow), ScopedIn(c.deny))))
            else next.channels == m.channels && next.perms == m.perms
  {
    hide ValidState, MaySet, Stepped, OnlyOverwrite, WithOverwriteOn, ScopedIn, ChannelsOk, Resolve, MayIn;
    var c := e.command;
    ChannelStep(owner, maxUsers, m, e, next);
    SetAcceptedIff(owner, maxUsers, m, c.client, c.channel, c.target, c.allow, c.deny);
    ScopedIs(c.allow);
    ScopedIs(c.deny);
    OkChannels(owner, maxUsers, m);
    if c.stored && MaySet(owner, m, c.client, c.channel, c.target, c.allow, c.deny) {
      SetOne(m, next, c.channel, Overwrite(c.target, ScopedIn(c.allow), ScopedIn(c.deny)));
    }
  }

  lemma OkChannels(owner: Option<Fingerprint>, maxUsers: nat, m: Moment)
    requires ValidAt(owner, maxUsers, m)
    ensures ChannelsOk(m.channels) && PermsOk(m.perms)
  {
    hide PermsOk, ChannelsOk;
  }

  /** So a bit a plain member is denied by name is one they cannot use there, and one they are allowed they can. */
  lemma {:induction false} SetDecides(owner: Option<Fingerprint>, maxUsers: nat, m: Moment, e: Event, next: Moment,
                                      who: Fingerprint, b: Bit)
    requires ValidAt(owner, maxUsers, m) && Stepped(owner, maxUsers, m, e, next)
    requires e.Channels? && e.command.SetOverwrite? && e.command.target == ForMember(who) && Scoped(b)
    requires var c := e.command; c.stored && MaySet(owner, m, c.client, c.channel, c.target, c.allow, c.deny)
    requires owner != Some(who) && !InBase(m.perms.roles, Grants(m.perms, who), ADMIN)
    ensures e.command.channel in next.channels
    ensures var bits := Resolve(next.perms.roles, Grants(next.perms, who), who, false,
                                Some(next.channels[e.command.channel].overwrites));
            && (b in e.command.deny ==> b !in bits)
            && (HoldsIn(next.perms, owner, who, next.channels[e.command.channel].overwrites, SEES) ==>
                  b in e.command.allow ==> b in bits)
  {
    hide ValidState, Stepped, Resolve, OverwriteFor, HoldsIn, Has, HasIn, InBase;
    SetOutcome(owner, maxUsers, m, e, next);
    ValidAfter(owner, maxUsers, m, e, next);
    OkChannels(owner, maxUsers, next);
    OkChannels(owner, maxUsers, m);
    var c := e.command;
    NamedDecides(next.perms, owner, who, next.channels[c.channel].overwrites,
                 Overwrite(c.target, ScopedIn(c.allow), ScopedIn(c.deny)), b);
  }

  /** An overwrite goes exactly when its remover manages roles and sees the channel; what it said is not asked. */
  lemma {:induction false} ClearOutcome(owner: Option<Fingerprint>, maxUsers: nat, m: Moment, e: Event, next: Moment)
    requires ValidAt(owner, maxUsers, m) && Stepped(owner, maxUsers, m, e, next)
    requires e.Channels? && e.command.ClearOverwrite?
    ensures var c := e.command;
            if c.stored && Has(owner, m, c.client, ROLES) && HasIn(owner, m, c.client, c.channel, SEES)
            then OnlyOverwrite(m, next, c.channel, c.target, None)
            else next.channels == m.channels && next.perms == m.perms
  {
    hide ValidState, Has, HasIn, Stepped, MayGlobally, MayIn, OnlyOverwrite, WithoutTarget, ChannelsOk;
    var c := e.command;
    ChannelStep(owner, maxUsers, m, e, next);
    MayGloballyIff(m.perms, m.channels, m.clients, owner, maxUsers, c.client, ROLES);
    MayInIff(m.perms, m.channels, m.clients, owner, maxUsers, c.client, c.channel, SEES);
    HasIs(owner, m, c.client, ROLES);
    HasInIs(owner, m, c.client, c.channel, SEES);
    OkChannels(owner, maxUsers, m);
    if c.stored && Has(owner, m, c.client, ROLES) && HasIn(owner, m, c.client, c.channel, SEES) {
      ClearOne(m, next, c.channel, c.target);
    }
  }

  /** Some character of the name is not white space. */
  predicate Named(name: string) { exists i :: 0 <= i < |name| && !IsSpace(name[i]) }

  ghost predicate CutAt(name: string, trimmed: string, i: nat, j: nat) {
    && i <= j <= |name| && name[i..j] == trimmed
    && (forall k :: 0 <= k < i || j <= k < |name| ==> IsSpace(name[k]))
    && (trimmed != "" ==> !IsSpace(trimmed[0]) && !IsSpace(trimmed[|trimmed| - 1]))
  }

  /** What trimming leaves: the part between the first and the last character that is not white space. */
  ghost predicate IsTrimmed(name: string, trimmed: string) { exists i: nat, j: nat :: CutAt(name, trimmed, i, j) }

  lemma {:induction false} TrimIs(name: string)
    ensures IsTrimmed(name, Trim(name)) && (Trim(name) != "" <==> Named(name))
    decreases |name|
  {
    hide CutAt, IsSpace;
    if name == "" {
      WholeCut(name);
    } else if IsSpace(name[0]) {
      TrimIs(name[1..]);
      TrimmedFront(name, Trim(name[1..]));
      if Named(name) {
        var i :| 0 <= i < |name| && !IsSpace(name[i]);
        assert name[1..][i - 1] == name[i];
      }
      if Named(name[1..]) {
        var i :| 0 <= i < |name[1..]| && !IsSpace(name[1..][i]);
        assert name[i + 1] == name[1..][i];
      }
    } else if IsSpace(name[|name| - 1]) {
      TrimIs(name[..|name| - 1]);
      TrimmedBack(name, Trim(name[..|name| - 1]));
      assert name[..|name| - 1][0] == name[0];
    } else {
      WholeCut(name);
    }
  }

  lemma WholeCut(name: string)
    requires name != "" ==> !IsSpace(name[0]) && !IsSpace(name[|name| - 1])
    ensures CutAt(name, name, 0, |name|)
  {
    assert name[0..|name|] == name;
  }

  lemma {:induction false} TrimmedFront(name: string, trimmed: string)
    requires name != "" && IsSpace(name[0]) && IsTrimmed(name[1..], trimmed)
    ensures IsTrimmed(name, trimmed)
  {
    hide IsSpace, CutAt;
    var i: nat, j: nat :| CutAt(name[1..], trimmed, i, j);
    FrontCut(name, trimmed, i, j);
  }

  lemma {:induction false} FrontCut(name: string, trimmed: string, i: nat, j: nat)
    requires name != "" && IsSpace(name[0]) && CutAt(name[1..], trimmed, i, j)
    ensures CutAt(name, trimmed, i + 1, j + 1)
  {
    hide IsSpace;
    var rest := name[1..];
    assert name[i + 1..j + 1] == rest[i..j];
    forall k | 0 <= k < i + 1 || j + 1 <= k < |name| ensures IsSpace(name[k]) {
      if k > 0 {
        assert rest[k - 1] == name[k];
      }
    }
  }

  lemma {:induction false} TrimmedBack(name: string, trimmed: string)
    requires name != "" && IsSpace(name[|name| - 1]) && IsTrimmed(name[..|name| - 1], trimmed)
    ensures IsTrimmed(name, trimmed)
  {
    hide IsSpace, CutAt;
    var i: nat, j: nat :| CutAt(name[..|name| - 1], trimmed, i, j);
    BackCut(name, trimmed, i, j);
  }

  lemma {:induction false} BackCut(name: string, trimmed: string, i: nat, j: nat)
    requires name != "" && IsSpace(name[|name| - 1]) && CutAt(name[..|name| - 1], trimmed, i, j)
    ensures CutAt(name, trimmed, i, j)
  {
    hide IsSpace;
    var rest := name[..|name| - 1];
    assert name[i..j] == rest[i..j];
    forall k | 0 <= k < i || j <= k < |name| ensures IsSpace(name[k]) {
      if k < |rest| {
        assert rest[k] == name[k];
      }
    }
  }

  /** What a channel is given by a draft: its fields, the name trimmed. */
  ghost predicate DrawnFrom(channel: Channel, draft: Channel) {
    && IsTrimmed(draft.name, channel.name) && channel.parent == draft.parent && channel.topic == draft.topic
    && channel.kind == draft.kind && channel.maxUsers == draft.maxUsers && channel.order == draft.order
  }

  ghost predicate MayDraft(owner: Option<Fingerprint>, m: Moment, c: ClientId, draft: Channel) {
    && Has(owner, m, c, CHANNELS) && Named(draft.name) && (draft.parent.Some? ==> draft.parent.value in m.channels)
  }

  /**
  Creating a channel adds one, under the next id, with the draft's fields and no overwrites, exactly when its maker
  manages channels, it has a name and its parent exists, and it is stored.
  */
  lemma {:induction false} NewChannelOutcome(owner: Option<Fingerprint>, maxUsers: nat, m: Moment, e: Event,
                                             next: Moment)
    requires ValidAt(owner, maxUsers, m) && Stepped(owner, maxUsers, m, e, next)
    requires e.Channels? && e.command.NewChannel?
    ensures next.perms == m.perms
    ensures next.channels == m.channels ||
            (e.command.stored && MayDraft(owner, m, e.command.client, e.command.draft) &&
             exists id ::
               && IsNextChannelId(m.channels, id) && next.channels.Keys == m.channels.Keys + {id}
               && (forall x :: x in m.channels ==> next.channels[x] == m.channels[x])
               && next.channels[id].id == id && next.channels[id].overwrites == []
               && DrawnFrom(next.channels[id], e.command.draft))
    ensures e.command.stored && MayDraft(owner, m, e.command.client, e.command.draft) &&
            Synced(m.tables, m.perms, m.channels) ==>
              next.channels != m.channels
  {
    hide ValidState, Has, Stepped, MayGlobally, MayIn, Resolve, Synced, IsTrimmed, Named, Trim;
    var c := e.command;
    ChannelStep(owner, maxUsers, m, e, next);
    MayGloballyIff(m.perms, m.channels, m.clients, owner, maxUsers, c.client, CHANNELS);
    HasIs(owner, m, c.client, CHANNELS);
    TrimIs(c.draft.name);
    if Created(m.channels, c.draft, next.channels) {
      var id :| IsNextChannelId(m.channels, id) && next.channels == m.channels[id := Drafted(c.draft, id)];
      assert id !in m.channels && next.channels[id] == Drafted(c.draft, id);
    }
  }

  /**
  Editing a channel gives it the draft's fields and leaves it its overwrites, exactly when the editor manages channels
  and sees it, the draft is sound, its parent leads neither back to the channel nor round in a circle, and it is stored.
  */
  lemma {:induction false} EditChannelOutcome(owner: Option<Fingerprint>, maxUsers: nat, m: Moment, e: Event,
                                              next: Moment)
    requires ValidAt(owner, maxUsers, m) && Stepped(owner, maxUsers, m, e, next)
    requires e.Channels? && e.command.EditChannel?
    ensures var c := e.command;
            var id := c.draft.id;
            if && c.stored && MayDraft(owner, m, c.client, c.draft) && HasIn(owner, m, c.client, id, SEES)
               && !Reaches(m.channels, c.draft.parent, id) && !NeverEnds(m.channels, c.draft.parent, id)
            then
              && id in m.channels && next.channels.Keys == m.channels.Keys
              && (forall x :: x in m.channels && x != id ==> next.channels[x] == m.channels[x])
              && next.channels[id].id == id && next.channels[id].overwrites == m.channels[id].overwrites
              && DrawnFrom(next.channels[id], c.draft)
            else next.channels == m.channels
    ensures next.perms == m.perms
  {
    hide ValidState, Has, HasIn, Stepped, MayGlobally, MayIn, Resolve, IsTrimmed, Named, Trim, Reaches, NeverEnds;
    var c := e.command;
    ChannelStep(owner, maxUsers, m, e, next);
    MayGloballyIff(m.perms, m.channels, m.clients, owner, maxUsers, c.client, CHANNELS);
    MayInIff(m.perms, m.channels, m.clients, owner, maxUsers, c.client, c.draft.id, SEES);
    HasIs(owner, m, c.client, CHANNELS);
    HasInIs(owner, m, c.client, c.draft.id, SEES);
    TrimIs(c.draft.name);
  }

  /**
  Deleting a channel removes it, and puts whoever was in it out, exactly when its remover manages channels and sees it,
  and it is stored. Nobody else moves.
  */
  lemma {:induction false} DropChannelOutcome(owner: Option<Fingerprint>, maxUsers: nat, m: Moment, e: Event,
                                              next: Moment,
                                       x: ClientId)
    requires ValidAt(owner, maxUsers, m) && Stepped(owner, maxUsers, m, e, next)
    requires e.Channels? && e.command.DropChannel?
    ensures var c := e.command;
            var dropped := c.stored && Has(owner, m, c.client, CHANNELS) && HasIn(owner, m, c.client, c.id, SEES);
            && next.channels == (if dropped then m.channels - {c.id} else m.channels) && next.perms == m.perms
            && (x in next.clients ==>
                  && x in m.clients
                  && next.clients[x].info ==
                     if dropped && m.clients[x].info.channel == Some(c.id)
                     then m.clients[x].info.(channel := None) else m.clients[x].info)
  {
    hide ValidState, Has, HasIn, Stepped, MayGlobally, MayIn, Resolve;
    var c := e.command;
    ChannelStep(owner, maxUsers, m, e, next);
    MayGloballyIff(m.perms, m.channels, m.clients, owner, maxUsers, c.client, CHANNELS);
    MayInIff(m.perms, m.channels, m.clients, owner, maxUsers, c.client, c.id, SEES);
    HasIs(owner, m, c.client, CHANNELS);
    HasInIs(owner, m, c.client, c.id, SEES);
  }

  // ---- What the sender is told ---------------------------------------------------------------------------

  /** When an act against another member is carried out, as the outcomes above have it. */
  ghost predicate Carried(owner: Option<Fingerprint>, m: Moment, act: MemberEvent) {
    match act
    case KickMember(c, _, target) => Acts(owner, m, c, KICK, target)
    case BanMember(c, _, member, stored) =>
      stored && Has(owner, m, c, BAN) && RanksOver(m.perms, owner, Who(m, c), member)
    case MuteMember(c, _, target, _) => Acts(owner, m, c, MUTE, target)
    case Relocate(c, _, target, to) =>
      Acts(owner, m, c, MOVE, target) && (to.Some? ==> Enterable(owner, m, c, to.value, target))
    case _ => false
  }

  lemma {:induction false} BanIff(owner: Option<Fingerprint>, maxUsers: nat, m: Moment, c: ClientId,
                                  member: Fingerprint)
    requires ValidAt(owner, maxUsers, m)
    ensures MayBan(m.perms, owner, m.clients, c, member) <==>
            Has(owner, m, c, BAN) && RanksOver(m.perms, owner, Who(m, c), member)
  {
    hide ValidState, RanksOver, Outranks, Holds, MayGlobally;
    MayGloballyIff(m.perms, m.channels, m.clients, owner, maxUsers, c, BAN);
    if c in m.clients {
      OutranksIff(m.perms, m.channels, m.clients, owner, maxUsers, c, member);
      NotOneself(m.perms, owner, Who(m, c), member);
    }
  }

  lemma {:induction false} MoveIff(owner: Option<Fingerprint>, maxUsers: nat, m: Moment, c: ClientId,
                                   target: ClientId, to: Option<ChannelId>)
    requires ValidAt(owner, maxUsers, m)
    ensures CheckMove(m.perms, m.channels, m.clients, owner, c, target, to).None? <==>
            Acts(owner, m, c, MOVE, target) && (to.Some? ==> Enterable(owner, m, c, to.value, target))
  {
    hide ValidState, Authorize, MayAct, MayIn, HoldsIn, Full;
    AuthorizeIff(m.perms, m.channels, m.clients, owner, maxUsers, c, MOVE, target);
    if to.Some? {
      MayInIff(m.perms, m.channels, m.clients, owner, maxUsers, c, to.value, SEES);
      MayInIff(m.perms, m.channels, m.clients, owner, maxUsers, c, to.value, ENTERS);
      if to.value in m.channels {
        FullIff(m.channels, m.clients, to.value, target);
      }
    }
  }

  /** Whoever acts on another member is told last that it is done exactly when it is, and else that it failed. */
  lemma {:induction false} ActAcknowledged(owner: Option<Fingerprint>, maxUsers: nat, m: Moment, e: Event, next: Moment)
    requires ValidAt(owner, maxUsers, m) && Answered(owner, maxUsers, m, e, next)
    requires e.Members? && (e.act.KickMember? || e.act.BanMember? || e.act.MuteMember? || e.act.Relocate?)
    requires e.act.client in next.clients
    ensures next.clients[e.act.client].queue != []
    ensures var queue := next.clients[e.act.client].queue;
            var last := queue[|queue| - 1];
            if Carried(owner, m, e.act) then last == Ack(e.act.nonce)
            else last.CommandFailed? && last.nonce == e.act.nonce
  {
    hide ValidState, Authorize, Acts, RanksOver, Has, Enterable, CheckMove, MayBan, AllHeard;
    match e.act
    case KickMember(c, _, target) =>
      AuthorizeIff(m.perms, m.channels, m.clients, owner, maxUsers, c, KICK, target);
      ActsIs(owner, m, c, KICK, target);
    case BanMember(c, _, member, _) =>
      BanIff(owner, maxUsers, m, c, member);
    case MuteMember(c, _, target, _) =>
      AuthorizeIff(m.perms, m.channels, m.clients, owner, maxUsers, c, MUTE, target);
      ActsIs(owner, m, c, MUTE, target);
    case Relocate(c, _, target, to) =>
      MoveIff(owner, maxUsers, m, c, target, to);
  }

  lemma ActsIs(owner: Option<Fingerprint>, m: Moment, c: ClientId, b: Bit, target: ClientId)
    ensures Acts(owner, m, c, b, target) <==> MayAct(m.perms, owner, m.clients, c, b, target)
  {
    hide MayAct;
  }

  /**
  Whoever moves into a room, is put into one or leaves one, everyone still connected is told next from where to where;
  and whoever asks to enter a room they may not is told so last.
  */
  lemma {:induction false} MovesAreTold(owner: Option<Fingerprint>, maxUsers: nat, m: Moment, e: Event, next: Moment,
                                        x: ClientId)
    requires ValidAt(owner, maxUsers, m) && Answered(owner, maxUsers, m, e, next) && e.Members?
    requires x in m.clients && x in next.clients
    ensures e.act.Join? ==>
              var c := e.act.client;
              if c in m.clients && Enterable(owner, m, c, e.act.room, c)
              then m.clients[x].queue + [UserMoved(c, m.clients[c].info.channel,
                                                   Some(e.act.room))] <= next.clients[x].queue
              else x == c ==> next.clients[x].queue != [] && next.clients[x].queue[|next.clients[x].queue| - 1].Error?
    ensures e.act.Relocate? && Carried(owner, m, e.act) ==>
              var target := e.act.targetClient;
              target in m.clients &&
              m.clients[x].queue + [UserMoved(target, m.clients[target].info.channel,
                                              e.act.to)] <= next.clients[x].queue
    ensures e.act.Exit? && e.act.client in m.clients ==>
              var c := e.act.client;
              m.clients[x].queue + [UserMoved(c, m.clients[c].info.channel, None)] <= next.clients[x].queue
  {
    hide ValidState, Authorize, Enterable, CheckMove, CheckJoin, MayBan;
    if e.act.Join? {
      JoinIff(owner, maxUsers, m, e.act.client, e.act.room);
    } else if e.act.Relocate? {
      MoveIff(owner, maxUsers, m, e.act.client, e.act.targetClient, e.act.to);
    }
  }

  lemma {:induction false} JoinIff(owner: Option<Fingerprint>, maxUsers: nat, m: Moment, c: ClientId, room: ChannelId)
    requires ValidAt(owner, maxUsers, m)
    ensures CheckJoin(m.perms, m.channels, m.clients, c, room).None? <==> Enterable(owner, m, c, room, c)
  {
    hide ValidState, MayIn, HoldsIn, Full;
    MayInIff(m.perms, m.channels, m.clients, owner, maxUsers, c, room, SEES);
    MayInIff(m.perms, m.channels, m.clients, owner, maxUsers, c, room, ENTERS);
    if room in m.channels {
      FullIff(m.channels, m.clients, room, c);
    }
  }

  /** When a channel command is carried out, as the outcomes above have it. */
  ghost predicate Fulfilled(owner: Option<Fingerprint>, m: Moment, next: Moment, c: ChannelEvent) {
    match c
    case SetOverwrite(client, _, channel, target, allow, deny, stored) =>
      stored && MaySet(owner, m, client, channel, target, allow, deny)
    case ClearOverwrite(client, _, channel, _, stored) =>
      stored && Has(owner, m, client, ROLES) && HasIn(owner, m, client, channel, SEES)
    case NewChannel(_, _, _, _) => next.channels != m.channels
    case EditChannel(client, _, draft, stored) =>
      && stored && MayDraft(owner, m, client, draft) && HasIn(owner, m, client, draft.id, SEES)
      && !Reaches(m.channels, draft.parent, draft.id)
    case DropChannel(client, _, id, stored) =>
      stored && Has(owner, m, client, CHANNELS) && HasIn(owner, m, client, id, SEES)
  }

  /**
  Who sends a channel command is told last that it is done exactly when the channels changed as it asked: when it was
  stored and nothing refused it.
  */
  lemma {:induction false} ChannelAcknowledged(owner: Option<Fingerprint>, maxUsers: nat, m: Moment, e: Event,
                                               next: Moment)
    requires ValidAt(owner, maxUsers, m) && Stepped(owner, maxUsers, m, e, next)
    requires Answered(owner, maxUsers, m, e, next) && e.Channels? && e.command.client in next.clients
    requires e.command.EditChannel? ==> !NeverEnds(m.channels, e.command.draft.parent, e.command.draft.id)
    ensures next.clients[e.command.client].queue != []
    ensures var c, queue := e.command, next.clients[e.command.client].queue;
            var last := queue[|queue| - 1];
            if Fulfilled(owner, m, next, c) then last == Ack(c.nonce) else last.CommandFailed? && last.nonce == c.nonce
  {
    hide ValidState, Stepped, Has, HasIn, MaySet, MayGlobally, MayIn, CheckOverwrite, Reaches, NeverEnds, Trim, Named;
    var c := e.command;
    MayGloballyIff(m.perms, m.channels, m.clients, owner, maxUsers, c.client, CHANNELS);
    MayGloballyIff(m.perms, m.channels, m.clients, owner, maxUsers, c.client, ROLES);
    HasIs(owner, m, c.client, CHANNELS);
    HasIs(owner, m, c.client, ROLES);
    match c
    case SetOverwrite(client, _, channel, target, allow, deny, _) =>
      SetAcceptedIff(owner, maxUsers, m, client, channel, target, allow, deny);
    case ClearOverwrite(client, _, channel, _, _) =>
      MayInIff(m.perms, m.channels, m.clients, owner, maxUsers, client, channel, SEES);
      HasInIs(owner, m, client, channel, SEES);
    case NewChannel(client, _, draft, _) =>
      NewChannelOutcome(owner, maxUsers, m, e, next);
      TrimIs(draft.name);
    case EditChannel(client, _, draft, _) =>
      MayInIff(m.perms, m.channels, m.clients, owner, maxUsers, client, draft.id, SEES);
      HasInIs(owner, m, client, draft.id, SEES);
      TrimIs(draft.name);
    case DropChannel(client, _, id, _) =>
      MayInIff(m.perms, m.channels, m.clients, owner, maxUsers, client, id, SEES);
      HasInIs(owner, m, client, id, SEES);
  }

  // ---- Who hears whom ------------------------------------------------------------------------------------

  /** Both are in one voice room, the one may speak there and nobody has muted it, and the other listens. */
  ghost predicate Hears(owner: Option<Fingerprint>, m: Moment, from: ClientId, c: ClientId) {
    && from in m.clients && c in m.clients && c != from
    && exists room ::
         && m.clients[from].info.channel == m.clients[c].info.channel == Some(room)
         && HasIn(owner, m, from, room, SPEAKS) && m.channels[room].kind != Text
         && !m.clients[from].info.voice.selfMuted && !m.clients[from].info.voice.serverMuted
         && !m.clients[c].info.voice.selfDeafened
  }

  lemma {:induction false} ListenersHear(owner: Option<Fingerprint>, maxUsers: nat, m: Moment, from: ClientId,
                                         c: ClientId)
    requires ValidAt(owner, maxUsers, m)
    ensures c in Listeners(m.perms, m.channels, m.clients, from) <==> Hears(owner, m, from, c)
  {
    hide ValidState, MayIn, HasIn;
    if from in m.clients && m.clients[from].info.channel.Some? {
      var room := m.clients[from].info.channel.value;
      MayInIff(m.perms, m.channels, m.clients, owner, maxUsers, from, room, SPEAKS);
      HasInIs(owner, m, from, room, SPEAKS);
      assert Hears(owner, m, from, c) ==> HasIn(owner, m, from, room, SPEAKS);
    }
  }

  /** So from a server mute that is carried out until one that lifts it nobody hears the target. */
  lemma {:induction false} MutedIsUnheard(owner: Option<Fingerprint>, maxUsers: nat, m: Moment, e: Event, next: Moment,
                                          c: ClientId)
    requires ValidAt(owner, maxUsers, m) && Stepped(owner, maxUsers, m, e, next)
    requires e.Members? && e.act.MuteMember? && e.act.muted && Carried(owner, m, e.act)
    ensures !Hears(owner, next, e.act.targetClient, c)
  {
    hide ValidState, Stepped, Acts, HasIn;
    if e.act.targetClient in next.clients {
      MuteOutcome(owner, maxUsers, m, e, next, e.act.targetClient);
    }
  }

  /** Nor, once they are denied speaking in a room by name, anybody a plain member in it. */
  lemma {:induction false} DeniedIsUnheard(owner: Option<Fingerprint>, maxUsers: nat, m: Moment, e: Event,
                                           next: Moment, from: ClientId, c: ClientId)
    requires ValidAt(owner, maxUsers, m) && Stepped(owner, maxUsers, m, e, next)
    requires e.Channels? && e.command.SetOverwrite? && from in next.clients
    requires var o := e.command;
             && o.target == ForMember(Who(next, from)) && SPEAKS in o.deny && o.stored
             && MaySet(owner, m, o.client, o.channel, o.target, o.allow, o.deny)
             && next.clients[from].info.channel == Some(o.channel)
    requires owner != Some(Who(next, from)) && !InBase(m.perms.roles, Grants(m.perms, Who(next, from)), ADMIN)
    ensures !Hears(owner, next, from, c)
  {
    hide ValidState, Stepped, MaySet, Resolve, HoldsIn, InBase;
    var who, o := Who(next, from), e.command;
    SetDecides(owner, maxUsers, m, e, next, who, SPEAKS);
    ValidAfter(owner, maxUsers, m, e, next);
    RecordedAs(next.perms, next.channels, next.clients, owner, maxUsers, from);
    ResolvesInTo(next.perms, owner, who, next.channels[o.channel].overwrites, SPEAKS);
  }
}
