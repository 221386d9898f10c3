/**
Who may do what, read off the role table, the grants and the overwrites bit by bit and position by position: what the
server's gates come to (crates/pickle-proto/src/perms.rs:213-340, crates/pickle-server/src/admin.rs, moderation.rs).
*/
module Authority {
  import opened Common
  import opened Perms
  import opened RoleTable
  import opened Channels
  import opened Mirror
  import opened Visibility
  import opened ServerState
  import opened Store
  import opened Plans

  /** Bits by number, as the protocol assigns them. */
  const ADMIN: Bit := 0
  const ROLES: Bit := 2
  const CHANNELS: Bit := 3
  const KICK: Bit := 4
  const BAN: Bit := 5
  const SEES: Bit := 16
  const SENDS: Bit := 17
  const READS: Bit := 18
  const ENTERS: Bit := 20
  const SPEAKS: Bit := 21
  const MUTE: Bit := 22
  const MOVE: Bit := 23

  predicate Known(b: Bit) { b <= 5 || 16 <= b <= 23 }

  predicate Scoped(b: Bit) { 16 <= b <= 23 }

  // ---- Bits ----------------------------------------------------------------------------------------------

  /** Everything for the owner and for administrators; else a held role or @everyone has the bit. */
  ghost predicate Holds(ps: PermState, owner: Option<Fingerprint>, who: Fingerprint, b: Bit) {
    owner == Some(who) || InBase(ps.roles, Grants(ps, who), ADMIN) || InBase(ps.roles, Grants(ps, who), b)
  }

  /** In a channel the precedence of its overwrites decides, and whoever may not see it has nothing there. */
  ghost predicate HoldsIn(ps: PermState, owner: Option<Fingerprint>, who: Fingerprint, overwrites: seq<Overwrite>,
                          b: Bit) {
    || owner == Some(who) || InBase(ps.roles, Grants(ps, who), ADMIN)
    || (Precedence(ps.roles, Grants(ps, who), who, overwrites, SEES)
        && Precedence(ps.roles, Grants(ps, who), who, overwrites, b))
  }

  lemma {:induction false} ResolvesTo(ps: PermState, owner: Option<Fingerprint>, who: Fingerprint, b: Bit)
    requires UniqueIds(ps.roles) && Known(b)
    ensures b in Resolve(ps.roles, Grants(ps, who), who, owner == Some(who), None) <==> Holds(ps, owner, who, b)
  {
    hide Resolve, InBase;
    ResolveElsewhere(ps.roles, Grants(ps, who), who, owner == Some(who), None);
    assert b in ALL;
  }

  lemma {:induction false} ResolvesInTo(ps: PermState, owner: Option<Fingerprint>, who: Fingerprint,
                                        overwrites: seq<Overwrite>, b: Bit)
    requires UniqueIds(ps.roles) && UniqueTargets(overwrites) && Known(b)
    ensures b in Resolve(ps.roles, Grants(ps, who), who, owner == Some(who), Some(overwrites)) <==>
            HoldsIn(ps, owner, who, overwrites, b)
  {
    hide Resolve, InBase, Precedence;
    ResolveElsewhere(ps.roles, Grants(ps, who), who, owner == Some(who), Some(overwrites));
    if owner != Some(who) && !InBase(ps.roles, Grants(ps, who), ADMIN) {
      ResolveIsPrecedence(ps.roles, Grants(ps, who), who, overwrites, b);
    }
    assert b in ALL;
  }

  lemma {:induction false} RecordedAs(ps: PermState, channels: ChannelMap, clients: Clients,
                                      owner: Option<Fingerprint>, maxUsers: nat, c: ClientId)
    requires ValidState(ps, channels, clients, owner, maxUsers) && c in clients
    ensures UniqueIds(ps.roles) && ChannelsOk(channels) && PermsOk(ps)
    ensures var info := clients[c].info;
            info.roles == Grants(ps, info.fingerprint) && info.owner == (owner == Some(info.fingerprint))
  {
    assert InfoOk(c, InfosOf(clients)[c], ps, owner, channels);
  }

  /** The gate for one bit outside channels. */
  lemma {:induction false} MayGloballyIff(ps: PermState, channels: ChannelMap, clients: Clients,
                                          owner: Option<Fingerprint>, maxUsers: nat, c: ClientId, b: Bit)
    requires ValidState(ps, channels, clients, owner, maxUsers) && Known(b)
    ensures MayGlobally(ps, clients, c, {b}) <==>
            c in clients && Holds(ps, owner, clients[c].info.fingerprint, b)
  {
    hide ValidState, Holds, Resolve;
    if c in clients {
      RecordedAs(ps, channels, clients, owner, maxUsers, c);
      ResolvesTo(ps, owner, clients[c].info.fingerprint, b);
    }
  }

  /** The gate for one bit in a channel. */
  lemma {:induction false} MayInIff(ps: PermState, channels: ChannelMap, clients: Clients, owner: Option<Fingerprint>,
                                    maxUsers: nat, c: ClientId, id: ChannelId, b: Bit)
    requires ValidState(ps, channels, clients, owner, maxUsers) && Known(b)
    ensures MayIn(ps, channels, clients, c, id, {b}) <==>
            && c in clients && id in channels
            && HoldsIn(ps, owner, clients[c].info.fingerprint, channels[id].overwrites, b)
  {
    hide ValidState, HoldsIn, Resolve, UniqueIds, UniqueTargets, PermsOk;
    if c in clients && id in channels {
      RecordedAs(ps, channels, clients, owner, maxUsers, c);
      ResolvesInTo(ps, owner, clients[c].info.fingerprint, channels[id].overwrites, b);
    }
  }

  /** What the desktop client shows a member of a channel it lists: exactly the bits they hold there. */
  lemma {:induction false} SummaryIff(ps: PermState, channels: ChannelMap, clients: Clients,
                                      owner: Option<Fingerprint>, maxUsers: nat, c: ClientId, id: ChannelId)
    requires ValidState(ps, channels, clients, owner, maxUsers) && c in clients && id in Seen(clients[c]).channels
    ensures id in channels && id in MyPermissionsOf(Seen(clients[c])).channels
    ensures var shown := MyPermissionsOf(Seen(clients[c])).channels[id];
            var who, overwrites := clients[c].info.fingerprint, channels[id].overwrites;
            && (shown.send <==> HoldsIn(ps, owner, who, overwrites, SENDS))
            && (shown.readHistory <==> HoldsIn(ps, owner, who, overwrites, READS))
            && (shown.connect <==> HoldsIn(ps, owner, who, overwrites, ENTERS))
            && (shown.speak <==> HoldsIn(ps, owner, who, overwrites, SPEAKS))
  {
    hide ValidState, HoldsIn, MayIn, MyPermissionsOf, Seen;
    PermissionsAgree(ps, channels, clients, owner, maxUsers, c);
    MirrorAgreement(ps, channels, clients, owner, maxUsers, c);
    MayInIff(ps, channels, clients, owner, maxUsers, c, id, SENDS);
    MayInIff(ps, channels, clients, owner, maxUsers, c, id, READS);
    MayInIff(ps, channels, clients, owner, maxUsers, c, id, ENTERS);
    MayInIff(ps, channels, clients, owner, maxUsers, c, id, SPEAKS);
  }

  /** A bit denied to a plain member by name is not among those they hold in the channel, and one allowed is. */
  lemma {:induction false} NamedDecides(ps: PermState, owner: Option<Fingerprint>, who: Fingerprint,
                                        overwrites: seq<Overwrite>, o: Overwrite, b: Bit)
    requires UniqueTargets(overwrites) && UniqueIds(ps.roles) && Scoped(b)
    requires OverwriteFor(overwrites, ForMember(who)) == Some(o)
    requires owner != Some(who) && !InBase(ps.roles, Grants(ps, who), ADMIN)
    ensures b in o.deny && b !in o.allow ==>
              b !in Resolve(ps.roles, Grants(ps, who), who, false, Some(overwrites))
    ensures b in o.allow && HoldsIn(ps, owner, who, overwrites, SEES) ==>
              b in Resolve(ps.roles, Grants(ps, who), who, false, Some(overwrites))
  {
    hide Resolve, InBase, AnyRoleAllows, AnyRoleDenies;
    TargetBits(overwrites, ForMember(who), b);
    ResolvesInTo(ps, owner, who, overwrites, b);
  }

  // ---- Rank ----------------------------------------------------------------------------------------------

  /** Some role the member holds sits above this position. */
  ghost predicate Over(ps: PermState, who: Fingerprint, position: nat) {
    exists r :: r in ps.roles && r.id in Grants(ps, who) && position < r.position
  }

  /** Nobody outranks the owner, whom nobody escapes; else a held role must sit above every role the target holds. */
  ghost predicate RanksOver(ps: PermState, owner: Option<Fingerprint>, who: Fingerprint, target: Fingerprint) {
    owner != Some(target) &&
    (owner == Some(who) ||
     exists r :: r in ps.roles && r.id in Grants(ps, who)
                 && forall t :: t in ps.roles && t.id in Grants(ps, target) ==> t.position < r.position)
  }

  /** Roles strictly below one that is held. */
  ghost predicate Manages(ps: PermState, owner: Option<Fingerprint>, who: Fingerprint, role: Role) {
    owner == Some(who) || Over(ps, who, role.position)
  }

  lemma {:induction false} HeldBelowTop(ps: PermState, who: Fingerprint, r: Role)
    requires UniqueIds(ps.roles) && r in ps.roles && r.id in Grants(ps, who)
    ensures r.position <= TopRolePosition(ps.roles, Grants(ps, who))
  {
    FindRoleIs(ps.roles, r);
  }

  lemma {:induction false} HeldAboveGround(ps: PermState, who: Fingerprint, r: Role)
    requires PermsOk(ps) && r in ps.roles && r.id in Grants(ps, who)
    ensures r.position > 0
  {
    var k :| 0 <= k < |Grants(ps, who)| && Grants(ps, who)[k] == r.id;
    assert Grantable(ps.roles, Grants(ps, who));
  }

  lemma {:induction false} OverIff(ps: PermState, who: Fingerprint, position: nat)
    requires PermsOk(ps)
    ensures Over(ps, who, position) <==> position < TopRolePosition(ps.roles, Grants(ps, who))
  {
    hide PermsOk;
    var ids := Grants(ps, who);
    Unique(ps);
    if Over(ps, who, position) {
      var r :| r in ps.roles && r.id in ids && position < r.position;
      HeldBelowTop(ps, who, r);
    }
    if position < TopRolePosition(ps.roles, ids) {
      TopIsHeld(ps.roles, ids);
      var id :| && id in ids && FindRole(ps.roles, id).Some?
                && FindRole(ps.roles, id).value.position == TopRolePosition(ps.roles, ids);
      assert FindRole(ps.roles, id).value in ps.roles;
    }
  }

  lemma Unique(ps: PermState)
    requires PermsOk(ps)
    ensures UniqueIds(ps.roles)
  {
  }

  /** Rank against a member is a matter of held positions. */
  lemma {:induction false} CanActOnIff(ps: PermState, owner: Option<Fingerprint>, who: Fingerprint,
                                       target: Fingerprint)
    requires PermsOk(ps)
    ensures CanActOn(ps.roles, Grants(ps, who), owner == Some(who), Grants(ps, target), owner == Some(target)) <==>
            RanksOver(ps, owner, who, target)
  {
    hide PermsOk;
    var mine, theirs := Grants(ps, who), Grants(ps, target);
    Unique(ps);
    if TopRolePosition(ps.roles, mine) > TopRolePosition(ps.roles, theirs) {
      TopIsHeld(ps.roles, mine);
      var id :| && id in mine && FindRole(ps.roles, id).Some?
                && FindRole(ps.roles, id).value.position == TopRolePosition(ps.roles, mine);
      var r := FindRole(ps.roles, id).value;
      forall t | t in ps.roles && t.id in theirs ensures t.position < r.position {
        HeldBelowTop(ps, target, t);
      }
      assert r in ps.roles && r.id in mine;
    }
    if r: Role :| r in ps.roles && r.id in mine
                  && forall t :: t in ps.roles && t.id in theirs ==> t.position < r.position {
      HeldBelowTop(ps, who, r);
      HeldAboveGround(ps, who, r);
      TopIsHeld(ps.roles, theirs);
    }
  }

  lemma {:induction false} OutranksIff(ps: PermState, channels: ChannelMap, clients: Clients,
                                       owner: Option<Fingerprint>, maxUsers: nat, c: ClientId, target: Fingerprint)
    requires ValidState(ps, channels, clients, owner, maxUsers) && c in clients
    ensures Outranks(ps, owner, clients, c, target) <==> RanksOver(ps, owner, clients[c].info.fingerprint, target)
  {
    hide ValidState, RanksOver, CanActOn, PermsOk;
    RecordedAs(ps, channels, clients, owner, maxUsers, c);
    CanActOnIff(ps, owner, clients[c].info.fingerprint, target);
  }

  /** Against a connected member: the bit, and rank over them. */
  ghost predicate MayAct(ps: PermState, owner: Option<Fingerprint>, clients: Clients, c: ClientId, b: Bit,
                         target: ClientId) {
    && c in clients && target in clients && Holds(ps, owner, clients[c].info.fingerprint, b)
    && RanksOver(ps, owner, clients[c].info.fingerprint, clients[target].info.fingerprint)
  }

  /** Moderation goes through exactly for whoever holds the bit and a role above every role of the target's. */
  lemma {:induction false} AuthorizeIff(ps: PermState, channels: ChannelMap, clients: Clients,
                                        owner: Option<Fingerprint>, maxUsers: nat, c: ClientId, b: Bit,
                                        target: ClientId)
    requires ValidState(ps, channels, clients, owner, maxUsers) && Known(b)
    ensures Authorize(ps, owner, clients, c, {b}, target).Accepted? <==> MayAct(ps, owner, clients, c, b, target)
  {
    hide ValidState, RanksOver, Outranks, MayGlobally, Holds;
    MayGloballyIff(ps, channels, clients, owner, maxUsers, c, b);
    if c in clients && target in clients {
      OutranksIff(ps, channels, clients, owner, maxUsers, c, clients[target].info.fingerprint);
    }
  }

  lemma {:induction false} CanManageIff(ps: PermState, owner: Option<Fingerprint>, who: Fingerprint, role: Role)
    requires PermsOk(ps) && role in ps.roles
    ensures CanManageRole(ps.roles, Grants(ps, who), owner == Some(who), role.id) <==> Manages(ps, owner, who, role)
  {
    hide PermsOk, Over;
    Unique(ps);
    FindRoleIs(ps.roles, role);
    OverIff(ps, who, role.position);
  }

  /** Of two members at most one may act on the other, and nobody on themselves. */
  lemma {:induction false} RankIsOneWay(ps: PermState, owner: Option<Fingerprint>, who: Fingerprint,
                                        target: Fingerprint)
    requires RanksOver(ps, owner, who, target)
    ensures !RanksOver(ps, owner, target, who) && who != target
  {
  }

  // ---- A fresh server --------------------------------------------------------------------------------------

  /**
  With the roles a server starts with, a stranger sees, sends, reads, enters and speaks; a moderator also kicks, bans,
  manages messages, mutes and moves, and outranks strangers; an administrator holds everything and outranks both.
  */
  lemma {:induction false} FreshServer(owner: Option<Fingerprint>, members: map<Fingerprint, seq<RoleId>>,
                                       who: Fingerprint, b: Bit)
    requires owner != Some(who)
    ensures var ps := PermState(DEFAULT_ROLES, members);
            && (Grants(ps, who) == [] ==> (Holds(ps, owner, who, b) <==> b in {16, 17, 18, 20, 21}))
            && (Grants(ps, who) == [1] ==>
                  (Holds(ps, owner, who, b) <==> b in {4, 5} || 16 <= b <= 23))
            && (Grants(ps, who) == [2] ==> Holds(ps, owner, who, b))
  {
    var ps := PermState(DEFAULT_ROLES, members);
    var everyone, moderator, admin := DEFAULT_ROLES[0], DEFAULT_ROLES[1], DEFAULT_ROLES[2];
    assert everyone in ps.roles && moderator in ps.roles && admin in ps.roles;
    forall r | r in ps.roles ensures r == everyone || r == moderator || r == admin {
      var i :| 0 <= i < |ps.roles| && ps.roles[i] == r;
    }
  }

  lemma {:induction false} FreshRanks(owner: Option<Fingerprint>, members: map<Fingerprint, seq<RoleId>>,
                                      who: Fingerprint, target: Fingerprint, i: nat, j: nat)
    requires owner != Some(who) && owner != Some(target) && i <= 2 && j <= 2
    requires var ps := PermState(DEFAULT_ROLES, members);
             && Grants(ps, who) == (if i == 0 then [] else [i]) && Grants(ps, target) == (if j == 0 then [] else [j])
    ensures RanksOver(PermState(DEFAULT_ROLES, members), owner, who, target) <==> i > j
  {
    var ps := PermState(DEFAULT_ROLES, members);
    var everyone, moderator, admin := DEFAULT_ROLES[0], DEFAULT_ROLES[1], DEFAULT_ROLES[2];
    assert everyone in ps.roles && moderator in ps.roles && admin in ps.roles;
    forall r | r in ps.roles ensures r == everyone || r == moderator || r == admin {
      var k :| 0 <= k < |ps.roles| && ps.roles[k] == r;
    }
  }
}
