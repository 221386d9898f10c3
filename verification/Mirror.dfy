/**
What travels to a client and what the desktop client makes of it
(`ServerControl` in crates/pickle-proto/src/lib.rs, `PermMirror` in apps/desktop/src-tauri/src/perms.rs).
*/
module Mirror {
  import opened Common
  import opened Perms
  import opened RoleTable
  import opened Channels

  type ClientId = nat

  datatype VoiceState = VoiceState(selfMuted: bool, selfDeafened: bool, serverMuted: bool, speaking: bool)

  datatype UserInfo = UserInfo(clientId: ClientId, fingerprint: Fingerprint, nickname: string,
                               channel: Option<ChannelId>,
                               voice: VoiceState, roles: seq<RoleId>, owner: bool)

  /**
  Control frames. `Other` stands for the ones the mirror has no case for: chat, typing, history, pong and the like.
  */
  datatype Frame =
    | UserJoined(user: UserInfo)
    | UserUpdated(user: UserInfo)
    | UserLeft(client: ClientId)
    | UserMoved(client: ClientId, from: Option<ChannelId>, to: Option<ChannelId>)
    | ChannelCreated(channel: Channel)
    | ChannelUpdated(channel: Channel)
    | ChannelRemoved(channelId: ChannelId)
    | RoleCreated(role: Role)
    | RoleUpdated(role: Role)
    | RoleDeleted(roleId: RoleId)
    | RolesReordered(positions: Positions)
    | Ack(nonce: nat)
    | CommandFailed(nonce: nat, code: ErrorCode)
    | Error(code: ErrorCode)
    | Other(tag: nat)

  /** As much of a user's info as rank and resolution depend on. */
  datatype Standing = Standing(fingerprint: Fingerprint, roles: seq<RoleId>, owner: bool)

  function StandingOf(user: UserInfo): Standing { Standing(user.fingerprint, user.roles, user.owner) }

  datatype View = View(fingerprint: Fingerprint, owner: bool, roles: seq<Role>, myRoles: seq<RoleId>,
                       channels: ChannelMap, users: map<ClientId, Standing>)

  // ---- Folding frames ---------------------------------------------------------------

  function SetPosition(roles: seq<Role>, id: RoleId, position: nat): (s: seq<Role>)
    ensures |s| == |roles|
  {
    if roles == [] then []
    else if roles[0].id == id then [roles[0].(position := position)] + roles[1..]
    else [roles[0]] + SetPosition(roles[1..], id, position)
  }

  function SetPositions(roles: seq<Role>, positions: Positions): (s: seq<Role>)
    ensures |s| == |roles|
    decreases |positions|
  {
    if positions == [] then roles
    else SetPositions(SetPosition(roles, positions[0].0, positions[0].1), positions[1..])
  }

  function UpsertRole(roles: seq<Role>, role: Role): seq<Role> {
    SortByPosition(RemoveRole(roles, role.id) + [role])
  }

  function UpsertUser(v: View, user: UserInfo): View {
    var seen := v.(users := v.users[user.clientId := StandingOf(user)]);
    if user.fingerprint == v.fingerprint then seen.(myRoles := user.roles, owner := user.owner) else seen
  }

  function Apply(v: View, f: Frame): View {
    match f
    case ChannelCreated(channel) => v.(channels := v.channels[channel.id := channel])
    case ChannelUpdated(channel) => v.(channels := v.channels[channel.id := channel])
    case ChannelRemoved(id) => v.(channels := v.channels - {id})
    case RoleCreated(role) => v.(roles := UpsertRole(v.roles, role))
    case RoleUpdated(role) => v.(roles := UpsertRole(v.roles, role))
    case RoleDeleted(id) => v.(roles := RemoveRole(v.roles, id), myRoles := RemoveGrant(v.myRoles, id))
    case RolesReordered(positions) => v.(roles := SortByPosition(SetPositions(v.roles, positions)))
    case UserJoined(user) => UpsertUser(v, user)
    case UserUpdated(user) => UpsertUser(v, user)
    case UserLeft(client) => v.(users := v.users - {client})
    case _ => v
  }

  function Fold(v: View, frames: seq<Frame>): View
    decreases |frames|
  {
    if frames == [] then v else Fold(Apply(v, frames[0]), frames[1..])
  }

  lemma {:induction false} FoldSnoc(v: View, frames: seq<Frame>, f: Frame)
    ensures Fold(v, frames + [f]) == Apply(Fold(v, frames), f)
    decreases |frames|
  {
    if frames == [] {
      assert frames + [f] == [f];
      assert Fold(Apply(v, f), []) == Apply(v, f);
    } else {
      assert (frames + [f])[1..] == frames[1..] + [f];
      FoldSnoc(Apply(v, frames[0]), frames[1..], f);
    }
  }

  // ---- Answers -------------------------------------------------------------------------

  function Bits(v: View, overwrites: Option<seq<Overwrite>>): Permissions {
    Resolve(v.roles, v.myRoles, v.fingerprint, v.owner, overwrites)
  }

  datatype ChannelPermissions = ChannelPermissions(send: bool, readHistory: bool, connect: bool, speak: bool)
  datatype MyPermissions = MyPermissions(isOwner: bool, isAdmin: bool, canOpenAdmin: bool,
                                         channels: map<ChannelId, ChannelPermissions>)

  function ChannelAnswer(bits: Permissions): ChannelPermissions {
    ChannelPermissions(SEND_MESSAGES <= bits, READ_HISTORY <= bits, CONNECT <= bits, SPEAK <= bits)
  }

  function MyPermissionsOf(v: View): MyPermissions {
    var base := Bits(v, None);
    var standing := {1} <= base || MANAGE_ROLES <= base || MANAGE_CHANNELS <= base || KICK_MEMBERS <= base
                    || BAN_MEMBERS <= base || MUTE_MEMBERS <= base || MOVE_MEMBERS <= base;
    MyPermissions(v.owner, ADMINISTRATOR <= base, v.owner || standing,
                  map id | id in v.channels :: ChannelAnswer(Bits(v, Some(v.channels[id].overwrites))))
  }

  /** Everything `MyPermissionsOf` reads; in particular two such views give the same answers. */
  predicate SameInputs(v: View, w: View)
    ensures SameInputs(v, w) ==> MyPermissionsOf(v) == MyPermissionsOf(w)
  {
    v.(users := map[]) == w.(users := map[])
  }

  datatype ModerationOptions = ModerationOptions(canKick: bool, canBan: bool, canMute: bool, canMove: bool)

  const NO_OPTIONS := ModerationOptions(false, false, false, false)

  function ModerationOptionsOf(v: View, target: ClientId): ModerationOptions {
    if target !in v.users then NO_OPTIONS
    else
      var them := v.users[target];
      if them.fingerprint == v.fingerprint then NO_OPTIONS
      else if !CanActOn(v.roles, v.myRoles, v.owner, them.roles, them.owner) then NO_OPTIONS
      else
        var base := Bits(v, None);
        ModerationOptions(KICK_MEMBERS <= base, BAN_MEMBERS <= base, MUTE_MEMBERS <= base, MOVE_MEMBERS <= base)
  }

  // ---- The session object -------------------------------------------------------------------

  class PermMirror {
    var fingerprint: Fingerprint
    var owner: bool
    var roles: seq<Role>
    var myRoles: seq<RoleId>
    var channels: ChannelMap
    var users: map<ClientId, Standing>

    function Value(): View
      reads this
    {
      View(fingerprint, owner, roles, myRoles, channels, users)
    }

    constructor (start: View)
      ensures Value() == start
    {
      fingerprint, owner, roles, myRoles := start.fingerprint, start.owner, start.roles, start.myRoles;
      channels, users := start.channels, start.users;
    }

    /** Fold one event in; an answer of `false` promises that what this member may do has not changed. */
    method ApplyEvent(event: Frame) returns (changed: bool)
      modifies this
      ensures Value() == Apply(old(Value()), event)
      ensures !changed ==> SameInputs(old(Value()), Value())
    {
      hide MyPermissionsOf, SortByPosition, UpsertRole, RemoveRole, RemoveGrant, SetPositions;
      match event
      case ChannelCreated(channel) =>
        channels := channels[channel.id := channel];
        return true;
      case ChannelUpdated(channel) =>
        channels := channels[channel.id := channel];
        return true;
      case ChannelRemoved(id) =>
        channels := channels - {id};
        return true;
      case RoleCreated(role) =>
        roles := UpsertRole(roles, role);
        return true;
      case RoleUpdated(role) =>
        roles := UpsertRole(roles, role);
        return true;
      case RoleDeleted(id) =>
        roles := RemoveRole(roles, id);
        myRoles := RemoveGrant(myRoles, id);
        return true;
      case RolesReordered(positions) =>
        Reorder(positions);
        return true;
      case UserJoined(user) =>
        changed := SeeUser(user);
      case UserUpdated(user) =>
        changed := SeeUser(user);
      case UserLeft(client) =>
        users := users - {client};
        return false;
      case _ =>
        return false;
    }

    method Reorder(positions: Positions)
      modifies this`roles
      ensures roles == SortByPosition(SetPositions(old(roles), positions))
    {
      for i := 0 to |positions|
        invariant SetPositions(roles, positions[i..]) == SetPositions(old(roles), positions)
      {
        assert positions[i..][0] == positions[i] && positions[i..][1..] == positions[i + 1..];
        roles := SetPosition(roles, positions[i].0, positions[i].1);
      }
      roles := SortByPosition(roles);
    }

    method SeeUser(user: UserInfo) returns (changed: bool)
      modifies this`users, this`myRoles, this`owner
      ensures Value() == UpsertUser(old(Value()), user)
      ensures !changed ==> SameInputs(old(Value()), Value())
    {
      users := users[user.clientId := StandingOf(user)];
      if user.fingerprint == fingerprint {
        changed := user.roles != myRoles || user.owner != owner;
        myRoles := user.roles;
        owner := user.owner;
      } else {
        changed := false;
      }
    }
  }

  // ---- The role table a client ends up with ---------------------------------------------------

  lemma {:induction false} UniqueCount(s: seq<Role>, r: Role)
    requires UniqueIds(s)
    ensures multiset(s)[r] == if r in s then 1 else 0
  {
    if r in s {
      var i :| 0 <= i < |s| && s[i] == r;
      assert s == s[..i] + [s[i]] + s[i + 1..];
      assert r !in s[..i] && r !in s[i + 1..];
    }
  }

  /** Sorting id-unique roles gives the one ordered table with those roles. */
  lemma {:induction false} SortFromSet(s: seq<Role>, t: seq<Role>)
    requires UniqueIds(s) && TableOk(t) && forall r :: r in s <==> r in t
    ensures SortByPosition(s) == t
  {
    forall r: Role ensures multiset(s)[r] == multiset(t)[r] {
      UniqueCount(s, r);
      UniqueCount(t, r);
    }
    assert multiset(s) == multiset(t);
    TableSorted(t);
    SortIs(s, t);
  }

  lemma {:induction false} SetPositionAt(roles: seq<Role>, id: RoleId, position: nat, i: nat)
    requires UniqueIds(roles) && i < |roles|
    ensures SetPosition(roles, id, position)[i] ==
            if roles[i].id == id then roles[i].(position := position)
            else roles[i]
  {
    if roles[0].id != id && i > 0 {
      SetPositionAt(roles[1..], id, position, i - 1);
    }
  }

  lemma {:induction false} SetPositionsAt(roles: seq<Role>, positions: Positions, i: nat)
    requires UniqueIds(roles) && i < |roles|
    requires forall j, k :: 0 <= j < k < |positions| ==> positions[j].0 != positions[k].0
    ensures SetPositions(roles, positions)[i] == Placed(roles[i], positions)
    decreases |positions|
  {
    if positions != [] {
      var next := SetPosition(roles, positions[0].0, positions[0].1);
      forall k | 0 <= k < |roles| ensures next[k].id == roles[k].id {
        SetPositionAt(roles, positions[0].0, positions[0].1, k);
      }
      SetPositionAt(roles, positions[0].0, positions[0].1, i);
      SetPositionsAt(next, positions[1..], i);
      if roles[i].id == positions[0].0 {
        assert FindPosition(positions[1..], roles[i].id).None?;
      }
    }
  }

  /** With distinct ids the client's in-order assignment and the server's lookup agree. */
  lemma {:induction false} SetPositionsIsReposition(roles: seq<Role>, positions: Positions)
    requires UniqueIds(roles)
    requires forall j, k :: 0 <= j < k < |positions| ==> positions[j].0 != positions[k].0
    ensures SetPositions(roles, positions) == Reposition(roles, positions)
  {
    forall i | 0 <= i < |roles| ensures SetPositions(roles, positions)[i] == Reposition(roles, positions)[i] {
      SetPositionsAt(roles, positions, i);
    }
  }

  lemma OrderingDistinct(roles: seq<Role>)
    requires UniqueIds(roles)
    ensures forall j, k :: 0 <= j < k < |roles| ==> Ordering(roles)[j].0 != Ordering(roles)[k].0
  {
  }

  lemma {:induction false} RepositionKeepsIds(roles: seq<Role>, positions: Positions)
    requires UniqueIds(roles)
    ensures UniqueIds(Reposition(roles, positions))
  {
    var s := Reposition(roles, positions);
    forall i, j | 0 <= i < j < |s| ensures s[i].id != s[j].id {
      assert s[i].id == roles[i].id && s[j].id == roles[j].id;
    }
  }

  predicate SameButPosition(a: Role, b: Role) { a == b.(position := a.position) }

  /** Every role of one list appears, position aside, in the other. */
  ghost predicate Covers(table: seq<Role>, roles: seq<Role>) {
    forall r :: r in roles ==> exists t :: t in table && SameButPosition(t, r)
  }

  lemma {:induction false} PlacedByOrdering(table: seq<Role>, t: Role, r: Role)
    requires TableOk(table) && t in table && SameButPosition(t, r)
    ensures Placed(r, Ordering(table)) == t
  {
    var j :| 0 <= j < |table| && table[j] == t;
    OrderingDistinct(table);
    FindPositionAt(Ordering(table), j);
  }

  lemma {:induction false} RepositionedIn(roles: seq<Role>, table: seq<Role>, x: Role)
    requires TableOk(table) && Covers(table, roles) && x in Reposition(roles, Ordering(table))
    ensures x in table
  {
    var s := Reposition(roles, Ordering(table));
    var i :| 0 <= i < |s| && s[i] == x;
    assert roles[i] in roles;
    var t :| t in table && SameButPosition(t, roles[i]);
    PlacedByOrdering(table, t, roles[i]);
  }

  lemma {:induction false} RepositionedOut(roles: seq<Role>, table: seq<Role>, x: Role)
    requires TableOk(table) && Covers(roles, table) && x in table
    ensures x in Reposition(roles, Ordering(table))
  {
    var r :| r in roles && SameButPosition(r, x);
    var i :| 0 <= i < |roles| && roles[i] == r;
    PlacedByOrdering(table, x, r);
    assert Reposition(roles, Ordering(table))[i] == x;
  }

  /** Sending a table's own ordering turns any rearrangement of its roles, whatever their positions, into that table. */
  lemma {:induction false} ReorderedTo(roles: seq<Role>, table: seq<Role>)
    requires UniqueIds(roles) && TableOk(table)
    requires Covers(table, roles) && Covers(roles, table)
    ensures SortByPosition(SetPositions(roles, Ordering(table))) == table
  {
    OrderingDistinct(table);
    SetPositionsIsReposition(roles, Ordering(table));
    RepositionKeepsIds(roles, Ordering(table));
    forall x ensures x in Reposition(roles, Ordering(table)) ==> x in table {
      if x in Reposition(roles, Ordering(table)) { RepositionedIn(roles, table, x); }
    }
    forall x ensures x in table ==> x in Reposition(roles, Ordering(table)) {
      if x in table { RepositionedOut(roles, table, x); }
    }
    SortFromSet(Reposition(roles, Ordering(table)), table);
  }

  lemma AppendKeepsUnique(roles: seq<Role>, role: Role)
    requires UniqueIds(roles) && forall r :: r in roles ==> r.id != role.id
    ensures UniqueIds(roles + [role])
  {
  }

  lemma {:induction false} SortKeepsIds(roles: seq<Role>)
    requires UniqueIds(roles)
    ensures UniqueIds(SortByPosition(roles))
  {
    var s := SortByPosition(roles);
    forall i, j | 0 <= i < j < |s| ensures s[i].id != s[j].id {
      UniqueCount(roles, s[i]);
      if s[i] == s[j] {
        TwiceCounts(s, i, j);
      } else {
        assert s[i] in s && s[j] in s;
        DistinctIds(roles, s[i], s[j]);
      }
    }
  }

  lemma {:induction false} DistinctIds(roles: seq<Role>, a: Role, b: Role)
    requires UniqueIds(roles) && a in roles && b in roles && a != b
    ensures a.id != b.id
  {
    FindRoleIs(roles, a);
    FindRoleIs(roles, b);
  }

  lemma {:induction false} CreatedCovers(roles: seq<Role>, role: Role)
    requires |roles| > 0
    ensures Covers(CreatedTable(roles, role), roles + [role]) && Covers(roles + [role], CreatedTable(roles, role))
  {
    var table := CreatedTable(roles, role);
    forall r | r in roles + [role] ensures exists t :: t in table && SameButPosition(t, r) {
      if r in roles {
        var i :| 0 <= i < |roles| && roles[i] == r;
        assert SameButPosition(table[if i == 0 then 0 else i + 1], r);
      } else {
        assert SameButPosition(table[1], r);
      }
    }
    forall t | t in table ensures exists r :: r in roles + [role] && SameButPosition(r, t) {
      var j :| 0 <= j < |table| && table[j] == t;
      var r := if j == 1 then role else if j == 0 then roles[0] else roles[j - 1];
      assert r in roles + [role] && SameButPosition(r, t);
    }
  }

  /** RoleCreated then RolesReordered leaves a client with exactly the server's new table. */
  lemma {:induction false} CreateReachesClient(roles: seq<Role>, role: Role)
    requires TableOk(roles) && TableOk(CreatedTable(roles, role)) && forall r :: r in roles ==> r.id != role.id
    ensures SortByPosition(SetPositions(UpsertRole(roles, role), Ordering(CreatedTable(roles, role)))) ==
            CreatedTable(roles, role)
  {
    RemoveNothing(roles, role.id);
    AppendKeepsUnique(roles, role);
    SortKeepsIds(roles + [role]);
    CreatedCovers(roles, role);
    ReorderedTo(UpsertRole(roles, role), CreatedTable(roles, role));
  }

  lemma {:induction false} ReplacedMembers(roles: seq<Role>, k: nat, updated: Role, r: Role)
    requires k < |roles|
    ensures r in roles[..k] + roles[k + 1..] + [updated] <==> r in roles[k := updated]
  {
    var rest := roles[..k] + roles[k + 1..];
    var table := roles[k := updated];
    if r in table {
      var i :| 0 <= i < |table| && table[i] == r;
      assert i != k ==> r == rest[if i < k then i else i - 1];
    }
    if r in rest {
      var i :| 0 <= i < |rest| && rest[i] == r;
      assert r == table[if i < k then i else i + 1];
    }
    assert table[k] == updated;
  }

  lemma {:induction false} GapUnique(roles: seq<Role>, k: nat)
    requires UniqueIds(roles) && k < |roles|
    ensures UniqueIds(roles[..k] + roles[k + 1..])
    ensures forall r :: r in roles[..k] + roles[k + 1..] ==> r.id != roles[k].id
  {
    var rest := roles[..k] + roles[k + 1..];
    assert forall i :: 0 <= i < |rest| ==> rest[i] == roles[if i < k then i else i + 1];
  }

  lemma {:induction false} UpdatedTableOk(roles: seq<Role>, k: nat, updated: Role)
    requires TableOk(roles) && k < |roles| && updated.id == roles[k].id && updated.position == k
    ensures TableOk(roles[k := updated])
  {
    var table := roles[k := updated];
    assert forall i :: 0 <= i < |table| ==> table[i].id == roles[i].id;
  }

  lemma {:induction false} UpdateReachesClient(roles: seq<Role>, k: nat, updated: Role)
    requires TableOk(roles) && k < |roles| && updated.id == roles[k].id && updated.position == k
    ensures UpsertRole(roles, updated) == roles[k := updated]
  {
    RemoveShape(roles, k);
    GapUnique(roles, k);
    UpdatedTableOk(roles, k, updated);
    var rest := roles[..k] + roles[k + 1..];
    AppendKeepsUnique(rest, updated);
    forall r ensures r in rest + [updated] <==> r in roles[k := updated] {
      ReplacedMembers(roles, k, updated, r);
    }
    SortFromSet(rest + [updated], roles[k := updated]);
  }

  lemma {:induction false} DeletedCovers(roles: seq<Role>, k: nat)
    requires k < |roles|
    ensures Covers(DeletedTable(roles, k), roles[..k] + roles[k + 1..])
    ensures Covers(roles[..k] + roles[k + 1..], DeletedTable(roles, k))
  {
    var table := DeletedTable(roles, k);
    var rest := roles[..k] + roles[k + 1..];
    assert forall i :: 0 <= i < |rest| ==> SameButPosition(table[i], rest[i]) && SameButPosition(rest[i], table[i]);
    forall r | r in rest ensures exists t :: t in table && SameButPosition(t, r) {
      var i :| 0 <= i < |rest| && rest[i] == r;
      assert SameButPosition(table[i], r);
    }
    forall t | t in table ensures exists r :: r in rest && SameButPosition(r, t) {
      var i :| 0 <= i < |table| && table[i] == t;
      assert SameButPosition(rest[i], t);
    }
  }

  lemma {:induction false} DeleteReachesClient(roles: seq<Role>, k: nat)
    requires TableOk(roles) && 0 < k < |roles|
    ensures SortByPosition(SetPositions(RemoveRole(roles, roles[k].id), Ordering(DeletedTable(roles, k)))) ==
            DeletedTable(roles, k)
  {
    DeletedTableOk(roles, k);
    RemoveShape(roles, k);
    GapUnique(roles, k);
    DeletedCovers(roles, k);
    ReorderedTo(roles[..k] + roles[k + 1..], DeletedTable(roles, k));
  }

  /** n entries that cover n distinct ids cannot repeat one. */
  lemma {:induction false} CoverIsDistinct(ids: seq<RoleId>, needed: seq<RoleId>)
    requires |ids| == |needed|
    requires forall i, j :: 0 <= i < j < |needed| ==> needed[i] != needed[j]
    requires forall i :: 0 <= i < |needed| ==> needed[i] in ids
    ensures forall i, j :: 0 <= i < j < |ids| ==> ids[i] != ids[j]
    ensures forall i :: 0 <= i < |ids| ==> ids[i] in needed
  {
    if needed != [] {
      var k :| 0 <= k < |ids| && ids[k] == needed[0];
      var rest := ids[..k] + ids[k + 1..];
      forall i | 0 <= i < |needed[1..]| ensures needed[1..][i] in rest {
        var j :| 0 <= j < |ids| && ids[j] == needed[i + 1];
        assert rest[if j < k then j else j - 1] == needed[i + 1];
      }
      CoverIsDistinct(rest, needed[1..]);
      forall i | 0 <= i < |ids| ensures i != k ==> ids[i] == rest[if i < k then i else i - 1] && ids[i] in needed[1..] {
      }
      forall i, j | 0 <= i < j < |ids| ensures ids[i] != ids[j] {
        if i != k && j != k {
          assert rest[if i < k then i else i - 1] != rest[if j < k then j else j - 1];
        }
      }
    }
  }

  lemma {:induction false} PositionsDistinct(roles: seq<Role>, positions: Positions)
    requires UniqueIds(roles) && NamesEveryRoleDensely(roles, positions)
    ensures forall j, k :: 0 <= j < k < |positions| ==> positions[j].0 != positions[k].0
  {
    var ids := seq(|positions|, i requires 0 <= i < |positions| => positions[i].0);
    var needed := seq(|roles|, i requires 0 <= i < |roles| => roles[i].id);
    forall i | 0 <= i < |needed| ensures needed[i] in ids {
      var p := FindPosition(positions, roles[i].id).value;
      var k :| 0 <= k < |positions| && positions[k] == (roles[i].id, p);
      assert ids[k] == needed[i];
    }
    CoverIsDistinct(ids, needed);
    forall j, k | 0 <= j < k < |positions| ensures positions[j].0 != positions[k].0 {
      assert ids[j] != ids[k];
    }
  }

  /** An accepted reorder, broadcast verbatim, gives the client the table the server computed. */
  lemma {:induction false} ReorderReachesClient(ps: PermState, positions: Positions)
    requires TableOk(ps.roles) && NamesEveryRoleDensely(ps.roles, positions)
    ensures SortByPosition(SetPositions(ps.roles, positions)) == AfterReorder(ps, positions).roles
  {
    PositionsDistinct(ps.roles, positions);
    SetPositionsIsReposition(ps.roles, positions);
  }
}
