/**
The durable tables, keyed as their primary keys say, the writes the handlers make and the load at start-up
(crates/pickle-server/src/store.rs, crates/pickle-server/src/lib.rs:88-129).
*/
module Store {
  import opened Common
  import opened Perms
  import opened RoleTable
  import opened Channels
  import opened Mirror

  datatype RoleRow = RoleRow(name: string, position: nat, color: Option<nat>, permissions: Permissions)
  datatype ChannelRow = ChannelRow(parent: Option<ChannelId>, name: string, topic: string, kind: ChannelKind,
                                   maxUsers: Option<nat>, order: int)
  type RoleRows = map<RoleId, RoleRow>
  type OverwriteRows = map<(ChannelId, OverwriteTarget), (Permissions, Permissions)>

  datatype Tables = Tables(roles: RoleRows, grants: set<(Fingerprint, RoleId)>, overwrites: OverwriteRows,
                           channels: map<ChannelId, ChannelRow>)

  function RowOf(r: Role): RoleRow { RoleRow(r.name, r.position, r.color, r.permissions) }
  function RoleOf(id: RoleId, row: RoleRow): Role { Role(id, row.name, row.color, row.position, row.permissions) }
  function ChannelRowOf(c: Channel): ChannelRow { ChannelRow(c.parent, c.name, c.topic, c.kind, c.maxUsers, c.order) }
  function ChannelOf(id: ChannelId, row: ChannelRow): Channel {
    Channel(id, row.parent, row.name, row.topic, row.kind, row.maxUsers, row.order, [])
  }

  // ---- Writes ---------------------------------------------------------------------------

  function SetRolePositions(rows: RoleRows, positions: Positions): RoleRows
    decreases |positions|
  {
    if positions == [] then rows
    else
      var (id, p) := positions[0];
      SetRolePositions(if id in rows then rows[id := rows[id].(position := p)] else rows, positions[1..])
  }

  /** A second row under one primary key is refused. */
  function InsertRole(rows: RoleRows, r: Role): Option<RoleRows> {
    if r.id in rows then None else Some(rows[r.id := RowOf(r)])
  }

  /** Writes name, colour and bits, never the position. */
  function UpdateRoleRow(rows: RoleRows, r: Role): RoleRows {
    if r.id in rows then rows[r.id := RowOf(r).(position := rows[r.id].position)] else rows
  }

  function DeleteRoleRows(t: Tables, id: RoleId): Tables {
    t.(roles := t.roles - {id},
       grants := (set g | g in t.grants && g.1 != id),
       overwrites := (map k | k in t.overwrites && k.1 != ForRole(id) :: t.overwrites[k]))
  }

  predicate NoRepeats(ids: seq<RoleId>) { forall i, j :: 0 <= i < j < |ids| ==> ids[i] != ids[j] }

  /** Wholesale replacement in one transaction; a repeated id breaks the primary key and nothing is written. */
  function ReplaceGrants(grants: set<(Fingerprint, RoleId)>, member: Fingerprint,
                         ids: seq<RoleId>): Option<set<(Fingerprint, RoleId)>> {
    if NoRepeats(ids) then Some((set g | g in grants && g.0 != member) + (set id | id in ids :: (member, id))) else None
  }

  function UpsertOverwrite(rows: OverwriteRows, channel: ChannelId, o: Overwrite): OverwriteRows {
    rows[(channel, o.target) := (o.allow, o.deny)]
  }

  function InsertChannel(rows: map<ChannelId, ChannelRow>, c: Channel): Option<map<ChannelId, ChannelRow>> {
    if c.id in rows then None else Some(rows[c.id := ChannelRowOf(c)])
  }

  function UpdateChannelRow(rows: map<ChannelId, ChannelRow>, c: Channel): map<ChannelId, ChannelRow> {
    if c.id in rows then rows[c.id := ChannelRowOf(c)] else rows
  }

  function DeleteChannelRows(t: Tables, id: ChannelId): Tables {
    t.(channels := t.channels - {id}, overwrites := (map k | k in t.overwrites && k.0 != id :: t.overwrites[k]))
  }

  // ---- Memory and tables agree --------------------------------------------------------------

  ghost predicate RowsMatch(rows: RoleRows, roles: seq<Role>) {
    forall id ::
      (id in rows <==> Exists(roles, id)) && (id in rows ==> RoleOf(id, rows[id]) == FindRole(roles, id).value)
  }

  ghost predicate GrantsMatch(grants: set<(Fingerprint, RoleId)>, ps: PermState) {
    forall m, id :: (m, id) in grants <==> id in Grants(ps, m)
  }

  function StoredOverwrite(rows: OverwriteRows, channel: ChannelId, target: OverwriteTarget): Option<Overwrite> {
    if (channel, target) in rows
    then Some(Overwrite(target, rows[(channel, target)].0, rows[(channel, target)].1))
    else None
  }

  ghost predicate OverwritesMatch(rows: OverwriteRows, channels: ChannelMap) {
    forall c, t :: c in channels ==> OverwriteFor(channels[c].overwrites, t) == StoredOverwrite(rows, c, t)
  }

  ghost predicate NoOrphans(rows: OverwriteRows, channels: ChannelMap) {
    forall k :: k in rows ==> k.0 in channels
  }

  ghost predicate ChannelsMatch(rows: map<ChannelId, ChannelRow>, channels: ChannelMap) {
    rows.Keys == channels.Keys && forall id :: id in rows ==> rows[id] == ChannelRowOf(channels[id])
  }

  ghost predicate Synced(t: Tables, ps: PermState, channels: ChannelMap) {
    && RowsMatch(t.roles, ps.roles) && GrantsMatch(t.grants, ps)
    && OverwritesMatch(t.overwrites, channels) && NoOrphans(t.overwrites, channels)
    && ChannelsMatch(t.channels, channels)
  }

  // ---- Role writes keep agreement -------------------------------------------------------------

  lemma {:induction false} SetPositionLookup(roles: seq<Role>, id: RoleId, p: nat, x: RoleId)
    ensures FindRole(SetPosition(roles, id, p), x) ==
            match FindRole(roles, x) {
              case None => None
              case Some(r) => Some(if x == id then r.(position := p) else r)
            }
  {
    if roles != [] && roles[0].id != id {
      SetPositionLookup(roles[1..], id, p, x);
    }
  }

  /** The store's updates and the in-memory assignment loop are the same loop. */
  lemma {:induction false} PositionWritesMatch(rows: RoleRows, roles: seq<Role>, positions: Positions)
    requires RowsMatch(rows, roles)
    ensures RowsMatch(SetRolePositions(rows, positions), SetPositions(roles, positions))
    decreases |positions|
  {
    if positions != [] {
      var (id, p) := positions[0];
      var rows' := if id in rows then rows[id := rows[id].(position := p)] else rows;
      forall x ensures FindRole(SetPosition(roles, id, p), x) ==
            match FindRole(roles, x) {
              case None => None
              case Some(r) => Some(if x == id then r.(position := p) else r)
            }
      {
        SetPositionLookup(roles, id, p, x);
      }
      PositionWritesMatch(rows', SetPosition(roles, id, p), positions[1..]);
    }
  }

  /** Agreement does not depend on the order roles are listed in. */
  lemma {:induction false} RowsMatchAnyOrder(rows: RoleRows, roles: seq<Role>, roles': seq<Role>)
    requires RowsMatch(rows, roles) && UniqueIds(roles) && UniqueIds(roles') && forall r :: r in roles <==> r in roles'
    ensures RowsMatch(rows, roles')
  {
    forall id ensures FindRole(roles, id) == FindRole(roles', id) {
      SameRolesSameLookup(roles, roles', id);
    }
  }

  lemma {:induction false} InsertMatches(rows: RoleRows, roles: seq<Role>, role: Role)
    requires RowsMatch(rows, roles) && role.id !in rows && UniqueIds(roles)
    ensures RowsMatch(rows[role.id := RowOf(role)], roles + [role]) && UniqueIds(roles + [role])
  {
    AppendKeepsUnique(roles, role);
    forall id ensures FindRole(roles + [role], id) == if id == role.id then Some(role) else FindRole(roles, id) {
      if id == role.id {
        FindRoleIs(roles + [role], role);
      } else if Exists(roles, id) {
        FindRoleIs(roles + [role], FindRole(roles, id).value);
      }
    }
  }

  lemma ShiftedDistinct(roles: seq<Role>)
    requires TableOk(roles)
    ensures UniqueIds(roles)
    ensures var ps := ShiftedPositions(roles); forall j, k :: 0 <= j < k < |ps| ==> ps[j].0 != ps[k].0
  {
  }

  lemma {:induction false} NewIdAbsent(rows: RoleRows, ps: PermState, placed: seq<Role>, role: Role)
    requires RowsMatch(rows, placed) && placed == Reposition(ps.roles, ShiftedPositions(ps.roles))
    requires role.id > MaxRoleId(ps.roles)
    ensures role.id !in rows
  {
    hide FindPosition, MaxRoleId;
    forall r | r in placed ensures r.id != role.id {
      var i :| 0 <= i < |placed| && placed[i] == r;
      assert ps.roles[i] in ps.roles;
    }
  }

  lemma {:induction false} CreateMatches(rows: RoleRows, ps: PermState, name: string, permissions: Permissions)
    requires RowsMatch(rows, ps.roles) && TableOk(ps.roles)
    ensures var role := NewRole(ps, name, permissions);
            var shifted := SetRolePositions(rows, ShiftedPositions(ps.roles));
            InsertRole(shifted, role).Some? && RowsMatch(InsertRole(shifted, role).value, AfterCreate(ps, role).roles)
  {
    hide RowsMatch, UniqueIds, TableOk, Reposition, SetRolePositions, SetPositions, SortByPosition, ShiftedPositions;
    hide MaxRoleId;
    var role := NewRole(ps, name, permissions);
    var positions := ShiftedPositions(ps.roles);
    var placed := Reposition(ps.roles, positions);
    var shifted := SetRolePositions(rows, positions);
    ShiftedDistinct(ps.roles);
    PositionWritesMatch(rows, ps.roles, positions);
    SetPositionsIsReposition(ps.roles, positions);
    RepositionKeepsIds(ps.roles, positions);
    NewIdAbsent(shifted, ps, placed, role);
    InsertMatches(shifted, placed, role);
    SortKeepsIds(placed + [role]);
    RowsMatchAnyOrder(shifted[role.id := RowOf(role)], placed + [role], SortByPosition(placed + [role]));
  }

  lemma {:induction false} UpdateMatches(rows: RoleRows, roles: seq<Role>, k: nat, updated: Role)
    requires RowsMatch(rows, roles) && TableOk(roles) && k < |roles| && updated.id == roles[k].id
    requires updated.position == k
    ensures RowsMatch(UpdateRoleRow(rows, updated), ReplaceRole(roles, updated))
  {
    ReplaceShape(roles, updated, k);
    UpdatedTableOk(roles, k, updated);
    var table := roles[k := updated];
    TableIndex(roles, k);
    TableIndex(table, k);
    forall id ensures FindRole(table, id) == if id == updated.id then Some(updated) else FindRole(roles, id) {
      if id != updated.id {
        UpdateLookup(roles, k, updated, id);
      }
    }
  }

  lemma {:induction false} UpdateLookup(roles: seq<Role>, k: nat, updated: Role, id: RoleId)
    requires k < |roles| && updated.id == roles[k].id && id != updated.id
    requires TableOk(roles) && TableOk(roles[k := updated])
    ensures FindRole(roles[k := updated], id) == FindRole(roles, id)
  {
    var table := roles[k := updated];
    if Exists(roles, id) {
      var i :| 0 <= i < |roles| && roles[i] == FindRole(roles, id).value;
      assert table[i] == roles[i];
      TableIndex(table, i);
    } else {
      forall x | x in table ensures x.id != id {
        var i :| 0 <= i < |table| && table[i] == x;
        assert roles[i] in roles;
      }
    }
  }

  lemma {:induction false} RemoveMatches(rows: RoleRows, roles: seq<Role>, k: nat)
    requires RowsMatch(rows, roles) && UniqueIds(roles) && k < |roles|
    ensures RowsMatch(rows - {roles[k].id}, RemoveRole(roles, roles[k].id))
    ensures UniqueIds(RemoveRole(roles, roles[k].id))
  {
    RemoveShape(roles, k);
    GapUnique(roles, k);
    var rest := RemoveRole(roles, roles[k].id);
    forall id ensures FindRole(rest, id) == if id == roles[k].id then None else FindRole(roles, id) {
      if id != roles[k].id && Exists(roles, id) {
        FindRoleIs(rest, FindRole(roles, id).value);
      }
    }
  }

  lemma {:induction false} DeleteMatches(rows: RoleRows, ps: PermState, k: nat)
    requires RowsMatch(rows, ps.roles) && TableOk(ps.roles) && 0 < k < |ps.roles|
    ensures RowsMatch(SetRolePositions(rows - {ps.roles[k].id}, Ordering(AfterDelete(ps, ps.roles[k].id).roles)),
                      AfterDelete(ps, ps.roles[k].id).roles)
  {
    DeleteShape(ps, k);
    var next := AfterDelete(ps, ps.roles[k].id).roles;
    var rest := RemoveRole(ps.roles, ps.roles[k].id);
    var rows' := rows - {ps.roles[k].id};
    RemoveMatches(rows, ps.roles, k);
    PositionWritesMatch(rows', rest, Ordering(next));
    DeleteReachesClient(ps.roles, k);
    OrderingDistinct(next);
    SetPositionsIsReposition(rest, Ordering(next));
    RepositionKeepsIds(rest, Ordering(next));
    RowsMatchAnyOrder(SetRolePositions(rows', Ordering(next)), SetPositions(rest, Ordering(next)), next);
  }

  lemma {:induction false} ReorderMatches(rows: RoleRows, ps: PermState, positions: Positions)
    requires RowsMatch(rows, ps.roles) && TableOk(ps.roles) && NamesEveryRoleDensely(ps.roles, positions)
    ensures RowsMatch(SetRolePositions(rows, positions), AfterReorder(ps, positions).roles)
  {
    PositionWritesMatch(rows, ps.roles, positions);
    PositionsDistinct(ps.roles, positions);
    SetPositionsIsReposition(ps.roles, positions);
    RepositionKeepsIds(ps.roles, positions);
    SortKeepsIds(Reposition(ps.roles, positions));
    RowsMatchAnyOrder(SetRolePositions(rows, positions), Reposition(ps.roles, positions),
                      AfterReorder(ps, positions).roles);
  }

  lemma {:induction false} GrantMatches(grants: set<(Fingerprint, RoleId)>, ps: PermState, member: Fingerprint,
                                        ids: seq<RoleId>)
    requires GrantsMatch(grants, ps) && NoRepeats(ids)
    ensures GrantsMatch(ReplaceGrants(grants, member, ids).value, AfterGrant(ps, member, ids))
  {
    var next := AfterGrant(ps, member, ids);
    assert Grants(next, member) == ids;
    forall m ensures m != member ==> Grants(next, m) == Grants(ps, m) {
    }
  }

  lemma {:induction false} DeleteGrantsMatch(t: Tables, ps: PermState, gone: RoleId)
    requires GrantsMatch(t.grants, ps)
    ensures GrantsMatch(DeleteRoleRows(t, gone).grants, AfterDelete(ps, gone))
  {
    var next := AfterDelete(ps, gone);
    forall m, id ensures (m, id) in DeleteRoleRows(t, gone).grants <==> id in Grants(next, m) {
      assert Grants(next, m) == RemoveGrant(Grants(ps, m), gone);
      assert (m, id) in t.grants <==> id in Grants(ps, m);
    }
  }

  lemma {:induction false} DeleteOverwritesMatch(t: Tables, channels: ChannelMap, gone: RoleId)
    requires OverwritesMatch(t.overwrites, channels) && ChannelsOk(channels)
    ensures OverwritesMatch(DeleteRoleRows(t, gone).overwrites, StripRole(channels, gone))
  {
    var rows := DeleteRoleRows(t, gone).overwrites;
    var stripped := StripRole(channels, gone);
    forall c, x | c in stripped ensures OverwriteFor(stripped[c].overwrites, x) == StoredOverwrite(rows, c, x) {
      DropTargetLookup(channels[c].overwrites, ForRole(gone), x);
      assert OverwriteFor(channels[c].overwrites, x) == StoredOverwrite(t.overwrites, c, x);
    }
  }

  /** Deleting a role in the tables cascades exactly as it does in memory. */
  lemma {:induction false} DeleteRoleSynced(t: Tables, ps: PermState, channels: ChannelMap, k: nat)
    requires Synced(t, ps, channels) && PermsOk(ps) && ChannelsOk(channels) && 0 < k < |ps.roles|
    ensures var gone := ps.roles[k].id;
            var cut := DeleteRoleRows(t, gone);
            var next := AfterDelete(ps, gone);
            Synced(cut.(roles := SetRolePositions(cut.roles, Ordering(next.roles))), next, StripRole(channels, gone))
  {
    DeleteMatches(t.roles, ps, k);
    DeleteGrantsMatch(t, ps, ps.roles[k].id);
    DeleteOverwritesMatch(t, channels, ps.roles[k].id);
  }

  function StripRole(channels: ChannelMap, role: RoleId): ChannelMap {
    map c | c in channels :: channels[c].(overwrites := DropTarget(channels[c].overwrites, ForRole(role)))
  }

  lemma {:induction false} UpsertOverwriteSynced(t: Tables, ps: PermState, channels: ChannelMap, c: ChannelId,
                                                 o: Overwrite)
    requires Synced(t, ps, channels) && ChannelsOk(channels) && c in channels
    ensures Synced(t.(overwrites := UpsertOverwrite(t.overwrites, c, o)), ps,
                   channels[c := channels[c].(overwrites := WithOverwrite(channels[c].overwrites, o))])
  {
    var rows := UpsertOverwrite(t.overwrites, c, o);
    var next := channels[c := channels[c].(overwrites := WithOverwrite(channels[c].overwrites, o))];
    forall d, x | d in next ensures OverwriteFor(next[d].overwrites, x) == StoredOverwrite(rows, d, x) {
      WithOverwriteLookup(channels[c].overwrites, o, x);
    }
  }

  lemma {:induction false} DeleteOverwriteSynced(t: Tables, ps: PermState, channels: ChannelMap, c: ChannelId,
                                                 target: OverwriteTarget)
    requires Synced(t, ps, channels) && ChannelsOk(channels) && c in channels
    ensures Synced(t.(overwrites := t.overwrites - {(c, target)}), ps,
                   channels[c := channels[c].(overwrites := DropTarget(channels[c].overwrites, target))])
  {
    var next := channels[c := channels[c].(overwrites := DropTarget(channels[c].overwrites, target))];
    forall d, x | d in next
      ensures OverwriteFor(next[d].overwrites, x) == StoredOverwrite(t.overwrites - {(c, target)}, d, x)
    {
      DropTargetLookup(channels[c].overwrites, target, x);
    }
  }

  // ---- Loading ----------------------------------------------------------------------------

  /** `ORDER BY position ASC`, whatever order the rows come in. */
  method LoadRoles(rows: RoleRows) returns (roles: seq<Role>)
    ensures Sorted(roles) && UniqueIds(roles) && RowsMatch(rows, roles)
  {
    roles := [];
    var todo := rows.Keys;
    while todo != {}
      invariant todo <= rows.Keys && Sorted(roles) && UniqueIds(roles)
      invariant forall r :: r in roles ==> r.id in rows && r.id !in todo && r == RoleOf(r.id, rows[r.id])
      invariant forall id :: id in rows && id !in todo ==> RoleOf(id, rows[id]) in roles
      decreases |todo|
    {
      var id :| id in todo;
      var r := RoleOf(id, rows[id]);
      InsertKeepsUnique(r, roles);
      roles := InsertByPosition(r, roles);
      todo := todo - {id};
    }
    forall id
      ensures (id in rows <==> Exists(roles, id)) && (id in rows ==> RoleOf(id, rows[id]) == FindRole(roles, id).value)
    {
      if id in rows {
        FindRoleIs(roles, RoleOf(id, rows[id]));
      }
    }
  }

  lemma {:induction false} InsertKeepsUnique(r: Role, roles: seq<Role>)
    requires Sorted(roles) && UniqueIds(roles) && forall x :: x in roles ==> x.id != r.id
    ensures UniqueIds(InsertByPosition(r, roles))
  {
    if roles != [] && r.position > roles[0].position {
      InsertKeepsUnique(r, roles[1..]);
      var rest := InsertByPosition(r, roles[1..]);
      forall j | 0 <= j < |rest| ensures rest[j].id != roles[0].id {
        assert rest[j] in rest;
      }
    }
  }

  method LoadGrants(grants: set<(Fingerprint, RoleId)>) returns (members: map<Fingerprint, seq<RoleId>>)
    ensures forall m, id :: (m, id) in grants <==> m in members && id in members[m]
  {
    members := map[];
    var todo := grants;
    while todo != {}
      invariant todo <= grants
      invariant forall m, id :: (m, id) in grants && (m, id) !in todo <==> m in members && id in members[m]
      decreases |todo|
    {
      var g :| g in todo;
      var held := if g.0 in members then members[g.0] else [];
      members := members[g.0 := held + [g.1]];
      todo := todo - {g};
    }
  }

  /** Every stored overwrite is pushed onto its channel, if the channel is there. */
  method LoadOverwrites(rows: OverwriteRows, bare: ChannelMap) returns (channels: ChannelMap)
    requires forall c :: c in bare ==> bare[c].id == c && bare[c].overwrites == []
    ensures channels.Keys == bare.Keys && ChannelsOk(channels) && OverwritesMatch(rows, channels)
    ensures forall c :: c in bare ==> channels[c].(overwrites := []) == bare[c]
  {
    channels := bare;
    var todo := rows.Keys;
    while todo != {}
      invariant todo <= rows.Keys && channels.Keys == bare.Keys && ChannelsOk(channels)
      invariant forall c :: c in bare ==> channels[c].(overwrites := []) == bare[c]
      invariant forall c, t :: c in channels ==>
        OverwriteFor(channels[c].overwrites, t) == if (c, t) in todo then None else StoredOverwrite(rows, c, t)
      decreases |todo|
    {
      var k :| k in todo;
      if k.0 in channels {
        var o := Overwrite(k.1, rows[k].0, rows[k].1);
        var c := channels[k.0];
        assert OverwriteFor(c.overwrites, k.1).None?;
        forall t ensures UniqueTargets(c.overwrites + [o])
          && OverwriteFor(c.overwrites + [o], t) == if t == k.1 then Some(o) else OverwriteFor(c.overwrites, t)
        {
          PushLookup(c.overwrites, o, t);
        }
        channels := channels[k.0 := c.(overwrites := c.overwrites + [o])];
      }
      todo := todo - {k};
    }
  }

  lemma {:induction false} PushLookup(overwrites: seq<Overwrite>, o: Overwrite, t: OverwriteTarget)
    requires UniqueTargets(overwrites) && OverwriteFor(overwrites, o.target).None?
    ensures UniqueTargets(overwrites + [o])
    ensures OverwriteFor(overwrites + [o], t) == if t == o.target then Some(o) else OverwriteFor(overwrites, t)
  {
    var s := overwrites + [o];
    assert UniqueTargets(s) by {
      forall i | 0 <= i < |overwrites| ensures overwrites[i].target != o.target {
        assert overwrites[i] in overwrites;
      }
    }
    assert s[|s| - 1] == o;
    if t == o.target {
      OverwriteIs(s, o);
    } else if OverwriteFor(overwrites, t).Some? {
      OverwriteIs(s, OverwriteFor(overwrites, t).value);
    }
  }

  /** Memory freshly loaded from the tables. */
  ghost predicate Reloaded(t: Tables, ps: PermState, channels: ChannelMap) {
    && Sorted(ps.roles) && UniqueIds(ps.roles) && ChannelsOk(channels)
    && RowsMatch(t.roles, ps.roles) && GrantsMatch(t.grants, ps)
    && OverwritesMatch(t.overwrites, channels) && ChannelsMatch(t.channels, channels)
  }

  const DEFAULT_EVERYONE: Permissions := {16, 17, 18, 20, 21}

  const DEFAULT_ROLES: seq<Role> :=
    [Role(EVERYONE, "everyone", None, 0, DEFAULT_EVERYONE),
     Role(1, "moderator", None, 1, {4, 5, 19, 22, 23}),
     Role(2, "admin", None, 2, ADMINISTRATOR)]

  /** Stored roles, or the defaults when there are none. */
  method RestoreRoles(rows: RoleRows) returns (roles: seq<Role>, rows': RoleRows)
    ensures Sorted(roles) && UniqueIds(roles) && RowsMatch(rows', roles)
    ensures rows != map[] ==> rows' == rows
    ensures rows == map[] ==> roles == DEFAULT_ROLES
  {
    roles := LoadRoles(rows);
    rows' := rows;
    if rows == map[] {
      DefaultsMatch();
      TableSorted(DEFAULT_ROLES);
      hide RowsMatch;
      roles := DEFAULT_ROLES;
      rows' := map[0 := RowOf(DEFAULT_ROLES[0]), 1 := RowOf(DEFAULT_ROLES[1]), 2 := RowOf(DEFAULT_ROLES[2])];
    }
  }

  /** Stored channels, or the configured ones when there are none, with their stored overwrites. */
  method RestoreChannels(rows: map<ChannelId, ChannelRow>, overwrites: OverwriteRows, seed: ChannelMap)
    returns (channels: ChannelMap, rows': map<ChannelId, ChannelRow>)
    requires forall c :: c in seed ==> seed[c].id == c && seed[c].overwrites == []
    ensures rows' == if rows == map[] then map c | c in seed :: ChannelRowOf(seed[c]) else rows
    ensures rows'.Keys == if rows == map[] then seed.Keys else rows.Keys
    ensures ChannelsOk(channels) && OverwritesMatch(overwrites, channels) && ChannelsMatch(rows', channels)
  {
    rows' := rows;
    var bare: ChannelMap := map c | c in rows :: ChannelOf(c, rows[c]);
    if rows == map[] {
      bare := seed;
      rows' := map c | c in seed :: ChannelRowOf(seed[c]);
    }
    channels := LoadOverwrites(overwrites, bare);
    hide OverwritesMatch, ChannelsOk;
    forall c | c in rows' ensures rows'[c] == ChannelRowOf(channels[c]) {
      assert channels[c].(overwrites := []) == bare[c];
    }
  }

  /**
  A restart: tables in, memory out. Empty tables are filled from the configured channels and the default roles
  first.
  */
  method Restart(t: Tables, seed: ChannelMap) returns (ps: PermState, channels: ChannelMap, t': Tables)
    requires forall c :: c in seed ==> seed[c].id == c && seed[c].overwrites == []
    ensures t.channels != map[] && t.roles != map[] ==> t' == t
    ensures t'.channels == if t.channels == map[] then map c | c in seed :: ChannelRowOf(seed[c]) else t.channels
    ensures t'.channels.Keys == if t.channels == map[] then seed.Keys else t.channels.Keys
    ensures t.roles == map[] ==> ps.roles == DEFAULT_ROLES
    ensures t.roles != map[] ==> t'.roles == t.roles
    ensures t'.grants == t.grants && t'.overwrites == t.overwrites
    ensures Reloaded(t', ps, channels)
  {
    hide RowsMatch, OverwritesMatch, ChannelsMatch, ChannelsOk, Sorted, UniqueIds;
    var roles, roleRows := RestoreRoles(t.roles);
    var channelRows;
    channels, channelRows := RestoreChannels(t.channels, t.overwrites, seed);
    var members := LoadGrants(t.grants);
    ps := PermState(roles, members);
    t' := t.(roles := roleRows, channels := channelRows);
  }

  lemma {:induction false} DefaultsMatch()
    ensures TableOk(DEFAULT_ROLES)
    ensures RowsMatch(map[0 := RowOf(DEFAULT_ROLES[0]), 1 := RowOf(DEFAULT_ROLES[1]), 2 := RowOf(DEFAULT_ROLES[2])],
                      DEFAULT_ROLES)
  {
    TableIndex(DEFAULT_ROLES, 0);
    TableIndex(DEFAULT_ROLES, 1);
    TableIndex(DEFAULT_ROLES, 2);
    forall id ensures Exists(DEFAULT_ROLES, id) ==> id == 0 || id == 1 || id == 2 {
      if Exists(DEFAULT_ROLES, id) {
        var r := FindRole(DEFAULT_ROLES, id).value;
        assert r in DEFAULT_ROLES;
      }
    }
  }

  // ---- The restart theorem ----------------------------------------------------------------------

  /** Two memories no caller can tell apart: same rooms, same table, same rank and same permissions for every member. */
  ghost predicate SameAnswers(ps: PermState, channels: ChannelMap, ps': PermState, channels': ChannelMap) {
    && ps'.roles == ps.roles
    && channels'.Keys == channels.Keys
    && (forall m :: TopRolePosition(ps'.roles, Grants(ps', m)) == TopRolePosition(ps.roles, Grants(ps, m)))
    && (forall m, owner ::
          Resolve(ps'.roles, Grants(ps', m), m, owner, None) == Resolve(ps.roles, Grants(ps, m), m, owner, None))
    && (forall c :: c in channels ==> channels'[c].(overwrites := []) == channels[c].(overwrites := []))
    && (forall m, owner, c :: c in channels ==>
          Resolve(ps'.roles, Grants(ps', m), m, owner, Some(channels'[c].overwrites)) ==
          Resolve(ps.roles, Grants(ps, m), m, owner, Some(channels[c].overwrites)))
  }

  lemma {:induction false} SameRowsSameTable(rows: RoleRows, roles: seq<Role>, roles': seq<Role>)
    requires RowsMatch(rows, roles) && RowsMatch(rows, roles') && TableOk(roles) && Sorted(roles') && UniqueIds(roles')
    ensures roles' == roles
  {
    forall r ensures r in roles <==> r in roles' {
      if r in roles { FindRoleIs(roles, r); }
      if r in roles' { FindRoleIs(roles', r); }
    }
    forall r: Role ensures multiset(roles)[r] == multiset(roles')[r] {
      UniqueCount(roles, r);
      UniqueCount(roles', r);
    }
    assert multiset(roles) == multiset(roles');
    TableSorted(roles);
    SortedUnique(roles', roles);
  }

  lemma {:induction false} SameGrantsSameSet(grants: set<(Fingerprint, RoleId)>, ps: PermState, ps': PermState,
                                             m: Fingerprint, id: RoleId)
    requires GrantsMatch(grants, ps) && GrantsMatch(grants, ps')
    ensures id in Grants(ps, m) <==> id in Grants(ps', m)
  {
    assert (m, id) in grants <==> id in Grants(ps, m);
    assert (m, id) in grants <==> id in Grants(ps', m);
  }

  lemma {:induction false} AnswersForMember(t: Tables, ps: PermState, ps': PermState, m: Fingerprint, owner: bool,
                                            ows: seq<Overwrite>, ows': seq<Overwrite>)
    requires GrantsMatch(t.grants, ps) && GrantsMatch(t.grants, ps') && ps.roles == ps'.roles && UniqueIds(ps.roles)
    requires forall x :: OverwriteFor(ows, x) == OverwriteFor(ows', x)
    ensures TopRolePosition(ps'.roles, Grants(ps', m)) == TopRolePosition(ps.roles, Grants(ps, m))
    ensures Resolve(ps'.roles, Grants(ps', m), m, owner, None) == Resolve(ps.roles, Grants(ps, m), m, owner, None)
    ensures Resolve(ps'.roles, Grants(ps', m), m, owner, Some(ows')) ==
            Resolve(ps.roles, Grants(ps, m), m, owner, Some(ows))
  {
    forall id ensures id in Grants(ps, m) <==> id in Grants(ps', m) {
      SameGrantsSameSet(t.grants, ps, ps', m, id);
    }
    ResolveIgnoresOrder(ps.roles, ps.roles, Grants(ps, m), Grants(ps', m), m, owner, [], []);
    ResolveCongruent(ps.roles, ps.roles, Grants(ps, m), Grants(ps', m), m, owner, Some(ows), Some(ows'));
  }

  /**
  Reloading tables that agree with live memory gives a memory with the same answers, whatever order rows come back
  in.
  */
  lemma {:induction false} ReloadKeepsAnswers(t: Tables, ps: PermState, channels: ChannelMap, ps': PermState,
                                              channels': ChannelMap)
    requires Synced(t, ps, channels) && PermsOk(ps) && ChannelsOk(channels) && Reloaded(t, ps', channels')
    ensures SameAnswers(ps, channels, ps', channels')
  {
    SameRowsSameTable(t.roles, ps.roles, ps'.roles);
    forall m ensures TopRolePosition(ps'.roles, Grants(ps', m)) == TopRolePosition(ps.roles, Grants(ps, m)) {
      AnswersForMember(t, ps, ps', m, false, [], []);
    }
    forall m, owner
      ensures Resolve(ps'.roles, Grants(ps', m), m, owner, None) == Resolve(ps.roles, Grants(ps, m), m, owner, None)
    {
      AnswersForMember(t, ps, ps', m, owner, [], []);
    }
    forall m, owner, c | c in channels
      ensures Resolve(ps'.roles, Grants(ps', m), m, owner, Some(channels'[c].overwrites)) ==
              Resolve(ps.roles, Grants(ps, m), m, owner, Some(channels[c].overwrites))
    {
      AnswersForMember(t, ps, ps', m, owner, channels[c].overwrites, channels'[c].overwrites);
    }
    forall c | c in channels ensures channels'[c].(overwrites := []) == channels[c].(overwrites := []) {
      assert ChannelRowOf(channels[c]) == ChannelRowOf(channels'[c]);
    }
  }

  /**
  Restart equivalence, and its one exception: a server whose last channel was deleted comes back with the configured
  channels, so live memory and restarted memory agree exactly when a channel is left or none is configured.
  */
  lemma {:induction false} RestartEquivalence(t: Tables, ps: PermState, channels: ChannelMap, seed: ChannelMap,
                           ps': PermState, channels': ChannelMap, t': Tables)
    requires Synced(t, ps, channels) && PermsOk(ps) && ChannelsOk(channels)
    requires Reloaded(t', ps', channels')
    requires t.channels != map[] ==> t' == t
    requires t'.channels.Keys == if t.channels == map[] then seed.Keys else t.channels.Keys
    requires t'.roles == t.roles && t'.grants == t.grants && t'.overwrites == t.overwrites
    ensures SameAnswers(ps, channels, ps', channels') <==> channels != map[] || seed == map[]
  {
    if channels != map[] || seed == map[] {
      assert t'.channels == t.channels;
      ReloadKeepsAnswers(t, ps, channels, ps', channels');
    } else {
      var c :| c in seed;
      assert c in channels' && c !in channels;
    }
  }
}
