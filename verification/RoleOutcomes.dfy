/**
What each role command comes to, from the event's own fields: when it is carried out, as bits and held positions, and
what is different afterwards (crates/pickle-server/src/admin.rs:54-589).
*/
module RoleOutcomes {
  import opened Common
  import opened Perms
  import opened RoleTable
  import opened Channels
  import opened Mirror
  import opened Visibility
  import opened ServerState
  import opened Store
  import opened Plans
  import opened Events
  import opened Authority
  import opened Outcomes
  import Hierarchy

  // ---- The gate and the commit -----------------------------------------------------------------------------

  ghost predicate Decided(owner: Option<Fingerprint>, m: Moment, e: Event, next: PermState)
    requires e.Roles?
  {
    e.client in m.clients && Decide(m.perms, ActorOf(m.perms, Who(m, e.client), owner), owner, e.cmd) == Accepted(next)
  }

  /**
  A role command is carried out exactly when its sender manages roles, the handler lets it through and it is stored.
  */
  lemma {:induction false} Commits(owner: Option<Fingerprint>, maxUsers: nat, m: Moment, e: Event, next: Moment)
    requires ValidAt(owner, maxUsers, m) && Stepped(owner, maxUsers, m, e, next) && e.Roles?
    ensures if && Has(owner, m, e.client, ROLES) && Decide(m.perms, ActorOf(m.perms, Who(m, e.client), owner), owner,
                                                           e.cmd).Accepted?
               && Persists(m.tables, m.perms, e.cmd, e.stored, e.alsoStored)
            then Decided(owner, m, e, next.perms)
            else next.perms == m.perms
  {
    hide Decide, Persists, ValidState, Stepped, Has, MayGlobally;
    StepParts(owner, maxUsers, m, e, next);
    Gated(m.perms, owner, m.channels, m.clients, maxUsers, e.client, e.cmd);
    MayGloballyIff(m.perms, m.channels, m.clients, owner, maxUsers, e.client, ROLES);
    HasIs(owner, m, e.client, ROLES);
    RunOfOne(owner, m, e);
  }

  lemma {:induction false} RunOfOne(owner: Option<Fingerprint>, m: Moment, e: Event)
    requires e.Roles?
    ensures Hierarchy.Run(m.perms, owner, Commanded(owner, m, e)) ==
            if && Accepts(m.perms, owner, m.clients, e.client, e.cmd)
               && Persists(m.tables, m.perms, e.cmd, e.stored, e.alsoStored)
            then Committed(m.perms, owner, m.clients, e.client, e.cmd) else m.perms
  {
    hide Persists, Hierarchy.After, Hierarchy.Execute;
    var script := Commanded(owner, m, e);
    assert script != [] ==> script[1..] == [];
  }

  lemma {:induction false} RecordedKeeps(clients: Clients, cmd: RoleCommand, x: ClientId)
    ensures Recorded(clients, cmd).Keys == clients.Keys
    ensures x in clients ==> Recorded(clients, cmd)[x].info.(roles := []) == clients[x].info.(roles := [])
  {
    hide RemoveGrant;
  }

  /** Whoever stays connected is recorded with the grants the table now has for them, and otherwise as before. */
  lemma {:induction false} RecordsFollow(owner: Option<Fingerprint>, maxUsers: nat, m: Moment, e: Event, next: Moment,
                                         x: ClientId)
    requires Stepped(owner, maxUsers, m, e, next) && e.Roles? && x in next.clients
    ensures x in m.clients
    ensures next.clients[x].info == m.clients[x].info.(roles := Grants(next.perms, Who(m, x)))
  {
    hide ValidState, Stepped, Commanded, Recorded, Grants;
    StepParts(owner, maxUsers, m, e, next);
    RecordedKeeps(m.clients, e.cmd, x);
    RecordedAs(next.perms, next.channels, next.clients, owner, maxUsers, x);
  }

  /** The standing of the sender, as the handler reads it. */
  lemma {:induction false} ActorIs(owner: Option<Fingerprint>, maxUsers: nat, m: Moment, c: ClientId)
    requires ValidAt(owner, maxUsers, m) && c in m.clients
    ensures var actor := ActorOf(m.perms, Who(m, c), owner);
            && actor.roles == Grants(m.perms, Who(m, c)) && actor.owner == (owner == Some(Who(m, c)))
            && (forall bits :: MayGrant(actor, bits * ALL) <==>
                  forall b :: b in bits && Known(b) ==> Has(owner, m, c, b))
  {
    hide ValidState, Resolve, InBase;
    OkChannels(owner, maxUsers, m);
    var actor := ActorOf(m.perms, Who(m, c), owner);
    forall b: Bit | Known(b) ensures b in actor.base <==> Has(owner, m, c, b) {
      ResolvesTo(m.perms, owner, Who(m, c), b);
    }
    assert forall b: Bit :: b in ALL <==> Known(b);
  }

  /** The subset rule for bits the role does not have yet. */
  lemma {:induction false} AddedBits(owner: Option<Fingerprint>, maxUsers: nat, m: Moment, c: ClientId,
                                     bits: Permissions, had: Permissions)
    requires ValidAt(owner, maxUsers, m) && c in m.clients
    ensures MayGrant(ActorOf(m.perms, Who(m, c), owner), bits * ALL - had) <==>
            forall b :: b in bits && Known(b) && b !in had ==> Has(owner, m, c, b)
  {
    hide ActorOf, ValidAt, Has;
    ActorIs(owner, maxUsers, m, c);
    assert (bits - had) * ALL == bits * ALL - had;
  }

  // ---- Creating --------------------------------------------------------------------------------------------

  ghost predicate MayCreate(owner: Option<Fingerprint>, m: Moment, c: ClientId, name: string,
                            permissions: Permissions) {
    && Has(owner, m, c, ROLES) && Named(name)
    && forall b :: b in permissions && Known(b) ==> Has(owner, m, c, b)
  }

  function MovedUp(r: Option<Role>): Option<Role> {
    if r.Some? then Some(r.value.(position := if r.value.position == 0 then 0 else r.value.position + 1)) else None
  }

  /** One role more, just above @everyone, with the known bits asked for; every other moves up and is what it was. */
  ghost predicate RoleAdded(ps: PermState, next: PermState, name: string, permissions: Permissions) {
    && next.members == ps.members
    && exists role: Role ::
         && (forall r :: r in ps.roles ==> r.id < role.id) && role.position == 1 && role.color == None
         && IsTrimmed(name, role.name) && (forall b :: b in role.permissions <==> b in permissions && Known(b))
         && forall x :: FindRole(next.roles, x) == if x == role.id then Some(role) else MovedUp(FindRole(ps.roles, x))
  }

  lemma {:induction false} CreatedLookup(roles: seq<Role>, role: Role, x: RoleId)
    requires TableOk(roles) && TableOk(CreatedTable(roles, role))
    ensures FindRole(CreatedTable(roles, role), x) == if x == role.id then Some(role) else MovedUp(FindRole(roles, x))
  {
    hide FindRole, UniqueIds, CreatedTable;
    var table := CreatedTable(roles, role);
    TableIndex(table, 1);
    if x != role.id && Exists(table, x) {
      WasThere(roles, role, x);
    }
    if x != role.id && Exists(roles, x) {
      var i := IndexOf(roles, x);
      TableIndex(table, if i == 0 then 0 else i + 1);
    }
  }

  lemma {:induction false} WasThere(roles: seq<Role>, role: Role, x: RoleId)
    requires TableOk(roles) && TableOk(CreatedTable(roles, role))
    requires x != role.id && Exists(CreatedTable(roles, role), x)
    ensures Exists(roles, x)
  {
    hide FindRole, UniqueIds, CreatedTable;
    var i := IndexOf(CreatedTable(roles, role), x);
    assert roles[if i == 0 then 0 else i - 1] in roles;
  }

  /** What the new role is, apart from where the table puts it. */
  lemma NewRoleIs(ps: PermState, name: string, permissions: Permissions)
    ensures var role := NewRole(ps, name, permissions);
            && (forall r :: r in ps.roles ==> r.id < role.id) && role.position == 1 && role.color == None
            && IsTrimmed(name, role.name) && (forall b :: b in role.permissions <==> b in permissions && Known(b))
  {
    hide Trim, IsTrimmed;
    TrimIs(name);
    assert forall b: Bit :: b in ALL <==> Known(b);
  }

  lemma {:induction false} CreateDoes(ps: PermState, name: string, permissions: Permissions)
    requires PermsOk(ps)
    ensures RoleAdded(ps, AfterCreate(ps, NewRole(ps, name, permissions)), name, permissions)
  {
    hide FindRole, NewRole, MovedUp, IsTrimmed, AfterCreate, CreatedTable, Known;
    var role := NewRole(ps, name, permissions);
    OkTable(ps);
    hide TableOk, PermsOk;
    CreateShape(ps, name, permissions);
    NewRoleIs(ps, name, permissions);
    forall x ensures FindRole(CreatedTable(ps.roles, role), x) ==
                     if x == role.id then Some(role) else MovedUp(FindRole(ps.roles, x))
    {
      CreatedLookup(ps.roles, role, x);
    }
  }

  lemma {:induction false} CreateRoleOutcome(owner: Option<Fingerprint>, maxUsers: nat, m: Moment, e: Event,
                                             next: Moment)
    requires ValidAt(owner, maxUsers, m) && Stepped(owner, maxUsers, m, e, next)
    requires e.Roles? && e.cmd.CreateRole?
    ensures || next.perms == m.perms
            || (&& e.stored && e.alsoStored && MayCreate(owner, m, e.client, e.cmd.name, e.cmd.permissions)
                && RoleAdded(m.perms, next.perms, e.cmd.name, e.cmd.permissions))
    ensures && e.stored && e.alsoStored && MayCreate(owner, m, e.client, e.cmd.name, e.cmd.permissions)
            && Synced(m.tables, m.perms, m.channels) ==>
              RoleAdded(m.perms, next.perms, e.cmd.name, e.cmd.permissions)
    ensures next.channels == m.channels
  {
    hide ValidState, Stepped, RoleAdded, Named, Trim, AfterCreate, NewRole, ActorOf, MayGrant, SetRolePositions;
    hide PermsOk, TableOk, ChannelsOk;
    OkChannels(owner, maxUsers, m);
    Commits(owner, maxUsers, m, e, next);
    StepParts(owner, maxUsers, m, e, next);
    TrimIs(e.cmd.name);
    if e.client in m.clients {
      ActorIs(owner, maxUsers, m, e.client);
    }
    CreateDoes(m.perms, e.cmd.name, e.cmd.permissions);
    if Synced(m.tables, m.perms, m.channels) {
      InsertGoes(m.tables, m.perms, e.cmd.name, e.cmd.permissions);
    }
  }

  lemma InsertGoes(t: Tables, ps: PermState, name: string, permissions: Permissions)
    requires RowsMatch(t.roles, ps.roles) && PermsOk(ps)
    ensures InsertRole(SetRolePositions(t.roles, ShiftedPositions(ps.roles)), NewRole(ps, name, permissions)).Some?
  {
    hide SetRolePositions, InsertRole, RowsMatch, NewRole, AfterCreate;
    CreateMatches(t.roles, ps, name, permissions);
  }

  // ---- Editing ---------------------------------------------------------------------------------------------

  ghost predicate MayEdit(owner: Option<Fingerprint>, m: Moment, c: ClientId, cmd: RoleCommand)
    requires cmd.UpdateRole?
  {
    && Has(owner, m, c, ROLES) && FindRole(m.perms.roles, cmd.id).Some?
    && var r := FindRole(m.perms.roles, cmd.id).value;
    && Manages(m.perms, owner, Who(m, c), r)
    && (cmd.newName.Some? ==> cmd.id != EVERYONE && Named(cmd.newName.value))
    && (cmd.newBits.Some? ==>
          forall b :: b in cmd.newBits.value && Known(b) && b !in r.permissions ==> Has(owner, m, c, b))
  }

  /** The role has what it was given, and what it was not given is as it was; its id and place are untouched. */
  ghost predicate Edited(was: Role, now: Role, cmd: RoleCommand)
    requires cmd.UpdateRole?
  {
    && now.id == was.id && now.position == was.position
    && (if cmd.newName.Some? then IsTrimmed(cmd.newName.value, now.name) else now.name == was.name)
    && now.color == (if cmd.newColor.Some? then cmd.newColor.value else was.color)
    && forall b :: b in now.permissions <==>
         if cmd.newBits.Some? then b in cmd.newBits.value && Known(b) else b in was.permissions
  }

  ghost predicate OnlyEdited(ps: PermState, next: PermState, cmd: RoleCommand)
    requires cmd.UpdateRole?
  {
    && next.members == ps.members
    && (forall x :: x != cmd.id ==> FindRole(next.roles, x) == FindRole(ps.roles, x))
    && FindRole(ps.roles, cmd.id).Some? && FindRole(next.roles, cmd.id).Some?
    && Edited(FindRole(ps.roles, cmd.id).value, FindRole(next.roles, cmd.id).value, cmd)
  }

  lemma {:induction false} EditIsDone(existing: Role, cmd: RoleCommand)
    requires cmd.UpdateRole?
    ensures Edited(existing, Updated(existing, cmd), cmd)
  {
    hide Trim, IsTrimmed;
    if cmd.newName.Some? {
      TrimIs(cmd.newName.value);
    }
    assert forall b: Bit :: b in ALL <==> Known(b);
  }

  lemma {:induction false} EditDoes(ps: PermState, cmd: RoleCommand)
    requires PermsOk(ps) && cmd.UpdateRole? && FindRole(ps.roles, cmd.id).Some?
    ensures OnlyEdited(ps, ps.(roles := ReplaceRole(ps.roles, Updated(FindRole(ps.roles, cmd.id).value, cmd))), cmd)
  {
    hide Edited, Trim, FindRole;
    var k := IndexOf(ps.roles, cmd.id);
    var updated := Updated(ps.roles[k], cmd);
    EditIsDone(ps.roles[k], cmd);
    ReplaceShape(ps.roles, updated, k);
    UpdatedTableOk(ps.roles, k, updated);
    TableIndex(ps.roles[k := updated], k);
    forall x | x != cmd.id ensures FindRole(ps.roles[k := updated], x) == FindRole(ps.roles, x) {
      UpdateLookup(ps.roles, k, updated, x);
    }
  }

  lemma {:induction false} EditRoleOutcome(owner: Option<Fingerprint>, maxUsers: nat, m: Moment, e: Event, next: Moment)
    requires ValidAt(owner, maxUsers, m) && Stepped(owner, maxUsers, m, e, next)
    requires e.Roles? && e.cmd.UpdateRole?
    ensures if e.stored && MayEdit(owner, m, e.client, e.cmd) then OnlyEdited(m.perms, next.perms, e.cmd)
            else next.perms == m.perms
    ensures next.channels == m.channels
  {
    hide ValidState, Stepped, OnlyEdited, Named, Trim, ReplaceRole, Updated, ActorOf, MayGrant, Manages, FindRole;
    hide PermsOk, ChannelsOk, Has, CanManageRole;
    OkChannels(owner, maxUsers, m);
    Commits(owner, maxUsers, m, e, next);
    StepParts(owner, maxUsers, m, e, next);
    if e.cmd.newName.Some? {
      TrimIs(e.cmd.newName.value);
    }
    HasIs(owner, m, e.client, ROLES);
    if FindRole(m.perms.roles, e.cmd.id).Some? {
      EditDoes(m.perms, e.cmd);
      if e.client in m.clients {
        var r := FindRole(m.perms.roles, e.cmd.id).value;
        FoundIn(m.perms.roles, e.cmd.id);
        ActorIs(owner, maxUsers, m, e.client);
        CanManageIff(m.perms, owner, Who(m, e.client), r);
        if e.cmd.newBits.Some? {
          AddedBits(owner, maxUsers, m, e.client, e.cmd.newBits.value, r.permissions);
        }
      }
    }
  }

  lemma FoundIn(roles: seq<Role>, id: RoleId)
    requires FindRole(roles, id).Some?
    ensures FindRole(roles, id).value in roles && FindRole(roles, id).value.id == id
  {
  }

  // ---- Deleting --------------------------------------------------------------------------------------------

  ghost predicate MayDelete(owner: Option<Fingerprint>, m: Moment, c: ClientId, id: RoleId) {
    && Has(owner, m, c, ROLES) && id != EVERYONE && FindRole(m.perms.roles, id).Some?
    && Manages(m.perms, owner, Who(m, c), FindRole(m.perms.roles, id).value)
  }

  function MovedDown(r: Option<Role>, from: nat): Option<Role> {
    if r.Some? && r.value.position > from then Some(r.value.(position := r.value.position - 1)) else r
  }

  /**
  The role is gone from the table, the grants and the overwrites; those above it move down; all else is as it was.
  */
  ghost predicate RoleGone(m: Moment, next: Moment, id: RoleId) {
    && FindRole(m.perms.roles, id).Some?
    && (forall x :: FindRole(next.perms.roles, x) ==
          if x == id then None
          else MovedDown(FindRole(m.perms.roles, x), FindRole(m.perms.roles, id).value.position))
    && (forall who, x :: x in Grants(next.perms, who) <==> x in Grants(m.perms, who) && x != id)
    && next.channels.Keys == m.channels.Keys
    && (forall c :: c in m.channels ==> next.channels[c].(overwrites := []) == m.channels[c].(overwrites := []))
    && forall c, t :: c in m.channels ==>
         OverwriteFor(next.channels[c].overwrites, t) ==
         if t == ForRole(id) then None else OverwriteFor(m.channels[c].overwrites, t)
  }

  lemma {:induction false} WasBeside(roles: seq<Role>, k: nat, x: RoleId)
    requires TableOk(roles) && 0 < k < |roles| && TableOk(DeletedTable(roles, k)) && Exists(DeletedTable(roles, k), x)
    ensures Exists(roles, x) && x != roles[k].id
  {
    hide FindRole, UniqueIds, DeletedTable;
    var i := IndexOf(DeletedTable(roles, k), x);
    var j := if i < k then i else i + 1;
    TableIndex(roles, j);
    TableIndex(roles, k);
  }

  lemma {:induction false} DeletedLookup(roles: seq<Role>, k: nat, x: RoleId)
    requires TableOk(roles) && 0 < k < |roles| && TableOk(DeletedTable(roles, k))
    ensures FindRole(DeletedTable(roles, k), x) ==
            if x == roles[k].id then None else MovedDown(FindRole(roles, x), k)
  {
    hide FindRole, UniqueIds, DeletedTable;
    var table := DeletedTable(roles, k);
    if Exists(table, x) {
      WasBeside(roles, k, x);
    }
    if x != roles[k].id && Exists(roles, x) {
      var i := IndexOf(roles, x);
      TableIndex(table, if i < k then i else i - 1);
    }
  }

  lemma {:induction false} DeleteDoes(ps: PermState, k: nat)
    requires PermsOk(ps) && 0 < k < |ps.roles|
    ensures var next := AfterDelete(ps, ps.roles[k].id);
            && (forall x :: FindRole(next.roles, x) ==
                  if x == ps.roles[k].id then None else MovedDown(FindRole(ps.roles, x), k))
            && (forall who, x :: x in Grants(next, who) <==> x in Grants(ps, who) && x != ps.roles[k].id)
  {
    hide FindRole, MovedDown, SortByPosition, Renumber, RemoveRole;
    DeleteShape(ps, k);
    forall x ensures FindRole(DeletedTable(ps.roles, k), x) ==
                     if x == ps.roles[k].id then None else MovedDown(FindRole(ps.roles, x), k)
    {
      DeletedLookup(ps.roles, k, x);
    }
  }

  lemma {:induction false} StripDoes(channels: ChannelMap, id: RoleId)
    requires ChannelsOk(channels)
    ensures var next := StripRole(channels, id);
            && next.Keys == channels.Keys
            && (forall c :: c in channels ==> next[c].(overwrites := []) == channels[c].(overwrites := []))
            && forall c, t :: c in channels ==>
                 OverwriteFor(next[c].overwrites, t) ==
                 if t == ForRole(id) then None else OverwriteFor(channels[c].overwrites, t)
  {
    hide OverwriteFor;
    forall c, t | c in channels
      ensures OverwriteFor(DropTarget(channels[c].overwrites, ForRole(id)), t) ==
              if t == ForRole(id) then None else OverwriteFor(channels[c].overwrites, t)
    {
      DropTargetLookup(channels[c].overwrites, ForRole(id), t);
    }
  }

  lemma {:induction false} DeleteRoleOutcome(owner: Option<Fingerprint>, maxUsers: nat, m: Moment, e: Event,
                                             next: Moment)
    requires ValidAt(owner, maxUsers, m) && Stepped(owner, maxUsers, m, e, next)
    requires e.Roles? && e.cmd.DeleteRole?
    ensures if e.stored && MayDelete(owner, m, e.client, e.cmd.id) then RoleGone(m, next, e.cmd.id)
            else next.perms == m.perms && next.channels == m.channels
  {
    hide ValidState, Stepped, ActorOf, Manages, FindRole, PermsOk, ChannelsOk, Has, CanManageRole, AfterDelete;
    hide StripRole, MovedDown, OverwriteFor, Grants;
    OkChannels(owner, maxUsers, m);
    Commits(owner, maxUsers, m, e, next);
    CommandsIff(owner, maxUsers, m, e, next);
    HasIs(owner, m, e.client, ROLES);
    if FindRole(m.perms.roles, e.cmd.id).Some? {
      OkTable(m.perms);
      var k := IndexOf(m.perms.roles, e.cmd.id);
      FoundIn(m.perms.roles, e.cmd.id);
      if k > 0 {
        DeleteDoes(m.perms, k);
        StripDoes(m.channels, e.cmd.id);
      }
      if e.client in m.clients {
        ActorIs(owner, maxUsers, m, e.client);
        CanManageIff(m.perms, owner, Who(m, e.client), m.perms.roles[k]);
      }
    }
  }

  lemma OkTable(ps: PermState)
    requires PermsOk(ps)
    ensures TableOk(ps.roles)
  {
  }

  /** What becomes of the channels with a role command. */
  lemma {:induction false} CommandsIff(owner: Option<Fingerprint>, maxUsers: nat, m: Moment, e: Event, next: Moment)
    requires ValidAt(owner, maxUsers, m) && Stepped(owner, maxUsers, m, e, next) && e.Roles?
    ensures var done := && Has(owner, m, e.client, ROLES)
                        && Decide(m.perms, ActorOf(m.perms, Who(m, e.client), owner), owner, e.cmd).Accepted?
                        && Persists(m.tables, m.perms, e.cmd, e.stored, e.alsoStored);
            next.channels == if e.cmd.DeleteRole? && done then StripRole(m.channels, e.cmd.id) else m.channels
  {
    hide Decide, Persists, ValidState, Stepped, Has, MayGlobally, StripRole;
    StepParts(owner, maxUsers, m, e, next);
    Gated(m.perms, owner, m.channels, m.clients, maxUsers, e.client, e.cmd);
    MayGloballyIff(m.perms, m.channels, m.clients, owner, maxUsers, e.client, ROLES);
    HasIs(owner, m, e.client, ROLES);
  }

  // ---- Reordering ------------------------------------------------------------------------------------------

  ghost predicate Gives(positions: Positions, p: nat) { exists k :: 0 <= k < |positions| && positions[k].1 == p }

  /** Every role is named, every position from 0 up is given, and there are no more entries than roles. */
  ghost predicate Rearranges(roles: seq<Role>, positions: Positions) {
    && |positions| == |roles|
    && (forall r :: r in roles ==> exists k :: 0 <= k < |positions| && positions[k].0 == r.id)
    && (forall p: nat :: p < |roles| ==> Gives(positions, p))
  }

  /** Without one of its elements. */
  function Without(given: seq<nat>, k: nat): seq<nat>
    requires k < |given|
  {
    given[..k] + given[k + 1..]
  }

  lemma WithoutCounts(given: seq<nat>, k: nat)
    requires k < |given|
    ensures multiset(given) == multiset(Without(given, k)) + multiset{given[k]}
  {
    assert given == given[..k] + [given[k]] + given[k + 1..];
  }

  lemma {:induction false} WithoutKeeps(given: seq<nat>, k: nat, p: nat)
    requires k < |given| && p in given && p != given[k]
    ensures p in Without(given, k)
  {
    var i :| 0 <= i < |given| && given[i] == p;
    assert Without(given, k)[if i < k then i else i - 1] == p;
  }

  lemma {:induction false} OntoIsRange(given: seq<nat>, n: nat)
    requires |given| == n && forall p: nat :: p < n ==> p in given
    ensures multiset(given) == multiset(Range(n))
    decreases n
  {
    hide Without;
    if n > 0 {
      assert (n - 1) as nat in given;
      var k :| 0 <= k < |given| && given[k] == n - 1;
      WithoutShorter(given, k);
      forall p: nat | p < n - 1 ensures p in Without(given, k) {
        WithoutKeeps(given, k, p);
      }
      OntoIsRange(Without(given, k), n - 1);
      WithoutCounts(given, k);
      assert Range(n) == Range(n - 1) + [n - 1];
    } else {
      assert given == [] && Range(0) == [];
    }
  }

  lemma WithoutShorter(given: seq<nat>, k: nat)
    requires k < |given|
    ensures |Without(given, k)| == |given| - 1
  {
  }

  lemma {:induction false} RearrangesIff(roles: seq<Role>, positions: Positions)
    ensures NamesEveryRoleDensely(roles, positions) <==> Rearranges(roles, positions)
  {
    hide FindPosition;
    var given := seq(|positions|, i requires 0 <= i < |positions| => positions[i].1);
    forall i | 0 <= i < |roles|
      ensures FindPosition(positions, roles[i].id).Some? <==>
              exists k :: 0 <= k < |positions| && positions[k].0 == roles[i].id
    {
      FoundPosition(positions, roles[i].id);
    }
    if NamesEveryRoleDensely(roles, positions) {
      forall r | r in roles ensures exists k :: 0 <= k < |positions| && positions[k].0 == r.id {
        var i :| 0 <= i < |roles| && roles[i] == r;
      }
      forall p: nat | p < |roles| ensures Gives(positions, p) {
        RangeCounts(|roles|, p);
        assert p in multiset(given);
        var k :| 0 <= k < |given| && given[k] == p;
        assert positions[k].1 == p;
      }
    }
    if Rearranges(roles, positions) {
      forall p: nat | p < |roles| ensures p in given {
        assert Gives(positions, p);
        var k :| 0 <= k < |positions| && positions[k].1 == p;
        assert given[k] == p;
      }
      OntoIsRange(given, |roles|);
      forall i | 0 <= i < |roles| ensures FindPosition(positions, roles[i].id).Some? {
        assert roles[i] in roles;
      }
    }
  }

  lemma FoundPosition(positions: Positions, id: RoleId)
    ensures FindPosition(positions, id).Some? <==> exists k :: 0 <= k < |positions| && positions[k].0 == id
  {
  }

  /** Only those below a role the sender holds move, and they stay below it. */
  ghost predicate MovesBelow(owner: Option<Fingerprint>, m: Moment, who: Fingerprint, positions: Positions) {
    owner == Some(who) ||
    forall k, r :: 0 <= k < |positions| && r in m.perms.roles && r.id == positions[k].0 ==>
      || r.position == positions[k].1
      || (Over(m.perms, who, r.position) && Over(m.perms, who, positions[k].1))
  }

  ghost predicate MayReorder(owner: Option<Fingerprint>, m: Moment, c: ClientId, positions: Positions) {
    && Has(owner, m, c, ROLES) && Rearranges(m.perms.roles, positions)
    && (forall k :: 0 <= k < |positions| && positions[k].0 == EVERYONE ==> positions[k].1 == 0)
    && MovesBelow(owner, m, Who(m, c), positions)
  }

  lemma {:induction false} EntriesNameRoles(roles: seq<Role>, positions: Positions, k: nat) returns (r: Role)
    requires UniqueIds(roles) && Rearranges(roles, positions) && k < |positions|
    ensures r in roles && r.id == positions[k].0
  {
    var ids := seq(|positions|, i requires 0 <= i < |positions| => positions[i].0);
    var needed := seq(|roles|, i requires 0 <= i < |roles| => roles[i].id);
    forall i | 0 <= i < |needed| ensures needed[i] in ids {
      assert roles[i] in roles;
      var j :| 0 <= j < |positions| && positions[j].0 == roles[i].id;
      assert ids[j] == needed[i];
    }
    CoverIsDistinct(ids, needed);
    assert ids[k] in needed;
    var i :| 0 <= i < |needed| && needed[i] == ids[k];
    r := roles[i];
  }

  lemma {:induction false} MovesBelowIff(owner: Option<Fingerprint>, maxUsers: nat, m: Moment, who: Fingerprint,
                                         positions: Positions)
    requires ValidAt(owner, maxUsers, m) && Rearranges(m.perms.roles, positions)
    ensures MovesBelow(owner, m, who, positions) <==>
            owner == Some(who)
            || MovesOnlyBelow(m.perms.roles, positions, TopRolePosition(m.perms.roles, Grants(m.perms, who)))
  {
    hide ValidState, PermsOk, Over, FindRole, Rearranges, UniqueIds;
    OkChannels(owner, maxUsers, m);
    Unique(m.perms);
    var roles, top := m.perms.roles, TopRolePosition(m.perms.roles, Grants(m.perms, who));
    forall p ensures Over(m.perms, who, p) <==> p < top {
      OverIff(m.perms, who, p);
    }
    if MovesOnlyBelow(roles, positions, top) {
      forall k, r | 0 <= k < |positions| && r in roles && r.id == positions[k].0
        ensures r.position == positions[k].1
                || (Over(m.perms, who, r.position) && Over(m.perms, who, positions[k].1))
      {
        FindRoleIs(roles, r);
      }
    }
    if owner != Some(who) && MovesBelow(owner, m, who, positions) {
      forall k | 0 <= k < |positions|
        ensures var was := match FindRole(roles, positions[k].0) { case Some(r) => r.position case None => 0 };
                was == positions[k].1 || (was < top && positions[k].1 < top)
      {
        var r := EntriesNameRoles(roles, positions, k);
        FindRoleIs(roles, r);
      }
    }
  }

  /** Every role listed is where the list says, and otherwise what it was. */
  ghost predicate Repositioned(ps: PermState, next: PermState, positions: Positions) {
    && next.members == ps.members
    && (forall x :: FindRole(ps.roles, x).None? ==> FindRole(next.roles, x).None?)
    && forall k :: 0 <= k < |positions| ==>
         && FindRole(ps.roles, positions[k].0).Some?
         && FindRole(next.roles, positions[k].0) ==
            Some(FindRole(ps.roles, positions[k].0).value.(position := positions[k].1))
  }

  lemma {:induction false} ReorderDoes(ps: PermState, positions: Positions)
    requires PermsOk(ps) && NamesEveryRoleDensely(ps.roles, positions)
    ensures Repositioned(ps, AfterReorder(ps, positions), positions)
  {
    hide FindRole, FindPosition, NamesEveryRoleDensely, SortByPosition, TableOk;
    OkTable(ps);
    var next := AfterReorder(ps, positions).roles;
    Unique(ps);
    ReorderShape(ps, positions);
    PositionsDistinct(ps.roles, positions);
    RearrangesIff(ps.roles, positions);
    forall k | 0 <= k < |positions|
      ensures && FindRole(ps.roles, positions[k].0).Some?
              && FindRole(next, positions[k].0) ==
                 Some(FindRole(ps.roles, positions[k].0).value.(position := positions[k].1))
    {
      var r := EntriesNameRoles(ps.roles, positions, k);
      FindRoleIs(ps.roles, r);
      FindPositionAt(positions, k);
      var i :| 0 <= i < |ps.roles| && ps.roles[i] == r;
      assert Placed(r, positions) in next;
      FindRoleIs(next, Placed(r, positions));
    }
    forall x | FindRole(ps.roles, x).None? ensures FindRole(next, x).None? {
      if FindRole(next, x).Some? {
        NoNewRole(ps, positions, x);
      }
    }
  }

  lemma {:induction false} NoNewRole(ps: PermState, positions: Positions, x: RoleId)
    requires FindRole(AfterReorder(ps, positions).roles, x).Some?
    ensures FindRole(ps.roles, x).Some?
  {
    var r := FindRole(AfterReorder(ps, positions).roles, x).value;
    var placed := Reposition(ps.roles, positions);
    assert r in placed;
    var i :| 0 <= i < |placed| && placed[i] == r;
    assert ps.roles[i] in ps.roles;
  }

  lemma {:induction false} ReorderOutcome(owner: Option<Fingerprint>, maxUsers: nat, m: Moment, e: Event, next: Moment)
    requires ValidAt(owner, maxUsers, m) && Stepped(owner, maxUsers, m, e, next)
    requires e.Roles? && e.cmd.ReorderRoles?
    ensures if e.stored && MayReorder(owner, m, e.client, e.cmd.positions)
            then Repositioned(m.perms, next.perms, e.cmd.positions)
            else next.perms == m.perms
    ensures next.channels == m.channels
  {
    hide ValidState, Stepped, ActorOf, PermsOk, ChannelsOk, Has, AfterReorder, Repositioned, Rearranges, MovesBelow;
    hide NamesEveryRoleDensely, MovesOnlyBelow;
    OkChannels(owner, maxUsers, m);
    Commits(owner, maxUsers, m, e, next);
    StepParts(owner, maxUsers, m, e, next);
    HasIs(owner, m, e.client, ROLES);
    RearrangesIff(m.perms.roles, e.cmd.positions);
    if Rearranges(m.perms.roles, e.cmd.positions) {
      ReorderDoes(m.perms, e.cmd.positions);
      if e.client in m.clients {
        ActorIs(owner, maxUsers, m, e.client);
        MovesBelowIff(owner, maxUsers, m, Who(m, e.client), e.cmd.positions);
      }
    }
  }

  // ---- Granting --------------------------------------------------------------------------------------------

  ghost predicate MayRegrant(owner: Option<Fingerprint>, m: Moment, c: ClientId, member: Fingerprint,
                             ids: seq<RoleId>) {
    && Has(owner, m, c, ROLES) && EVERYONE !in ids && (owner == Some(member) ==> Who(m, c) == member)
    && (forall id :: id in ids ==> exists r :: r in m.perms.roles && r.id == id)
    && forall r :: r in m.perms.roles && (r.id in ids) != (r.id in Grants(m.perms, member)) ==>
         Manages(m.perms, owner, Who(m, c), r)
  }

  lemma {:induction false} DiffIff(owner: Option<Fingerprint>, maxUsers: nat, m: Moment, c: ClientId,
                                   member: Fingerprint, ids: seq<RoleId>)
    requires ValidAt(owner, maxUsers, m) && c in m.clients
    requires forall id :: id in ids ==> exists r :: r in m.perms.roles && r.id == id
    ensures DiffIsManageable(m.perms, ActorOf(m.perms, Who(m, c), owner), member, ids) <==>
            forall r :: r in m.perms.roles && (r.id in ids) != (r.id in Grants(m.perms, member)) ==>
              Manages(m.perms, owner, Who(m, c), r)
  {
    hide ValidState, Manages, CanManageRole, ActorOf, PermsOk, FindRole;
    OkChannels(owner, maxUsers, m);
    ActorIs(owner, maxUsers, m, c);
    var held := Grants(m.perms, member);
    var actor := ActorOf(m.perms, Who(m, c), owner);
    forall r | r in m.perms.roles
      ensures CanManageRole(m.perms.roles, actor.roles, actor.owner, r.id) <==> Manages(m.perms, owner, Who(m, c), r)
    {
      CanManageIff(m.perms, owner, Who(m, c), r);
    }
    if forall r :: r in m.perms.roles && (r.id in ids) != (r.id in held) ==> Manages(m.perms, owner, Who(m, c), r) {
      forall i | 0 <= i < |held|
        ensures held[i] in ids || CanManageRole(m.perms.roles, actor.roles, actor.owner, held[i])
      {
        var r := HeldRole(m.perms, member, i);
      }
      forall i | 0 <= i < |ids|
        ensures ids[i] in held || CanManageRole(m.perms.roles, actor.roles, actor.owner, ids[i])
      {
        assert ids[i] in ids;
        var r :| r in m.perms.roles && r.id == ids[i];
      }
    }
    if DiffIsManageable(m.perms, actor, member, ids) {
      forall r | r in m.perms.roles && (r.id in ids) != (r.id in held) ensures Manages(m.perms, owner, Who(m, c), r) {
        if r.id in ids {
          var i :| 0 <= i < |ids| && ids[i] == r.id;
          assert ids[i] in held || CanManageRole(m.perms.roles, actor.roles, actor.owner, ids[i]);
        } else {
          var i :| 0 <= i < |held| && held[i] == r.id;
          assert held[i] in ids || CanManageRole(m.perms.roles, actor.roles, actor.owner, held[i]);
        }
      }
    }
  }

  lemma {:induction false} HeldRole(ps: PermState, member: Fingerprint, i: nat) returns (r: Role)
    requires PermsOk(ps) && i < |Grants(ps, member)|
    ensures r in ps.roles && r.id == Grants(ps, member)[i]
  {
    assert Grantable(ps.roles, Grants(ps, member));
    r := FindRole(ps.roles, Grants(ps, member)[i]).value;
  }

  /** The member holds exactly what was listed; everybody else, and the table, is as it was. */
  ghost predicate Regrants(ps: PermState, next: PermState, member: Fingerprint, ids: seq<RoleId>) {
    next.roles == ps.roles &&
    forall who :: Grants(next, who) == if who == member then ids else Grants(ps, who)
  }

  lemma {:induction false} GrantVerdict(ps: PermState, actor: Actor, owner: Option<Fingerprint>, member: Fingerprint,
                                        ids: seq<RoleId>)
    ensures var verdict := Decide(ps, actor, owner, SetMemberRoles(member, ids));
            && (verdict.Accepted? <==>
                  && EVERYONE !in ids && (forall id :: id in ids ==> exists r :: r in ps.roles && r.id == id)
                  && (owner == Some(member) ==> actor.owner) && DiffIsManageable(ps, actor, member, ids))
            && (verdict.Accepted? ==> Regrants(ps, verdict.value, member, ids))
  {
    hide DiffIsManageable, FindRole;
    AllExist(ps.roles, ids);
  }

  lemma {:induction false} GrantOutcome(owner: Option<Fingerprint>, maxUsers: nat, m: Moment, e: Event, next: Moment)
    requires ValidAt(owner, maxUsers, m) && Stepped(owner, maxUsers, m, e, next)
    requires e.Roles? && e.cmd.SetMemberRoles?
    ensures if e.stored && NoRepeats(e.cmd.roles) && MayRegrant(owner, m, e.client, e.cmd.member, e.cmd.roles)
            then Regrants(m.perms, next.perms, e.cmd.member, e.cmd.roles)
            else next.perms == m.perms
    ensures next.channels == m.channels
  {
    hide ValidState, ValidAt, Stepped, ActorOf, Decide, Regrants, Has, DiffIsManageable, Manages, NoRepeats;
    Commits(owner, maxUsers, m, e, next);
    StepParts(owner, maxUsers, m, e, next);
    HasIs(owner, m, e.client, ROLES);
    if e.client in m.clients {
      ActorIs(owner, maxUsers, m, e.client);
      GrantVerdict(m.perms, ActorOf(m.perms, Who(m, e.client), owner), owner, e.cmd.member, e.cmd.roles);
      if forall id :: id in e.cmd.roles ==> exists r :: r in m.perms.roles && r.id == id {
        DiffIff(owner, maxUsers, m, e.client, e.cmd.member, e.cmd.roles);
      }
    }
  }

  lemma {:induction false} AllExist(roles: seq<Role>, ids: seq<RoleId>)
    ensures (forall i :: 0 <= i < |ids| ==> Exists(roles, ids[i])) <==>
            forall id :: id in ids ==> exists r :: r in roles && r.id == id
  {
    hide FindRole;
    forall id ensures Exists(roles, id) <==> exists r :: r in roles && r.id == id {
      ThereIff(roles, id);
    }
    if forall i :: 0 <= i < |ids| ==> Exists(roles, ids[i]) {
      forall id | id in ids ensures exists r :: r in roles && r.id == id {
        var i :| 0 <= i < |ids| && ids[i] == id;
      }
    }
    if forall id :: id in ids ==> exists r :: r in roles && r.id == id {
      forall i | 0 <= i < |ids| ensures Exists(roles, ids[i]) {
        assert ids[i] in ids;
      }
    }
  }

  lemma {:induction false} ThereIff(roles: seq<Role>, id: RoleId)
    ensures Exists(roles, id) <==> exists r :: r in roles && r.id == id
  {
    if Exists(roles, id) {
      assert FindRole(roles, id).value in roles;
    }
  }

  // ---- What the sender is told -----------------------------------------------------------------------------

  /** What a role command asks for has come about. */
  ghost predicate Came(m: Moment, next: Moment, cmd: RoleCommand) {
    match cmd
    case CreateRole(name, permissions) => RoleAdded(m.perms, next.perms, name, permissions)
    case UpdateRole(_, _, _, _) => OnlyEdited(m.perms, next.perms, cmd)
    case DeleteRole(id) => RoleGone(m, next, id)
    case ReorderRoles(positions) => Repositioned(m.perms, next.perms, positions)
    case SetMemberRoles(member, ids) => Regrants(m.perms, next.perms, member, ids)
  }

  lemma {:induction false} CommitsCome(owner: Option<Fingerprint>, maxUsers: nat, m: Moment, e: Event, next: Moment)
    requires ValidAt(owner, maxUsers, m) && Stepped(owner, maxUsers, m, e, next) && e.Roles?
    requires Has(owner, m, e.client, ROLES) && Persists(m.tables, m.perms, e.cmd, e.stored, e.alsoStored)
    requires Decide(m.perms, ActorOf(m.perms, Who(m, e.client), owner), owner, e.cmd).Accepted?
    ensures Came(m, next, e.cmd)
  {
    hide ValidState, Stepped, ActorOf, PermsOk, ChannelsOk, Has, CanManageRole, AfterDelete, AfterCreate, AfterReorder;
    hide RoleAdded, OnlyEdited, MovedDown, OverwriteFor, Repositioned, FindRole, StripRole, ReplaceRole, MayGrant;
    hide NamesEveryRoleDensely, MovesOnlyBelow, DiffIsManageable, Updated, NewRole, Trim, SetRolePositions;
    OkChannels(owner, maxUsers, m);
    OkTable(m.perms);
    Commits(owner, maxUsers, m, e, next);
    CommandsIff(owner, maxUsers, m, e, next);
    match e.cmd
    case CreateRole(name, permissions) => CreateDoes(m.perms, name, permissions);
    case UpdateRole(_, _, _, _) => EditDoes(m.perms, e.cmd);
    case DeleteRole(id) =>
      var k := IndexOf(m.perms.roles, id);
      DeleteDoes(m.perms, k);
      StripDoes(m.channels, id);
    case ReorderRoles(positions) => ReorderDoes(m.perms, positions);
    case SetMemberRoles(_, _) =>
  }

  /**
  Who sends a role command is told last that it is done when what it asked for has come about, and that it failed when
  nothing has changed: never the one for the other.
  */
  lemma {:induction false} RoleAcknowledged(owner: Option<Fingerprint>, maxUsers: nat, m: Moment, e: Event,
                                            next: Moment)
    requires ValidAt(owner, maxUsers, m) && Stepped(owner, maxUsers, m, e, next)
    requires Answered(owner, maxUsers, m, e, next) && e.Roles? && e.client in next.clients
    ensures next.clients[e.client].queue != []
    ensures var queue := next.clients[e.client].queue;
            var last := queue[|queue| - 1];
            || (last == Ack(e.nonce) && Came(m, next, e.cmd))
            || (last.CommandFailed? && last.nonce == e.nonce && next.perms == m.perms && next.channels == m.channels)
  {
    hide ValidState, Stepped, ActorOf, Has, Decide, Persists, Came, StripRole, MayGlobally;
    HasIs(owner, m, e.client, ROLES);
    MayGloballyIff(m.perms, m.channels, m.clients, owner, maxUsers, e.client, ROLES);
    Commits(owner, maxUsers, m, e, next);
    CommandsIff(owner, maxUsers, m, e, next);
    if RoleRefusal(m.perms, owner, m.clients, e.client, e.cmd).None?
       && Persists(m.tables, m.perms, e.cmd, e.stored, e.alsoStored) {
      CommitsCome(owner, maxUsers, m, e, next);
    }
  }
}
