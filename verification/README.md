# Pickle, verified

A Dafny model of the parts of Pickle whose behaviour spans many functions and many messages, and proofs about them.

**Permissions and visibility.** The server keeps roles, grants, channels with overwrites, live sessions and a bounded
control queue per client; the desktop client folds the frames it receives into a mirror and resolves permissions with
the same function. `Perms` is that function; `Authority` what the gates come to, read off held roles, positions and
overwrites; `RoleTable` the role commands against one snapshot; `Hierarchy` rank safety
and `Minting` the bits-subset rule over runs, `ChannelBits` the same inside channels; `Channels` the parent forest and
overwrites; `Reuse` what a reused channel id inherits; `Mirror` frames and the client; `Visibility` and `ServerState` what it means for every client's view
to be right; `Store` the tables and the restart; `Plans` what each command is about to make true; `Events` one event as a
step and runs of steps; `Outcomes` and `RoleOutcomes` what each command does and when, stated from its own fields and
`Authority` alone; `Server` the server object, one method per handler, and its runs; `History` paging.

**Overlapping handlers.** A handler reads a snapshot, waits for the database and swaps its result in, so what it decided
on may be stale. `Interleaving` proves that every table published is well formed all the same. The rest can go wrong, and
the condition is exact: `Staleness` for clients' tables, `Races` for everything clients and sessions are left with,
`StoreRaces` for what the tables hold.

The central invariant is `ServerState.ValidState`: for every connected client, folding the frames still queued for it
gives exactly the server's role table, that member's grants, precisely the channels it may view, and everyone's standing.
Every handler keeps it, whatever order maps are iterated in and whoever is dropped for a full queue on the way; and it
drops nobody it need not: each contract bounds the frames a client is sent, and a client with room for them stays.

**Streaming audio.** `Resampling` is the rate converter against a one-shot convolution; `Capturing` and `Playing` are the
device boundary on either side of it.

**Voice state machines.** `Jitter` is the receive buffer, `Burst` the voice gate with the transmit half of capture,
`Mixing` the mixer.

Objects the source updates in place are classes whose methods are proved against functions on values; the theorems about
whole runs are lemmas about those functions and, for the server, about the traces `Server.Shared.Run` goes through.

`dafny verify dfyconfig.toml` checks everything.

## Model

| member | source | states |
|---|---|---|
| `Perms.ResolveLoops` | crates/pickle-proto/src/perms.rs:221-280 | the loops of `resolve` compute the declarative `Resolve`, role denies and allows collected before either is applied |
| `Perms.ResolveIsPrecedence` | crates/pickle-proto/src/perms.rs:213-280 | bit by bit, for a plain member in a channel: member allow, member deny, any held role's allow, any held role's deny, @everyone allow, @everyone deny, base, in that order, all masked by the VIEW_CHANNEL verdict, and bits outside the channel scope untouched by overwrites |
| `Perms.ResolveElsewhere` | crates/pickle-proto/src/perms.rs:221-250 | owner and administrator resolve to everything; outside a channel the union of @everyone and held roles decides |
| `Perms.ResolveCongruent` | crates/pickle-proto/src/perms.rs:193-280 | resolution depends on the role table only through the bits of held roles, on grants only as a set and on overwrites only through lookups |
| `Perms.ResolveIgnoresOrder` | crates/pickle-proto/src/perms.rs:221-291 | permuting id-unique roles or target-unique overwrites, and permuting or repeating grants, changes neither any answer nor any rank |
| `Perms.TopIsHeld` | crates/pickle-proto/src/perms.rs:282-291 | the top position is 0 or the position of a held role, and no held role sits above it |
| `Authority.MayGloballyIff` | crates/pickle-server/src/state.rs:715-731 | a connected member passes a gate outside channels exactly when they own the server, or a role they hold or @everyone has the administrator bit or the bit by its number |
| `Authority.MayInIff` | crates/pickle-server/src/state.rs:280-299 | and in a channel exactly when owner, administrator, or the precedence of its overwrites gives them both seeing it and the bit |
| `Authority.NamedDecides` | crates/pickle-proto/src/perms.rs:252-280 | a bit denied to a plain member by name is not among those they hold in the channel, and one allowed by name is, if they see it |
| `Authority.SummaryIff` | apps/desktop/src-tauri/src/perms.rs:296-330 | what the client shows of a channel is exactly whether those four bits are held there |
| `Authority.CanActOnIff` | crates/pickle-proto/src/perms.rs:296-316 | rank is a matter of held positions: the target is not the owner, and the actor is, or holds a role strictly above every role the target holds |
| `Authority.RankIsOneWay` | crates/pickle-proto/src/perms.rs:296-316 | of two members at most one may act on the other, and nobody on themselves |
| `Authority.CanManageIff` | crates/pickle-proto/src/perms.rs:318-340 | a role can be managed exactly by the owner and by whoever holds a role strictly above it |
| `Authority.AuthorizeIff` | crates/pickle-server/src/moderation.rs:42-74 | moderation of a connected member is authorised exactly for connected holders of the bit who so outrank them |
| `Authority.FreshServer` | crates/pickle-server/src/state.rs:136-165 | with the default roles a stranger sees, sends, reads, enters and speaks, a moderator also kicks, bans, mutes, moves and manages messages, an administrator holds everything |
| `Authority.FreshRanks` | crates/pickle-server/src/state.rs:136-165 | and each rung outranks those below it and no other |
| `RoleTable.SortIs` | crates/pickle-server/src/admin.rs:173-174 | sorting any rearrangement of strictly ordered roles gives that one order |
| `RoleTable.RepositionLoop` | crates/pickle-server/src/admin.rs:168-172 | the in-place assignment loop gives every role its listed position and leaves the others |
| `RoleTable.RenumberLoop` | crates/pickle-server/src/admin.rs:366-368 | the compaction loop numbers the surviving roles 0, 1, 2, ... in order |
| `RoleTable.CreateShape` | crates/pickle-server/src/admin.rs:129-175 | a created role lands at position 1, everything above @everyone moves up by one and nothing else changes |
| `RoleTable.DeleteShape` | crates/pickle-server/src/admin.rs:343-368 | deleting closes the gap and moves nothing else |
| `RoleTable.ReplaceShape` | crates/pickle-server/src/admin.rs:278-284 | updating replaces exactly the one role with that id |
| `RoleTable.ReorderShape` | crates/pickle-server/src/admin.rs:403-422 | a reorder the dense-permutation check lets through keeps every role, ids unique, with position p at index p |
| `RoleTable.DecideKeepsPermsOk` | crates/pickle-server/src/admin.rs:92-589 | whatever the actor's standing, an accepted role command leads from a well-formed table (ids unique, positions 0..n-1, @everyone at 0, grants naming existing roles other than @everyone) to a well-formed one |
| `RoleTable.RoleIdReturns` | crates/pickle-server/src/admin.rs:129-131 | role ids are reused: delete the highest and the next role may bear it again |
| `Interleaving.EveryPublishedTableIsOk` | crates/pickle-server/src/state.rs:760-767 | with snapshot reads and swaps as separate steps in any interleaving of handlers, every permission state ever published is well formed |
| `Staleness.SwapReachesClient` | crates/pickle-server/src/admin.rs:92-589 | a client whose table is the server's holds the server's new table after a swap decided on an older snapshot exactly when what that snapshot had missed is harmless to the command: for an update every other role unchanged, for the commands that renumber the same roles with positions aside, for a grant nothing at all |
| `Staleness.NothingMissed` | crates/pickle-server/src/state.rs:760-767 | a swap decided on the table as it is never is such a swap |
| `Staleness.AnUpdateCanBeLost` | crates/pickle-server/src/admin.rs:188-292 | two handlers that read one table are each let through and update different roles: at the end of that run the first role is as it was, while a client that followed both swaps shows it updated |
| `Staleness.AnUpdateIsLost` | crates/pickle-server/src/admin.rs:188-292 | at an input: the owner recolours two roles at once, and the first colour is gone from the table and left on the mirrors |
| `Races.SwapExact` | crates/pickle-server/src/admin.rs:92-589 | after a swap on a stale snapshot, and frames on a stale note of who saw what, a client's table, own grants, channel list and users are right, and its session recorded with its member's grants, exactly when what was missed is harmless: to the table as above; to its grants, all of them but for a grant to that very member or a role being deleted; to its list, every channel on it that it may see no more was noted, and every channel it may see that was noted and is not sent again is on it |
| `Races.StepExact` | crates/pickle-server/src/admin.rs:591-739 | the same for overwrite commands, whose note of who saw the channel is stale as well |
| `Races.RightIffNeverMissing` | crates/pickle-server/src/state.rs:760-837 | over every run of overlapping role and overwrite commands, everybody's view and every session's grants are right at every step exactly as long as no step misses anything of that kind |
| `Races.FreshMissesNothing` | crates/pickle-server/src/state.rs:760-797 | a step on the state and the lists as they are misses nothing |
| `Races.HeardIs` | crates/pickle-server/src/admin.rs:385-387 | what a client makes of several announcements does not depend on their order |
| `Races.AGrantIsLost` | crates/pickle-server/src/admin.rs:560-587 | the owner grants a role and recolours it on one snapshot: the grant is gone from the published state while the member's client and session still have it |
| `Races.AHiddenRoomStaysListed` | crates/pickle-server/src/admin.rs:661-695 | a channel revealed between another handler's note and that handler hiding it again stays on the client's list |
| `Hierarchy.CrewStaysBelow` | crates/pickle-proto/src/perms.rs:284-340 | no crew member's top position ever passes where the crew's highest rung has moved to |
| `Hierarchy.StepFrozen` | crates/pickle-server/src/admin.rs:92-589 | one command by a non-owner at or below the rung keeps every senior role's bits, relative place and holders, and lets nobody gain one |
| `Hierarchy.NoClimbing` | crates/pickle-server/src/admin.rs:54-589 | over any run of commands by non-owners whose highest position is `top`: roles that started at or above it keep name, colour, bits, holders and relative order, and whatever anybody gained is outranked by the role at `top` |
| `Minting.DecideSourced` | crates/pickle-server/src/admin.rs:49-51 | every role after an accepted command of a non-owner has only bits it had under the same id and bits the actor may grant |
| `Minting.NoMinting` | crates/pickle-server/src/admin.rs:92-589 | over any run of commands by a crew of non-owners, from any point: for every set of bits that holds what the crew and the roles below its rung have (and every bit, if it holds the administrator's), the roles outside the senior block stay within it, and so does everything a crew member may grant |
| `Minting.CrewCannotMint` | crates/pickle-server/src/admin.rs:49-51 | in particular from the start of a run: a permission nobody in the crew had and no junior role carried never comes to be one of a junior role's bits or of the bits a crew member may grant a role |
| `ChannelBits.CrewReachesNoFurther` | crates/pickle-server/src/admin.rs:591-739 | inside a channel, over any run of the server in which a crew of non-owners issued all role commands and set all overwrites: no member of it ever resolves to more than the crew and the roles below its rung start with anywhere and the channel's overwrites within its reach allow at the start; denials do not count |
| `ChannelBits.SetKeepsRuleIff` | crates/pickle-server/src/admin.rs:633-671 | setting an overwrite checks what the new one says and not what the old one said: no bit is toggled that the actor lacks there exactly when none is dropped that it lacks |
| `ChannelBits.ClearKeepsRuleIff` | crates/pickle-server/src/admin.rs:698-739 | clearing one is not checked: likewise exactly when everything it said was held |
| `ChannelBits.ADenialCanBeUndone` | crates/pickle-server/src/admin.rs:9-14 | the rule fails for denials: a member with MANAGE_ROLES who is denied a bit in a channel passes the checks for deleting or blanking that denial, and then has the bit |
| `Channels.ParentWouldCycle` | crates/pickle-server/src/state.rs:929-939 | on every parent map, dangling and cyclic ones included: answers that the new edge closes a loop exactly when the parent leads to the child, clear exactly when the walk ends elsewhere, and on an acyclic map it always ends |
| `Channels.LoopIffReaches` | crates/pickle-server/src/state.rs:928-939 | re-parenting one channel of a forest leaves a forest exactly when the new parent does not lead to it |
| `Channels.UpdateKeepsForest` | crates/pickle-server/src/admin.rs:742-786 | an update keeps acyclicity exactly when the check lets it through |
| `Channels.DeleteKeepsForest` | crates/pickle-server/src/state.rs:960-974 | deleting a channel, its children's parents left in place, keeps acyclicity |
| `Channels.CreateKeepsForestIff` | crates/pickle-server/src/admin.rs:765-786 | creation, which is never checked for loops, keeps acyclicity exactly when the parent does not lead to the new id |
| `Channels.CreateKeepsForest` | crates/pickle-server/src/state.rs:915-926 | in particular when no existing parent field names the new id |
| `Channels.CreateCanCloseALoop` | crates/pickle-server/src/state.rs:915-944 | the exception is real: delete the highest channel under which another hung, and the next id is reused and can be hung below that other one; asked then to hang a channel outside the loop below one on it, the parent walk never ends |
| `Channels.ForestWalksEnd` | crates/pickle-server/src/state.rs:929-939 | on a forest every parent walk ends, whatever it starts from and looks for |
| `Channels.NextChannelId` | crates/pickle-server/src/state.rs:917-926 | one past the largest live id, or 1: fresh among what exists now, not among all that ever existed |
| `Channels.SameParentsKeepForest` | crates/pickle-server/src/state.rs:874-897 | changing anything about channels but a parent or which exist keeps the forest |
| `Reuse.OverwritesNeverInherited` | crates/pickle-server/src/store.rs:495-511 | while the tables hold what memory holds, no stored overwrite names the next channel id |
| `Reuse.HistoryIsWhatWasSaid` | crates/pickle-server/src/store.rs:495-511 | over any run of creations, messages and deletions, an id's history is everything ever said under it, by whichever channel bore it |
| `Reuse.NewHistoryIsEmptyIff` | crates/pickle-server/src/state.rs:915-926 | so a created channel starts with no history exactly when nothing was stored or said under its id before |
| `Reuse.NoHistoryInherited` | crates/pickle-server/src/state.rs:915-926 | as long as nobody deletes the live channel with the highest id, every channel that is created starts with no history |
| `Reuse.HistoryCanBeInherited` | crates/pickle-server/src/state.rs:915-926 | deleting the highest one breaks it: the next channel is born with the dead one's messages |
| `Channels.WithOverwriteLookup` | crates/pickle-server/src/state.rs:874-884 | replacing or inserting an overwrite changes the lookup of its own target only |
| `Channels.DropTargetLookup` | crates/pickle-server/src/state.rs:886-897 | removing one target's overwrite changes the lookup of that target only |
| `Mirror.PermMirror.ApplyEvent` | apps/desktop/src-tauri/src/perms.rs:225-281 | folding one event has the effect of `Apply`, and an answer of false means no input of `my_permissions` changed |
| `Mirror.PermMirror.Reorder` | apps/desktop/src-tauri/src/perms.rs:246-254 | the in-order assignment loop followed by the sort |
| `Mirror.CreateReachesClient` | apps/desktop/src-tauri/src/perms.rs:235-254 | a client holding the old table that folds RoleCreated and then RolesReordered holds exactly the server's new table |
| `Mirror.UpdateReachesClient` | apps/desktop/src-tauri/src/perms.rs:235-240 | likewise for RoleUpdated |
| `Mirror.DeleteReachesClient` | apps/desktop/src-tauri/src/perms.rs:241-254 | likewise for RoleDeleted and RolesReordered |
| `Mirror.ReorderReachesClient` | apps/desktop/src-tauri/src/perms.rs:246-254 | likewise for a reorder, though client and server assign positions by different loops |
| `Visibility.SurvivorsAreRight` | crates/pickle-server/src/state.rs:632-651 | if everyone was told the right things, whoever is still connected has a right view of everyone still connected, departed users aside |
| `Visibility.OfferFarewell` | crates/pickle-server/src/state.rs:642-648 | a farewell that may or may not find room in a queue changes nothing a view says about those still connected |
| `Visibility.UpdateRight` | crates/pickle-server/src/admin.rs:278-290 | RoleUpdated and a refreshed channel list make a right view right about the new table |
| `Visibility.DeleteRight` | crates/pickle-server/src/admin.rs:373-388 | RoleDeleted, RolesReordered, the holders' updates and a refreshed list do so after a deletion |
| `Visibility.GrantRight` | crates/pickle-server/src/admin.rs:573-587 | announcing a member's sessions, in any order, and refreshing the list do so after new grants |
| `Visibility.AnnounceOne` | apps/desktop/src-tauri/src/perms.rs:255-274 | announcing several sessions of one member one after the other leaves the view the whole announcement describes, whatever the order |
| `Visibility.WelcomeRight` | crates/pickle-server/src/session.rs:216-240 | the view a client builds from AuthOk is right |
| `ServerState.MirrorAgreement` | crates/pickle-server/src/state.rs:798-837 | in every valid state, folding what is queued gives each client the server's roles, its own grants, precisely the channels it may view with identical contents, and the standing of everyone connected |
| `ServerState.PermissionsAgree` | apps/desktop/src-tauri/src/perms.rs:284-330 | so the client's own resolution and its permission summary agree with what the server would allow, bit by bit and channel by channel, ownership, administration and the admin panel included |
| `ServerState.ModerationAgrees` | crates/pickle-server/src/moderation.rs:42-74 | and the moderation menu offers an action against a connected member exactly when the server's authorisation would carry it out |
| `ServerState.NobodyEnteredCaps` | crates/pickle-server/src/state.rs:960-974 | where nobody enters a room none goes over its cap, and a channel that was not there before has nobody in it |
| `Store.PositionWritesMatch` | crates/pickle-server/src/store.rs:257-270 | the database's position updates and the in-memory assignment loop keep agreeing, whatever the list |
| `Store.CreateMatches` | crates/pickle-server/src/store.rs:211-224 | the shifted positions plus the inserted row agree with the new in-memory table, and the insert cannot clash |
| `Store.UpdateMatches` | crates/pickle-server/src/store.rs:226-235 | a role update, which never writes a position, agrees with memory |
| `Store.DeleteRoleSynced` | crates/pickle-server/src/store.rs:237-255 | deleting a role cascades over grants and overwrites in the tables exactly as in memory |
| `Store.ReorderMatches` | crates/pickle-server/src/store.rs:257-270 | a stored reorder agrees with the in-memory one |
| `Store.GrantMatches` | crates/pickle-server/src/store.rs:272-292 | a wholesale replacement of a member's grants agrees with memory |
| `Store.UpsertOverwriteSynced` | crates/pickle-server/src/store.rs:294-313 | an upserted overwrite agrees with the one set in memory |
| `Store.DeleteOverwriteSynced` | crates/pickle-server/src/store.rs:315-331 | a deleted overwrite agrees with the one removed in memory |
| `Store.LoadRoles` | crates/pickle-server/src/store.rs:199-209 | loading gives id-unique roles in position order that agree with the rows, whatever order rows come in |
| `Store.LoadGrants` | crates/pickle-server/src/lib.rs:120-127 | loading groups exactly the stored grants by member |
| `Store.LoadOverwrites` | crates/pickle-server/src/lib.rs:110-119 | each stored overwrite ends up on its channel, and on no other |
| `Store.Restart` | crates/pickle-server/src/lib.rs:88-129 | a restart reads the tables, seeding the configured channels or the default roles exactly when there are none |
| `Store.ReloadKeepsAnswers` | crates/pickle-server/src/lib.rs:88-129 | reloading tables that agree with memory gives a memory with the same table, ranks, channels and resolved permissions for every member and channel |
| `Store.RestartEquivalence` | crates/pickle-server/src/lib.rs:88-97 | restart equivalence holds exactly when a channel is left or none is configured: with the last channel deleted the configured ones come back |
| `StoreRaces.SyncedExact` | crates/pickle-server/src/store.rs:199-292 | a command decided on an older snapshot, its writes taken, leaves tables and memory in agreement exactly when what the snapshot had missed is harmless: to the table as for clients, an updated role still there; to everybody's grants, the member's own or the deleted role's aside |
| `StoreRaces.ClashExact` | crates/pickle-server/src/admin.rs:137-161 | a creation whose id clashes is refused with its shifted positions already written: agreement survives exactly when they move nobody |
| `StoreRaces.InSyncIffNeverMissing` | crates/pickle-server/src/admin.rs:92-589 | over any interleaving of snapshot reads and swaps the tables hold what memory holds at every step exactly as long as no step misses anything of that kind |
| `StoreRaces.TwoCreations` | crates/pickle-server/src/admin.rs:129-175 | two creations on one snapshot: the second writes the same shift, clashes with the first one's id and changes nothing; agreement survives |
| `StoreRaces.ADeletedRoleComesBack` | crates/pickle-server/src/admin.rs:188-292 | an update on a snapshot from before the role was deleted brings the role back in memory while the tables keep it deleted |
| `Plans.ListCurrent` | crates/pickle-server/src/state.rs:804-837 | gains, losses and changed rooms together turn a stale channel list into the current one |
| `Plans.OfferedTracks` | crates/pickle-server/src/state.rs:609-620 | a broadcast reaches everyone whose queue has room; those without room, and only those, are to be dropped |
| `Plans.EnterCaps` | crates/pickle-server/src/state.rs:466-476 | one client walking into a room that had space takes no room over its cap |
| `Plans.DeliveryKeepsSeen` | crates/pickle-server/src/session.rs:349-358 | delivering the oldest queued frame changes neither who is there nor what any client will have seen |
| `Plans.RoomIsEnough` | crates/pickle-server/src/state.rs:632-651 | whoever had room in the queue for the frames a command sends each client, and for a farewell to each connected one, is still connected after it |
| `Plans.RoomForDues` | crates/pickle-server/src/state.rs:804-837 | and by the exact count: whoever had room for its own frames, a resync owing each client one for each room its list gains, loses or keeps changed, is still connected |
| `Plans.PatienceChain` | crates/pickle-server/src/state.rs:632-651 | such bounds add up over successive fan-outs, farewells to everyone dropped in between included |
| `Plans.OneFrameARoom` | crates/pickle-server/src/state.rs:804-837 | a resync sends one client at most one frame for each room that was or is listed |
| `Server.Shared.constructor` | crates/pickle-server/src/state.rs:189-253 | starts valid, with nobody connected |
| `Server.Shared.DropOverflowed` | crates/pickle-server/src/state.rs:632-651 | exactly the overflowed clients are gone and everyone else still tracks what they were told |
| `Server.Shared.Send` | crates/pickle-server/src/state.rs:560-569 | one client is told, and is gone exactly when its queue was full; nobody else goes |
| `Server.Shared.Broadcast` | crates/pickle-server/src/state.rs:609-620 | everyone but the exception is told, and exactly those whose queue was full are gone |
| `Server.Shared.Resync` | crates/pickle-server/src/state.rs:804-837 | whatever order clients and rooms are visited in and whoever is dropped on the way, each remaining client's list becomes precisely the channels it may view; a client is dropped only if it had no room for exactly the frames its own list needs, and one that needs none stays |
| `Server.Shared.Announce` | crates/pickle-server/src/admin.rs:385-387 | announces refreshed members in any order, one frame each or two for an eviction; only clients without room for those are dropped |
| `Server.Shared.GateRoles` | crates/pickle-server/src/admin.rs:54-77 | passes exactly the commands the gate and the handler's checks accept, and otherwise changes nothing but queues |
| `Server.Shared.CreateRole` | crates/pickle-server/src/admin.rs:92-186 | keeps the state valid; the permission state is the committed one when both writes went through and untouched when either failed; the tables still agree when they did; at most three frames to a client |
| `Server.Shared.UpdateRole` | crates/pickle-server/src/admin.rs:188-292 | keeps the state valid, commits exactly when stored, keeps tables and memory in agreement, drops only clients without room for two frames and those their own list needs |
| `Server.Shared.DeleteRole` | crates/pickle-server/src/admin.rs:294-390 | likewise, stripping the role from overwrites and from live sessions and changing nothing else about them; agreement needs the compaction write too; three frames, one for each holder and those a client's list needs |
| `Server.Shared.ReorderRoles` | crates/pickle-server/src/admin.rs:392-489 | likewise |
| `Server.Shared.SetMemberRoles` | crates/pickle-server/src/admin.rs:491-589 | likewise, changing nothing about live sessions but the member's grants; a list with a repeated id breaks the primary key and is refused; one frame, one for each of the member's sessions and those a client's list needs |
| `Server.Shared.SetChannelOverwrite` | crates/pickle-server/src/admin.rs:591-696 | keeps the state valid, changes the one channel exactly when its checks pass and the write is stored, keeps agreement; one frame and those a client's list needs |
| `Server.Shared.DeleteChannelOverwrite` | crates/pickle-server/src/admin.rs:698-739 | likewise |
| `Server.Shared.CreateChannel` | crates/pickle-server/src/admin.rs:789-845 | the new channel takes the next id and no overwrites; the forest stays one exactly when the parent does not lead to the new id |
| `Server.Shared.UpdateChannel` | crates/pickle-server/src/admin.rs:848-918 | on every channel map the channel changes exactly when its checks pass, the parent neither leads to it nor runs in a circle, and the write is stored; overwrites are kept and a forest stays one; it hangs exactly when the checks before the walk pass and the walk never ends, on a forest never |
| `Server.Shared.DeleteChannel` | crates/pickle-server/src/admin.rs:920-975 | evicts the occupants and changes nothing else about sessions, keeps the forest, keeps agreement |
| `Server.Shared.Admit` | crates/pickle-server/src/state.rs:365-420 | refuses in the source's order, assigns the wrapping client id, and the newcomer's view is right from the first frame |
| `Server.Shared.Disconnect` | crates/pickle-server/src/session.rs:70-79 | the session is gone; of the rest only clients without room for the farewell are dropped |
| `Server.Shared.Kick` | crates/pickle-server/src/moderation.rs:90-106 | the target is gone exactly when the actor was authorised; of the rest only clients without room for two frames are dropped |
| `Server.Shared.Ban` | crates/pickle-server/src/moderation.rs:108-186 | when the ban goes through no session of the fingerprint is left and, room in queues given, every other one is; otherwise nobody but overflowing clients goes |
| `Server.Shared.SetServerMute` | crates/pickle-server/src/moderation.rs:249-267 | sets the flag exactly when authorised |
| `Server.Shared.MoveMember` | crates/pickle-server/src/moderation.rs:269-319 | moves exactly when authorised and the walls allow it, and no room goes over its cap |
| `Server.Shared.JoinChannel` | crates/pickle-server/src/state.rs:427-485 | enters exactly when the checks pass, and no room goes over its cap |
| `Server.Shared.LeaveChannel` | crates/pickle-server/src/state.rs:487-491 | leaves the room |
| `Server.Shared.SetVoiceState` | crates/pickle-server/src/state.rs:497-513 | deafening implies muting |
| `Server.Shared.SetNickname` | crates/pickle-server/src/state.rs:515-521 | stores the sanitised nickname and tells everyone, or refuses an unusable one |
| `Server.Shared.Deliver` | crates/pickle-server/src/session.rs:349-358 | moves the oldest queued frame into the client's view |
| `Server.Shared.RelayVoice` | crates/pickle-server/src/state.rs:659-711 | one voice frame goes, in whatever order clients are visited, to exactly the listeners |
| `Server.Shared.Handle` | crates/pickle-server/src/session.rs:413-622 | any one event takes the server a step as `Events.Stepped` says: valid again; permissions changed by the event's own role command if it was accepted and stored, and by nothing else; channels by its own channel command; every session left recorded as the event leaves it, its queue only appended to and its client's view untouched; of those only clients without room for the frames dropped; tables and memory in agreement if the writes were stored; and `Events.Answered`: what its sender is answered last, refusal code included, and what everyone is told of a newcomer, a departure, a move or a changed record |
| `Server.Shared.Run` | crates/pickle-server/src/session.rs:384-411 | any run of events is such steps one after the other, from the state before to the state after, event by event |
| `Server.Shared.RunByCrew` | crates/pickle-server/src/admin.rs:54-589 | no climbing for the running server, whoever is connected: if the role commands the run carried out came from a crew of non-owners, roles at or above its rung are untouched, in order, and outrank whatever anybody gained |
| `Events.StepKeepsForest` | crates/pickle-server/src/state.rs:915-974 | whatever the event, a forest of channels stays one exactly unless a channel was created under a parent that already led to its id |
| `Events.StepKeepsCaps` | crates/pickle-server/src/state.rs:427-485 | no event but an edit of a channel takes a room over its cap, and a new room starts empty |
| `Events.ScriptLeads` | crates/pickle-server/src/admin.rs:54-589 | at every point of a run the permission state is what the accepted and stored role commands so far, in order and by their senders, lead to |
| `Events.RunPeople` | crates/pickle-server/src/session.rs:384-411 | whoever is connected was so at the start or arrived, and nobody else issued a role command |
| `Events.RunStaysValid` | crates/pickle-server/src/session.rs:384-411 | a run that starts valid is valid at every point |
| `Events.RunAgrees` | crates/pickle-server/src/state.rs:798-837 | composed with the agreement theorems: at every point of such a run each client's folded view has the server's roles, its own grants, exactly its channels, the server's answers bit by bit and channel by channel, and the moderation options the server would authorise against everyone connected |
| `Events.RunKeepsSynced` | crates/pickle-server/src/store.rs:199-331 | if every write was stored the tables hold what memory holds at every point |
| `Events.RunKeepsForest` | crates/pickle-server/src/state.rs:915-974 | channels that start as a forest are one at every point exactly as long as no created channel closes a loop |
| `Events.RunNeverHangs` | crates/pickle-server/src/state.rs:929-939 | and until a created channel closes a loop no edit of a channel can hang in its parent walk |
| `Events.RunKeepsCaps` | crates/pickle-server/src/state.rs:427-485 | without edits of channels, rooms that start within their caps stay within them, rooms created later included |
| `Events.CrewCannotClimb` | crates/pickle-server/src/admin.rs:54-589 | at every point of a run, whoever else is connected, a crew that issued all role commands carried out has left the roles from its rung up untouched and has gained nobody one |
| `Events.CrewMintsNothing` | crates/pickle-server/src/admin.rs:49-51 | and has brought no permission from outside its own and the junior roles' into a junior role's bits or the bits it may grant roles |
| `Events.StepKeepsTargets` | crates/pickle-server/src/admin.rs:294-390 | whatever the event, overwrites that name existing roles do so afterwards |
| `Events.RunKeepsTargets` | crates/pickle-server/src/admin.rs:294-390 | and so at every point of a run |
| `Events.NewRoleIsUntied` | crates/pickle-proto/src/perms.rs:18-19 | though a role id may be reused, what the id bore is not: a created role is held by nobody, shown by no session and named by no overwrite |
| `Events.RunStartsBare` | crates/pickle-server/src/store.rs:495-511 | in a stored run a channel that appears has no overwrite in memory or in the tables, whatever bore its id before |
| `Events.RoomsAct` | crates/pickle-server/src/state.rs:915-974 | what any event does to the live channels is a step of the id-reuse model: a creation takes the next id, a deletion drops one, nothing else changes them |
| `Events.RunStartsEmpty` | crates/pickle-server/src/state.rs:915-926 | so in a run of the server that never deletes its highest channel, whatever is said meanwhile, every created channel starts with no history |
| `Server.Shared.RunAndRestart` | crates/pickle-server/src/lib.rs:88-129 | after a stored run a restart gives the same answers exactly when a channel is left or none is configured |
| `Outcomes.KickOutcome` | crates/pickle-server/src/moderation.rs:90-106 | from the event's own fields: a kick removes its target exactly when its sender may kick and outranks them, and nobody else who has room |
| `Outcomes.BanOutcome` | crates/pickle-server/src/moderation.rs:108-186 | a stored ban removes every session of its target exactly when its sender may ban and outranks them |
| `Outcomes.MuteOutcome` | crates/pickle-server/src/moderation.rs:249-267 | a server mute sets the target's flag to what was asked exactly when its sender may mute and outranks them; nobody's record changes otherwise |
| `Outcomes.RelocateOutcome` | crates/pickle-server/src/moderation.rs:269-319 | a move takes its target where it says exactly when its sender may move, outranks them and, unless it is out of all rooms, sees and may enter a voice room with space; the target's own permissions are not asked |
| `Outcomes.JoinOutcome` | crates/pickle-server/src/state.rs:427-485 | a member's room becomes the one asked for exactly when it exists and has voice, they see it and may enter it, bit by bit, and fewer others are in it than its cap |
| `Outcomes.OwnOutcome` | crates/pickle-server/src/state.rs:487-521 | leaving, muting, deafening and renaming oneself do what was asked, to oneself alone, whatever one may do |
| `Outcomes.ReceiveOutcome` | crates/pickle-server/src/session.rs:349-358 | a delivery folds the oldest queued frame into that client's view and touches no other |
| `Outcomes.ArriveOutcome` | crates/pickle-server/src/state.rs:365-420 | a newcomer is let in exactly when identity, name and a free seat allow, recorded with their own grants, and the next id wraps |
| `Outcomes.SetOutcome` | crates/pickle-server/src/admin.rs:591-696 | an overwrite is set, allow and deny as asked and scoped bits only, exactly when it is stored and its sender manages roles, sees the channel, contradicts nothing, names a role there is and holds in that channel every bit it speaks of; nothing else about any channel changes |
| `Outcomes.SetDecides` | crates/pickle-server/src/admin.rs:676-696 | and so a bit it denies a plain member by name is one they do not have there afterwards, and one it allows one they have |
| `Outcomes.ClearOutcome` | crates/pickle-server/src/admin.rs:698-739 | an overwrite goes exactly when it is stored and its remover manages roles and sees the channel |
| `Outcomes.NewChannelOutcome` | crates/pickle-server/src/admin.rs:789-845 | a channel is added with the draft's parent, topic, kind, cap and order, its name trimmed and no overwrites, exactly when its maker manages channels, a name is left, the parent exists and it is stored |
| `Outcomes.EditChannelOutcome` | crates/pickle-server/src/admin.rs:848-918 | an edited channel has the draft's fields and its own overwrites, exactly when its editor manages channels and sees it, the draft is sound and closes no loop, and it is stored |
| `Outcomes.DropChannelOutcome` | crates/pickle-server/src/admin.rs:920-975 | a channel goes, and its occupants are in no room, exactly when its remover manages channels and sees it and it is stored |
| `Outcomes.TrimIs` | crates/pickle-server/src/admin.rs:102-103 | trimming leaves what lies between the first and the last character that is not white space, nothing exactly when there is none |
| `RoleOutcomes.CreateRoleOutcome` | crates/pickle-server/src/admin.rs:92-186 | one role more, at position 1 with a fresh id, exactly the known bits asked for and the trimmed name, exactly when its maker manages roles, a name is left and every such bit is held, and it is stored; every other role keeps all but its place |
| `RoleOutcomes.EditRoleOutcome` | crates/pickle-server/src/admin.rs:188-292 | the role has the bits, name and colour it was given and keeps the rest, its id and its place, exactly when its editor manages roles, holds a role above it and every bit it gains, does not rename @everyone, and it is stored |
| `RoleOutcomes.DeleteRoleOutcome` | crates/pickle-server/src/admin.rs:294-390 | the role is gone from table, grants and overwrites and those above move down by one, exactly when its remover manages roles and holds one above it, it is not @everyone, and it is stored |
| `RoleOutcomes.ReorderOutcome` | crates/pickle-server/src/admin.rs:392-489 | every role stands where the list says, exactly when the list gives each role one of the positions 0 to n-1, @everyone the first, moves only roles below one the sender holds to places below it, and it is stored |
| `RoleOutcomes.GrantOutcome` | crates/pickle-server/src/admin.rs:491-589 | the member holds exactly the listed roles, exactly when they exist, none is @everyone, the owner's are touched by the owner only, every role gained or lost is below one the sender holds, none is listed twice and it is stored |
| `RoleOutcomes.RecordsFollow` | crates/pickle-server/src/admin.rs:560-587 | after any role command every session is recorded with its member's grants and otherwise as before |
| `Outcomes.ActAcknowledged` | crates/pickle-server/src/moderation.rs:25-40 | whoever acts on another member is told last that it is done exactly when it is, and else that it failed |
| `Outcomes.MovesAreTold` | crates/pickle-server/src/session.rs:413-622 | whoever enters, leaves or is put in a room, everybody still connected hears next from where to where; whoever may not enter hears so |
| `Outcomes.ChannelAcknowledged` | crates/pickle-server/src/admin.rs:23-37 | a channel command is acknowledged to its sender exactly when it was carried out |
| `RoleOutcomes.RoleAcknowledged` | crates/pickle-server/src/admin.rs:23-37 | a role command is acknowledged when what it asked for has come about and refused when nothing has changed, never the one for the other |
| `Outcomes.ListenersHear` | crates/pickle-server/src/state.rs:659-711 | the relay forwards to exactly those others in the sender's voice room who have not deafened themselves, while the sender is muted by nobody and holds speaking there bit by bit |
| `Outcomes.MutedIsUnheard` | crates/pickle-server/src/state.rs:667-671 | so nobody hears the target of a server mute that was carried out |
| `Outcomes.DeniedIsUnheard` | crates/pickle-server/src/state.rs:685-699 | nor a plain member in a room where speaking was just denied them by name |
| `History.FetchPage` | crates/pickle-server/src/store.rs:131-189 | a page is ascending, within the clamped limit, holds the newest matching messages, and `reachedStart` says exactly whether nothing older was left out |
| `History.DescendingIs` | crates/pickle-server/src/store.rs:142-172 | ORDER BY id DESC LIMIT n gives the n largest, largest first |
| `History.KeptIsPage` | crates/pickle-server/src/store.rs:137-182 | probing one row too many and dropping it gives the page and tells whether there were more |
| `History.FetchAll` | crates/pickle-server/src/store.rs:126-189 | asking for the page before the oldest held, with any limits, ends, and collects every message of the channel once, ascending |
| `Resampling.ParamsFor` | crates/pickle-audio/src/resample.rs:160-166 | step and half width for every pair of rates: 320/9 input samples, stretched by the step when downsampling |
| `Resampling.Tap` | crates/pickle-audio/src/resample.rs:261-270 | the interpolated tap reads inside the table for every distance and is zero from the half width on |
| `Resampling.TapAtKnot` | crates/pickle-audio/src/resample.rs:261-270 | on an entry of its table the kernel is that entry |
| `Resampling.TapBetween` | crates/pickle-audio/src/resample.rs:261-270 | between two entries it is their weighted mean, each weighted by its nearness |
| `Resampling.ImpulseResponse` | crates/pickle-audio/src/resample.rs:245-258 | a single 1 in the input comes out as the table read at its distance from the output, times the cutoff |
| `Resampling.ConversionIsLinear` | crates/pickle-audio/src/resample.rs:245-258 | and every conversion is the sum of such responses |
| `Resampling.SumWindow` | crates/pickle-audio/src/resample.rs:245-258 | only taps inside the kernel's support count |
| `Resampling.LaterInputIsIrrelevant` | crates/pickle-audio/src/resample.rs:221-235 | an output that is determined is the same whatever arrives later |
| `Resampling.WindowFits` | crates/pickle-audio/src/resample.rs:245-249 | the visited window lies in the buffer: the right clamp never binds, the left one only at the true start of the stream |
| `Resampling.DrainedIsExact` | crates/pickle-audio/src/resample.rs:221-235 | a drained stream of N samples has made exactly the outputs k with k * step + half width < N |
| `Resampling.OutputIsBounded` | crates/pickle-audio/src/resample.rs:194-196 | between drained states n input samples make fewer outputs than `max_output_for` says |
| `Resampling.Resampler.constructor` | crates/pickle-audio/src/resample.rs:155-180 | starts empty and drained with the source's capacity |
| `Resampling.Resampler.Compact` | crates/pickle-audio/src/resample.rs:276-285 | drops only input no tap can reach again; drained, less than the kernel's full reach plus one is left |
| `Resampling.Resampler.Space` | crates/pickle-audio/src/resample.rs:199-202 | a drained converter always has room for `max_feed` |
| `Resampling.Resampler.Feed` | crates/pickle-audio/src/resample.rs:209-215 | accepts a prefix, cut short only by a full buffer; from a drained state `max_feed` samples always fit |
| `Resampling.Resampler.SampleAt` | crates/pickle-audio/src/resample.rs:245-258 | the loop over what is left in the buffer gives the one-shot convolution of all the input |
| `Resampling.Resampler.Pull` | crates/pickle-audio/src/resample.rs:221-235 | writes consecutive one-shot outputs, stopping short only when drained |
| `Resampling.Resampler.Reset` | crates/pickle-audio/src/resample.rs:238-242 | back to the empty, drained state |
| `Resampling.Drive` | crates/pickle-audio/src/resample.rs:138-285 | for every sequence of feeds and pulls: each call is answered as it must be, a pull by as many outputs as fit and are determined, a feed by everything unless the converter is behind or more than `max_feed` is offered, and by at least `max_feed` of it when it is not behind; the outputs are the one-shot convolution of what the feeds took in, exactly as many as the pulls delivered |
| `Resampling.NothingRefused` | crates/pickle-audio/src/resample.rs:199-215 | feeds of at most `max_feed`, each from a drained state, are all taken whole |
| `Resampling.Exchange` | crates/pickle-audio/src/resample.rs:194-196 | from a drained state one such feed and one pull into an array of `max_output_for` end drained with room left |
| `Capturing.ChunksAppend` | crates/pickle-audio/src/engine.rs:401-418 | chunking continues across pushes |
| `Capturing.ChunksAreAll` | crates/pickle-audio/src/engine.rs:401-418 | the chunks and the remainder are the stream: nothing is dropped or reordered |
| `Capturing.Capture.Push` | crates/pickle-audio/src/engine.rs:401-418 | after any push exactly the whole 960-sample chunks of everything fed have been processed, and `pending` has never held more than its capacity |
| `Capturing.Capture.Process` | crates/pickle-audio/src/engine.rs:420-470 | the transmitter stands where processing all frames so far leaves it |
| `Capturing.ChunkAt` | crates/pickle-audio/src/engine.rs:401-418 | the i-th frame is the 960 samples from 960 i on |
| `Capturing.KeyedFramesAreSent` | crates/pickle-audio/src/engine.rs:420-470 | with push-to-talk a captured frame is sent exactly when the key is held as it, or one at most max(1, hangover) frames before it, is processed |
| `Capturing.LoudFramesAreSent` | crates/pickle-audio/src/engine.rs:420-470 | with voice activity frames are sent from the first that is loud enough for as long as they stay so |
| `Capturing.LostFrames` | crates/pickle-audio/src/engine.rs:420-470 | a muted microphone never reads as transmitting, and a frame that does not encode is not sent |
| `Capturing.DownmixJoins` | crates/pickle-audio/src/engine.rs:534-540 | downmixing whole channel frames piecewise is downmixing them at once |
| `Capturing.DownmixAt` | crates/pickle-audio/src/engine.rs:534-540 | sample k of the downmix is the mean of channel frame k |
| `Capturing.MeanWeighsAlike` | crates/pickle-audio/src/engine.rs:535-540 | every channel of a frame counts for 1/n of it |
| `Capturing.MeanIsLinear` | crates/pickle-audio/src/engine.rs:535-540 | and the mean is linear |
| `Capturing.CaptureStage.constructor` | crates/pickle-audio/src/engine.rs:496-523 | a converter exactly when the device has a rate other than 48 kHz |
| `Capturing.CaptureStage.DownmixBlock` | crates/pickle-audio/src/engine.rs:535-540 | the block's channel frames are averaged into the work buffer, which they fit |
| `Capturing.CaptureStage.FeedSome` | crates/pickle-audio/src/engine.rs:551-565 | one feed takes the whole block, and everything it determines is handed on |
| `Capturing.CaptureStage.Push` | crates/pickle-audio/src/engine.rs:529-567 | one callback of any length is heard in full and in order |
| `Capturing.CaptureStage.PushEach` | crates/pickle-audio/src/engine.rs:496-567 | slicing independence: for any split into callbacks of whole channel frames the processed frames are the chunks of the downmixed and converted stream, the packets sent are those of the burst model, and the converter lags by nothing it could have made |
| `Playing.RatesThatSuffice` | crates/pickle-audio/src/engine.rs:622-627 | one mixer frame reaches over the kernel exactly from 1778 Hz up, and the seven a refill can pull after exactly from 254 Hz up |
| `Playing.SlowRatesStarve` | crates/pickle-audio/src/engine.rs:687-717 | below 254 Hz the first refill does end in the silent fallback |
| `Playing.Playback.Refill` | crates/pickle-audio/src/engine.rs:687-717 | the fallback is taken exactly when seven more frames would not determine the next output; otherwise samples carry on from before |
| `Playing.Playback.NextSample` | crates/pickle-audio/src/engine.rs:671-685 | hands out the next sample of the converted stream; a kernel reaching less than seven frames never starves, and one reaching less than a frame costs at most one frame per call |
| `Playing.Play` | crates/pickle-audio/src/engine.rs:646-717 | the silent fallback stands in exactly when a sample is taken at a rate below 254 Hz; unconverted samples are the mixer's frames end to end; at 254 Hz or more sample i is output i of the conversion of those frames, and the frames rendered determine it; from 1778 Hz up no more frames are rendered than samples are taken |
| `Playing.HandedIsConverted` | crates/pickle-audio/src/engine.rs:671-685 | a sample determined by the frames rendered so far is the same output of the conversion of any larger number of frames |
| `Jitter.JitterBuffer.PushPacket` | crates/pickle-audio/src/jitter.rs:135-168 | has the effect of `Push` |
| `Jitter.JitterBuffer.TrimLoop` | crates/pickle-audio/src/jitter.rs:151-167 | the trimming loop, which moves the playback position with it |
| `Jitter.JitterBuffer.PopSlot` | crates/pickle-audio/src/jitter.rs:174-203 | has the effect of `Pop` |
| `Jitter.JitterBuffer.ResetNow` | crates/pickle-audio/src/jitter.rs:128-133 | has the effect of `Reset` |
| `Jitter.ExactlyOnce` | crates/pickle-audio/src/jitter.rs:128-203 | over every run: within an epoch slots come out strictly increasing, each carries the last payload pushed for it in that epoch, and lost is reported only when none was, overflow trimming included |
| `Jitter.EveryPacketAccountedFor` | crates/pickle-audio/src/jitter.rs:135-203 | received = late + overflowed + played + replaced + discarded by reset + buffered, always, and the backlog never exceeds its cap |
| `Jitter.WireIsTrue` | crates/pickle-audio/src/jitter.rs:102-109 | while successive packets are less than half the number space apart, running on wrapping wire numbers is running on true numbers, across any number of rollovers |
| `Jitter.ExtendedNeverOverflows` | crates/pickle-audio/src/jitter.rs:102-109 | n pushes keep extended numbers within 2^31 * (n - 1), so 64 bits suffice below 2^32 pushes |
| `Jitter.UnderrunForgets` | crates/pickle-audio/src/jitter.rs:191-197 | the promise is per epoch: after an underrun a repeated packet is played again |
| `Jitter.StartsAtTarget` | crates/pickle-audio/src/jitter.rs:174-188 | while nothing plays nothing is handed out until the target number of packets is buffered, and then the oldest of them is |
| `Jitter.SilentBelowTarget` | crates/pickle-audio/src/jitter.rs:174-188 | so a run that brings in fewer is silent |
| `Jitter.CountersAreTrue` | crates/pickle-audio/src/jitter.rs:189-203 | over every run the loss counter is the number of slots answered without a packet, and epochs are underruns plus resets |
| `Burst.VoiceGate.UpdateFrame` | crates/pickle-audio/src/vad.rs:124-167 | has the effect of `Update` |
| `Burst.VoiceGate.CloseNow` | crates/pickle-audio/src/vad.rs:170-178 | has the effect of `Close` |
| `Burst.Transmitter.Process` | crates/pickle-audio/src/engine.rs:420-470 | has the effect of `Step` |
| `Burst.TransmittingIsOpen` | crates/pickle-audio/src/engine.rs:420-470 | over every run the transmitting flag equals the gate's own open flag |
| `Burst.RunIsGrammatical` | crates/pickle-audio/src/engine.rs:420-470 | over every run of frames, mutes, keys and mode changes each packet starts a burst exactly when nothing came before or a burst just ended, and numbers run 0, 1, 2, ... modulo 2^32 from each start |
| `Burst.GrammarIsBursts` | crates/pickle-audio/src/vad.rs:28-37 | that local rule is the burst grammar: the packets split into start, plain frames, end, the last burst possibly unfinished |
| `Burst.RunSendsBursts` | crates/pickle-audio/src/engine.rs:420-470 | what any run sends is bursts, the last unfinished exactly while transmitting |
| `Burst.MuteSendsOnlyTheEnd` | crates/pickle-audio/src/engine.rs:425-435 | however long a mute lasts it sends at most one frame, the end of the burst it cut |
| `Burst.ReleaseLasts` | crates/pickle-audio/src/vad.rs:149-163 | after the last loud frame exactly max(1, hangover) quiet frames are still sent, the last of them the end |
| `Burst.PushToTalkSends` | crates/pickle-audio/src/vad.rs:124-167 | with push-to-talk a frame is sent exactly when the key is held or was held at most max(1, hangover) frames before |
| `Burst.ContinuousSends` | crates/pickle-audio/src/vad.rs:124-167 | an open microphone sends every frame |
| `Burst.BelowSendsNothing` | crates/pickle-audio/src/vad.rs:124-167 | with voice activity nothing is sent until a frame reaches the upper threshold |
| `Burst.LoudSends` | crates/pickle-audio/src/vad.rs:124-167 | and from one that does every frame is sent that reaches the lower one |
| `Mixing.VoiceMixer.Accept` | crates/pickle-audio/src/mixer.rs:55-80 | files a packet under its speaker, resetting at a burst start; a speaker whose decoder cannot be made changes nothing |
| `Mixing.VoiceMixer.MixAll` | crates/pickle-audio/src/mixer.rs:104-135 | in whatever order streams are visited, each advances once and each contributor is added once |
| `Mixing.VoiceMixer.Render` | crates/pickle-audio/src/mixer.rs:87-149 | every sample is the clamped sum of the contributors' shares, within [-1, 1], silence when deafened; every stream has advanced one slot and those idle too long are gone |
| `Mixing.VoiceMixer.Take` | crates/pickle-audio/src/mixer.rs:55-195 | any one packet, render or setting has the effect `After` gives it |
| `Mixing.VoiceMixer.TakeAll` | crates/pickle-audio/src/mixer.rs:55-195 | and any number of them the effect of `AfterAll`, which the next rows are about |
| `Mixing.RunHides` | crates/pickle-audio/src/mixer.rs:87-181 | forgetting loudness commutes with running: the controls can be deleted from any run |
| `Mixing.ControlsDoNotInterfere` | crates/pickle-audio/src/mixer.rs:151-181 | two mixers given the same packets, renders and removals hold identical jitter buffers, decoder histories, idle counts and speaking sets, whatever each listener does with deafen, mute, gain and master gain |
| `Mixing.SpeakerAdds` | crates/pickle-audio/src/mixer.rs:104-135 | a speaker who is muted or has nothing to play might as well not be there; any other adds exactly their share to every sample, whoever else speaks |
| `Mixing.MixPermutes` | crates/pickle-audio/src/mixer.rs:104-135 | the sum does not depend on the order of the speakers |
| `Mixing.GainScales` | crates/pickle-audio/src/mixer.rs:151-155 | a gain, negative ones counting as none, multiplies that speaker's share and nobody else's |
| `Mixing.MuteSilences` | crates/pickle-audio/src/mixer.rs:157-161 | muting takes exactly that speaker out and unmuting lets them back in |
| `Mixing.ClampIsNearest` | crates/pickle-audio/src/mixer.rs:137-149 | what is clipped goes to the nearest value within full scale |
| `Mixing.StreamIsBuffer` | crates/pickle-audio/src/mixer.rs:55-135 | a stream is a jitter buffer, reset at each burst start, followed by a decoder that is fed everything it hands out, once and in order, losses concealed |
| `Mixing.BurstResetsOnce` | crates/pickle-audio/src/mixer.rs:71-75 | of a burst as `Burst` sends it the first packet resets the receiver and no other does |
| `Mixing.IdleCounts` | crates/pickle-audio/src/mixer.rs:104-135 | a stream is idle for as many slots as it has not decoded anything in, and speaks in none of them |
| `Mixing.IdleLeaves` | crates/pickle-audio/src/mixer.rs:104-135 | it leaves with the render that makes that more than a hundred, and with no other |

## Left out

- Transport, TLS, handshake timing, close codes, rate limiting and task scheduling: a command is one atomic step, except in `Interleaving`, `Staleness`, `Races` and `StoreRaces`, where a handler's writes, its swap and its frames are still one step. A session whose receiver has closed is treated as having left.
- Overlapping handlers in `Races`: nobody connects or leaves, queues have room, a refused write is a handler that takes no step, and channels are created, edited and deleted by nobody meanwhile. In `StoreRaces` channels change only with the role commands.
- Signature, password, security level and ban checks before admission, and nickname sanitising: whether they pass is a parameter of `Server.Shared.Admit` and `Server.Shared.SetNickname`.
- Bans as stored rows, their expiry, and listing or lifting them: easy beside the rest; `Server.Shared.Ban` models authorisation and ejection.
- Chat, typing and filtered fan-out: the mirror ignores those frames, so they enter runs as `Reply` events to single clients. Of the other frames the mirror ignores, answers and moves are accounted for in `Events.Answered`, the moves that announce an evicted room are not.
- The datagram layout of relayed voice: no state of its own; `Server.Shared.RelayVoice` gives who it goes to.
- SQL itself: tables are maps keyed by their primary keys and a write either happens or does not. Whether it does is a parameter; agreement of tables and memory is claimed for runs whose writes were stored.
- 32-bit overflow of role, channel and message ids and of positions: ids are natural numbers; only client ids and voice sequence numbers wrap.
- Unknown permission bits above 63 do not exist; masks are sets of bits.
- The comment that channel ids are never reused (crates/pickle-server/src/state.rs:915-916) disagrees with the code, which takes one past the largest live id; the model follows the code, and `Channels.CreateCanCloseALoop` and `Reuse.HistoryCanBeInherited` show what follows from it, `Reuse.NoHistoryInherited` when it does not.
- The comment that role ids are never reused (crates/pickle-proto/src/perms.rs:18-19) disagrees with the code, which takes one past the largest id there is; the model follows the code, and `RoleTable.RoleIdReturns` and `Events.NewRoleIsUntied` show what follows.
- The comment that two refill rounds always do (crates/pickle-audio/src/engine.rs:622-627) holds from 1778 Hz up; `Playing.RatesThatSuffice` gives the exact rates.
- Server.Shared.UpdateChannel: a parent walk that never ends, reachable as `Channels.CreateCanCloseALoop` shows, is told by `hung` and modelled as a handler with no further effect; the lock it holds forever, and everybody else waiting for it, is not.
- Events.Stepped: its bound on frames is one a room for everyone; the exact count for each client is in the handlers' own contracts.
- Mirror of departed users: a farewell may be lost to a full queue, so agreement is about connected users.
- Floating-point rounding and the filter's frequency response: samples, rates and positions are exact reals, and the kernel is any table of the right length ending in two zeros.
- Opus: a decoder is any function of what it was given, an encoder a yes or no.
- Sample-format conversion before the downmix: device samples arrive as reals.
- Rate 0 reaches the converter's constructor in the source and is refused there; the model makes no converter in that case, which is what callers do.
- Burst.ReleaseLasts: thresholds, hangover and mode rules are fixed during the release; changing them midway is not covered.
- Config parsing, migrations, pruning, the channel matrix shown to administrators and all user interface code: glue, or easy beside the rest.
