/** Channels, and the parent forest they hang in (crates/pickle-server/src/state.rs:915-974). */
module Channels {
  import opened Common
  import opened Perms

  type ChannelId = nat
  datatype ChannelKind = Voice | Text | VoiceAndText

  predicate HasVoice(kind: ChannelKind) { kind.Voice? || kind.VoiceAndText? }

  datatype Channel = Channel(id: ChannelId, parent: Option<ChannelId>, name: string, topic: string, kind: ChannelKind,
                             maxUsers: Option<nat>, order: int, overwrites: seq<Overwrite>)

  type ChannelMap = map<ChannelId, Channel>

  // ---- Walking up ---------------------------------------------------------------

  /** A parent may name a channel that no longer exists; such a channel has no parent of its own. */
  function ParentOf(channels: ChannelMap, id: ChannelId): Option<ChannelId> {
    if id in channels then channels[id].parent else None
  }

  function Up(channels: ChannelMap, at: Option<ChannelId>): Option<ChannelId> {
    match at
    case None => None
    case Some(id) => ParentOf(channels, id)
  }

  function Climb(channels: ChannelMap, from: Option<ChannelId>, steps: nat): Option<ChannelId> {
    if steps == 0 then from else Up(channels, Climb(channels, from, steps - 1))
  }

  ghost predicate Reaches(channels: ChannelMap, from: Option<ChannelId>, to: ChannelId) {
    exists k: nat :: Climb(channels, from, k) == Some(to)
  }

  /** `at` is strictly above `id`. */
  ghost predicate Above(channels: ChannelMap, at: Option<ChannelId>, id: ChannelId) {
    exists j: nat :: j > 0 && Climb(channels, Some(id), j) == at
  }

  /** No channel is its own proper ancestor. */
  ghost predicate Acyclic(channels: ChannelMap) {
    forall id: ChannelId, k: nat :: k > 0 ==> Climb(channels, Some(id), k) != Some(id)
  }

  lemma {:induction false} ClimbAdds(channels: ChannelMap, from: Option<ChannelId>, j: nat, k: nat)
    ensures Climb(channels, Climb(channels, from, j), k) == Climb(channels, from, j + k)
  {
    if k > 0 {
      ClimbAdds(channels, from, j, k - 1);
    }
  }

  lemma {:induction false} ClimbFromNowhere(channels: ChannelMap, k: nat)
    ensures Climb(channels, None, k) == None
  {
    if k > 0 {
      ClimbFromNowhere(channels, k - 1);
    }
  }

  /** How the server's walk up from a proposed parent ends: at the child, at the top, or never. */
  datatype Walk = Closes | Clear | Endless

  ghost predicate NeverEnds(channels: ChannelMap, from: Option<ChannelId>, to: ChannelId) {
    forall k: nat :: Climb(channels, from, k).Some? && Climb(channels, from, k) != Some(to)
  }

  /**
  `parent_would_cycle`. The set of channels passed is the model's own: it turns a walk that would circle for ever into
  the answer `Endless`, which an acyclic map, dangling parents included, never gives.
  */
  method ParentWouldCycle(channels: ChannelMap, child: ChannelId, parent: Option<ChannelId>) returns (walk: Walk)
    ensures walk.Closes? <==> Reaches(channels, parent, child)
    ensures walk.Endless? <==> NeverEnds(channels, parent, child)
    ensures Acyclic(channels) ==> !walk.Endless?
  {
    var cursor := parent;
    var passed: set<ChannelId> := {};
    ghost var steps: nat := 0;
    while cursor.Some?
      invariant cursor == Climb(channels, parent, steps)
      invariant OnTheWay(channels, parent, child, steps, passed)
      invariant passed <= channels.Keys
      invariant forall id :: id in passed ==> Above(channels, cursor, id)
      decreases if cursor.Some? then 1 + |channels.Keys - passed| else 0
    {
      var id := cursor.value;
      if id == child {
        return Closes;
      }
      if id in passed {
        CircleNeverEnds(channels, parent, child, steps, passed, id);
        return Endless;
      }
      PassedGrows(channels, passed, id);
      OneMoreOnTheWay(channels, parent, child, steps, passed, id);
      cursor := if id in channels then channels[id].parent else None;
      steps := steps + 1;
      if id in channels {
        assert channels.Keys - (passed + {id}) < channels.Keys - passed;
        passed := passed + {id};
      }
    }
    NeverArrives(channels, parent, child, steps);
    return Clear;
  }

  /** The first `steps` stops are real, are not `to`, and include everything passed. */
  ghost predicate OnTheWay(channels: ChannelMap, from: Option<ChannelId>, to: ChannelId, steps: nat,
                           passed: set<ChannelId>) {
    && (forall j: nat :: j < steps ==> Climb(channels, from, j).Some? && Climb(channels, from, j) != Some(to))
    && (forall id :: id in passed ==> exists j: nat :: j < steps && Climb(channels, from, j) == Some(id))
  }

  lemma {:induction false} OneMoreOnTheWay(channels: ChannelMap, from: Option<ChannelId>, to: ChannelId, steps: nat,
                                           passed: set<ChannelId>, id: ChannelId)
    requires OnTheWay(channels, from, to, steps, passed) && Climb(channels, from, steps) == Some(id) && id != to
    ensures OnTheWay(channels, from, to, steps + 1, passed + {id})
    ensures OnTheWay(channels, from, to, steps + 1, passed)
  {
    forall p | p in passed + {id} ensures exists j: nat :: j < steps + 1 && Climb(channels, from, j) == Some(p) {
      if p in passed {
        var j: nat :| j < steps && Climb(channels, from, j) == Some(p);
      }
    }
  }

  /** Every later stop repeats an earlier one. */
  lemma {:induction false} StopsRepeat(channels: ChannelMap, from: Option<ChannelId>, first: nat, again: nat,
                                       k: nat) returns (j: nat)
    requires first < again && Climb(channels, from, first) == Climb(channels, from, again)
    ensures j < again && Climb(channels, from, j) == Climb(channels, from, k)
    decreases k
  {
    if k < again {
      j := k;
    } else {
      ClimbAdds(channels, from, again, k - again);
      ClimbAdds(channels, from, first, k - again);
      j := StopsRepeat(channels, from, first, again, first + (k - again));
    }
  }

  lemma {:induction false} CircleNeverEnds(channels: ChannelMap, from: Option<ChannelId>, to: ChannelId, steps: nat,
                                           passed: set<ChannelId>, id: ChannelId)
    requires OnTheWay(channels, from, to, steps, passed) && id in passed && Climb(channels, from, steps) == Some(id)
    requires Above(channels, Some(id), id)
    ensures NeverEnds(channels, from, to) && !Acyclic(channels)
  {
    var first: nat :| first < steps && Climb(channels, from, first) == Some(id);
    forall k: nat ensures Climb(channels, from, k).Some? && Climb(channels, from, k) != Some(to) {
      var j := StopsRepeat(channels, from, first, steps, k);
    }
  }

  lemma {:induction false} NeverArrives(channels: ChannelMap, from: Option<ChannelId>, to: ChannelId, steps: nat)
    requires Climb(channels, from, steps) == None
    requires forall j: nat :: j < steps ==> Climb(channels, from, j) != Some(to)
    ensures !Reaches(channels, from, to) && !NeverEnds(channels, from, to)
  {
    forall k: nat ensures Climb(channels, from, k) != Some(to) {
      if k >= steps {
        ClimbAdds(channels, from, steps, k - steps);
        ClimbFromNowhere(channels, k - steps);
      }
    }
  }

  lemma {:induction false} OneMoreStep(channels: ChannelMap, p: ChannelId, id: ChannelId)
    requires Above(channels, Some(id), p)
    ensures Above(channels, ParentOf(channels, id), p)
  {
    var j: nat :| j > 0 && Climb(channels, Some(p), j) == Some(id);
    assert Climb(channels, Some(p), j + 1) == ParentOf(channels, id);
  }

  lemma {:induction false} PassedGrows(channels: ChannelMap, passed: set<ChannelId>, id: ChannelId)
    requires forall p :: p in passed ==> Above(channels, Some(id), p)
    ensures forall p :: p in passed ==> Above(channels, ParentOf(channels, id), p)
    ensures Above(channels, ParentOf(channels, id), id)
  {
    forall p | p in passed ensures Above(channels, ParentOf(channels, id), p) {
      OneMoreStep(channels, p, id);
    }
    assert Climb(channels, Some(id), 0) == Some(id);
    assert Climb(channels, Some(id), 1) == ParentOf(channels, id);
  }

  // ---- Changing one parent ----------------------------------------------------------

  /** `after` is `before` with the one parent of `child` now `parent`. */
  ghost predicate Reparented(before: ChannelMap, after: ChannelMap, child: ChannelId, parent: Option<ChannelId>) {
    ParentOf(after, child) == parent && forall id :: id != child ==> ParentOf(after, id) == ParentOf(before, id)
  }

  /** A walk that never stops at `child` on the way is the same in both maps. */
  lemma {:induction false} SameWalk(before: ChannelMap, after: ChannelMap, child: ChannelId, parent: Option<ChannelId>,
                                    from: Option<ChannelId>, k: nat)
    requires Reparented(before, after, child, parent)
    requires forall j: nat :: j < k ==> Climb(after, from, j) != Some(child)
    ensures Climb(after, from, k) == Climb(before, from, k)
  {
    if k > 0 {
      SameWalk(before, after, child, parent, from, k - 1);
      assert Climb(after, from, k - 1) != Some(child);
    }
  }

  lemma {:induction false} FirstVisit(channels: ChannelMap, from: Option<ChannelId>, to: ChannelId,
                                      k: nat) returns (m: nat)
    requires Climb(channels, from, k) == Some(to)
    ensures m <= k && Climb(channels, from, m) == Some(to)
    ensures forall j: nat :: j < m ==> Climb(channels, from, j) != Some(to)
  {
    if j: nat :| j < k && Climb(channels, from, j) == Some(to) {
      m := FirstVisit(channels, from, to, j);
    } else {
      m := k;
    }
  }

  lemma Reverse(before: ChannelMap, after: ChannelMap, child: ChannelId, parent: Option<ChannelId>)
    requires Reparented(before, after, child, parent)
    ensures Reparented(after, before, child, ParentOf(before, child))
  {
  }

  lemma {:induction false} ReachesIsLocal(before: ChannelMap, after: ChannelMap, child: ChannelId,
                                          parent: Option<ChannelId>, from: Option<ChannelId>)
    requires Reparented(before, after, child, parent)
    ensures Reaches(after, from, child) ==> Reaches(before, from, child)
  {
    if Reaches(after, from, child) {
      var k: nat :| Climb(after, from, k) == Some(child);
      var m := FirstVisit(after, from, child, k);
      SameWalk(before, after, child, parent, from, m);
    }
  }

  /** If a walk from `id` comes back to `id` in the new map, it went through `child`, so `child` is on a loop too. */
  lemma {:induction false} LoopGoesThroughChild(before: ChannelMap, after: ChannelMap, child: ChannelId,
                                                parent: Option<ChannelId>, id: ChannelId, k: nat)
    requires Reparented(before, after, child, parent) && Acyclic(before)
    requires k > 0 && Climb(after, Some(id), k) == Some(id)
    ensures Reaches(after, parent, child)
  {
    if j: nat :| j < k && Climb(after, Some(id), j) == Some(child) {
      ClimbAdds(after, Some(id), k, j);
      ClimbAdds(after, Some(id), j, k);
      assert Climb(after, Some(child), k) == Some(child);
      ClimbAdds(after, Some(child), 1, k - 1);
      assert Climb(after, Some(child), 0) == Some(child);
      assert Climb(after, Some(child), 1) == parent;
    } else {
      SameWalk(before, after, child, parent, Some(id), k);
    }
  }

  /** On an acyclic map a new parent closes a loop exactly when that parent already leads to the child. */
  lemma {:induction false} LoopIffReaches(before: ChannelMap, after: ChannelMap, child: ChannelId,
                                          parent: Option<ChannelId>)
    requires Acyclic(before) && Reparented(before, after, child, parent)
    ensures Acyclic(after) <==> !Reaches(before, parent, child)
  {
    if !Reaches(before, parent, child) {
      forall id: ChannelId, k: nat | k > 0 ensures Climb(after, Some(id), k) != Some(id) {
        ReachesIsLocal(before, after, child, parent, parent);
        if Climb(after, Some(id), k) == Some(id) {
          LoopGoesThroughChild(before, after, child, parent, id, k);
        }
      }
    } else {
      Reverse(before, after, child, parent);
      ReachesIsLocal(after, before, child, ParentOf(before, child), parent);
      var k: nat :| Climb(after, parent, k) == Some(child);
      assert Climb(after, Some(child), 0) == Some(child);
      assert Climb(after, Some(child), 1) == parent;
      ClimbAdds(after, Some(child), 1, k);
      assert Climb(after, Some(child), 1 + k) == Some(child);
    }
  }

  lemma {:induction false} SameParentsClimb(before: ChannelMap, after: ChannelMap, from: Option<ChannelId>, k: nat)
    requires forall id :: ParentOf(after, id) == ParentOf(before, id)
    ensures Climb(after, from, k) == Climb(before, from, k)
  {
    if k > 0 {
      SameParentsClimb(before, after, from, k - 1);
    }
  }

  /** Nothing but a parent or a channel's existence matters to the forest. */
  lemma {:induction false} SameParentsKeepForest(before: ChannelMap, after: ChannelMap)
    requires Acyclic(before) && forall id :: ParentOf(after, id) == ParentOf(before, id)
    ensures Acyclic(after)
  {
    forall id: ChannelId, k: nat | k > 0 ensures Climb(after, Some(id), k) != Some(id) {
      SameParentsClimb(before, after, Some(id), k);
    }
  }

  /** An update the server accepts keeps the forest a forest, and it refuses nothing that would. */
  lemma {:induction false} UpdateKeepsForest(channels: ChannelMap, updated: Channel)
    requires Acyclic(channels) && updated.id in channels
    ensures Acyclic(channels[updated.id := updated]) <==> !Reaches(channels, updated.parent, updated.id)
  {
    LoopIffReaches(channels, channels[updated.id := updated], updated.id, updated.parent);
  }

  lemma {:induction false} DeleteKeepsForest(channels: ChannelMap, id: ChannelId)
    requires Acyclic(channels)
    ensures Acyclic(channels - {id})
  {
    forall k: nat ensures Climb(channels, None, k) == None {
      ClimbFromNowhere(channels, k);
    }
    LoopIffReaches(channels, channels - {id}, id, None);
  }

  /**
  Creation is never checked for loops. It keeps the forest exactly when the parent does not lead, through a dangling
  link, to the new id.
  */
  lemma {:induction false} CreateKeepsForestIff(channels: ChannelMap, created: Channel)
    requires Acyclic(channels) && created.id !in channels
    ensures Acyclic(channels[created.id := created]) <==> !Reaches(channels, created.parent, created.id)
  {
    LoopIffReaches(channels, channels[created.id := created], created.id, created.parent);
  }

  /** In particular it keeps the forest when no channel's parent names the new id. */
  lemma {:induction false} CreateKeepsForest(channels: ChannelMap, created: Channel)
    requires Acyclic(channels) && created.id !in channels && created.parent != Some(created.id)
    requires forall id :: id in channels ==> channels[id].parent != Some(created.id)
    ensures Acyclic(channels[created.id := created])
  {
    forall k: nat ensures Climb(channels, created.parent, k) != Some(created.id) {
    }
    CreateKeepsForestIff(channels, created);
  }

  // ---- The next id --------------------------------------------------------------------

  /** One past the largest live id, or 1. */
  predicate IsNextChannelId(channels: ChannelMap, id: ChannelId) {
    id >= 1 && (forall c :: c in channels ==> c < id) && (id == 1 || id - 1 in channels)
  }

  method NextChannelId(channels: ChannelMap) returns (id: ChannelId)
    ensures IsNextChannelId(channels, id)
  {
    var highest := 0;
    var todo := channels.Keys;
    while todo != {}
      invariant todo <= channels.Keys
      invariant forall c :: c in channels && c !in todo ==> c <= highest
      invariant highest == 0 || highest in channels
      decreases |todo|
    {
      var c :| c in todo;
      if c > highest {
        highest := c;
      }
      todo := todo - {c};
    }
    id := highest + 1;
  }

  function Bare(id: ChannelId, parent: Option<ChannelId>): Channel {
    Channel(id, parent, "room", "", Voice, None, 0, [])
  }

  /**
  Deleting the highest channel leaves its child's parent dangling, the next id reuses it, and hanging the newcomer
  under that child closes a loop. Asked then to hang a channel that is not on it below one that is, the server's walk
  never ends.
  */
  lemma {:induction false} CreateCanCloseALoop()
    ensures var channels := map[1 := Bare(1, None), 2 := Bare(2, Some(3)), 3 := Bare(3, None)];
            var left := channels - {3};
            && Acyclic(channels) && Acyclic(left) && IsNextChannelId(left, 3)
            && !Acyclic(left[3 := Bare(3, Some(2))]) && NeverEnds(left[3 := Bare(3, Some(2))], Some(2), 1)
  {
    var base: ChannelMap := map[];
    assert Acyclic(base) by {
      forall id: ChannelId, k: nat | k > 0 ensures Climb(base, Some(id), k) != Some(id) {
        ClimbAdds(base, Some(id), 1, k - 1);
        assert Climb(base, Some(id), 0) == Some(id);
        assert Climb(base, Some(id), 1) == None;
        ClimbFromNowhere(base, k - 1);
      }
    }
    var one := base[1 := Bare(1, None)];
    CreateKeepsForest(base, Bare(1, None));
    var three := one[3 := Bare(3, None)];
    CreateKeepsForest(one, Bare(3, None));
    CreateKeepsForest(three, Bare(2, Some(3)));
    var channels := map[1 := Bare(1, None), 2 := Bare(2, Some(3)), 3 := Bare(3, None)];
    assert channels == three[2 := Bare(2, Some(3))];
    DeleteKeepsForest(channels, 3);
    var left := channels - {3};
    assert Climb(left, Some(2), 0) == Some(2);
    assert Climb(left, Some(2), 1) == Some(3);
    CreateKeepsForestIff(left, Bare(3, Some(2)));
    var looped := left[3 := Bare(3, Some(2))];
    forall k: nat ensures Climb(looped, Some(2), k).Some? && Climb(looped, Some(2), k) != Some(1) {
      RoundAndRound(looped, k);
    }
  }

  lemma {:induction false} RoundAndRound(channels: ChannelMap, k: nat)
    requires ParentOf(channels, 2) == Some(3) && ParentOf(channels, 3) == Some(2)
    ensures Climb(channels, Some(2), k) == Some(if k % 2 == 0 then 2 else 3)
  {
    if k > 0 {
      RoundAndRound(channels, k - 1);
    }
  }

  /** On a forest every walk ends, whatever it looks for. */
  lemma {:induction false} ForestWalksEnd(channels: ChannelMap, from: Option<ChannelId>, to: ChannelId)
    requires Acyclic(channels)
    ensures !NeverEnds(channels, from, to)
  {
    if NeverEnds(channels, from, to) {
      WalkRepeats(channels, from, to, 0, {});
    }
  }

  lemma {:induction false} WalkRepeats(channels: ChannelMap, from: Option<ChannelId>, to: ChannelId, steps: nat,
                                       passed: set<ChannelId>)
    requires NeverEnds(channels, from, to) && OnTheWay(channels, from, to, steps, passed) && passed <= channels.Keys
    requires forall id :: id in passed ==> Above(channels, Climb(channels, from, steps), id)
    ensures !Acyclic(channels)
    decreases channels.Keys - passed
  {
    assert Climb(channels, from, steps).Some?;
    var id := Climb(channels, from, steps).value;
    if id in passed {
      CircleNeverEnds(channels, from, to, steps, passed, id);
    } else {
      assert Climb(channels, from, steps + 1).Some?;
      assert id in channels;
      PassedGrows(channels, passed, id);
      OneMoreOnTheWay(channels, from, to, steps, passed, id);
      assert channels.Keys - (passed + {id}) < channels.Keys - passed;
      WalkRepeats(channels, from, to, steps + 1, passed + {id});
    }
  }

  // ---- Overwrites on a channel ------------------------------------------------------------

  /** `retain(|o| o.target != target)`. */
  function DropTarget(overwrites: seq<Overwrite>, target: OverwriteTarget): (s: seq<Overwrite>)
    ensures forall o :: o in s <==> o in overwrites && o.target != target
    ensures (forall o :: o in overwrites ==> o.target != target) ==> s == overwrites
  {
    if overwrites == [] then []
    else
      assert overwrites == [overwrites[0]] + overwrites[1..];
      var rest := DropTarget(overwrites[1..], target);
      if overwrites[0].target == target then rest else [overwrites[0]] + rest
  }

  lemma {:induction false} DropKeepsUnique(overwrites: seq<Overwrite>, target: OverwriteTarget)
    requires UniqueTargets(overwrites)
    ensures UniqueTargets(DropTarget(overwrites, target))
  {
    if overwrites != [] {
      DropKeepsUnique(overwrites[1..], target);
      var s := DropTarget(overwrites[1..], target);
      forall j | 0 <= j < |s| ensures s[j].target != overwrites[0].target {
        assert s[j] in s;
        var k :| 0 <= k < |overwrites[1..]| && overwrites[1..][k] == s[j];
        assert overwrites[k + 1] == s[j];
      }
    }
  }

  function WithOverwrite(overwrites: seq<Overwrite>, o: Overwrite): seq<Overwrite> {
    DropTarget(overwrites, o.target) + [o]
  }

  /** Replacing or inserting changes the answer for one target only. */
  lemma {:induction false} WithOverwriteLookup(overwrites: seq<Overwrite>, o: Overwrite, t: OverwriteTarget)
    requires UniqueTargets(overwrites)
    ensures UniqueTargets(WithOverwrite(overwrites, o))
    ensures OverwriteFor(WithOverwrite(overwrites, o), t) ==
            if t == o.target then Some(o)
            else OverwriteFor(overwrites, t)
  {
    DropKeepsUnique(overwrites, o.target);
    var s := WithOverwrite(overwrites, o);
    assert UniqueTargets(s);
    assert s[|s| - 1] == o;
    if t == o.target {
      OverwriteIs(s, o);
    } else if OverwriteFor(overwrites, t).Some? {
      assert OverwriteFor(overwrites, t).value in DropTarget(overwrites, o.target);
      OverwriteIs(s, OverwriteFor(overwrites, t).value);
    }
  }

  lemma {:induction false} DropTargetLookup(overwrites: seq<Overwrite>, target: OverwriteTarget, t: OverwriteTarget)
    requires UniqueTargets(overwrites)
    ensures UniqueTargets(DropTarget(overwrites, target))
    ensures OverwriteFor(DropTarget(overwrites, target), t) == if t == target then None else OverwriteFor(overwrites, t)
  {
    DropKeepsUnique(overwrites, target);
    if t != target && OverwriteFor(overwrites, t).Some? {
      OverwriteIs(DropTarget(overwrites, target), OverwriteFor(overwrites, t).value);
    }
  }

  ghost predicate ChannelsOk(channels: ChannelMap) {
    forall id :: id in channels ==> channels[id].id == id && UniqueTargets(channels[id].overwrites)
  }
}
