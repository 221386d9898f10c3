/**
What a channel that is given a deleted one's id inherits from it
(crates/pickle-server/src/state.rs:913-924, crates/pickle-server/src/store.rs:495-511).

The next id is one past the highest live one, so deleting the highest channel makes its id available again. Overwrites
go with a deleted channel; its messages stay.
*/
module Reuse {
  import opened Common
  import opened Perms
  import opened RoleTable
  import opened Channels
  import opened Store
  import opened History

  /** As long as the tables hold what memory holds, no stored overwrite names the next channel. */
  lemma {:induction false} OverwritesNeverInherited(t: Tables, ps: PermState, channels: ChannelMap, id: ChannelId)
    requires Synced(t, ps, channels) && IsNextChannelId(channels, id)
    ensures forall target :: (id, target) !in t.overwrites && StoredOverwrite(t.overwrites, id, target) == None
  {
    forall target ensures (id, target) !in t.overwrites {
      assert (id, target) in t.overwrites ==> (id, target).0 in channels;
    }
  }

  /** The live channels and the message log, as far as ids go. */
  datatype Rooms = Rooms(live: set<ChannelId>, messages: Messages)

  datatype Act =
    | Make(id: ChannelId)
    | Say(message: MessageId, channel: ChannelId, content: string)
    | Drop(id: ChannelId)
    | Other

  predicate IsNextOf(live: set<ChannelId>, id: ChannelId) {
    id >= 1 && (forall c :: c in live ==> c < id) && (id == 1 || id - 1 in live)
  }

  lemma NextIsNextOf(channels: ChannelMap, id: ChannelId)
    ensures IsNextChannelId(channels, id) <==> IsNextOf(channels.Keys, id)
  {
  }

  /** A message can only be sent to a live channel. Dropping a channel leaves its messages. */
  ghost predicate Next(s: Rooms, act: Act, next: Rooms) {
    match act
    case Make(id) => IsNextOf(s.live, id) && next == s.(live := s.live + {id})
    case Say(message, channel, content) =>
      && channel in s.live && message !in s.messages
      && next == s.(messages := s.messages[message := Message(channel, content)])
    case Drop(id) => next == s.(live := s.live - {id})
    case Other => next == s
  }

  ghost predicate IsHistory(acts: seq<Act>, trace: seq<Rooms>) {
    |trace| == |acts| + 1 && forall i :: 0 <= i < |acts| ==> Next(trace[i], acts[i], trace[i + 1])
  }

  /** Everything the first n acts said under one id. */
  function Said(acts: seq<Act>, n: nat, channel: ChannelId): set<MessageId>
    requires n <= |acts|
  {
    if n == 0 then {}
    else
      Said(acts, n - 1, channel) +
      if acts[n - 1].Say? && acts[n - 1].channel == channel then {acts[n - 1].message} else {}
  }

  lemma SaidOne(s: Rooms, act: Act, next: Rooms, channel: ChannelId)
    requires Next(s, act, next)
    ensures Matching(next.messages, channel, None) ==
            Matching(s.messages, channel, None) + if act.Say? && act.channel == channel then {act.message} else {}
  {
  }

  /** An id's history is everything ever said under it, by whichever channel bore it. */
  lemma {:induction false} HistoryIsWhatWasSaid(acts: seq<Act>, trace: seq<Rooms>, n: nat, channel: ChannelId)
    requires IsHistory(acts, trace) && n <= |acts|
    ensures Matching(trace[n].messages, channel, None) ==
            Matching(trace[0].messages, channel, None) + Said(acts, n, channel)
  {
    if n > 0 {
      HistoryIsWhatWasSaid(acts, trace, n - 1, channel);
      SaidOne(trace[n - 1], acts[n - 1], trace[n], channel);
    }
  }

  /** So a channel that is made starts with no history exactly when nothing was stored or said under its id before. */
  lemma {:induction false} NewHistoryIsEmptyIff(acts: seq<Act>, trace: seq<Rooms>, n: nat)
    requires IsHistory(acts, trace) && n < |acts| && acts[n].Make?
    ensures Matching(trace[n + 1].messages, acts[n].id, None) == {} <==>
            Matching(trace[0].messages, acts[n].id, None) == {} && Said(acts, n, acts[n].id) == {}
  {
    HistoryIsWhatWasSaid(acts, trace, n, acts[n].id);
    assert Next(trace[n], acts[n], trace[n + 1]);
  }

  /** Every stored message is older than the next channel: none names its id or a later one. */
  ghost predicate NothingWaiting(s: Rooms) {
    forall id, m :: IsNextOf(s.live, id) && m in s.messages ==> s.messages[m].channel < id
  }

  /** Somebody drops the live channel with the highest id. */
  predicate DropsHighest(s: Rooms, act: Act) {
    act.Drop? && act.id in s.live && forall c :: c in s.live ==> c <= act.id
  }

  lemma {:induction false} NextIdKept(live: set<ChannelId>, gone: ChannelId, id: ChannelId)
    requires IsNextOf(live - {gone}, id)
    requires gone in live ==> exists c :: c in live && c > gone
    ensures IsNextOf(live, id)
  {
    if gone in live {
      var c :| c in live && c > gone;
      assert c in live - {gone};
    }
    forall c | c in live ensures c < id {
      assert c != gone ==> c in live - {gone};
    }
  }

  lemma {:induction false} StepKeepsNothingWaiting(s: Rooms, act: Act, next: Rooms)
    requires NothingWaiting(s) && Next(s, act, next) && !DropsHighest(s, act)
    ensures NothingWaiting(next)
    ensures act.Make? ==> Matching(next.messages, act.id, None) == {}
  {
    forall id, m | IsNextOf(next.live, id) && m in next.messages ensures next.messages[m].channel < id {
      match act
      case Make(made) => assert made in next.live;
      case Say(_, _, _) =>
      case Drop(gone) => NextIdKept(s.live, gone, id);
      case Other =>
    }
  }

  /**
  The promise about history: as long as nobody drops the channel with the highest id, a channel that is made starts
  with no history, however the run goes on.
  */
  lemma {:induction false} NoHistoryInherited(acts: seq<Act>, trace: seq<Rooms>, n: nat)
    requires IsHistory(acts, trace) && n <= |acts| && NothingWaiting(trace[0])
    requires forall i :: 0 <= i < n ==> !DropsHighest(trace[i], acts[i])
    ensures NothingWaiting(trace[n])
    ensures n < |acts| && acts[n].Make? ==> Matching(trace[n + 1].messages, acts[n].id, None) == {}
  {
    if n > 0 {
      NoHistoryInherited(acts, trace, n - 1);
      StepKeepsNothingWaiting(trace[n - 1], acts[n - 1], trace[n]);
    }
    if n < |acts| && acts[n].Make? {
      StepKeepsNothingWaiting(trace[n], acts[n], trace[n + 1]);
    }
  }

  /** Dropping the highest channel is what breaks it: the next one is born with the dead one's messages. */
  lemma {:induction false} HistoryCanBeInherited()
    ensures var acts := [Make(1), Say(1, 1, "hello"), Drop(1), Make(1)];
            exists trace: seq<Rooms> :: IsHistory(acts, trace) && trace[0] == Rooms({}, map[])
                            && DropsHighest(trace[2], acts[2]) && Matching(trace[4].messages, 1, None) == {1}
  {
    var acts := [Make(1), Say(1, 1, "hello"), Drop(1), Make(1)];
    var log: Messages := map[1 := Message(1, "hello")];
    var trace: seq<Rooms> :=
      [Rooms({}, map[]), Rooms({1}, map[]), Rooms({1}, log), Rooms({}, log), Rooms({1}, log)];
    assert Next(trace[0], acts[0], trace[1]);
    assert Next(trace[1], acts[1], trace[2]);
    assert Next(trace[2], acts[2], trace[3]);
    assert Next(trace[3], acts[3], trace[4]);
    assert IsHistory(acts, trace);
    assert Matching(trace[4].messages, 1, None) == {1};
  }
}
