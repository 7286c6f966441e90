/**
 The two event handlers of the tracker as pure steps over its whole state (the
 activity table and the voice join-time map), the replay of a sequence of events,
 and what holds of the accounting across many events.
 */
module Events {
  import opened Accounting

  /** The events the handlers receive, reduced to what they read. */
  datatype Event =
    | MessageSent(author: UserId, messageGuild: Option<GuildId>, authorIsBot: bool)
    | VoiceStateUpdate(member: UserId, guild: GuildId, memberIsBot: bool,
                       beforeInChannel: bool, afterInChannel: bool, now: Timestamp)

  /** The tracker's state: the activity table and the join time of each open session. */
  datatype TrackerState = TrackerState(activity: Table, joinTimes: map<Key, Timestamp>)

  /** At start-up the table has just been dropped and recreated, and no session is open. */
  const Initial: TrackerState := TrackerState(map[], map[])

  /** The kind of a voice-state change, from whether a channel is set before and after. */
  datatype Transition = Join | Leave | NoChange

  function Classify(beforeInChannel: bool, afterInChannel: bool): (t: Transition)
    ensures t == Join <==> !beforeInChannel && afterInChannel
    ensures t == Leave <==> beforeInChannel && !afterInChannel
  {
    if !beforeInChannel && afterInChannel then Join
    else if beforeInChannel && !afterInChannel then Leave
    else NoChange
  }

  /**
   The message handler: bot authors are ignored; a message outside a guild fails on
   its missing guild before anything is written; otherwise the message upsert.
   */
  function MessageStep(s: TrackerState, author: UserId, guild: Option<GuildId>, authorIsBot: bool): (r: TrackerState)
    ensures r.joinTimes == s.joinTimes
    ensures s.activity.Keys <= r.activity.Keys
    ensures forall j :: guild.None? || j != (author, guild.value) ==> (j in r.activity <==> j in s.activity)
    ensures forall j :: VoiceOf(r.activity, j) == VoiceOf(s.activity, j)
    ensures forall j :: MessagesOf(r.activity, j)
                        == MessagesOf(s.activity, j) + (if !authorIsBot && guild == Some(j.1) && author == j.0 then 1 else 0)
  {
    if authorIsBot || guild.None? then s
    else s.(activity := AddMessage(s.activity, (author, guild.value)))
  }

  /**
   The voice-state handler: bot members are ignored; a join stores the join time,
   overwriting any earlier one; a leave pops the join time and, if there was one,
   adds the elapsed whole seconds to the voice time; anything else does nothing.
   */
  function VoiceStep(s: TrackerState, member: UserId, guild: GuildId, memberIsBot: bool,
                     beforeInChannel: bool, afterInChannel: bool, now: Timestamp): (r: TrackerState)
    ensures s.activity.Keys <= r.activity.Keys
    ensures forall j :: j != (member, guild) ==> (j in r.activity <==> j in s.activity)
    ensures forall j :: MessagesOf(r.activity, j) == MessagesOf(s.activity, j)
    ensures forall j :: j != (member, guild)
                        ==> VoiceOf(r.activity, j) == VoiceOf(s.activity, j) && OpenSession(r, j) == OpenSession(s, j)
  {
    var k := (member, guild);
    if memberIsBot then s
    else match Classify(beforeInChannel, afterInChannel)
      case Join => s.(joinTimes := s.joinTimes[k := now])
      case Leave =>
        if k in s.joinTimes then
          TrackerState(AddVoice(s.activity, k, ElapsedSeconds(s.joinTimes[k], now)), s.joinTimes - {k})
        else
          s.(joinTimes := s.joinTimes - {k})
      case NoChange => s
  }

  function Apply(s: TrackerState, e: Event): TrackerState
  {
    match e
    case MessageSent(author, guild, isBot) => MessageStep(s, author, guild, isBot)
    case VoiceStateUpdate(member, guild, isBot, before, after, now) =>
      VoiceStep(s, member, guild, isBot, before, after, now)
  }

  /** The state after handling the events one at a time, in order; no event deletes a row. */
  function Replay(s: TrackerState, events: seq<Event>): (r: TrackerState)
    ensures s.activity.Keys <= r.activity.Keys
    decreases |events|
  {
    if events == [] then s else Replay(Apply(s, events[0]), events[1..])
  }

  /** The join time of the key's open voice session, if there is one. */
  function OpenSession(s: TrackerState, k: Key): Option<Timestamp>
  {
    if k in s.joinTimes then Some(s.joinTimes[k]) else None
  }

  predicate IsBotEvent(e: Event)
  {
    match e
    case MessageSent(_, _, isBot) => isBot
    case VoiceStateUpdate(_, _, isBot, _, _, _) => isBot
  }

  /** The key an event is about, if it has one. */
  function KeyOf(e: Event): Option<Key>
  {
    match e
    case MessageSent(author, guild, _) => if guild.Some? then Some((author, guild.value)) else None
    case VoiceStateUpdate(member, guild, _, _, _, _) => Some((member, guild))
  }

  // ---------------------------------------------------------------------------
  // One event at a time
  // ---------------------------------------------------------------------------

  /** Events from bot accounts, messages and voice updates alike, change nothing. */
  lemma BotEventsChangeNothing(s: TrackerState, e: Event)
    requires IsBotEvent(e)
    ensures Apply(s, e) == s
  {
  }

  /**
   A human message in a guild creates the row (1, 0) or adds exactly 1 to its message
   count; voice time, every other row and the join-time map stay as they were.
   */
  lemma MessageUpsert(s: TrackerState, author: UserId, guild: GuildId, k: Key)
    ensures var r := MessageStep(s, author, Some(guild), false);
      && r.joinTimes == s.joinTimes
      && (author, guild) in r.activity
      && r.activity[(author, guild)] ==
           (if (author, guild) in s.activity
            then s.activity[(author, guild)].(messageCount := s.activity[(author, guild)].messageCount + 1)
            else Record(1, 0))
      && (k != (author, guild) ==> (k in r.activity <==> k in s.activity))
      && (k != (author, guild) && k in s.activity ==> r.activity[k] == s.activity[k])
  {
  }

  /** A join (no channel before, a channel after) stores now as the join time, and nothing else. */
  lemma JoinStoresTime(s: TrackerState, member: UserId, guild: GuildId, now: Timestamp)
    ensures VoiceStep(s, member, guild, false, false, true, now)
            == s.(joinTimes := s.joinTimes[(member, guild) := now])
  {
  }

  /** A leave always removes the key from the join-time map; with no join time the table is unchanged. */
  lemma LeaveWithoutJoinTime(s: TrackerState, member: UserId, guild: GuildId, now: Timestamp)
    requires (member, guild) !in s.joinTimes
    ensures VoiceStep(s, member, guild, false, true, false, now) == s
  {
  }

  /**
   A leave with a join time adds the elapsed seconds to that key's voice time, creating
   the row (0, duration) if needed; the message count and other rows are untouched.
   */
  lemma LeaveWithJoinTime(s: TrackerState, member: UserId, guild: GuildId, now: Timestamp)
    requires (member, guild) in s.joinTimes
    ensures var k := (member, guild);
      var d := ElapsedSeconds(s.joinTimes[k], now);
      var r := VoiceStep(s, member, guild, false, true, false, now);
      && r.joinTimes == s.joinTimes - {k}
      && r.activity.Keys == s.activity.Keys + {k}
      && r.activity[k] == Record(MessagesOf(s.activity, k), VoiceOf(s.activity, k) + d)
      && (k !in s.activity ==> r.activity[k] == Record(0, d))
      && (forall j :: j in s.activity && j != k ==> r.activity[j] == s.activity[j])
  {
  }

  /** A move between channels, or an update with no channel before or after, changes nothing. */
  lemma NoTransitionChangesNothing(s: TrackerState, member: UserId, guild: GuildId, memberIsBot: bool,
                                   inChannel: bool, now: Timestamp)
    ensures VoiceStep(s, member, guild, memberIsBot, inChannel, inChannel, now) == s
  {
  }

  // ---------------------------------------------------------------------------
  // Sequences of events
  // ---------------------------------------------------------------------------

  lemma {:induction false} ReplayAppend(s: TrackerState, a: seq<Event>, b: seq<Event>)
    ensures Replay(s, a + b) == Replay(Replay(s, a), b)
    decreases |a|
  {
    if a == [] {
      assert a + b == b;
    } else {
      assert (a + b)[1..] == a[1..] + b;
      ReplayAppend(Apply(s, a[0]), a[1..], b);
    }
  }

  /** The number of human messages sent in guild k.1 by user k.0. */
  function CountMessages(events: seq<Event>, k: Key): nat
    decreases |events|
  {
    if events == [] then 0
    else
      var e := events[0];
      (if e.MessageSent? && !e.authorIsBot && KeyOf(e) == Some(k) then 1 else 0)
      + CountMessages(events[1..], k)
  }

  /** No message is lost: the message count grows by exactly the number of human messages. */
  lemma {:induction false} MessageCountAccumulates(s: TrackerState, events: seq<Event>, k: Key)
    ensures MessagesOf(Replay(s, events).activity, k) == MessagesOf(s.activity, k) + CountMessages(events, k)
    decreases |events|
  {
    if events != [] {
      MessageCountAccumulates(Apply(s, events[0]), events[1..], k);
    }
  }

  /** From the empty start-up table, a key's message count is the number of its human in-guild messages. */
  lemma MessageCountFromStart(events: seq<Event>, k: Key)
    ensures MessagesOf(Replay(Initial, events).activity, k) == CountMessages(events, k)
  {
    MessageCountAccumulates(Initial, events, k);
  }

  /** A key that no event is about gets no row: the table holds only keys with activity. */
  lemma {:induction false} NoEventsNoRow(s: TrackerState, events: seq<Event>, k: Key)
    requires k !in s.activity
    requires forall i :: 0 <= i < |events| ==> KeyOf(events[i]) != Some(k)
    ensures k !in Replay(s, events).activity
    decreases |events|
  {
    if events != [] {
      assert KeyOf(events[0]) != Some(k);
      NoEventsNoRow(Apply(s, events[0]), events[1..], k);
    }
  }

  /** From start-up, the stats read of a key that no event is about is "no activity", not a zero record. */
  lemma NoEventsNoActivity(events: seq<Event>, k: Key)
    requires forall i :: 0 <= i < |events| ==> KeyOf(events[i]) != Some(k)
    ensures StatsFor(Replay(Initial, events).activity, k) == NoActivity
  {
    NoEventsNoRow(Initial, events, k);
  }

  /**
   The voice seconds a key gains over a sequence of events, found by scanning only that
   key's human voice updates: a join opens a session at its reading (replacing any open
   one), a leave closes the open session and gains its elapsed seconds (nothing without
   one), anything else leaves the open session as it is.
   */
  function VoiceAdded(events: seq<Event>, k: Key, open: Option<Timestamp>): int
    decreases |events|
  {
    if events == [] then 0
    else
      var e := events[0];
      if e.VoiceStateUpdate? && !e.memberIsBot && (e.member, e.guild) == k then
        if !e.beforeInChannel && e.afterInChannel then
          VoiceAdded(events[1..], k, Some(e.now))
        else if e.beforeInChannel && !e.afterInChannel then
          (if open.Some? then ElapsedSeconds(open.value, e.now) else 0) + VoiceAdded(events[1..], k, None)
        else
          VoiceAdded(events[1..], k, open)
      else
        VoiceAdded(events[1..], k, open)
  }

  /**
   No voice time is lost: over any event sequence a key's voice time grows by exactly what
   its own sessions add. Messages and other keys' events neither close nor reset them.
   */
  lemma {:induction false} VoiceTimeAccumulates(s: TrackerState, events: seq<Event>, k: Key)
    ensures VoiceOf(Replay(s, events).activity, k) == VoiceOf(s.activity, k) + VoiceAdded(events, k, OpenSession(s, k))
    decreases |events|
  {
    if events != [] {
      var e := events[0];
      var s' := Apply(s, e);
      if e.VoiceStateUpdate? && !e.memberIsBot && (e.member, e.guild) == k {
        if !e.beforeInChannel && e.afterInChannel {
          assert OpenSession(s', k) == Some(e.now);
          assert VoiceOf(s'.activity, k) == VoiceOf(s.activity, k);
        } else if e.beforeInChannel && !e.afterInChannel {
          assert OpenSession(s', k) == None;
          assert VoiceOf(s'.activity, k) == VoiceOf(s.activity, k)
            + (if OpenSession(s, k).Some? then ElapsedSeconds(OpenSession(s, k).value, e.now) else 0);
        } else {
          assert s' == s;
        }
      } else if e.MessageSent? {
        assert OpenSession(s', k) == OpenSession(s, k);
      }
      VoiceTimeAccumulates(s', events[1..], k);
    }
  }

  /** From the start-up state, a key's voice time is what its own sessions add. */
  lemma VoiceTimeFromStart(events: seq<Event>, k: Key)
    ensures VoiceOf(Replay(Initial, events).activity, k) == VoiceAdded(events, k, None)
  {
    VoiceTimeAccumulates(Initial, events, k);
  }

  /**
   The stats command is itself a message: the handler counts it before the command runs,
   so a member asking for their own stats always sees a row, with the message just sent
   included, never "no activity".
   */
  lemma StatsCommandCountsItself(s: TrackerState, author: UserId, guild: GuildId)
    ensures var k := (author, guild);
      StatsFor(MessageStep(s, author, Some(guild), false).activity, k)
        == Activity(MessagesOf(s.activity, k) + 1, FormatVoiceTime(VoiceOf(s.activity, k)))
  {
  }

  /** Every open session started no later than time t. */
  predicate JoinedBy(s: TrackerState, t: Timestamp)
  {
    forall k :: k in s.joinTimes ==> s.joinTimes[k] <= t
  }

  /** The voice updates carry readings that never go below t and never go backwards. */
  predicate ClockForward(t: Timestamp, events: seq<Event>)
    decreases |events|
  {
    events == [] ||
    (if events[0].VoiceStateUpdate?
     then t <= events[0].now && ClockForward(events[0].now, events[1..])
     else ClockForward(t, events[1..]))
  }

  /**
   When the clock does not go backwards, neither counter of any key ever decreases.
   (Nothing clamps a negative duration, so a clock set back can lower a voice time.)
   */
  lemma {:induction false} CountersNeverDecrease(s: TrackerState, t: Timestamp, events: seq<Event>, k: Key)
    requires JoinedBy(s, t) && ClockForward(t, events)
    ensures MessagesOf(s.activity, k) <= MessagesOf(Replay(s, events).activity, k)
    ensures VoiceOf(s.activity, k) <= VoiceOf(Replay(s, events).activity, k)
    decreases |events|
  {
    if events != [] {
      var e := events[0];
      var s' := Apply(s, e);
      var t' := if e.VoiceStateUpdate? then e.now else t;
      assert MessagesOf(s.activity, k) <= MessagesOf(s'.activity, k);
      assert VoiceOf(s.activity, k) <= VoiceOf(s'.activity, k);
      assert JoinedBy(s', t');
      CountersNeverDecrease(s', t', events[1..], k);
    }
  }

  /** A clock set back between join and leave lowers the voice time: 10 s then 5 s gives -5. */
  lemma ClockSetBackLowersVoiceTime(user: UserId, guild: GuildId)
    ensures var events := [VoiceStateUpdate(user, guild, false, false, true, 10 * MicrosPerSecond),
                           VoiceStateUpdate(user, guild, false, true, false, 5 * MicrosPerSecond)];
      Replay(Initial, events).activity == map[(user, guild) := Record(0, -5)]
  {
    var k := (user, guild);
    var join := VoiceStateUpdate(user, guild, false, false, true, 10 * MicrosPerSecond);
    var leave := VoiceStateUpdate(user, guild, false, true, false, 5 * MicrosPerSecond);
    SessionSpansChannelMoves(Initial, user, guild, 10 * MicrosPerSecond, [], 5 * MicrosPerSecond);
    assert [join] + [] + [leave] == [join, leave];
    ElapsedOfWholeSeconds(10, 5);
    assert AddVoice(map[], k, -5) == map[k := Record(0, -5)];
  }

  /** Events that are neither joins nor leaves (channel moves, or no channel on either side). */
  predicate AllNoTransitions(events: seq<Event>)
  {
    forall i :: 0 <= i < |events| ==>
      events[i].VoiceStateUpdate? && events[i].beforeInChannel == events[i].afterInChannel
  }

  lemma {:induction false} NoTransitionsChangeNothing(s: TrackerState, events: seq<Event>)
    requires AllNoTransitions(events)
    ensures Replay(s, events) == s
    decreases |events|
  {
    if events != [] {
      assert events[0].VoiceStateUpdate? && events[0].beforeInChannel == events[0].afterInChannel;
      NoTransitionsChangeNothing(s, events[1..]);
    }
  }

  /**
   A session spanning any number of channel moves is counted once, from the join to the
   final leave: the moves neither reset the join time nor add time of their own.
   */
  lemma SessionSpansChannelMoves(s: TrackerState, member: UserId, guild: GuildId,
                                 joinedAt: Timestamp, moves: seq<Event>, leftAt: Timestamp)
    requires AllNoTransitions(moves)
    ensures var k := (member, guild);
      var r := Replay(s, [VoiceStateUpdate(member, guild, false, false, true, joinedAt)] + moves
                         + [VoiceStateUpdate(member, guild, false, true, false, leftAt)]);
      r == TrackerState(AddVoice(s.activity, k, ElapsedSeconds(joinedAt, leftAt)), s.joinTimes - {k})
  {
    var join := VoiceStateUpdate(member, guild, false, false, true, joinedAt);
    var leave := VoiceStateUpdate(member, guild, false, true, false, leftAt);
    ReplayAppend(s, [join] + moves, [leave]);
    ReplayAppend(s, [join], moves);
    var afterJoin := Replay(s, [join]);
    NoTransitionsChangeNothing(afterJoin, moves);
    assert Replay(afterJoin, [leave]) == Apply(afterJoin, leave);
    assert afterJoin.joinTimes[(member, guild) := joinedAt] - {(member, guild)} == s.joinTimes - {(member, guild)};
  }

  /**
   A restart empties the join-time map, so a leave that arrives after it for a session
   opened before it records nothing: no negative or invented duration.
   */
  lemma LeaveAfterRestartRecordsNothing(activity: Table, member: UserId, guild: GuildId, now: Timestamp)
    ensures var s := TrackerState(activity, map[]);
      Apply(s, VoiceStateUpdate(member, guild, false, true, false, now)) == s
  {
  }

  /**
   Three messages, then a session from 0 s to 125 s: the row reads as 3 messages and
   0 hours, 2 minutes, as another member's stats command shows it (the user's own command
   would be counted first, see StatsCommandCountsItself); a user with no events, named
   by another member, gets "no activity", not a zero record.
   */
  lemma EndToEndScenario(a: UserId, b: UserId, g: GuildId)
    requires a != b
    ensures var msg := MessageSent(a, Some(g), false);
      var r := Replay(Initial, [msg, msg, msg,
                                VoiceStateUpdate(a, g, false, false, true, 0),
                                VoiceStateUpdate(a, g, false, true, false, 125 * MicrosPerSecond)]);
      && r.activity == map[(a, g) := Record(3, 125)]
      && StatsFor(r.activity, (a, g)) == Activity(3, VoiceDuration(0, 2))
      && StatsFor(r.activity, (b, g)) == NoActivity
  {
    ElapsedOfWholeSeconds(0, 125);
    var msg := MessageSent(a, Some(g), false);
    var s3 := Replay(Initial, [msg, msg, msg]);
    assert s3.activity == map[(a, g) := Record(3, 0)] by {
      assert Replay(Initial, [msg]).activity == map[(a, g) := Record(1, 0)];
      ReplayAppend(Initial, [msg], [msg, msg]);
      assert Replay(Initial, [msg, msg]).activity == map[(a, g) := Record(2, 0)] by {
        ReplayAppend(Initial, [msg], [msg]);
      }
      ReplayAppend(Initial, [msg, msg], [msg]);
      assert [msg, msg] + [msg] == [msg, msg, msg];
    }
    var join := VoiceStateUpdate(a, g, false, false, true, 0);
    var leave := VoiceStateUpdate(a, g, false, true, false, 125 * MicrosPerSecond);
    SessionSpansChannelMoves(s3, a, g, 0, [], 125 * MicrosPerSecond);
    assert [join] + [] + [leave] == [join, leave];
    ReplayAppend(Initial, [msg, msg, msg], [join, leave]);
    assert [msg, msg, msg] + [join, leave] == [msg, msg, msg, join, leave];
    FormatVoiceTimeUnique(125, 0, 2);
  }
}
