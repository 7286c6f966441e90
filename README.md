# Activity tracker accounting, modelled in Dafny

This project models the accounting core of a chat-server activity tracker bot
(`ActivityTracker` in `main.py`). The bot keeps a table `activity_stats` with one row per
(user, guild) pair. Each row holds a message count and a voice time in seconds. The bot
also keeps an in-memory dictionary of voice join times. It handles three things:

- a message event, which upserts the row and adds 1 to the message count;
- a voice-state event, which is a join, a leave or neither:
  - a join stores the join time;
  - a leave pops the join time and upserts the elapsed whole seconds into the voice time;
  - a move between channels does nothing;
- the `stats` command, which reads one row and shows the voice time as hours and minutes,
  or says that no activity is recorded.

The project has three files:

- `accounting.dfy` (module `Accounting`): the row, the table as a map keyed by
  `(user_id, guild_id)`, both upserts, the elapsed-seconds conversion, the hours/minutes
  formatting and the stats read.
- `events.dfy` (module `Events`): both handlers as pure steps over the whole state, the
  replay of an event sequence, and lemmas about single events and about sequences. The
  sequence lemmas cover:
  - no lost messages;
  - no voice time is lost: a key's voice time grows by exactly what its own sessions add,
    whatever other events come between;
  - rows are never deleted, and a key that no event is about never gets one;
  - counters never decrease while the clock runs forward;
  - a session that spans channel moves is counted once;
  - a leave that arrives after a restart records nothing;
  - the end-to-end scenario.
- `tracker.dfy` (module `Tracker`): the class `ActivityTracker`. Its fields `activity` and
  `voiceJoinTimes` are updated in place by `OnMessage` and `OnVoiceStateUpdate`. Each
  method states its whole new state and is proved to equal the pure step of `Events`.
  `OnStatsCommand` handles a stats command message: it upserts the message, then reads.

Clock readings are integers in microseconds, the resolution of `datetime.now()`, and are
passed in as the `now` parameter. The duration is `int((now - join).total_seconds())`.
It is modelled as the microsecond difference divided by one million and truncated toward
zero.

Nothing clamps a negative duration (main.py:108). So a leave whose reading is earlier
than the join lowers the voice time. `Events.ClockSetBackLowersVoiceTime` shows this, and
`Events.CountersNeverDecrease` proves the counters never decrease only while the clock
does not go backwards.

The voice handler ignores bot members (main.py:97-98), as the message handler ignores
bot authors (main.py:79-80).

The `stats` command is itself a message. `on_message` upserts and commits it
(main.py:84-92) before `process_commands` runs the command (main.py:94). So members who
ask for their own stats always see a row that already counts the command message.
"No activity" can only be the reply when another member is named.
`Tracker.ActivityTracker.OnStatsCommand` and `Events.StatsCommandCountsItself` state this
ordering.

A message that has no guild (a direct message) fails at `message.guild.id` before the
INSERT runs (`main.py:91`). The model takes the guild as an `Option` and leaves the state
unchanged when it is `None`.

Python's `//` and `%` by a positive divisor agree with Dafny's `/` and `%` for every
integer, negative values included. So the formatting is modelled for all voice times.

## Model

| member | source | states |
|---|---|---|
| Accounting.AddMessage | main.py:84-91 | message upsert: the key gets a row; a new row is (1, 0), an existing row gets message count + 1 with voice time kept; every other row is unchanged |
| Accounting.AddVoice | main.py:111-118 | voice upsert: a new row is (0, seconds), an existing row gets voice time + seconds with message count kept; every other row is unchanged |
| Accounting.ElapsedSeconds | main.py:108 | the duration is the microsecond difference truncated toward zero to whole seconds: for a forward clock 0 <= r and r s <= delta < r+1 s; for a backward clock r <= 0 and the mirrored bound; no clamping |
| Accounting.ElapsedOfWholeSeconds | main.py:108 | readings on whole seconds give exactly now - join seconds |
| Accounting.FormatVoiceTime | main.py:60-61 | 0 <= minutes < 60 and 3600*hours + 60*minutes <= v < 3600*hours + 60*minutes + 60; hours >= 0 when v >= 0 |
| Accounting.FormatVoiceTimeUnique | main.py:60-61 | the (hours, minutes) pair satisfying those bounds is unique, so the formatting is the round-down of v to whole minutes |
| Accounting.StatsFor | main.py:50-74 | the read yields "no activity" exactly when the key has no row, never a zero record; otherwise the row's message count and a formatting of its voice time within those bounds |
| Events.MessageStep | main.py:78-92 | the message handler: the join-time map is unchanged, no row disappears and no row appears for any other key, no voice time changes, and the message count of exactly the (author, guild) key of a human in-guild message goes up by 1 |
| Events.VoiceStep | main.py:96-119 | the voice handler: no row disappears, no row appears for any other key, no message count changes, and the voice time and open session of every other key are unchanged |
| Events.Replay | main.py:78-119 | events are handled one at a time in order, and no event sequence deletes a row |
| Events.Classify | main.py:100-105 | a join is exactly "no channel before, a channel after"; a leave is exactly "a channel before, none after" |
| Events.BotEventsChangeNothing | main.py:78-98 | a message from a bot and a voice update of a bot leave the table and the join-time map unchanged |
| Events.MessageUpsert | main.py:78-92 | a human message in a guild creates (1, 0) or adds exactly 1 to the message count; voice time, other rows and the join-time map are unchanged |
| Events.JoinStoresTime | main.py:101-102 | a join sets the key's join time to now, overwriting any earlier one, and changes nothing else |
| Events.LeaveWithoutJoinTime | main.py:105-107 | a leave with no stored join time changes neither the table nor the join-time map |
| Events.LeaveWithJoinTime | main.py:105-118 | a leave with a join time removes it and adds the elapsed seconds to the voice time, creating (0, duration) if needed; message count and other rows are untouched |
| Events.NoTransitionChangesNothing | main.py:100-105 | an update with a channel on both sides (a move) or on neither side changes nothing |
| Events.NoTransitionsChangeNothing | main.py:100-105 | any sequence of such updates leaves the state as it was |
| Events.MessageCountAccumulates | main.py:84-91 | after any event sequence the message count is the earlier count plus the number of human in-guild messages for the key (no lost update) |
| Events.MessageCountFromStart | main.py:21-25 | from the empty start-up state, the message count equals the number of the key's human messages |
| Events.NoEventsNoRow | main.py:78-119 | a key without a row that no event in a sequence is about still has no row afterwards |
| Events.NoEventsNoActivity | main.py:21-22 | from the empty start-up table, the stats read of a key that no event is about is "no activity", never a zero record |
| Events.VoiceTimeAccumulates | main.py:96-119 | after any event sequence a key's voice time is the earlier one plus the seconds of its own sessions, scanned from its open session over its own human voice updates only (no lost update, keys independent) |
| Events.VoiceTimeFromStart | main.py:21-25 | from the empty start-up state, a key's voice time is what its own sessions add, starting with no open session |
| Events.StatsCommandCountsItself | main.py:84-94 | the stats read after the command's own message is handled is a row whose message count is the earlier one plus 1, never "no activity" |
| Events.CountersNeverDecrease | main.py:96-119 | if every open session started no later than t and the clock never goes below t or backwards, neither counter of any key decreases |
| Events.ClockSetBackLowersVoiceTime | main.py:106-118 | a join at 10 s and a leave at 5 s leave the row (0, -5): no clamping |
| Events.SessionSpansChannelMoves | main.py:100-118 | join, any channel moves, then leave add exactly the elapsed time from join to leave once, and close the session |
| Events.LeaveAfterRestartRecordsNothing | main.py:21-25 | with the empty join-time map of a fresh start, a leave records nothing |
| Events.EndToEndScenario | main.py:50-118 | three messages and a 0 s to 125 s session give the row (3, 125) read (as another member's command shows it) as 3 messages and 0 hours, 2 minutes; a user with no events, named by another member, gets "no activity" |
| Tracker.ActivityTracker.constructor | main.py:18-25 | the table and the join-time map start empty |
| Tracker.ActivityTracker.OnMessage | main.py:78-92 | the table becomes the message upsert of the old table for a human message in a guild and is unchanged otherwise; the join-time map is unchanged; equals the pure message step |
| Tracker.ActivityTracker.OnVoiceStateUpdate | main.py:96-119 | the whole new state for bot, join, leave with and without join time, and no-transition updates; equals the pure voice step |
| Tracker.ActivityTracker.OnStatsCommand | main.py:78-94 | a stats command message is upserted first, then answered from the new table; a bot's command or one outside a guild changes nothing and gets no reply |
| Tracker.ActivityTracker.Stats | main.py:43-74 | for the named member, or the author when none is named: "no activity" exactly when there is no row, otherwise the row's message count and formatted voice time |

## Left out

- Discord client setup, intents, command registration, embeds and replies, `on_ready`
  and `on_command_error` (main.py:9-16, 63-76, 124-137): transport and presentation of a
  library that is not part of this model.
- `process_commands` after a message (main.py:94): command dispatch by the library.
- The SQLite connection, cursors and commits: the table is an in-memory map, and storage
  failures are not modelled. In the code their effect differs by place:
  - in the stats command they are caught and shown as a chat reply (main.py:75-76);
  - in `on_message` a failed INSERT escapes the handler and the command is not run
    (main.py:84-94);
  - in `on_voice_state_update` a failed INSERT escapes after the join time was already
    popped (main.py:106-118), so that session's time is lost.
- The `last_updated` column: it holds wall-clock time and the stats read never shows it.
- `datetime.now()` is the `now` parameter. The float arithmetic of `total_seconds()` is
  taken to be exact: rounding of very long durations is not modelled.
- Concurrency and async scheduling: events are handled one at a time.
- SQLite's 64-bit INTEGER range: counters are unbounded integers.
- The `Member` converter of the stats command: a member that cannot be resolved never
  reaches the command (it is reported by `on_command_error`).
