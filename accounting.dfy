/**
 The activity table of the tracker: one record per (user, guild) pair, the two
 upserts that the event handlers run against it, the elapsed-time conversion of a
 voice session, and the read and formatting behind the stats command.
 */
module Accounting {

  datatype Option<T> = None | Some(value: T)

  type UserId = int
  type GuildId = int

  /** The primary key of the table: (user_id, guild_id). */
  type Key = (UserId, GuildId)

  /** Clock readings, in microseconds (the resolution of a datetime). */
  type Timestamp = int

  const MicrosPerSecond: int := 1_000_000

  /** A row of the table; the last_updated column is not observable and is left out. */
  datatype Record = Record(messageCount: int, voiceTime: int)

  /** The table itself; the primary key makes it a map. */
  type Table = map<Key, Record>

  /** The message count of a key; the model reads a key without a row as 0. */
  function MessagesOf(t: Table, k: Key): int
  {
    if k in t then t[k].messageCount else 0
  }

  /** The voice time of a key; the model reads a key without a row as 0. */
  function VoiceOf(t: Table, k: Key): int
  {
    if k in t then t[k].voiceTime else 0
  }

  /**
   The message upsert: insert a row with message_count 1 (voice_time takes its
   default 0), or on conflict add 1 to message_count. Every other row is untouched.
   */
  function AddMessage(t: Table, k: Key): (r: Table)
    ensures r.Keys == t.Keys + {k}
    ensures r[k] == Record(MessagesOf(t, k) + 1, VoiceOf(t, k))
    ensures k !in t ==> r[k] == Record(1, 0)
    ensures forall j :: j in t && j != k ==> r[j] == t[j]
  {
    if k in t then t[k := t[k].(messageCount := t[k].messageCount + 1)]
    else t[k := Record(1, 0)]
  }

  /**
   The voice upsert: insert a row with voice_time = seconds (message_count takes its
   default 0), or on conflict add seconds to voice_time. Every other row is untouched.
   */
  function AddVoice(t: Table, k: Key, seconds: int): (r: Table)
    ensures r.Keys == t.Keys + {k}
    ensures r[k] == Record(MessagesOf(t, k), VoiceOf(t, k) + seconds)
    ensures k !in t ==> r[k] == Record(0, seconds)
    ensures forall j :: j in t && j != k ==> r[j] == t[j]
  {
    if k in t then t[k := t[k].(voiceTime := t[k].voiceTime + seconds)]
    else t[k := Record(0, seconds)]
  }

  /**
   The whole seconds between a join and a leave: the microsecond difference divided
   by a million and truncated toward zero, as int() does to total_seconds().
   Nothing clamps a negative difference.
   */
  function ElapsedSeconds(joinedAt: Timestamp, now: Timestamp): (r: int)
    ensures now >= joinedAt ==>
      0 <= r && r * MicrosPerSecond <= now - joinedAt < (r + 1) * MicrosPerSecond
    ensures now < joinedAt ==>
      r <= 0 && (r - 1) * MicrosPerSecond < now - joinedAt <= r * MicrosPerSecond
  {
    var delta := now - joinedAt;
    if delta >= 0 then delta / MicrosPerSecond else -((-delta) / MicrosPerSecond)
  }

  /** Readings taken on whole seconds give the exact difference in seconds. */
  lemma ElapsedOfWholeSeconds(joinedSec: int, nowSec: int)
    ensures ElapsedSeconds(joinedSec * MicrosPerSecond, nowSec * MicrosPerSecond) == nowSec - joinedSec
  {
  }

  /** A voice time as shown by the stats command: "H hours, M minutes". */
  datatype VoiceDuration = VoiceDuration(hours: int, minutes: int)

  /**
   hours = v // 3600 and minutes = (v % 3600) // 60. For a positive divisor Python's
   floor division and modulo agree with Dafny's, negative v included. The shown
   time is v rounded down to a whole minute.
   */
  function FormatVoiceTime(v: int): (d: VoiceDuration)
    ensures 0 <= d.minutes < 60
    ensures 3600 * d.hours + 60 * d.minutes <= v < 3600 * d.hours + 60 * d.minutes + 60
    ensures v >= 0 ==> d.hours >= 0
  {
    VoiceDuration(v / 3600, (v % 3600) / 60)
  }

  /** The bounds above single out the formatted value: it is the only such pair. */
  lemma FormatVoiceTimeUnique(v: int, hours: int, minutes: int)
    requires 0 <= minutes < 60
    requires 3600 * hours + 60 * minutes <= v < 3600 * hours + 60 * minutes + 60
    ensures FormatVoiceTime(v) == VoiceDuration(hours, minutes)
  {
  }

  /** The reply of the stats command for one key. */
  datatype StatsReply = NoActivity | Activity(messages: int, voice: VoiceDuration)

  /**
   The read behind the stats command: the row's message count and its formatted voice
   time, or "no activity" when the key has no row (never a zero-valued record).
   */
  function StatsFor(t: Table, k: Key): (r: StatsReply)
    ensures r == NoActivity <==> k !in t
    ensures r.Activity? ==> r.messages == t[k].messageCount
    ensures r.Activity? ==> 3600 * r.voice.hours + 60 * r.voice.minutes <= t[k].voiceTime
                              < 3600 * r.voice.hours + 60 * r.voice.minutes + 60
    ensures r.Activity? ==> 0 <= r.voice.minutes < 60
  {
    if k in t then Activity(t[k].messageCount, FormatVoiceTime(t[k].voiceTime))
    else NoActivity
  }
}
