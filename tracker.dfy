/**
 The tracker object: its activity table and its voice join-time dictionary are fields
 that the event handlers update in place. Each handler is proved to perform the pure
 step of module Events, whose properties are proved there.
 */
module Tracker {
  import opened Accounting
  import opened Events

  class ActivityTracker {
    /** The activity_stats table, keyed by (user_id, guild_id). */
    var activity: Table
    /** voice_join_times: the join time of each open voice session. */
    var voiceJoinTimes: map<Key, Timestamp>

    /** The state as the pure model sees it. */
    function State(): TrackerState
      reads this
    {
      TrackerState(activity, voiceJoinTimes)
    }

    /** Start-up drops and recreates the table, and no voice session is open. */
    constructor ()
      ensures activity == map[] && voiceJoinTimes == map[]
      ensures State() == Initial
    {
      activity := map[];
      voiceJoinTimes := map[];
    }

    /**
     A message: ignored from a bot or outside a guild; otherwise the row of
     (author, guild) is inserted as (1, 0) or its message count goes up by one.
     */
    method OnMessage(author: UserId, guild: Option<GuildId>, authorIsBot: bool)
      modifies this
      ensures voiceJoinTimes == old(voiceJoinTimes)
      ensures authorIsBot || guild.None? ==> activity == old(activity)
      ensures !authorIsBot && guild.Some? ==> activity == AddMessage(old(activity), (author, guild.value))
      ensures State() == Apply(old(State()), MessageSent(author, guild, authorIsBot))
    {
      if authorIsBot {
        return;
      }
      if guild.None? {
        return;
      }
      var k := (author, guild.value);
      if k in activity {
        activity := activity[k := activity[k].(messageCount := activity[k].messageCount + 1)];
      } else {
        activity := activity[k := Record(1, 0)];
      }
    }

    /**
     A voice-state change of a member: ignored for a bot; a join stores now as the
     join time; a leave pops the join time and, if there was one, adds the elapsed
     seconds to the row of (member, guild); a move between channels does nothing.
     */
    method OnVoiceStateUpdate(member: UserId, guild: GuildId, memberIsBot: bool,
                              beforeInChannel: bool, afterInChannel: bool, now: Timestamp)
      modifies this
      ensures var k := (member, guild);
        if memberIsBot || beforeInChannel == afterInChannel then
          activity == old(activity) && voiceJoinTimes == old(voiceJoinTimes)
        else if afterInChannel then
          activity == old(activity) && voiceJoinTimes == old(voiceJoinTimes)[k := now]
        else
          && voiceJoinTimes == old(voiceJoinTimes) - {k}
          && activity == (if k in old(voiceJoinTimes)
                          then AddVoice(old(activity), k, ElapsedSeconds(old(voiceJoinTimes)[k], now))
                          else old(activity))
      ensures State() == Apply(old(State()),
                               VoiceStateUpdate(member, guild, memberIsBot, beforeInChannel, afterInChannel, now))
    {
      if memberIsBot {
        return;
      }
      var k := (member, guild);
      if !beforeInChannel && afterInChannel {
        voiceJoinTimes := voiceJoinTimes[k := now];
      } else if beforeInChannel && !afterInChannel {
        var joinTime: Option<Timestamp> := None;
        if k in voiceJoinTimes {
          joinTime := Some(voiceJoinTimes[k]);
        }
        voiceJoinTimes := voiceJoinTimes - {k};
        if joinTime.Some? {
          var duration := ElapsedSeconds(joinTime.value, now);
          if k in activity {
            activity := activity[k := activity[k].(voiceTime := activity[k].voiceTime + duration)];
          } else {
            activity := activity[k := Record(0, duration)];
          }
        }
      }
    }

    /**
     A stats command message: the message handler upserts the message first and only
     then runs the command, so the reply already counts the command's own message.
     A bot's command, or one outside a guild, gets no reply and changes nothing.
     */
    method OnStatsCommand(author: UserId, member: Option<UserId>, guild: Option<GuildId>, authorIsBot: bool)
      returns (reply: Option<StatsReply>)
      modifies this
      ensures voiceJoinTimes == old(voiceJoinTimes)
      ensures authorIsBot || guild.None? ==> activity == old(activity) && reply == None
      ensures !authorIsBot && guild.Some? ==>
        && activity == AddMessage(old(activity), (author, guild.value))
        && reply == Some(StatsFor(activity, (if member.Some? then member.value else author, guild.value)))
    {
      OnMessage(author, guild, authorIsBot);
      if authorIsBot || guild.None? {
        return None;
      }
      var r := Stats(author, member, guild.value);
      reply := Some(r);
    }

    /**
     The stats command for a member (the author when no member is named) in a guild:
     the row's message count and formatted voice time, or "no activity" without a row.
     */
    method Stats(author: UserId, member: Option<UserId>, guild: GuildId) returns (reply: StatsReply)
      ensures reply == StatsFor(activity, (if member.Some? then member.value else author, guild))
    {
      var user := if member.Some? then member.value else author;
      var k := (user, guild);
      if k in activity {
        var row := activity[k];
        var hours := row.voiceTime / 3600;
        var minutes := (row.voiceTime % 3600) / 60;
        reply := Activity(row.messageCount, VoiceDuration(hours, minutes));
      } else {
        reply := NoActivity;
      }
    }
  }
}
