/**
 * The compound group id of a guild channel: `"<guild>-<channel>"`, built from
 * a guild id and a channel id with a template literal, and taken apart again
 * with `split("-")` when a group or a member is picked by that id.
 */
module GroupIds {
  import opened Wrappers
  import opened Strings

  /** `${guild}-${channel}`; a missing id prints as "undefined". */
  function GroupId(guild: Option<string>, channel: Option<string>): string {
    Interpolate(guild) + "-" + Interpolate(channel)
  }

  /** The first two pieces of `groupId.split("-")`; the second is missing when there is no `-`. */
  datatype GroupRef = GroupRef(guildId: string, channelId: Option<string>)

  function ParseGroupId(groupId: string): (r: GroupRef)
    ensures '-' !in r.guildId
    ensures r.channelId.Some? ==> '-' !in r.channelId.value
    ensures r.channelId.None? <==> '-' !in groupId
  {
    var parts := Split(groupId, '-');
    SplitCount(groupId);
    GroupRef(parts[0], if |parts| > 1 then Some(parts[1]) else None)
  }

  /** `split` gives more than one piece exactly when the separator occurs. */
  lemma {:induction false} SplitCount(s: string)
    ensures |Split(s, '-')| > 1 <==> '-' in s
    decreases |s|
  {
    if s != [] {
      SplitCount(s[1..]);
      assert '-' in s <==> s[0] == '-' || '-' in s[1..] by {
        assert s == [s[0]] + s[1..];
      }
    }
  }

  /** A decimal id: a non-empty run of ASCII digits, as the platform issues them. */
  predicate IsNumeric(id: string) {
    |id| >= 1 && forall k :: 0 <= k < |id| ==> '0' <= id[k] <= '9'
  }

  /** Splitting a group id built from two dash-free ids gives the two ids back. */
  lemma {:induction false} GroupIdRoundTrip(guild: string, channel: string)
    requires '-' !in guild && '-' !in channel
    ensures ParseGroupId(GroupId(Some(guild), Some(channel))) == GroupRef(guild, Some(channel))
  {
    var parts := [guild, channel];
    assert Join(parts, '-') == guild + "-" + channel by {
      assert parts[1..] == [channel];
    }
    SplitJoin(parts, '-');
  }

  /** Numeric guild and channel ids always survive the round trip. */
  lemma {:induction false} NumericGroupIdRoundTrip(guild: string, channel: string)
    requires IsNumeric(guild) && IsNumeric(channel)
    ensures ParseGroupId(GroupId(Some(guild), Some(channel))) == GroupRef(guild, Some(channel))
  {
    assert '-' !in guild && '-' !in channel;
    GroupIdRoundTrip(guild, channel);
  }

  /** A dash inside the channel id is lost: only the text before it comes back. */
  lemma {:induction false} DashedChannelTruncated(guild: string, channel: string, tail: string)
    requires '-' !in guild && '-' !in channel
    ensures ParseGroupId(GroupId(Some(guild), Some(channel + "-" + tail))) == GroupRef(guild, Some(channel))
  {
    var whole := GroupId(Some(guild), Some(channel + "-" + tail));
    var parts := Split(whole, '-');
    JoinSplit(tail, '-');
    var tailParts := Split(tail, '-');
    var all := [guild, channel] + tailParts;
    assert forall k :: 0 <= k < |all| ==> '-' !in all[k];
    assert Join(all, '-') == whole by {
      assert all[1..] == [channel] + tailParts;
      assert all[1..][1..] == tailParts;
      assert Join(all[1..], '-') == channel + "-" + Join(tailParts, '-');
    }
    SplitJoin(all, '-');
  }
}
