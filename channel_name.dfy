/**
 * `hooks/useChannelName.ts`: the name to show for a traQ channel id, looked up in the store's
 * channel list; the id itself stands in when no channel has it, or when the name is empty.
 */
module ChannelName {
  import opened Wrappers
  import opened Seqs
  import opened Entities

  function ChannelName(channels: seq<TraQChannel>, channelId: string): string
  {
    match FindById(ChannelId, channels, channelId)
    case Some(c) => if c.name != "" then c.name else channelId
    case None => channelId
  }

  /** `channels[i]` is the first channel whose id is `id`. */
  predicate FirstWithId(channels: seq<TraQChannel>, id: string, i: int)
  {
    0 <= i < |channels| && channels[i].id == id && forall j :: 0 <= j < i ==> channels[j].id != id
  }

  /**
   * The result is the name of the first channel with that id when that name is not empty, and
   * the id itself when that name is empty, when no channel has the id, or when there are no channels.
   */
  lemma ChannelNameLookup(channels: seq<TraQChannel>, channelId: string)
    ensures forall i :: FirstWithId(channels, channelId, i) ==>
      ChannelName(channels, channelId) == (if channels[i].name != "" then channels[i].name else channelId)
    ensures (forall i :: 0 <= i < |channels| ==> channels[i].id != channelId) ==> ChannelName(channels, channelId) == channelId
    ensures ChannelName([], channelId) == channelId
  {
    var r := FindById(ChannelId, channels, channelId);
    if r.Some? {
      var k :| 0 <= k < |channels| && channels[k] == r.value && forall j :: 0 <= j < k ==> ChannelId(channels[j]) != channelId;
      forall i | FirstWithId(channels, channelId, i)
        ensures channels[i] == r.value
      {
        assert ChannelId(channels[i]) == channelId && ChannelId(channels[k]) == channelId;
      }
    }
  }

  /** The result is always either the id or a non-empty name of a channel carrying that id. */
  lemma ChannelNameIsIdOrName(channels: seq<TraQChannel>, channelId: string)
    ensures var n := ChannelName(channels, channelId);
      n == channelId || (n != "" && exists i :: 0 <= i < |channels| && channels[i].id == channelId && channels[i].name == n)
  {
    var r := FindById(ChannelId, channels, channelId);
    if r.Some? && r.value.name != "" {
      var k :| 0 <= k < |channels| && channels[k] == r.value;
      assert channels[k].id == channelId;
    }
  }
}
