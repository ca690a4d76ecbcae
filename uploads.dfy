/** Derivation of a channel's uploads playlist id (`make_uploads_playlist_id`). */
module Uploads {
  import opened Types

  /** Python's `channel_id.startswith("UC")`. */
  predicate StartsWithUC(channelId: string) {
    |channelId| >= 2 && channelId[..2] == "UC"
  }

  /** The uploads playlist of channel "UCxxxx" is "UUxxxx"; any other
      channel id is rejected. */
  function UploadsPlaylistId(channelId: string): (r: Result<string, FetchError>)
    ensures r.Failure? <==> !StartsWithUC(channelId)
    ensures r.Failure? ==> r.error == InvalidChannelId
    ensures r.Success? ==>
      |r.value| == |channelId| && r.value[..2] == "UU" && r.value[2..] == channelId[2..]
  {
    if !StartsWithUC(channelId) then Failure(InvalidChannelId)
    else Success("UU" + channelId[2..])
  }

  /** The channel id can be read back from its uploads playlist id. */
  lemma ChannelIdRecovered(channelId: string)
    requires UploadsPlaylistId(channelId).Success?
    ensures "UC" + UploadsPlaylistId(channelId).value[2..] == channelId
  {
    assert channelId == channelId[..2] + channelId[2..];
  }

  /** Distinct channels have distinct uploads playlists. */
  lemma UploadsPlaylistIdInjective(a: string, b: string)
    requires UploadsPlaylistId(a).Success? && UploadsPlaylistId(b).Success?
    ensures UploadsPlaylistId(a) == UploadsPlaylistId(b) <==> a == b
  {
    if UploadsPlaylistId(a) == UploadsPlaylistId(b) {
      ChannelIdRecovered(a);
      ChannelIdRecovered(b);
    }
  }
}
