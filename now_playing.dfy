/** The now-playing card: the title of the channel being played. */
module NowPlaying {
  import opened Wrappers
  import opened Seqs
  import opened Types

  const UnknownTitle := "Unknown Channel"

  function HasChannelId(id: string): Channel -> bool {
    (c: Channel) => c.id == id
  }

  /** `getCurrentChannelTitle`: the title of the first channel with the current id, or the fallback. */
  function CurrentChannelTitle(channels: seq<Channel>, current: string): (title: string)
    ensures forall i :: 0 <= i < |channels| && channels[i].id == current ==>
      (forall j :: 0 <= j < i ==> channels[j].id != current) ==> title == channels[i].title
    ensures (forall j :: 0 <= j < |channels| ==> channels[j].id != current) ==> title == UnknownTitle
  {
    match FindIndex(channels, HasChannelId(current))
    case Some(i) => channels[i].title
    case None => UnknownTitle
  }

  /** Once some channel matches, channels appended after it do not change the title. */
  lemma TitleStableUnderAppend(channels: seq<Channel>, more: seq<Channel>, current: string)
    requires exists i :: 0 <= i < |channels| && channels[i].id == current
    ensures CurrentChannelTitle(channels + more, current) == CurrentChannelTitle(channels, current)
  {
    var i := FindIndex(channels, HasChannelId(current)).value;
    assert (channels + more)[i] == channels[i];
    assert forall j :: 0 <= j < i ==> (channels + more)[j] == channels[j];
  }
}
