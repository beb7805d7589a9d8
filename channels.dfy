/**
 * The channel list page (`src/components/Channels/index.tsx`): marking the
 * selected channel connected, the name search, and the selection and
 * dialog state.
 */
module Channels {
  import opened Common

  datatype Stats = Stats(messagesPerDay: int, activeChats: int)

  datatype ApiStatus = Operational | ApiError

  datatype Channel = Channel(
    id: string,
    name: string,
    icon: string,
    connected: bool,
    stats: Stats,
    apiStatus: ApiStatus,
    lastSync: string)

  /**
   * The `channels.map` of `handleConnect`: the channel whose id is `id` is
   * marked connected with zeroed statistics, stamped with `syncTime` (the
   * local clock reading), and nothing else changes.
   */
  function MarkConnected(channels: seq<Channel>, id: string, syncTime: string): (r: seq<Channel>)
    ensures |r| == |channels|
    ensures forall i :: 0 <= i < |r| && channels[i].id != id ==> r[i] == channels[i]
    ensures forall i :: 0 <= i < |r| && channels[i].id == id ==>
      && r[i].connected && r[i].stats == Stats(0, 0) && r[i].lastSync == syncTime
      && r[i].id == channels[i].id && r[i].name == channels[i].name
      && r[i].icon == channels[i].icon && r[i].apiStatus == channels[i].apiStatus
    decreases |channels|
  {
    if channels == [] then []
    else
      var c := channels[0];
      var c' := if c.id == id then c.(connected := true, stats := Stats(0, 0), lastSync := syncTime) else c;
      [c'] + MarkConnected(channels[1..], id, syncTime)
  }

  /** With no channel carrying the id, the list comes back unchanged. */
  lemma MarkConnectedUnknownId(channels: seq<Channel>, id: string, syncTime: string)
    requires forall c :: c in channels ==> c.id != id
    ensures MarkConnected(channels, id, syncTime) == channels
  {
    var r := MarkConnected(channels, id, syncTime);
    assert forall i :: 0 <= i < |r| ==> r[i] == channels[i];
  }

  /** `filteredChannels`: a case-insensitive search on the channel name. */
  function FilteredChannels(channels: seq<Channel>, searchTerm: string): seq<Channel> {
    Filter(channels, (c: Channel) => MatchesTerm(c.name, searchTerm))
  }

  lemma FilteredChannelsSpec(channels: seq<Channel>, searchTerm: string)
    ensures forall c :: c in FilteredChannels(channels, searchTerm) <==> c in channels && MatchesTerm(c.name, searchTerm)
    ensures forall c :: multiset(FilteredChannels(channels, searchTerm))[c]
                        == if MatchesTerm(c.name, searchTerm) then multiset(channels)[c] else 0
    ensures IsSubsequence(FilteredChannels(channels, searchTerm), channels)
    ensures searchTerm == "" ==> FilteredChannels(channels, searchTerm) == channels
  {
    FilterMultiplicity(channels, (c: Channel) => MatchesTerm(c.name, searchTerm));
    FilterIsSubsequence(channels, (c: Channel) => MatchesTerm(c.name, searchTerm));
    if searchTerm == "" {
      forall c | c in channels ensures MatchesTerm(c.name, searchTerm) {
        IncludesEmpty(Lower(c.name));
      }
      FilterKeepsAll(channels, (c: Channel) => MatchesTerm(c.name, searchTerm));
    }
  }

  class ChannelsPage {
    var channels: seq<Channel>
    var searchTerm: string
    var selectedChannel: Option<string>
    var showQrModal: bool

    constructor (initial: seq<Channel>)
      ensures channels == initial && searchTerm == "" && selectedChannel == None && !showQrModal
    {
      channels := initial;
      searchTerm := "";
      selectedChannel := None;
      showQrModal := false;
    }

    /** The dialog is rendered only when it is open and a channel id is selected. */
    predicate QrModalVisible()
      reads this
    {
      showQrModal && Truthy(selectedChannel)
    }

    method HandleReconnect(channelId: string)
      modifies this`selectedChannel, this`showQrModal
      ensures selectedChannel == Some(channelId) && showQrModal
    {
      selectedChannel := Some(channelId);
      showQrModal := true;
    }

    method HandleShowQr(channelId: string)
      modifies this`selectedChannel, this`showQrModal
      ensures selectedChannel == Some(channelId) && showQrModal
    {
      selectedChannel := Some(channelId);
      showQrModal := true;
    }

    method HandleCloseQrModal()
      modifies this`selectedChannel, this`showQrModal
      ensures selectedChannel == None && !showQrModal && !QrModalVisible()
    {
      showQrModal := false;
      selectedChannel := None;
    }

    /** `handleConnect`: does nothing unless a (non-empty) channel id is selected. */
    method HandleConnect(syncTime: string)
      modifies this`channels
      ensures !Truthy(selectedChannel) ==> channels == old(channels)
      ensures Truthy(selectedChannel) ==> channels == MarkConnected(old(channels), selectedChannel.value, syncTime)
    {
      if Truthy(selectedChannel) {
        channels := MarkConnected(channels, selectedChannel.value, syncTime);
      }
    }

    function Visible(): seq<Channel>
      reads this
    {
      FilteredChannels(channels, searchTerm)
    }
  }
}
