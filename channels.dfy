/** The names of the notification channels on which orders and bill of
    materials entries are announced, and their decoding from the name a
    notification arrives on. Unrecognised names decode to `Unknown`. */
module Channels {

  datatype NotificationChannel = NewOrder | NewBomEntry | Unknown

  const NEW_ORDER_CHANNEL: string := "new_order"
  const NEW_BOM_ENTRY_CHANNEL: string := "new_bom_entry"
  /** Every channel name that decodes to a known channel, in this order. */
  const ALL_STR: seq<string> := [NEW_ORDER_CHANNEL, NEW_BOM_ENTRY_CHANNEL]

  /** `Display` of a channel: the name it is announced under. */
  function ChannelName(c: NotificationChannel): (name: string)
    ensures name in ALL_STR <==> c != Unknown
    ensures c == Unknown ==> name == "unknown"
    ensures |name| > 0
  {
    match c
    case NewOrder => NEW_ORDER_CHANNEL
    case NewBomEntry => NEW_BOM_ENTRY_CHANNEL
    case Unknown => "unknown"
  }

  /** `From<&str>`: exact match against the two channel names; every other
      string, "unknown" included, is `Unknown`. */
  function ChannelFromStr(s: string): (c: NotificationChannel)
    ensures c != Unknown <==> s in ALL_STR
    ensures c == NewOrder <==> s == "new_order"
    ensures c == NewBomEntry <==> s == "new_bom_entry"
  {
    if s == NEW_ORDER_CHANNEL then NewOrder
    else if s == NEW_BOM_ENTRY_CHANNEL then NewBomEntry
    else Unknown
  }

  /** Decoding the displayed name gives the channel back, for all three
      channels. */
  lemma ChannelNameRoundTrip(c: NotificationChannel)
    ensures ChannelFromStr(ChannelName(c)) == c
  {
  }

  /** Displaying a decoded string gives the string back exactly when it is
      one of the channel names in `ALL_STR`, or the name "unknown" that
      `Unknown` displays as (and decodes from, as every other string). */
  lemma ChannelFromStrRoundTrip(s: string)
    ensures ChannelName(ChannelFromStr(s)) == s <==> s in ALL_STR || s == "unknown"
    ensures s == "unknown" ==> ChannelFromStr(s) == Unknown
  {
  }

  /** `ALL_STR` lists two distinct names, neither of which is `Unknown`'s. */
  lemma AllStrDistinctKnown()
    ensures |ALL_STR| == 2 && ALL_STR[0] != ALL_STR[1]
    ensures forall i :: 0 <= i < |ALL_STR| ==> ChannelFromStr(ALL_STR[i]) != Unknown
    ensures ChannelFromStr(ALL_STR[0]) == NewOrder && ChannelFromStr(ALL_STR[1]) == NewBomEntry
  {
  }
}
