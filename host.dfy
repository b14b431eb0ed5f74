/** Values that cross the boundary between the plugin and the EuroScope host:
    optional out-values, colour references and the calls the plugin makes into
    the host (messages, popup lists) or onto the network (HTTP GET requests). */
module Host {

  datatype Option<T> = None | Some(value: T)

  /** A Windows COLORREF: a 32-bit value. Which values WHITE and the other
      colours are is not part of this model; they are passed in as constants. */
  newtype ColorRef = x: int | 0 <= x < 0x1_0000_0000

  /** One observable effect on the host or the network, in the order the
      plugin produces them. */
  datatype Event =
    | Display(text: string)          // DisplayMessage -> DisplayUserMessage
    | HttpGet(path: string)          // a GET request sent to the API server
    | OpenPopup(title: string)       // OpenPopupList
    | PopupElement(text: string)     // AddPopupListElement

  /** Decimal rendering of an integer, as std::to_string prints it. */
  function NatToString(n: nat): (r: string)
    ensures |r| > 0
    ensures forall i :: 0 <= i < |r| ==> '0' <= r[i] <= '9'
  {
    var d := ['0' + ((n % 10) as char)];
    if n < 10 then d else NatToString(n / 10) + d
  }

  function IntToString(i: int): (r: string)
    ensures |r| > 0
    ensures (r[0] == '-') <==> i < 0
  {
    if i < 0 then "-" + NatToString(-i) else NatToString(i)
  }
}
