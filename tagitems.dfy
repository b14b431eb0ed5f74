/** The per-aircraft tag values (TagItem.h): one record per callsign holding the
    stand label, the remark and the colour, written by UpdateTagItems and read by
    the host through OnGetTagItem into a 16-byte text buffer. */
module TagItems {
  import opened Host

  datatype TagItemInfo = TagItemInfo(standName: string, remark: string, color: ColorRef)

  /** The item codes the host asks for (TagItemID); their numeric values are
      not part of this model. */
  datatype ItemCode = StandItem | RemarkItem | OtherItem(code: int)

  /** The size of the host's sItemString buffer, terminating NUL included. */
  const ItemBufferSize: nat := 16

  /** The characters of s that "%s" prints from s.c_str(): up to the first NUL. */
  function CString(s: string): (r: string)
    ensures r <= s
    ensures '\0' !in r
    ensures |r| < |s| ==> s[|r|] == '\0'
  {
    if s == [] || s[0] == '\0' then [] else [s[0]] + CString(s[1..])
  }

  /** What snprintf(buf, 16, "%s", s.c_str()) leaves in buf before its NUL. */
  function ItemText(s: string): (r: string)
    ensures |r| <= ItemBufferSize - 1
    ensures r <= s && '\0' !in r
    ensures |r| < ItemBufferSize - 1 ==> |r| == |s| || s[|r|] == '\0'
    ensures '\0' !in s && |s| < ItemBufferSize ==> r == s
    ensures '\0' !in s && |s| >= ItemBufferSize ==> r == s[..ItemBufferSize - 1]
  {
    var c := CString(s);
    if |c| < ItemBufferSize then c else c[..ItemBufferSize - 1]
  }

  class TagStore {
    /** toUpper, whose body is not part of this model. */
    const toUpper: string -> string
    /** EuroScopePlugIn::TAG_COLOR_RGB_DEFINED. */
    const rgbDefined: int
    var values: map<string, TagItemInfo>

    constructor (toUpper: string -> string, rgbDefined: int)
      ensures this.toUpper == toUpper && this.rgbDefined == rgbDefined
      ensures values == map[]
    {
      this.toUpper := toUpper;
      this.rgbDefined := rgbDefined;
      values := map[];
    }

    /** UpdateTagItems: replaces the whole record of callsign; no other record changes. */
    method UpdateTagItems(callsign: string, color: ColorRef, standName: string, remark: string)
      modifies this`values
      ensures values == old(values)[callsign := TagItemInfo(standName, remark, color)]
      ensures forall cs :: cs in old(values) && cs != callsign ==> cs in values && values[cs] == old(values)[cs]
      ensures values.Keys == old(values.Keys) + {callsign}
    {
      var info := TagItemInfo(standName, remark, color);
      values := values[callsign := info];
    }

    /** OnGetTagItem: colorCode is always set; itemString and rgb are None when
        the host's buffer and colour are left as they were. */
    method OnGetTagItem(flightPlanCallsign: string, itemCode: ItemCode)
      returns (colorCode: int, itemString: Option<string>, rgb: Option<ColorRef>)
      ensures colorCode == rgbDefined
      ensures toUpper(flightPlanCallsign) !in values || itemCode.OtherItem? ==> itemString == None && rgb == None
      ensures toUpper(flightPlanCallsign) in values && itemCode == StandItem ==>
        itemString == Some(ItemText(values[toUpper(flightPlanCallsign)].standName)) &&
        rgb == Some(values[toUpper(flightPlanCallsign)].color)
      ensures toUpper(flightPlanCallsign) in values && itemCode == RemarkItem ==>
        itemString == Some(ItemText(values[toUpper(flightPlanCallsign)].remark)) &&
        rgb == Some(values[toUpper(flightPlanCallsign)].color)
    {
      colorCode := rgbDefined;
      itemString, rgb := None, None;
      var callsign := toUpper(flightPlanCallsign);
      if callsign !in values {
        return;
      }
      match itemCode
      case StandItem =>
        itemString := Some(ItemText(values[callsign].standName));
        rgb := Some(values[callsign].color);
      case RemarkItem =>
        itemString := Some(ItemText(values[callsign].remark));
        rgb := Some(values[callsign].color);
      case OtherItem(_) =>
    }
  }

  /** A write under key followed by reads for any callsign that toUpper maps to
      key returns the written values, cut to the buffer. */
  method WriteThenRead(store: TagStore, key: string, color: ColorRef, standName: string, remark: string,
                       reader: string)
    returns (stand: Option<string>, standColor: Option<ColorRef>,
             rem: Option<string>, remColor: Option<ColorRef>)
    requires store.toUpper(reader) == key
    modifies store`values
    ensures stand == Some(ItemText(standName)) && standColor == Some(color)
    ensures rem == Some(ItemText(remark)) && remColor == Some(color)
  {
    store.UpdateTagItems(key, color, standName, remark);
    var code;
    code, stand, standColor := store.OnGetTagItem(reader, StandItem);
    code, rem, remColor := store.OnGetTagItem(reader, RemarkItem);
  }
}
