/** The stand menu and the manual assignment (TagFunctions.h): the tag action
    handler, the list of stands that can still be assigned at an airport, and
    the handling of the server's reply to a manual assignment. */
module TagFunctions {
  import opened Host
  import opened Plugin
  import opened TagItems

  // ---------------------------------------------------------------------------
  // The assignment snapshot and the stands still free

  /** One entry of the "assignedStands", "occupiedStands" or "blockedStands" lists. */
  datatype StandEntry = StandEntry(callsign: string, name: string, remark: string)

  /** The last occupancy snapshot received from the server (assignedStands_). */
  datatype Snapshot = Snapshot(assignedStands: seq<StandEntry>, occupiedStands: seq<StandEntry>,
                               blockedStands: seq<StandEntry>)

  /** Some entry of the list carries this stand name. */
  predicate Listed(entries: seq<StandEntry>, name: string) {
    exists i :: 0 <= i < |entries| && entries[i].name == name
  }

  /** The stand is assigned, occupied or blocked. */
  predicate Taken(snap: Snapshot, name: string) {
    Listed(snap.assignedStands, name) || Listed(snap.occupiedStands, name) || Listed(snap.blockedStands, name)
  }

  /** The catalog's stands that are not taken, in catalog order. */
  function Available(catalog: seq<string>, snap: Snapshot): seq<string> {
    if catalog == [] then []
    else
      var last := catalog[|catalog| - 1];
      Available(catalog[..|catalog| - 1], snap) + (if Taken(snap, last) then [] else [last])
  }

  /** A stand is offered exactly when it is in the catalog and not taken. */
  lemma {:induction false} AvailableMembers(catalog: seq<string>, snap: Snapshot, name: string)
    ensures name in Available(catalog, snap) <==> name in catalog && !Taken(snap, name)
    decreases |catalog|
  {
    if catalog != [] {
      var init := catalog[..|catalog| - 1];
      AvailableMembers(init, snap, name);
      assert catalog == init + [catalog[|catalog| - 1]];
    }
  }

  /** Filtering keeps catalog order: it distributes over concatenation. */
  lemma {:induction false} AvailableConcat(a: seq<string>, b: seq<string>, snap: Snapshot)
    ensures Available(a + b, snap) == Available(a, snap) + Available(b, snap)
    decreases |b|
  {
    if b == [] {
      assert a + b == a;
    } else {
      var init := b[..|b| - 1];
      AvailableConcat(a, init, snap);
      assert (a + b)[..|a + b| - 1] == a + init;
      assert (a + b)[|a + b| - 1] == b[|b| - 1];
    }
  }

  /** With nothing taken, every catalog stand is offered, in catalog order. */
  lemma {:induction false} AvailableWhenNothingTaken(catalog: seq<string>, snap: Snapshot)
    requires forall i :: 0 <= i < |catalog| ==> !Taken(snap, catalog[i])
    ensures Available(catalog, snap) == catalog
    decreases |catalog|
  {
    if catalog != [] {
      var init := catalog[..|catalog| - 1];
      assert forall i :: 0 <= i < |init| ==> init[i] == catalog[i];
      AvailableWhenNothingTaken(init, snap);
      assert catalog == init + [catalog[|catalog| - 1]];
    }
  }

  /** One of the "is the stand already in this list" scans, with its break. */
  method FindStand(entries: seq<StandEntry>, name: string) returns (found: bool)
    ensures found == Listed(entries, name)
  {
    found := false;
    var i := 0;
    while i < |entries|
      invariant 0 <= i <= |entries|
      invariant forall k :: 0 <= k < i ==> entries[k].name != name
    {
      if entries[i].name == name {
        found := true;
        break;
      }
      i := i + 1;
    }
  }

  /** The loop that deducts assigned, occupied and blocked stands from the catalog. */
  method CollectAvailable(catalog: seq<string>, snap: Snapshot) returns (available: seq<string>)
    ensures available == Available(catalog, snap)
  {
    available := [];
    for i := 0 to |catalog|
      invariant available == Available(catalog[..i], snap)
    {
      var standName := catalog[i];
      var isOccupied := false;
      var hit := FindStand(snap.assignedStands, standName);
      if hit {
        isOccupied := true;
      }
      hit := FindStand(snap.occupiedStands, standName);
      if hit {
        isOccupied := true;
      }
      hit := FindStand(snap.blockedStands, standName);
      if hit {
        isOccupied := true;
      }
      if !isOccupied {
        available := available + [standName];
      }
      assert catalog[..i + 1][..i] == catalog[..i];
    }
    assert catalog[..|catalog|] == catalog;
  }

  // ---------------------------------------------------------------------------
  // Fetching the stand catalog, and the printError gate on its messages

  /** The body of a reply to GET /rampagent/api/airports/<icao>/stands, as the
      JSON parser sees it: the keys of the parsed object, in order. */
  datatype StandsBody = NoStandsBody | UnparsableStands(what: string) | StandsJson(names: seq<string>)

  datatype StandsReply = NoStandsResponse | StandsStatus(status: int, body: StandsBody)

  predicate Is2xx(status: int) {
    200 <= status < 300
  }

  predicate StandsReplyOk(reply: StandsReply) {
    reply.StandsStatus? && Is2xx(reply.status)
  }

  /** The status a message reports: res ? res->status : 0. */
  function StandsStatusShown(reply: StandsReply): int {
    if reply.NoStandsResponse? then 0 else reply.status
  }

  const AirportsPath: string := "/rampagent/api/airports/"
  const StandsSuffix: string := "/stands"

  function StandsPath(icao: string): string {
    AirportsPath + icao + StandsSuffix
  }

  /** The messages a stand-list refresh can show. */
  datatype MenuNote =
    | Retrieved(icao: string)
    | FetchFailed(status: int)
    | ParseFailed(what: string)
    | NoStandsData(icao: string)

  const RetrievedText: string := "Successfully retrieved stands information from NeoRampAgent server for airport "
  const FetchFailedText: string := "Failed to get stands information from NeoRampAgent server. HTTP status: "
  const ParseFailedText: string := "Failed to parse stands data from NeoRampAgent server: "
  const NoStandsDataText: string := "No stands data received from NeoRampAgent server for airport "

  function NoteText(n: MenuNote): string {
    match n
    case Retrieved(icao) => RetrievedText + icao
    case FetchFailed(status) => FetchFailedText + IntToString(status)
    case ParseFailed(what) => ParseFailedText + what
    case NoStandsData(icao) => NoStandsDataText + icao
  }

  function DisplayAll(notes: seq<MenuNote>): seq<Event> {
    seq(|notes|, i requires 0 <= i < |notes| => Display(NoteText(notes[i])))
  }

  /** The messages that printError gates: all but the parse failure. */
  function Gated(notes: seq<MenuNote>): seq<MenuNote> {
    if notes == [] then []
    else (if notes[0].ParseFailed? then [] else [notes[0]]) + Gated(notes[1..])
  }

  /** The outcome of one refresh: the new printError, the messages shown, and
      the catalog to list ([] when nothing is listed). */
  datatype Refresh = Refresh(printError: bool, notes: seq<MenuNote>, catalog: seq<string>)

  /** The gate keeps track of the last gated report: printError is false after a
      failure report and true after a success report, and every gated report
      flips it, so failure and success reports alternate. */
  predicate ReportsAlternate(before: bool, reports: seq<MenuNote>, after: bool) {
    && (forall i :: 0 <= i < |reports| - 1 ==> reports[i].Retrieved? != reports[i + 1].Retrieved?)
    && (|reports| > 0 ==> reports[0].Retrieved? == !before)
    && after == (if reports == [] then before else reports[|reports| - 1].Retrieved?)
  }

  /** One call of updateStandMenuButtons, from the reply to what it shows and lists. */
  function MenuRefresh(printError: bool, reply: StandsReply, icao: string): (r: Refresh)
    ensures r.catalog != [] <==> StandsReplyOk(reply) && reply.body.StandsJson? && reply.body.names != []
    ensures r.catalog != [] ==> r.catalog == reply.body.names
    ensures r.printError <==>
      StandsReplyOk(reply) && (reply.body.UnparsableStands? || (reply.body.StandsJson? && reply.body.names != []))
    ensures Retrieved(icao) in r.notes <==> StandsReplyOk(reply) && !printError
    ensures FetchFailed(StandsStatusShown(reply)) in r.notes <==> !StandsReplyOk(reply) && printError
  {
    if StandsReplyOk(reply) then
      var notes := if !printError then [Retrieved(icao)] else [];
      match reply.body
      case UnparsableStands(what) => Refresh(true, notes + [ParseFailed(what)], [])
      case NoStandsBody => Refresh(false, notes + [NoStandsData(icao)], [])
      case StandsJson(names) =>
        if names == [] then Refresh(false, notes + [NoStandsData(icao)], [])
        else Refresh(true, notes, names)
    else
      var shown := StandsStatusShown(reply);
      if printError then Refresh(false, [FetchFailed(shown)], []) else Refresh(false, [], [])
  }

  lemma {:induction false} GatedConcat(a: seq<MenuNote>, b: seq<MenuNote>)
    ensures Gated(a + b) == Gated(a) + Gated(b)
    decreases |a|
  {
    if a == [] {
      assert a + b == b;
    } else {
      assert (a + b)[0] == a[0] && (a + b)[1..] == a[1..] + b;
      GatedConcat(a[1..], b);
    }
  }

  /** Each refresh keeps the gate's record of the last gated report. */
  lemma MenuRefreshAlternates(printError: bool, reply: StandsReply, icao: string)
    ensures ReportsAlternate(printError, Gated(MenuRefresh(printError, reply, icao).notes),
                             MenuRefresh(printError, reply, icao).printError)
  {
    var r := MenuRefresh(printError, reply, icao);
    var first: seq<MenuNote> := if !printError then [Retrieved(icao)] else [];
    assert Gated([]) == [];
    assert Gated(first) == first;
    if StandsReplyOk(reply) {
      match reply.body
      case StandsJson(names) =>
        if names != [] {
          assert r.notes == first;
        } else {
          GatedConcat(first, [NoStandsData(icao)]);
          assert Gated([NoStandsData(icao)]) == [NoStandsData(icao)];
        }
      case NoStandsBody =>
        GatedConcat(first, [NoStandsData(icao)]);
        assert Gated([NoStandsData(icao)]) == [NoStandsData(icao)];
      case UnparsableStands(what) =>
        GatedConcat(first, [ParseFailed(what)]);
        assert Gated([ParseFailed(what)]) == [];
    } else if printError {
      assert Gated(r.notes) == r.notes;
    }
  }

  lemma {:induction false} AlternateConcat(f0: bool, a: seq<MenuNote>, f1: bool, b: seq<MenuNote>, f2: bool)
    requires ReportsAlternate(f0, a, f1) && ReportsAlternate(f1, b, f2)
    ensures ReportsAlternate(f0, a + b, f2)
  {
    var ab := a + b;
    forall i | 0 <= i < |ab| - 1 ensures ab[i].Retrieved? != ab[i + 1].Retrieved? {
      if i + 1 < |a| {
        assert ab[i] == a[i] && ab[i + 1] == a[i + 1];
      } else if i + 1 == |a| {
        assert ab[i] == a[|a| - 1] && ab[i + 1] == b[0];
      } else {
        assert ab[i] == b[i - |a|] && ab[i + 1] == b[i - |a| + 1];
      }
    }
    if b == [] {
      assert ab == a;
    } else {
      assert ab[|ab| - 1] == b[|b| - 1];
      if a == [] {
        assert ab == b;
      } else {
        assert ab[0] == a[0];
      }
    }
  }

  /** One opening of the stand menu: the airport and the server's reply. printError
      is one field of the plugin, shared by every airport. */
  datatype MenuOpen = MenuOpen(reply: StandsReply, icao: string)

  /** Repeated opening of the menu, at any airports, against a series of replies. */
  datatype Run = Run(reports: seq<MenuNote>, printError: bool)

  function RefreshRun(printError: bool, opens: seq<MenuOpen>): Run
    decreases |opens|
  {
    if opens == [] then Run([], printError)
    else
      var r := MenuRefresh(printError, opens[0].reply, opens[0].icao);
      var rest := RefreshRun(r.printError, opens[1..]);
      Run(Gated(r.notes) + rest.reports, rest.printError)
  }

  /** Over any series of refreshes, gated failure and success reports alternate:
      a failure is reported once until a success, and the other way round. */
  lemma {:induction false} RefreshRunAlternates(printError: bool, opens: seq<MenuOpen>)
    ensures ReportsAlternate(printError, RefreshRun(printError, opens).reports,
                             RefreshRun(printError, opens).printError)
    decreases |opens|
  {
    if opens != [] {
      var r := MenuRefresh(printError, opens[0].reply, opens[0].icao);
      MenuRefreshAlternates(printError, opens[0].reply, opens[0].icao);
      RefreshRunAlternates(r.printError, opens[1..]);
      var rest := RefreshRun(r.printError, opens[1..]);
      AlternateConcat(printError, Gated(r.notes), r.printError, rest.reports, rest.printError);
    }
  }

  /** During an outage (no reply or no 2xx status), only the first failed
      refresh shows a message, and only when printError was set. */
  lemma {:induction false} OutageReportedOnce(printError: bool, opens: seq<MenuOpen>)
    requires forall i :: 0 <= i < |opens| ==> !StandsReplyOk(opens[i].reply)
    ensures RefreshRun(printError, opens).reports ==
      (if printError && opens != [] then [FetchFailed(StandsStatusShown(opens[0].reply))] else [])
    ensures opens != [] ==> !RefreshRun(printError, opens).printError
    decreases |opens|
  {
    if opens != [] {
      var r := MenuRefresh(printError, opens[0].reply, opens[0].icao);
      assert !r.printError;
      assert forall i :: 0 <= i < |opens[1..]| ==> opens[1..][i] == opens[i + 1];
      OutageReportedOnce(false, opens[1..]);
      if printError {
        assert r.notes == [FetchFailed(StandsStatusShown(opens[0].reply))];
        assert Gated(r.notes) == r.notes;
      } else {
        assert r.notes == [];
        assert Gated(r.notes) == [];
      }
    }
  }

  /** A 2xx reply without stands always says so, whatever the flag, and shows
      the success message first when the flag was clear. */
  lemma EmptyCatalogAlwaysReported(printError: bool, reply: StandsReply, icao: string)
    requires StandsReplyOk(reply) && (reply.body.NoStandsBody? || reply.body == StandsJson([]))
    ensures MenuRefresh(printError, reply, icao).notes ==
      (if printError then [] else [Retrieved(icao)]) + [NoStandsData(icao)]
    ensures MenuRefresh(printError, reply, icao).catalog == []
  {
  }

  // ---------------------------------------------------------------------------
  // The manual assignment reply

  /** The body of a reply to GET /rampagent/api/assign, as the JSON parser sees
      it: empty, without a "message" key, or message.action with message.message. */
  datatype AssignBody = NoAssignBody | NoMessageKey | ActionMessage(action: string, text: string)

  datatype AssignReply = NoAssignResponse | AssignStatus(status: int, body: AssignBody)

  /** The branch assignStandToAircraft takes. */
  datatype AssignOutcome =
    | RequestFailed(status: int)   // no reply or not 2xx
    | MissingMessage               // 2xx, no "message" key: nothing happens
    | Assigned                     // action "assign"
    | Freed                        // action "free"
    | Rejected(reason: string)     // any other action
    | EmptyReply                   // 2xx with an empty body

  function ClassifyAssign(reply: AssignReply): (o: AssignOutcome)
    ensures o.RequestFailed? <==> !(reply.AssignStatus? && Is2xx(reply.status))
    ensures o.RequestFailed? ==> o.status == (if reply.NoAssignResponse? then 0 else reply.status)
    ensures (o.Assigned? || o.Freed? || o.Rejected?) <==>
      reply.AssignStatus? && Is2xx(reply.status) && reply.body.ActionMessage?
    ensures o.Rejected? ==> o.reason == reply.body.text
    ensures o.Assigned? <==>
      reply.AssignStatus? && Is2xx(reply.status) && reply.body.ActionMessage? && reply.body.action == "assign"
    ensures o.Freed? <==>
      reply.AssignStatus? && Is2xx(reply.status) && reply.body.ActionMessage? && reply.body.action == "free"
    ensures o.Rejected? <==>
      reply.AssignStatus? && Is2xx(reply.status) && reply.body.ActionMessage? &&
      reply.body.action != "assign" && reply.body.action != "free"
    ensures o.MissingMessage? <==> reply.AssignStatus? && Is2xx(reply.status) && reply.body.NoMessageKey?
    ensures o.EmptyReply? <==> reply.AssignStatus? && Is2xx(reply.status) && reply.body.NoAssignBody?
  {
    match reply
    case NoAssignResponse => RequestFailed(0)
    case AssignStatus(status, body) =>
      if !Is2xx(status) then RequestFailed(status)
      else
        match body
        case NoAssignBody => EmptyReply
        case NoMessageKey => MissingMessage
        case ActionMessage(action, text) =>
          if action == "assign" then Assigned
          else if action == "free" then Freed
          else Rejected(text)
  }

  const AssignQuery: string := "/rampagent/api/assign?stand="
  const IcaoParam: string := "&icao="
  const CallsignParam: string := "&callsign="
  const TokenParam: string := "&token="
  const ClientParam: string := "&client="

  function AssignPath(stand: string, icao: string, callsign: string, token: string, client: string): string {
    AssignQuery + stand + IcaoParam + icao + CallsignParam + callsign + TokenParam + token + ClientParam + client
  }

  const RequestFailedPrefix: string := "Failed to send manual assign to NeoRampAgent server. HTTP status: "
  const RejectedPrefix: string := "Manual stand rejected: "
  const AssignFailedPrefix: string := "Manual stand assignment failed for "
  const AssignFailedJoin: string := " to "

  function RequestFailedText(status: int): string {
    RequestFailedPrefix + IntToString(status)
  }

  function RejectedText(reason: string): string {
    RejectedPrefix + reason
  }

  function AssignFailedText(callsign: string, stand: string): string {
    AssignFailedPrefix + callsign + AssignFailedJoin + stand
  }

  /** The messages an outcome queues. */
  function AssignQueued(o: AssignOutcome, callsign: string, stand: string): (q: seq<string>)
    ensures |q| <= 1
    ensures q == [] <==> o.MissingMessage? || o.Assigned? || o.Freed?
  {
    match o
    case RequestFailed(status) => [RequestFailedText(status)]
    case Rejected(reason) => [RejectedText(reason)]
    case EmptyReply => [AssignFailedText(callsign, stand)]
    case _ => []
  }

  const FrenchOnlyText: string := "Stand assignment only available for French airports."

  /** icao.substr(0, 2) == "LF". */
  predicate IsFrench(icao: string) {
    (if |icao| <= 2 then icao else icao[..2]) == "LF"
  }

  lemma IsFrenchMeansLF(icao: string)
    ensures IsFrench(icao) <==> |icao| >= 2 && icao[0] == 'L' && icao[1] == 'F'
  {
    if |icao| >= 2 {
      assert icao[..2] == [icao[0], icao[1]];
    }
  }

  /** The tag actions (TagActionID); their numeric values are not part of this model. */
  datatype FunctionId = OpenMenu | AssignStand | OtherFunction(id: int)

  /** What FlightPlanSelectASEL yields that the handler uses. */
  datatype FlightPlan = FlightPlan(callsign: string, destination: string)

  function PopupElements(buttons: seq<string>): seq<Event> {
    seq(|buttons|, i requires 0 <= i < |buttons| => PopupElement(buttons[i]))
  }

  // ---------------------------------------------------------------------------
  // The plugin state these functions update

  class StandAssigner {
    const plugin: PluginState
    const tags: TagStore
    /** The WHITE colour reference. */
    const white: ColorRef
    var menuButtons: seq<string>
    var printError: bool
    var assignedStands: Snapshot
    /** Last stand shown per callsign. */
    var lastStandTagMap: map<string, string>
    /** Manually assigned stand per callsign ("" when freed). */
    var manualAssignedCallsigns: map<string, string>

    /** The plugin has one toUpper, used both for the callsign a manual
        assignment writes under and for the tag lookup. */
    constructor (plugin: PluginState, tags: TagStore, white: ColorRef, printError: bool, assignedStands: Snapshot)
      requires tags.toUpper == plugin.toUpper
      ensures this.plugin == plugin && this.tags == tags && this.white == white
      ensures this.tags.toUpper == this.plugin.toUpper
      ensures this.printError == printError && this.assignedStands == assignedStands
      ensures menuButtons == [] && lastStandTagMap == map[] && manualAssignedCallsigns == map[]
    {
      this.plugin := plugin;
      this.tags := tags;
      this.white := white;
      this.printError := printError;
      this.assignedStands := assignedStands;
      menuButtons := [];
      lastStandTagMap := map[];
      manualAssignedCallsigns := map[];
    }

    /** The buttons listed for a refresh's catalog: the free stands, in the order
        sortStandList gives them; none when there is no catalog. */
    function MenuFor(catalog: seq<string>): seq<string>
      reads this
    {
      if catalog == [] then [] else plugin.sortStandList(Available(catalog, assignedStands))
    }

    /** updateStandMenuButtons. */
    method UpdateStandMenuButtons(icao: string, reply: StandsReply)
      modifies this`menuButtons, this`printError, plugin`events
      ensures var r := MenuRefresh(old(printError), reply, icao);
        && printError == r.printError
        && menuButtons == MenuFor(r.catalog)
        && plugin.events == old(plugin.events) + [HttpGet(StandsPath(icao))] + DisplayAll(r.notes)
    {
      ghost var r := MenuRefresh(printError, reply, icao);
      ghost var before := plugin.events + [HttpGet(StandsPath(icao))];
      menuButtons := [];
      plugin.SendGet(StandsPath(icao));
      var names: seq<string> := [];
      if StandsReplyOk(reply) {
        ghost var shown: seq<MenuNote> := [];
        if !printError {
          printError := true;
          plugin.DisplayMessage(NoteText(Retrieved(icao)));
          shown := [Retrieved(icao)];
        }
        assert plugin.events == before + DisplayAll(shown);
        match reply.body {
          case UnparsableStands(what) =>
            plugin.DisplayMessage(NoteText(ParseFailed(what)));
            assert DisplayAll(shown + [ParseFailed(what)]) == DisplayAll(shown) + [Display(NoteText(ParseFailed(what)))];
            return;
          case StandsJson(ns) =>
            names := ns;
          case NoStandsBody =>
        }
        if names == [] {
          if printError {
            printError := false;
            plugin.DisplayMessage(NoteText(NoStandsData(icao)));
            assert DisplayAll(shown + [NoStandsData(icao)]) == DisplayAll(shown) + [Display(NoteText(NoStandsData(icao)))];
          }
          return;
        }
      } else {
        if printError {
          printError := false;
          plugin.DisplayMessage(NoteText(FetchFailed(StandsStatusShown(reply))));
          assert DisplayAll([FetchFailed(StandsStatusShown(reply))]) == [Display(NoteText(FetchFailed(StandsStatusShown(reply))))];
        } else {
          assert DisplayAll([]) == [];
        }
        return;
      }
      var available := CollectAvailable(names, assignedStands);
      menuButtons := plugin.sortStandList(available);
    }

    /** The whole effect of assignStandToAircraft(callsign, stand, icao) given the server's reply. */
    twostate predicate AssignApplied(callsign: string, stand: string, icao: string, reply: AssignReply)
      reads this, plugin, tags
    {
      var o := ClassifyAssign(reply);
      var client := old(plugin.callsign);
      && plugin.events == old(plugin.events) +
           [HttpGet(AssignPath(stand, icao, callsign, plugin.generateToken(client), client))] +
           (if o.Rejected? then [Display(RejectedText(o.reason))] else [])
      && plugin.pending == old(plugin.pending) + AssignQueued(o, callsign, stand)
      && lastStandTagMap == (match o
           case Assigned => old(lastStandTagMap)[callsign := stand]
           case Freed => old(lastStandTagMap) - {callsign}
           case _ => old(lastStandTagMap))
      && manualAssignedCallsigns == (match o
           case Assigned => old(manualAssignedCallsigns)[callsign := stand]
           case Freed => old(manualAssignedCallsigns)[callsign := ""]
           case _ => old(manualAssignedCallsigns))
      && tags.values == (match o
           case Assigned => old(tags.values)[callsign := TagItemInfo(stand, "", white)]
           case Freed => old(tags.values)[callsign := TagItemInfo("", "", white)]
           case _ => old(tags.values))
    }

    /** assignStandToAircraft, run to completion. */
    method AssignStandToAircraft(callsign: string, standName: string, menuIcao: string, reply: AssignReply)
      modifies this`lastStandTagMap, this`manualAssignedCallsigns, tags`values, plugin`events, plugin`pending
      ensures AssignApplied(callsign, standName, menuIcao, reply)
    {
      var token := plugin.generateToken(plugin.callsign);
      plugin.SendGet(AssignPath(standName, menuIcao, callsign, token, plugin.callsign));
      if !(reply.AssignStatus? && Is2xx(reply.status)) {
        plugin.QueueMessage(RequestFailedText(if reply.NoAssignResponse? then 0 else reply.status));
        return;
      } else {
        match reply.body {
          case ActionMessage(action, text) =>
            if action == "assign" {
              lastStandTagMap := lastStandTagMap[callsign := standName];
              manualAssignedCallsigns := manualAssignedCallsigns[callsign := standName];
              tags.UpdateTagItems(callsign, white, standName, "");
              return;
            } else if action == "free" {
              lastStandTagMap := lastStandTagMap - {callsign};
              manualAssignedCallsigns := manualAssignedCallsigns[callsign := ""];
              tags.UpdateTagItems(callsign, white, "", "");
              return;
            } else {
              plugin.QueueMessage(RejectedText(text));
              plugin.DisplayMessage(RejectedText(text));
              return;
            }
          case NoMessageKey =>
            return;
          case NoAssignBody =>
        }
      }
      plugin.QueueMessage(AssignFailedText(callsign, standName));
    }

    /** Adds "None" and then one element per menu button to the open popup. */
    method FillPopup()
      modifies plugin`events
      ensures plugin.events == old(plugin.events) + [PopupElement("None")] + PopupElements(menuButtons)
    {
      plugin.events := plugin.events + [PopupElement("None")];
      ghost var start := plugin.events;
      for i := 0 to |menuButtons|
        invariant plugin.events == start + PopupElements(menuButtons[..i])
      {
        plugin.events := plugin.events + [PopupElement(menuButtons[i])];
        assert PopupElements(menuButtons[..i + 1]) == PopupElements(menuButtons[..i]) + [PopupElement(menuButtons[i])];
      }
      assert menuButtons[..|menuButtons|] == menuButtons;
    }

    /** OnFunctionCall: a tag action on the selected aircraft; the assignment
        request that the source runs on a worker thread is run to completion here. */
    method OnFunctionCall(functionId: FunctionId, itemString: string, fp: FlightPlan,
                          standsReply: StandsReply, assignReply: AssignReply)
      modifies this`menuButtons, this`printError, this`lastStandTagMap, this`manualAssignedCallsigns
      modifies tags`values, plugin`events, plugin`pending
      ensures !(old(plugin.canSendReport) && old(plugin.isConnected)) ==> unchanged(this, tags, plugin)
      ensures old(plugin.canSendReport) && old(plugin.isConnected) && !IsFrench(plugin.toUpper(fp.destination)) ==>
        && plugin.events == old(plugin.events) + [Display(FrenchOnlyText)]
        && unchanged(this, tags) && plugin.pending == old(plugin.pending)
      ensures old(plugin.canSendReport) && old(plugin.isConnected) && IsFrench(plugin.toUpper(fp.destination)) ==>
        var icao := plugin.toUpper(fp.destination);
        match functionId
        case OpenMenu =>
          var r := MenuRefresh(old(printError), standsReply, icao);
          && printError == r.printError
          && menuButtons == MenuFor(r.catalog)
          && plugin.events == old(plugin.events) + [OpenPopup(icao), HttpGet(StandsPath(icao))] +
               DisplayAll(r.notes) + [PopupElement("None")] + PopupElements(menuButtons)
          && lastStandTagMap == old(lastStandTagMap) && manualAssignedCallsigns == old(manualAssignedCallsigns)
          && unchanged(tags) && plugin.pending == old(plugin.pending)
        case AssignStand =>
          && AssignApplied(plugin.toUpper(fp.callsign), itemString, icao, assignReply)
          && menuButtons == old(menuButtons) && printError == old(printError)
        case OtherFunction(_) => unchanged(this, tags, plugin)
    {
      if !plugin.canSendReport || !plugin.isConnected {
        return;
      }
      var callsign := plugin.toUpper(fp.callsign);
      var icao := plugin.toUpper(fp.destination);
      if !IsFrench(icao) {
        plugin.DisplayMessage(FrenchOnlyText);
        return;
      }
      match functionId {
        case OpenMenu =>
          plugin.events := plugin.events + [OpenPopup(icao)];
          UpdateStandMenuButtons(icao, standsReply);
          FillPopup();
        case AssignStand =>
          AssignStandToAircraft(callsign, itemString, icao, assignReply);
        case OtherFunction(_) =>
      }
    }

    /** A manual assignment the server confirms is what the aircraft's tag then
        shows: the stand after "assign", an empty label after "free", in WHITE. */
    method AssignThenRead(stand: string, fp: FlightPlan, status: int, action: string, text: string)
      returns (shown: Option<string>, rgb: Option<ColorRef>)
      requires tags.toUpper == plugin.toUpper
      requires plugin.canSendReport && plugin.isConnected && IsFrench(plugin.toUpper(fp.destination))
      requires Is2xx(status) && (action == "assign" || action == "free")
      modifies this`menuButtons, this`printError, this`lastStandTagMap, this`manualAssignedCallsigns
      modifies tags`values, plugin`events, plugin`pending
      ensures shown == Some(ItemText(if action == "assign" then stand else ""))
      ensures rgb == Some(white)
    {
      OnFunctionCall(AssignStand, stand, fp, NoStandsResponse, AssignStatus(status, ActionMessage(action, text)));
      var code;
      code, shown, rgb := tags.OnGetTagItem(fp.callsign, StandItem);
    }
  }
}
