# RampAgent stand menu, commands and tag values — a Dafny model

RampAgent is a EuroScope radar-display plugin that shows, on each aircraft's
tag, the stand the NeoRampAgent server has assigned to it, and lets a
controller assign or free a stand by hand. This project models three sequential
parts of the plugin and proves what they do:

- **Tag actions and manual assignment** (`src/core/TagFunctions.h`,
  module `TagFunctions`). `OnFunctionCall` acts only when the plugin may report
  and is connected, and only for destinations starting with "LF".
  `updateStandMenuButtons` fetches the airport's stand catalog. It offers the
  stands that no entry of the assigned, occupied or blocked lists names. Its
  messages are gated by the one-bit `printError` flag.
  `assignStandToAircraft` sends the manual assignment and acts on the server's
  reply.
- **The text command** (`src/core/CompileCommands.h`, module `Commands`). A
  `.rampagent version|url <host>|disconnect` line is trimmed and loses one
  leading '.'. It is split into words and matched case-insensitively.
- **The tag value store** (`src/core/TagItem.h`, module `TagItems`).
  `UpdateTagItems` writes one record per callsign. `OnGetTagItem` reads it back
  into the host's 16-byte text buffer.

The shared plugin state lives in module `Plugin` (`PluginState`): the
connection flags, the controller's callsign, the API host, a log of what the
plugin shows on the host or sends to the server (`events`), and the queue of
messages waiting for the timer (`pending`). Module `Host` holds the boundary
types: `Option`, `ColorRef` and `Event`.

How the model is built:

- HTTP replies are parameters, as abstract values. A stand-catalog reply is
  `NoStandsResponse | StandsStatus(status, body)`. Its body is empty,
  unparsable, or the parsed object's keys in order. An assignment reply is
  `NoAssignResponse | AssignStatus(status, body)`. Its body is empty, lacks
  "message", or carries an `action` and a `message` text.
- Each request the plugin sends is recorded as an `HttpGet(path)` event, with
  the path built from the code.
- No bodies are given for `sortStandList`, `generateToken`, `toUpper` and
  `changeApiUrl`. They are function-valued constants of `PluginState` and
  `TagStore`, supplied when the objects are built. Nothing is assumed about the
  first three beyond their being functions. The plugin has one `toUpper`, so a
  `StandAssigner` is built only over a `PluginState` and a `TagStore` that share
  it. `changeApiUrl` is modelled as the new API host it leaves, given the old
  one and its argument, and as having no other effect.
- The numeric values of `TagItemID`, `TagActionID`, `TAG_COLOR_RGB_DEFINED` and
  `WHITE` do not appear in the modelled files. The item and action codes are
  datatypes; the two colour constants are passed in.
- The assignment worker thread is run to completion inside `OnFunctionCall`.

What is proved, in short:

- The guard of `OnFunctionCall` changes nothing when the plugin may not report
  or is disconnected. A non-"LF" destination only shows the French-airports
  message. The popup lists "None", then exactly `menuButtons` in order.
- The stand filter offers a catalog stand iff no list entry names it, and it
  keeps catalog order (`AvailableMembers`, `AvailableConcat`). The nested scan
  loops compute exactly that filter (`CollectAvailable`, `FindStand`).
- The buttons stay empty on a failed request, an unparsable body or an empty
  catalog (`MenuRefresh`).
- Over any series of refreshes, at any airports, the messages `printError`
  gates alternate strictly between success and failure (`RefreshRunAlternates`). An outage
  shows one message in all (`OutageReportedOnce`).
- Manual assignment, per reply class:
  - `assign` sets both maps and the tag to the stand;
  - `free` removes the stand from `lastStandTagMap`, sets the manual entry to ""
    and blanks the tag;
  - every other class leaves the maps and the tags alone and queues the message
    that class calls for.
- Commands:
  - no line, or a blank one, is not handled;
  - one leading '.' is ignored, even when white space follows it, and
    a second one makes the line unhandled;
  - lowercasing the whole line changes nothing but the case of a URL argument;
  - `version`, `url`, `disconnect` and help have the effects and return values
    of the code.
- A tag write followed by a read for any callsign that `toUpper` maps to the
  same key returns the written values, cut to 15 characters at the first NUL.
  A confirmed manual assignment is what the aircraft's STAND tag then shows
  (`AssignThenRead`).

## Model

| member | source | states |
|---|---|---|
| `Plugin.PluginState.DisplayMessage` | src/RampAgent.cpp:61-63 | Showing a message appends exactly one Display event and changes nothing else. |
| `TagItems.CString` | src/core/TagItem.h:44 | "%s" of c_str() prints the prefix of the string up to its first NUL, and no NUL. |
| `TagItems.ItemText` | src/core/TagItem.h:43-44 | The 16-byte buffer gets at most 15 characters, a prefix of the value. It stops early only at the end or at a NUL, and a short NUL-free value is copied whole. |
| `TagItems.TagStore.UpdateTagItems` | src/core/TagItem.h:11-20 | The record for the callsign is replaced by (stand, remark, colour); every other callsign's record is unchanged. |
| `TagItems.TagStore.OnGetTagItem` | src/core/TagItem.h:22-58 | The colour code is set to RGB-defined in every case. The record is looked up under toUpper(callsign). With no record, or an unknown item code, neither text nor RGB is written. STAND and REMARK give the cut text of the stored field and the stored colour. |
| `TagItems.WriteThenRead` | src/core/TagItem.h:11-53 | After a write under a key, reads of both items for any callsign that toUpper maps to that key return the written stand and remark, cut to the buffer, and the written colour. |
| `Commands.TrimStartDrops` | src/core/CompileCommands.h:18 | The first erase removes exactly the leading white space. What is left is a suffix of the line that starts with a non-space character. |
| `Commands.TrimEndDrops` | src/core/CompileCommands.h:19 | The second erase removes exactly the trailing white space. What is left is a prefix that ends with a non-space character. |
| `Commands.Trim` | src/core/CompileCommands.h:16-21 | The two find_if scans leave exactly Trimmed(line). |
| `Commands.AllSpaceTrimsAway` | src/core/CompileCommands.h:16-22 | A line made only of white space trims to the empty string. |
| `Commands.TrimmedShape` | src/core/CompileCommands.h:16-22 | The trimmed line is empty iff the line is all white space. Otherwise it is a contiguous slice of the line whose first and last characters are not white space. |
| `Commands.TrimOrderIrrelevant` | src/core/CompileCommands.h:16-21 | Erasing the trailing white space first and the leading white space second leaves the same string as the lambda's order. |
| `Commands.TakeWord` | src/core/CompileCommands.h:27-29 | A `>>` extraction at a non-space character yields a non-empty word that starts with that character. |
| `Commands.TakeWordStops` | src/core/CompileCommands.h:27-29 | The extracted word is the longest space-free prefix: it ends at the first white space or at the end. |
| `Commands.Words` | src/core/CompileCommands.h:27-29 | When the text starts with a non-space character, its first word is the word at its front. |
| `Commands.WordsAreWords` | src/core/CompileCommands.h:27-42 | Every extracted word is non-empty and free of white space, so an empty extraction means the words ran out. |
| `Commands.BlankLineNotHandled` | src/core/CompileCommands.h:12-22 | A null pointer, an empty line and an all-white-space line are not handled. |
| `Commands.DotPrefixIgnored` | src/core/CompileCommands.h:24-29 | One leading '.' is ignored: ".x" asks for what "x" asks for. This holds whenever x, after its leading white space, does not start with '.'; ". rampagent version" is one such line. |
| `Commands.DoubleDotNotHandled` | src/core/CompileCommands.h:24-39 | Only one '.' is removed. A line starting with ".." yields a command word starting with '.', so it is never handled. |
| `Commands.WordsLower` | src/core/CompileCommands.h:27-35 | Splitting a lowercased line gives the lowercased words of the line. |
| `Commands.CommandCaseInsensitive` | src/core/CompileCommands.h:32-72 | "rampagent" and the subcommand are matched in any case. Lowercasing the whole line changes the command only in the case of the URL argument. |
| `Commands.OnCompileCommand` | src/core/CompileCommands.h:10-73 | Returns true for version, url X, disconnect and help, and false otherwise. An unhandled line changes nothing. version shows the version. url without an argument shows the usage and keeps the host. url X sets the host through changeApiUrl and confirms. disconnect clears both flags and the callsign. Anything else shows the help. |
| `TagFunctions.FindStand` | src/core/TagFunctions.h:103-108 | The scan with its break finds the stand iff some entry of the list has that name. |
| `TagFunctions.CollectAvailable` | src/core/TagFunctions.h:96-127 | The nested loops build exactly Available(catalog, snapshot). |
| `TagFunctions.AvailableMembers` | src/core/TagFunctions.h:96-126 | A stand is offered iff it is in the catalog and no assigned, occupied or blocked entry names it. |
| `TagFunctions.AvailableConcat` | src/core/TagFunctions.h:100-126 | The filter distributes over concatenation, so the offered stands keep catalog order before sortStandList. |
| `TagFunctions.AvailableWhenNothingTaken` | src/core/TagFunctions.h:100-126 | With nothing taken, the whole catalog is offered in order. |
| `TagFunctions.MenuRefresh` | src/core/TagFunctions.h:64-93 | A catalog is listed iff the reply is 2xx with a non-empty parsed object, and it is that object's keys. printError ends true iff the reply is 2xx and its body is unparsable or a non-empty object. The success message appears iff the reply is 2xx and the flag was clear. The failure message appears iff the reply failed and the flag was set. |
| `TagFunctions.MenuRefreshAlternates` | src/core/TagFunctions.h:66-93 | In one refresh, the gated messages alternate. The first is a success message iff printError was false. The flag afterwards records whether the last gated message was a success one. |
| `TagFunctions.RefreshRunAlternates` | src/core/TagFunctions.h:66-93 | Over any series of refreshes, each at any airport, gated failure messages and success messages strictly alternate. There is never a second failure message without a success in between, nor the other way round. |
| `TagFunctions.OutageReportedOnce` | src/core/TagFunctions.h:79-85 | Consecutive failed requests, at any airports, show one failure message, carrying the first one's status, when printError was set, and none otherwise. They leave the flag false. |
| `TagFunctions.EmptyCatalogAlwaysReported` | src/core/TagFunctions.h:66-93 | A 2xx reply without stands shows "no stands data" every time. It shows the success message first when the flag was clear, and lists nothing. |
| `TagFunctions.IsFrenchMeansLF` | src/core/TagFunctions.h:21 | substr(0, 2) == "LF" holds iff the code has at least two characters and they are 'L' and 'F'. |
| `TagFunctions.ClassifyAssign` | src/core/TagFunctions.h:147-186 | A reply is a request failure iff there is no reply or no 2xx status, and the failure carries status 0 for no reply. Every other class needs a 2xx reply. assign and free arise exactly from the actions "assign" and "free", and rejected from any other action, carrying the message text. A missing "message" key gives the silent class and an empty body the generic failure. |
| `TagFunctions.AssignQueued` | src/core/TagFunctions.h:147-186 | At most one message is queued. None is queued exactly for the silent case (no "message" key), assign and free. |
| `TagFunctions.StandAssigner.UpdateStandMenuButtons` | src/core/TagFunctions.h:52-132 | menuButtons is cleared and one GET is sent for the airport. printError and the messages follow MenuRefresh. The buttons are sortStandList of the free stands when a catalog arrived, and empty otherwise. |
| `TagFunctions.StandAssigner.AssignStandToAircraft` | src/core/TagFunctions.h:134-187 | One GET carries the stand, airport, callsign, generateToken(own callsign) and own callsign. assign sets lastStandTagMap and manualAssignedCallsigns to the stand and the tag to (stand, WHITE). free erases lastStandTagMap's entry, sets the manual entry to "" and the tag to ("", WHITE). Every other class leaves both maps and the tags unchanged: a request failure queues the HTTP message, a missing "message" key does nothing, rejected queues and shows the reason, and an empty body queues the generic failure. |
| `TagFunctions.StandAssigner.FillPopup` | src/core/TagFunctions.h:33-36 | The popup gets "None" first, then exactly menuButtons, in order. |
| `TagFunctions.StandAssigner.OnFunctionCall` | src/core/TagFunctions.h:11-50 | Without canSendReport and isConnected nothing changes. A destination not starting with "LF" only shows the French-airports message. OPEN MENU opens the popup, refreshes the buttons and lists "None" then the buttons. ASSIGN STAND has the whole effect of assignStandToAircraft for the uppercased callsign, the clicked item and the uppercased airport. Other codes change nothing. |
| `TagFunctions.StandAssigner.AssignThenRead` | src/core/TagFunctions.h:155-177 | After ASSIGN STAND on an aircraft with a 2xx "assign" reply, the STAND tag read for the same callsign shows the stand, cut to the buffer. After a "free" reply it shows an empty label. The colour is WHITE in both cases. The write key and the lookup key go through the same toUpper (src/core/TagItem.h:33). |

## Left out

- HTTP transport (the SSL client, its host apiUrl_, headers and timeouts) and JSON parsing are not modelled. Replies are abstract parameters and requests are recorded by path only.
- JSON exceptions are not modelled. The model assumes these calls never throw: every snapshot entry has a string `name`, every non-empty assignment body parses, and its `message` holds a string `action` plus, for other actions, a string `message`.
  - When `nlohmann::ordered_json::parse` (src/core/TagFunctions.h:153) or `get<std::string>()` (lines 155, 167, 180) throws, the exception escapes the function the `std::thread` runs. `std::terminate` then ends the whole EuroScope process.
  - When `get<std::string>()` in `updateStandMenuButtons` (lines 104, 111, 118) throws, the exception leaves `OnFunctionCall` into the host, because that call runs on the host's thread (line 31).
- Threads and mutexes are not modelled: neither the join-then-spawn of `m_thread` nor the lock guards. The `m_thread.join()` at src/core/TagFunctions.h:41-42 waits on the same `m_thread` that `Initialize` started with the endless `run` loop (src/RampAgent.cpp:40, 75-88). That loop returns only after `Shutdown` sets `m_stop`. The model assumes the join returns and runs `assignStandToAircraft` to completion inside `OnFunctionCall`.
- The order in which the queued and the displayed "rejected" message interleave is not recorded, because the queue and the host log are kept apart.
- The registration calls `RegisterTagItemType` and `RegisterTagItemFunction` (src/core/TagItem.h:6-9, src/core/TagFunctions.h:5-9) only announce names to the host. They are left out.
- The lifecycle in src/RampAgent.cpp is left out: `Initialize`, `Shutdown`, the background loop `run`, the empty `runUpdate` and the `% 10` gate of `OnTimer`. They touch the modelled state in two ways only. `m_thread` holds the `run` loop, as the thread line above describes. `Initialize` and `Shutdown` each show one message (src/RampAgent.cpp:41, 54) that the model's `events` would log.
- The bodies of `sortStandList`, `generateToken`, `toUpper`, `changeApiUrl` and `queueMessage` are not part of this model. The first four are uninterpreted functions. `queueMessage` is taken to append to the pending queue.
- Commands.OnCompileCommand: the model assumes `changeApiUrl` changes `apiUrl_` alone. With that assumption it shows, queues and sends nothing, and leaves `isConnected_`, `isController_` and `callsign_` alone. The `url X` case of the contract (one `Display` event, the other fields unchanged) rests on it.
- `UpdateTagItems` is called with three arguments in src/core/TagFunctions.h:164 and 176. The default remark is declared in a header that is not part of this model, and the model takes it as "".
- The `sender` argument of `DisplayMessage`, the popup's screen area, the font-size output and the `AddPopupListElement` flags are host presentation details and are not recorded.
- The initial values of `printError`, `callsign_`, `isController_` and `apiUrl_` are declared in a header that is not part of this model. They are constructor arguments.
- Who fills `assignedStands_` (the periodic reconciliation) is not in the modelled files. The snapshot is a field the model only reads. In the source, `assignedStands_["assignedStands"]` and its two siblings (src/core/TagFunctions.h:103, 110, 117) use `operator[]` on a non-const json. That inserts a null member when a key is missing. Iterating a null member visits no entries, so the stands offered are the same, and the model does not record the insertion.
- `std::isspace` is modelled for the six ASCII white-space characters of the "C" locale, and `std::tolower` for 'A'..'Z'. Negative `char` values are not modelled.
- TagItems.ItemText: every Dafny `char` in the model stands for one byte of the C++ `std::string`, with values 0..255. So the 15-character cut is the 15-byte cut of `snprintf`. The model does not describe how UTF-8 text is cut, including a multi-byte character cut in half.
- Behaviour of the code worth noting, which the model follows:
  - a 2xx assignment reply without a "message" key is dropped silently, with no message (src/core/TagFunctions.h:154);
  - a rejected action is shown as "Manual stand rejected: " plus the server's text;
  - the parse-failure message of the stand catalog is not gated by `printError` (src/core/TagFunctions.h:75);
  - a 2xx reply with no stands shows its message every time, because the success branch has just set `printError` (src/core/TagFunctions.h:67-69, 88-91).
