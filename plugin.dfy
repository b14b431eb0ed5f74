/** The state the RampAgent plugin object shares between its tag, command and
    menu code: connection flags, the controller's own callsign, the API host,
    what the plugin has shown the controller and the queue of messages waiting
    to be shown from the timer. */
module Plugin {
  import opened Host

  /** RAMPAGENT_VERSION. */
  const RampAgentVersion: string := "v0.0.1"

  class PluginState {
    /** Helpers whose bodies are not part of this model, kept uninterpreted. */
    const toUpper: string -> string
    const sortStandList: seq<string> -> seq<string>
    const generateToken: string -> string
    /** The API host that changeApiUrl(arg) leaves behind, given the old one. */
    const changeApiUrl: (string, string) -> string

    var canSendReport: bool
    var isConnected: bool
    var isController: bool
    var callsign: string
    var apiUrl: string
    /** Everything shown to the host or sent to the server, oldest first. */
    var events: seq<Event>
    /** Messages queued by background work, oldest first. */
    var pending: seq<string>

    constructor (toUpper: string -> string, sortStandList: seq<string> -> seq<string>,
                 generateToken: string -> string, changeApiUrl: (string, string) -> string,
                 canSendReport: bool, isConnected: bool, isController: bool,
                 callsign: string, apiUrl: string)
      ensures this.toUpper == toUpper && this.sortStandList == sortStandList
      ensures this.generateToken == generateToken && this.changeApiUrl == changeApiUrl
      ensures this.canSendReport == canSendReport && this.isConnected == isConnected
      ensures this.isController == isController && this.callsign == callsign && this.apiUrl == apiUrl
      ensures events == [] && pending == []
    {
      this.toUpper := toUpper;
      this.sortStandList := sortStandList;
      this.generateToken := generateToken;
      this.changeApiUrl := changeApiUrl;
      this.canSendReport := canSendReport;
      this.isConnected := isConnected;
      this.isController := isController;
      this.callsign := callsign;
      this.apiUrl := apiUrl;
      events := [];
      pending := [];
    }

    /** Shows one line to the controller. */
    method DisplayMessage(text: string)
      modifies this`events
      ensures events == old(events) + [Display(text)]
    {
      events := events + [Display(text)];
    }

    /** Queues one line to be shown on a later timer tick. */
    method QueueMessage(text: string)
      modifies this`pending
      ensures pending == old(pending) + [text]
    {
      pending := pending + [text];
    }

    /** Records one GET request to the API server. */
    method SendGet(path: string)
      modifies this`events
      ensures events == old(events) + [HttpGet(path)]
    {
      events := events + [HttpGet(path)];
    }
  }
}
