/**
  The IoT handler: the hook in the speech-to-text path. Once initialised with
  configured settings it owns a controller; for each recognised text it lets
  the controller check and execute it and then either disposes of the text
  (showing and speaking the answer, or an error) or hands it back to the
  XiaoZhi pipeline. The display and TTS callbacks are modelled as an event
  log, so that the order of the side effects can be stated.
*/
module Handler {
  import opened Wrappers
  import opened Json
  import opened Http
  import opened Controller
  import Settings

  /** A registered callback, identified opaquely; Unset means the handler only logs. */
  datatype Callback = Unset | Callback(id: nat)

  /** One side effect: a message shown for a role, or an answer spoken. Each
      records the callback that received it (Unset = written to the log). */
  datatype Event =
    | Shown(role: string, message: string, sink: Callback)
    | Played(text: string, audioUrl: string, sink: Callback)

  /** Whether the text was disposed of here, and the side effects it caused. */
  datatype Disposal = Disposal(handled: bool, emitted: seq<Event>)

  /** How many assistant messages a sequence of events shows. */
  function AssistantMessages(events: seq<Event>): nat {
    if events == [] then 0
    else (if events[0].Shown? && events[0].role == "assistant" then 1 else 0)
         + AssistantMessages(events[1..])
  }

  /** Whether a sequence of events speaks an answer. */
  predicate Speaks(events: seq<Event>) {
    exists i :: 0 <= i < |events| && events[i].Played?
  }

  /** What the handler does with the result of an IoT command. */
  function Respond(text: string, result: ExecuteResult, tts: bool, fallback: bool,
                   display: Callback, speaker: Callback): (d: Disposal)
    ensures d.handled <==> result.success || !fallback
    ensures result.success ==>
      && |d.emitted| >= 2
      && d.emitted[0] == Shown("user", text, display)
      && d.emitted[1] == Shown("assistant", result.responseText, display)
      && d.emitted[2..] == if tts && result.audioUrl != "" then [Played(result.responseText, result.audioUrl, speaker)] else []
    ensures !result.success && fallback ==> d.emitted == []
    ensures !result.success && !fallback ==> d.emitted == [Shown("assistant", result.errorMessage, display)]
  {
    if result.success then
      var shown := [Shown("user", text, display), Shown("assistant", result.responseText, display)];
      if tts && result.audioUrl != "" then
        Disposal(true, shown + [Played(result.responseText, result.audioUrl, speaker)])
      else Disposal(true, shown)
    else if fallback then Disposal(false, [])
    else Disposal(true, [Shown("assistant", result.errorMessage, display)])
  }

  /** A text the handler keeps is answered by exactly one assistant message;
      a text it hands back leaves no trace on the display or the speaker. */
  lemma HandledMeansOneAnswer(text: string, result: ExecuteResult, tts: bool, fallback: bool,
                              display: Callback, speaker: Callback)
    ensures var d := Respond(text, result, tts, fallback, display, speaker);
      (d.handled ==> AssistantMessages(d.emitted) == 1)
      && (!d.handled ==> d.emitted == [])
  {
    var d := Respond(text, result, tts, fallback, display, speaker);
    if result.success {
      var e := d.emitted;
      assert e[1..][1..] == e[2..];
      if tts && result.audioUrl != "" {
        assert e[2..][1..] == [];
        assert AssistantMessages(e[2..]) == 0;
      } else {
        assert e[2..] == [];
      }
      assert AssistantMessages(e[1..]) == 1;
    } else if !fallback {
      assert d.emitted[1..] == [];
    }
  }

  /** The answer is spoken exactly when the command succeeded, TTS is enabled
      and the server sent an audio URL; it is then the last event. */
  lemma SpeaksOnlyOnSuccessWithAudio(text: string, result: ExecuteResult, tts: bool, fallback: bool,
                                     display: Callback, speaker: Callback)
    ensures var d := Respond(text, result, tts, fallback, display, speaker);
      (Speaks(d.emitted) <==> result.success && tts && result.audioUrl != "")
      && (Speaks(d.emitted) ==> d.emitted[|d.emitted| - 1] == Played(result.responseText, result.audioUrl, speaker))
  {
    var d := Respond(text, result, tts, fallback, display, speaker);
    if result.success && tts && result.audioUrl != "" {
      assert d.emitted[2].Played?;
    }
  }

  /** The outcome of one recognised text. */
  datatype SttOutcome = SttOutcome(
    handled: bool,
    recorded: Option<ExecuteResult>,
    emitted: seq<Event>,
    requests: nat)

  /** One call of the entry point, as a function of the gate (available, a
      controller, settings enabled), whether the controller is configured, the
      replies the server will send, and the settings and callbacks in force.
      `recorded` is the new last result, if it changes; `requests` is how many
      requests reach the server. */
  function SttResult(open: bool, configured: bool, replies: seq<HttpReply>, text: string,
                     tts: bool, fallback: bool, display: Callback, speaker: Callback): (o: SttOutcome)
    ensures !open ==> o == SttOutcome(false, None, [], 0)
    ensures o.recorded.None? ==> !o.handled && o.emitted == []
    ensures o.recorded.Some? <==>
      open && configured && Next(replies).status == 200 && Next(replies).body.Some?
      && IsTrue(Next(replies).body.value, "is_iot_command")
    ensures o.recorded.Some? ==>
      && o.recorded.value == ShapeExecute(true, Next(Drop(replies, 1)))
      && Disposal(o.handled, o.emitted) == Respond(text, o.recorded.value, tts, fallback, display, speaker)
    ensures o.requests == if !open || !configured then 0 else if o.recorded.Some? then 2 else 1
  {
    if !open then SttOutcome(false, None, [], 0)
    else
      match CheckThenExecute(configured, Next(replies), Next(Drop(replies, 1)))
      case None => SttOutcome(false, None, [], if configured then 1 else 0)
      case Some(result) =>
        var d := Respond(text, result, tts, fallback, display, speaker);
        SttOutcome(d.handled, Some(result), d.emitted, 2)
  }

  /** A failed command with fallback enabled is handed back silently, yet it
      is still kept as the last result. */
  lemma FailureWithFallbackIsSilent(configured: bool, replies: seq<HttpReply>, text: string,
                                    tts: bool, display: Callback, speaker: Callback)
    requires SttResult(true, configured, replies, text, tts, true, display, speaker).recorded.Some?
    requires !SttResult(true, configured, replies, text, tts, true, display, speaker).recorded.value.success
    ensures var o := SttResult(true, configured, replies, text, tts, true, display, speaker);
      !o.handled && o.emitted == [] && o.requests == 2
  {
  }

  /** A failed command with fallback disabled is kept, with the error as the
      single message. */
  lemma FailureWithoutFallbackShowsError(configured: bool, replies: seq<HttpReply>, text: string,
                                         tts: bool, display: Callback, speaker: Callback)
    requires SttResult(true, configured, replies, text, tts, false, display, speaker).recorded.Some?
    requires !SttResult(true, configured, replies, text, tts, false, display, speaker).recorded.value.success
    ensures var o := SttResult(true, configured, replies, text, tts, false, display, speaker);
      o.handled && o.emitted == [Shown("assistant", o.recorded.value.errorMessage, display)]
  {
  }

  /** The reply texts of the light example; the bodies below are their parses. */
  const CheckText := "{\"is_iot_command\":true,\"device_id\":3,\"action_id\":1}"
  const ExecText := "{\"success\":true,\"response\":\"Light turned on\",\"audio_url\":\"http://x/a.mp3\"}"

  /** The example of a light switched on: the user's words, then the server's
      answer, then (with TTS on) the answer spoken; two requests in all. */
  lemma LightScenario(tts: bool, display: Callback, speaker: Callback)
    ensures var check := HttpReply(200, CheckText, Some(map["is_iot_command" := JBool(true),
                                                     "device_id" := JNumber(3), "action_id" := JNumber(1)]));
      var exec := HttpReply(200, ExecText, Some(map["success" := JBool(true),
                                              "response" := JString("Light turned on"),
                                              "audio_url" := JString("http://x/a.mp3")]));
      var o := SttResult(true, true, [check, exec], "turn on the light", tts, true, display, speaker);
      && o.handled
      && o.recorded == Some(ExecuteResult(true, "Light turned on", "http://x/a.mp3", ""))
      && o.emitted == [Shown("user", "turn on the light", display), Shown("assistant", "Light turned on", display)]
                      + (if tts then [Played("Light turned on", "http://x/a.mp3", speaker)] else [])
      && o.requests == 2
  {
    var check := HttpReply(200, CheckText, Some(map["is_iot_command" := JBool(true),
                                             "device_id" := JNumber(3), "action_id" := JNumber(1)]));
    var exec := HttpReply(200, ExecText, Some(map["success" := JBool(true),
                                            "response" := JString("Light turned on"),
                                            "audio_url" := JString("http://x/a.mp3")]));
    assert Drop([check, exec], 1) == [exec];
    assert IsTrue(check.body.value, "is_iot_command");
    assert IsTrue(exec.body.value, "success");
  }

  /** A controller built from the settings' URL and key is configured whenever
      the settings are, but it ignores the enabled flag the settings check. */
  lemma ControllerIgnoresEnabledFlag(settings: Settings.IoTSettings, c: IoTController)
    requires c.server == settings.serverUrl && c.apiKey == settings.apiKey
    ensures settings.IsConfigured() <==> settings.IsEnabled() && c.IsConfigured()
  {
  }

  class IoTHandler {
    var available: bool
    var controller: IoTController?
    var lastResult: ExecuteResult
    var ttsCallback: Callback
    var displayCallback: Callback
    var events: seq<Event>

    /** Available only with a controller, and that controller has a
        non-empty server URL and API key. */
    ghost predicate Valid() reads this, controller {
      && (available ==> controller != null)
      && (controller != null ==> controller.IsConfigured())
    }

    constructor ()
      ensures Valid()
      ensures !available && controller == null && lastResult == EmptyResult
      ensures ttsCallback == Unset && displayCallback == Unset && events == []
    {
      available := false;
      controller := null;
      lastResult := EmptyResult;
      ttsCallback := Unset;
      displayCallback := Unset;
      events := [];
    }

    function IsAvailable(): bool reads this { available }

    function GetLastResult(): ExecuteResult reads this { lastResult }

    method SetTtsCallback(cb: Callback)
      modifies this`ttsCallback
      ensures ttsCallback == cb
    {
      ttsCallback := cb;
    }

    method SetDisplayCallback(cb: Callback)
      modifies this`displayCallback
      ensures displayCallback == cb
    {
      displayCallback := cb;
    }

    /** The requests one entry-point call sends, given how many it sends. */
    function SttRequests(n: nat): seq<Request>
      requires controller != null && n <= 2
      reads this, controller
    {
      [controller.PostTo(CheckPath), controller.PostTo(ExecutePath)][..n]
    }

    method Initialize(settings: Settings.IoTSettings, net: Transport)
      requires Valid()
      modifies this, net
      ensures Valid()
      ensures !settings.IsConfigured() ==> !available && controller == old(controller) && unchanged(net)
      ensures settings.IsConfigured() ==>
        && available && controller != null && fresh(controller)
        && controller.server == settings.serverUrl && controller.apiKey == settings.apiKey
        && net.sent == old(net.sent) + [controller.HealthRequest()]
        && net.replies == Drop(old(net.replies), 1)
      ensures lastResult == old(lastResult) && events == old(events)
      ensures ttsCallback == old(ttsCallback) && displayCallback == old(displayCallback)
    {
      if !settings.IsConfigured() {
        available := false;
        return;
      }
      controller := new IoTController(settings.GetServerUrl(), settings.GetApiKey());
      var healthy := controller.CheckServerHealth(net);
      available := true;
    }

    method ShowMessage(role: string, message: string)
      modifies this`events
      ensures events == old(events) + [Shown(role, message, displayCallback)]
    {
      events := events + [Shown(role, message, displayCallback)];
    }

    method PlayTts(text: string, audioUrl: string)
      modifies this`events
      ensures events == old(events) + [Played(text, audioUrl, ttsCallback)]
    {
      events := events + [Played(text, audioUrl, ttsCallback)];
    }

    /** The entry point for a recognised text; true = disposed of here, false =
        the caller goes on with the XiaoZhi pipeline. */
    method HandleSttResult(text: string, settings: Settings.IoTSettings, net: Transport)
      returns (handled: bool)
      requires Valid()
      modifies this`events, this`lastResult, net
      ensures Valid()
      ensures var o := SttResult(old(available) && controller != null && settings.enabled,
                                 controller != null && controller.IsConfigured(), old(net.replies), text,
                                 settings.ttsEnabled, settings.fallbackEnabled, displayCallback, ttsCallback);
        && handled == o.handled
        && events == old(events) + o.emitted
        && lastResult == (if o.recorded.Some? then o.recorded.value else old(lastResult))
        && net.replies == Drop(old(net.replies), o.requests)
        && (controller == null ==> unchanged(net))
        && (controller != null ==> o.requests <= 2 && net.sent == old(net.sent) + SttRequests(o.requests))
    {
      if !available || controller == null {
        return false;
      }
      if !settings.IsEnabled() {
        return false;
      }
      var isIot, result := controller.HandleIfIoTCommand(text, net, EmptyResult);
      if !isIot {
        return false;
      }
      lastResult := result;
      if result.success {
        ShowMessage("user", text);
        ShowMessage("assistant", result.responseText);
        if settings.IsTtsEnabled() && result.audioUrl != "" {
          PlayTts(result.responseText, result.audioUrl);
        }
      } else {
        if settings.IsFallbackEnabled() {
          return false;
        }
        ShowMessage("assistant", result.errorMessage);
      }
      return true;
    }

    method RefreshDeviceList(net: Transport)
      requires Valid()
      modifies net
      ensures !(available && controller != null) ==> unchanged(net)
      ensures available && controller != null ==>
        net.sent == old(net.sent) + [controller.DevicesRequest()] && net.replies == Drop(old(net.replies), 1)
    {
      if !available || controller == null {
        return;
      }
      var devices := controller.GetDeviceList(net);
    }

    method CheckServerHealth(net: Transport) returns (healthy: bool)
      requires Valid()
      modifies net
      ensures !(available && controller != null) ==> !healthy && unchanged(net)
      ensures available && controller != null ==>
        && healthy == (Next(old(net.replies)).status == 200)
        && net.sent == old(net.sent) + [controller.HealthRequest()]
        && net.replies == Drop(old(net.replies), 1)
    {
      if !available || controller == null {
        return false;
      }
      healthy := controller.CheckServerHealth(net);
    }
  }

  /** A handler that was never initialised passes every text through without
      touching the network or the display. */
  method FreshHandlerPassesThrough(text: string, settings: Settings.IoTSettings, net: Transport)
    returns (handled: bool)
    modifies net
    ensures !handled && unchanged(net)
  {
    var h := new IoTHandler();
    handled := h.HandleSttResult(text, settings, net);
    assert h.events == [];
  }
}
