/**
  The IoT controller: turns one HTTP exchange with the MeiLin server into a
  typed result. The result shaping is a function of whether the controller is
  configured and of the reply (status and parsed body); the class methods
  perform the requests on the transport and return that shaped result.
*/
module Controller {
  import opened Wrappers
  import opened Json
  import opened Decimal
  import opened Http

  /** Whether the text names a known device and action, and which. */
  datatype CheckResult = CheckResult(
    isIotCommand: bool,
    deviceId: int,
    actionId: int,
    deviceName: string,
    actionName: string)

  /** The outcome of executing a command or of a chat request. */
  datatype ExecuteResult = ExecuteResult(
    success: bool,
    responseText: string,
    audioUrl: string,
    errorMessage: string)

  /** The answer for anything that is not a recognised IoT command. */
  const NotIoT := CheckResult(false, -1, -1, "", "")

  const EmptyResult := ExecuteResult(false, "", "", "")

  const CheckPath := "/iot/check"
  const ExecutePath := "/iot/execute"
  const ChatPath := "/esp/chat"
  const DevicesPath := "/iot/devices?user_id="
  const HealthPath := "/health"

  /** Why a request produced no usable body. */
  datatype Failure = NotConfigured | ConnectFailed | BadStatus(code: int) | Unparseable

  /** The four locally generated error messages of one operation; the status
      message is a prefix followed by the decimal status code. */
  datatype Messages = Messages(
    notConfigured: string,
    connectFailed: string,
    statusPrefix: string,
    unparseable: string)

  const ExecuteMessages := Messages(
    "Hệ thống IoT chưa được cấu hình",
    "Không thể kết nối tới máy chủ IoT",
    "Máy chủ IoT phản hồi lỗi: ",
    "Không thể đọc phản hồi từ máy chủ")

  const ChatMessages := Messages(
    "MeiLin chưa được cấu hình",
    "Không thể kết nối tới MeiLin server",
    "MeiLin phản hồi lỗi: ",
    "Không thể đọc phản hồi từ MeiLin")

  /** The failure a reply represents, if any: checked in the order the code checks it. */
  function ReplyFailure(configured: bool, reply: HttpReply): Option<Failure> {
    if !configured then Some(NotConfigured)
    else if reply.status == 0 then Some(ConnectFailed)
    else if reply.status != 200 then Some(BadStatus(reply.status))
    else if reply.body.None? then Some(Unparseable)
    else None
  }

  function FailureText(m: Messages, f: Failure): string {
    match f
    case NotConfigured => m.notConfigured
    case ConnectFailed => m.connectFailed
    case BadStatus(code) => m.statusPrefix + IntToString(code)
    case Unparseable => m.unparseable
  }

  /** Reads back which failure a local error message reports. */
  function DecodeFailure(m: Messages, text: string): Option<Failure> {
    if text == m.notConfigured then Some(NotConfigured)
    else if text == m.connectFailed then Some(ConnectFailed)
    else if text == m.unparseable then Some(Unparseable)
    else if m.statusPrefix <= text then
      match ParseInt(text[|m.statusPrefix|..])
      case Some(code) => Some(BadStatus(code))
      case None => None
    else None
  }

  /** The fixed messages differ from each other and none starts with the status prefix. */
  ghost predicate Distinguishable(m: Messages) {
    && m.notConfigured != m.connectFailed
    && m.notConfigured != m.unparseable
    && m.connectFailed != m.unparseable
    && !(m.statusPrefix <= m.notConfigured)
    && !(m.statusPrefix <= m.connectFailed)
    && !(m.statusPrefix <= m.unparseable)
  }

  lemma FailureTextDecodes(m: Messages, f: Failure)
    requires Distinguishable(m)
    ensures DecodeFailure(m, FailureText(m, f)) == Some(f)
  {
    if f.BadStatus? {
      var t := FailureText(m, f);
      assert m.statusPrefix <= t;
      assert t[|m.statusPrefix|..] == IntToString(f.code);
      IntToStringRoundTrip(f.code);
      assert t != m.notConfigured && t != m.connectFailed && t != m.unparseable;
    }
  }

  lemma ExecuteMessagesDistinguishable()
    ensures Distinguishable(ExecuteMessages)
  {
    var m := ExecuteMessages;
    assert m.statusPrefix[0] == 'M' && m.notConfigured[0] == 'H';
    assert m.connectFailed[0] == 'K' && m.unparseable[0] == 'K';
    assert m.connectFailed[10] == 'k' && m.unparseable[10] == 'đ';
  }

  lemma ChatMessagesDistinguishable()
    ensures Distinguishable(ChatMessages)
  {
    var m := ChatMessages;
    assert m.statusPrefix[7] == 'p' && m.notConfigured[7] == 'c';
    assert m.connectFailed[0] == 'K' && m.unparseable[0] == 'K';
    assert m.connectFailed[10] == 'k' && m.unparseable[10] == 'đ';
  }

  /** Every local failure of an execute or chat request is told apart by its
      message, and a bad status can be read back from it. */
  lemma LocalFailuresAreDistinct(f: Failure)
    ensures DecodeFailure(ExecuteMessages, FailureText(ExecuteMessages, f)) == Some(f)
    ensures DecodeFailure(ChatMessages, FailureText(ChatMessages, f)) == Some(f)
  {
    ExecuteMessagesDistinguishable();
    FailureTextDecodes(ExecuteMessages, f);
    ChatMessagesDistinguishable();
    FailureTextDecodes(ChatMessages, f);
  }

  /** The result of the classification request. */
  function ShapeCheck(configured: bool, reply: HttpReply): (r: CheckResult)
    ensures r.isIotCommand <==>
      configured && reply.status == 200 && reply.body.Some? && IsTrue(reply.body.value, "is_iot_command")
    ensures !r.isIotCommand ==> r == NotIoT
    ensures r.isIotCommand ==>
      var obj := reply.body.value;
      && r.deviceId == NumberOr(obj, "device_id", -1)
      && r.actionId == NumberOr(obj, "action_id", -1)
      && r.deviceName == StringOr(obj, "device_name", "")
      && r.actionName == StringOr(obj, "action_name", "")
  {
    if !configured || reply.status != 200 || reply.body.None? then NotIoT
    else
      var obj := reply.body.value;
      var isIot := BoolOr(obj, "is_iot_command", false);
      BoolOrFalseIsTrue(obj, "is_iot_command");
      if isIot then
        CheckResult(true,
          NumberOr(obj, "device_id", -1), NumberOr(obj, "action_id", -1),
          StringOr(obj, "device_name", ""), StringOr(obj, "action_name", ""))
      else NotIoT
  }

  /** The result of the execute request. */
  function ShapeExecute(configured: bool, reply: HttpReply): (r: ExecuteResult)
    ensures r.success <==>
      configured && reply.status == 200 && reply.body.Some? && IsTrue(reply.body.value, "success")
    ensures r.success ==> r.errorMessage == ""
    ensures ReplyFailure(configured, reply).Some? ==>
      && r.responseText == "" && r.audioUrl == ""
      && DecodeFailure(ExecuteMessages, r.errorMessage) == ReplyFailure(configured, reply)
    ensures ReplyFailure(configured, reply).None? ==>
      var obj := reply.body.value;
      && r.responseText == StringOr(obj, "response", "")
      && r.audioUrl == StringOr(obj, "audio_url", "")
      && (!r.success ==> r.errorMessage == StringOr(obj, "error", ""))
  {
    match ReplyFailure(configured, reply)
    case Some(f) =>
      LocalFailuresAreDistinct(f);
      ExecuteResult(false, "", "", FailureText(ExecuteMessages, f))
    case None =>
      var obj := reply.body.value;
      var success := BoolOr(obj, "success", false);
      BoolOrFalseIsTrue(obj, "success");
      ExecuteResult(success,
        StringOr(obj, "response", ""), StringOr(obj, "audio_url", ""),
        if success then "" else StringOr(obj, "error", ""))
  }

  /** The result of the chat request: any parsed 200 reply is a success,
      whatever fields it has. */
  function ShapeChat(configured: bool, reply: HttpReply): (r: ExecuteResult)
    ensures r.success <==> configured && reply.status == 200 && reply.body.Some?
    ensures r.success ==>
      && r.responseText == StringOr(reply.body.value, "response", "")
      && r.audioUrl == StringOr(reply.body.value, "audio_url", "")
      && r.errorMessage == ""
    ensures !r.success ==>
      && r.responseText == "" && r.audioUrl == ""
      && DecodeFailure(ChatMessages, r.errorMessage) == ReplyFailure(configured, reply)
  {
    match ReplyFailure(configured, reply)
    case Some(f) =>
      LocalFailuresAreDistinct(f);
      ExecuteResult(false, "", "", FailureText(ChatMessages, f))
    case None =>
      var obj := reply.body.value;
      ExecuteResult(true, StringOr(obj, "response", ""), StringOr(obj, "audio_url", ""), "")
  }

  /** The device list: the response text of a configured 200 reply, else "{}". */
  function ShapeDeviceList(configured: bool, reply: HttpReply): (r: string)
    ensures configured && reply.status == 200 ==> r == reply.text
    ensures !(configured && reply.status == 200) ==> r == "{}"
  {
    if configured && reply.status == 200 then reply.text else "{}"
  }

  /** Check, then execute only a recognised command: None means "not an IoT
      command", Some(result) means handled, even when execution failed. */
  function CheckThenExecute(configured: bool, checkReply: HttpReply, executeReply: HttpReply): (o: Option<ExecuteResult>)
    ensures o.Some? <==>
      configured && checkReply.status == 200 && checkReply.body.Some?
      && IsTrue(checkReply.body.value, "is_iot_command")
    ensures o.Some? ==> o.value == ShapeExecute(configured, executeReply)
  {
    if ShapeCheck(configured, checkReply).isIotCommand then Some(ShapeExecute(configured, executeReply))
    else None
  }

  /** An unconfigured controller answers every request locally. */
  lemma UnconfiguredIgnoresReplies(r1: HttpReply, r2: HttpReply)
    ensures ShapeCheck(false, r1) == ShapeCheck(false, r2) == NotIoT
    ensures ShapeExecute(false, r1) == ShapeExecute(false, r2)
    ensures ShapeChat(false, r1) == ShapeChat(false, r2)
    ensures ShapeDeviceList(false, r1) == ShapeDeviceList(false, r2) == "{}"
    ensures CheckThenExecute(false, r1, r2).None?
  {
  }

  class IoTController {
    var server: string
    var apiKey: string

    constructor (server: string, apiKey: string)
      ensures this.server == server && this.apiKey == apiKey
    {
      this.server := server;
      this.apiKey := apiKey;
    }

    method SetServer(s: string)
      modifies this
      ensures server == s && apiKey == old(apiKey)
    {
      server := s;
    }

    method SetApiKey(key: string)
      modifies this
      ensures apiKey == key && server == old(server)
    {
      apiKey := key;
    }

    function GetServer(): string reads this { server }

    /** Both the server URL and the API key are set; there is no enabled flag here. */
    predicate IsConfigured() reads this {
      server != "" && apiKey != ""
    }

    /** A POST to one of the server's endpoints, carrying the API key header. */
    function PostTo(path: string): Request reads this {
      Request(Post, server + path, Some(apiKey))
    }

    function DevicesRequest(): Request reads this {
      Request(Get, server + DevicesPath + apiKey, Some(apiKey))
    }

    function HealthRequest(): Request reads this {
      Request(Get, server + HealthPath, None)
    }

    method HttpPost(path: string, net: Transport) returns (reply: HttpReply)
      modifies net
      ensures net.sent == old(net.sent) + [PostTo(path)]
      ensures reply == Next(old(net.replies)) && net.replies == Drop(old(net.replies), 1)
    {
      reply := net.Perform(PostTo(path));
    }

    method CheckIoTCommand(text: string, net: Transport) returns (r: CheckResult)
      modifies net
      ensures !IsConfigured() ==> r == NotIoT && unchanged(net)
      ensures IsConfigured() ==>
        && r == ShapeCheck(true, Next(old(net.replies)))
        && net.sent == old(net.sent) + [PostTo(CheckPath)]
        && net.replies == Drop(old(net.replies), 1)
    {
      if !IsConfigured() {
        return NotIoT;
      }
      var reply := HttpPost(CheckPath, net);
      r := ShapeCheck(true, reply);
    }

    method ExecuteIoTCommand(text: string, deviceId: int, actionId: int, net: Transport)
      returns (r: ExecuteResult)
      modifies net
      ensures !IsConfigured() ==> r == ShapeExecute(false, TransportFailure) && unchanged(net)
      ensures IsConfigured() ==>
        && r == ShapeExecute(true, Next(old(net.replies)))
        && net.sent == old(net.sent) + [PostTo(ExecutePath)]
        && net.replies == Drop(old(net.replies), 1)
    {
      if !IsConfigured() {
        return ShapeExecute(false, TransportFailure);
      }
      var reply := HttpPost(ExecutePath, net);
      r := ShapeExecute(true, reply);
    }

    method SendChatToMeiLin(text: string, net: Transport) returns (r: ExecuteResult)
      modifies net
      ensures !IsConfigured() ==> r == ShapeChat(false, TransportFailure) && unchanged(net)
      ensures IsConfigured() ==>
        && r == ShapeChat(true, Next(old(net.replies)))
        && net.sent == old(net.sent) + [PostTo(ChatPath)]
        && net.replies == Drop(old(net.replies), 1)
    {
      if !IsConfigured() {
        return ShapeChat(false, TransportFailure);
      }
      var reply := HttpPost(ChatPath, net);
      r := ShapeChat(true, reply);
    }

    /** `prior` is the caller's result variable, returned untouched when the
        text is not an IoT command. */
    method HandleIfIoTCommand(text: string, net: Transport, prior: ExecuteResult)
      returns (handled: bool, out: ExecuteResult)
      modifies net
      ensures var o := CheckThenExecute(IsConfigured(), Next(old(net.replies)), Next(Drop(old(net.replies), 1)));
        && handled == o.Some?
        && out == if handled then o.value else prior
      ensures !IsConfigured() ==> unchanged(net)
      ensures IsConfigured() && !handled ==>
        net.sent == old(net.sent) + [PostTo(CheckPath)] && net.replies == Drop(old(net.replies), 1)
      ensures handled ==>
        net.sent == old(net.sent) + [PostTo(CheckPath), PostTo(ExecutePath)]
        && net.replies == Drop(old(net.replies), 2)
    {
      var check := CheckIoTCommand(text, net);
      if !check.isIotCommand {
        return false, prior;
      }
      out := ExecuteIoTCommand(text, check.deviceId, check.actionId, net);
      handled := true;
      assert Drop(Drop(old(net.replies), 1), 1) == Drop(old(net.replies), 2);
    }

    method GetDeviceList(net: Transport) returns (devices: string)
      modifies net
      ensures !IsConfigured() ==> devices == "{}" && unchanged(net)
      ensures IsConfigured() ==>
        && devices == ShapeDeviceList(true, Next(old(net.replies)))
        && net.sent == old(net.sent) + [DevicesRequest()]
        && net.replies == Drop(old(net.replies), 1)
    {
      if !IsConfigured() {
        return "{}";
      }
      var reply := net.Perform(DevicesRequest());
      devices := ShapeDeviceList(true, reply);
    }

    method CheckServerHealth(net: Transport) returns (healthy: bool)
      modifies net
      ensures server == "" ==> !healthy && unchanged(net)
      ensures server != "" ==>
        && healthy == (Next(old(net.replies)).status == 200)
        && net.sent == old(net.sent) + [HealthRequest()]
        && net.replies == Drop(old(net.replies), 1)
    {
      if server == "" {
        return false;
      }
      var reply := net.Perform(HealthRequest());
      healthy := reply.status == 200;
    }
  }
}
