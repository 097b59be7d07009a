/**
 * The 46elks bridge: a webhook that answers incoming SMS with `OK` and
 * incoming voice calls with a JSON call-instruction document (record the
 * call, auto-press a digit, forward or record a voicemail).
 */
module ElksBridge {
  import opened Common
  import opened Json

  /** `urllib.parse.parse_qs` output: each key with its list of values. */
  type Params = map<string, seq<string>>

  /** parse_qs never yields an empty value list. */
  predicate WellFormed(params: Params) {
    forall k :: k in params ==> |params[k]| > 0
  }

  const DEFAULT_PRESS_DIGIT: string := "0"
  const DEFAULT_RECORDING_LIMIT: int := 60
  const DEFAULT_HOST: string := "localhost:5000"
  const DTMF_PREFIX: string := "sound/dtmf/PPPPPPPPPP"

  /** The module-level settings PRESS_DIGIT, RECORDING_LIMIT and FORWARD_TO_NUMBER. */
  datatype BridgeConfig = BridgeConfig(pressDigit: string, recordingLimit: int, forwardTo: Option<string>)

  /**
   * The settings read from the environment: PRESS_DIGIT defaults to "0",
   * RECORDING_LIMIT to 60 and FORWARD_TO_NUMBER to unset. `parsedLimit` is
   * `int()` of the RECORDING_LIMIT setting, used only when it is set.
   */
  function LoadConfig(env: map<string, string>, parsedLimit: int): (c: BridgeConfig)
    ensures c.pressDigit == (if "PRESS_DIGIT" in env then env["PRESS_DIGIT"] else DEFAULT_PRESS_DIGIT)
    ensures c.recordingLimit == (if "RECORDING_LIMIT" in env then parsedLimit else DEFAULT_RECORDING_LIMIT)
    ensures c.forwardTo == (if "FORWARD_TO_NUMBER" in env then Some(env["FORWARD_TO_NUMBER"]) else None)
    ensures "PRESS_DIGIT" !in env ==> c.pressDigit != ""
  {
    BridgeConfig(
      if "PRESS_DIGIT" in env then env["PRESS_DIGIT"] else DEFAULT_PRESS_DIGIT,
      if "RECORDING_LIMIT" in env then parsedLimit else DEFAULT_RECORDING_LIMIT,
      if "FORWARD_TO_NUMBER" in env then Some(env["FORWARD_TO_NUMBER"]) else None)
  }

  /** Python truthiness of an optional string: set and non-empty. */
  predicate Truthy(s: Option<string>) {
    s.Some? && s.value != ""
  }

  /** The bridge's own public URL, from the Host header. */
  function Callback(host: Option<string>): string {
    "https://" + (match host case Some(h) => h case None => DEFAULT_HOST)
  }

  datatype Reply =
    | PlainOk                        // `_send_ok`: text/plain "OK"
    | JsonReply(body: Json)          // `_send_json`

  /** `_handle_voice`: the reply to a call webhook. */
  function HandleVoice(cfg: BridgeConfig, host: Option<string>, params: Params): (r: Reply)
    ensures "recording_url" in params <==> r == PlainOk
    ensures r.JsonReply? ==>
      && r.body.JObject? && "recordcall" in r.body.fields
      && r.body.fields["recordcall"] == JString(Callback(host))
    ensures r.JsonReply? && cfg.pressDigit != "" ==>
      var ins := r.body.fields;
      && ins.Keys == {"recordcall", "play", "next"}
      && ins["play"] == JString(DTMF_PREFIX + cfg.pressDigit)
      && ins["next"] == JObject(
        if Truthy(cfg.forwardTo) then map["connect" := JString(cfg.forwardTo.value)]
        else map["record" := JString(Callback(host)), "timelimit" := JNumber(cfg.recordingLimit)])
    ensures r.JsonReply? && cfg.pressDigit == "" && Truthy(cfg.forwardTo) ==>
      r.body.fields == map["recordcall" := JString(Callback(host)), "connect" := JString(cfg.forwardTo.value)]
    ensures r.JsonReply? && cfg.pressDigit == "" && !Truthy(cfg.forwardTo) ==>
      r.body.fields == map[
        "recordcall" := JString(Callback(host)),
        "record" := JString(Callback(host)),
        "timelimit" := JNumber(cfg.recordingLimit)]
  {
    if "recording_url" in params then PlainOk
    else
      var callback := Callback(host);
      var instructions := map["recordcall" := JString(callback)];
      var instructions :=
        if cfg.pressDigit != "" then
          var next :=
            if Truthy(cfg.forwardTo) then map["connect" := JString(cfg.forwardTo.value)]
            else map["record" := JString(callback), "timelimit" := JNumber(cfg.recordingLimit)];
          instructions["play" := JString(DTMF_PREFIX + cfg.pressDigit)]["next" := JObject(next)]
        else if Truthy(cfg.forwardTo) then
          instructions["connect" := JString(cfg.forwardTo.value)]
        else
          instructions["record" := JString(callback)]["timelimit" := JNumber(cfg.recordingLimit)];
      JsonReply(JObject(instructions))
  }

  /**
   * Every instruction document records the call to the bridge itself and
   * continues in exactly one way: a `next` step, a direct `connect`, or a
   * voicemail `record` back to the bridge.
   */
  lemma {:induction false} VoiceInstructionsContinueOnce(cfg: BridgeConfig, host: Option<string>, params: Params)
    requires "recording_url" !in params
    ensures var ins := HandleVoice(cfg, host, params).body.fields;
      && ins["recordcall"] == JString(Callback(host))
      && |ins.Keys * {"next", "connect", "record"}| == 1
      && ("record" in ins ==> ins["record"] == ins["recordcall"])
  {
    var ins := HandleVoice(cfg, host, params).body.fields;
    var continuations := {"next", "connect", "record"};
    if cfg.pressDigit != "" {
      assert ins.Keys * continuations == {"next"};
    } else if Truthy(cfg.forwardTo) {
      assert ins.Keys * continuations == {"connect"};
    } else {
      assert ins.Keys * continuations == {"record"};
    }
  }

  /** With the default PRESS_DIGIT the bridge answers calls by pressing 0 after the pause. */
  lemma DefaultConfigPressesZero(env: map<string, string>, limit: int, host: Option<string>, params: Params)
    requires "PRESS_DIGIT" !in env && "recording_url" !in params
    ensures HandleVoice(LoadConfig(env, limit), host, params).body.fields["play"] == JString("sound/dtmf/PPPPPPPPPP0")
  {
  }

  /** The sender and text of an SMS webhook. */
  datatype Sms = Sms(sender: string, message: string)

  /** `_handle_sms`: `from` defaults to "Unknown", `message` to "", and the reply is always OK. */
  function HandleSms(params: Params): (r: (Sms, Reply))
    requires WellFormed(params)
    ensures r.1 == PlainOk
    ensures r.0.sender == (if "from" in params then params["from"][0] else "Unknown")
    ensures r.0.message == (if "message" in params then params["message"][0] else "")
  {
    var sender := if "from" in params then params["from"][0] else "Unknown";
    var message := if "message" in params then params["message"][0] else "";
    (Sms(sender, message), PlainOk)
  }

  /** What one POST did: answered a call, or logged a text. */
  datatype Handled =
    | VoiceCall(reply: Reply)
    | TextMessage(sms: Sms, reply: Reply)

  /** `do_POST` after the body is parsed: a `callid` parameter marks a voice webhook, anything else is an SMS. */
  function DoPost(cfg: BridgeConfig, host: Option<string>, params: Params): (h: Handled)
    requires WellFormed(params)
    ensures h.VoiceCall? <==> "callid" in params
    ensures h.VoiceCall? ==> h.reply == HandleVoice(cfg, host, params)
    ensures h.TextMessage? ==> h.reply == PlainOk && h.sms == HandleSms(params).0
  {
    if "callid" in params then VoiceCall(HandleVoice(cfg, host, params))
    else
      var (sms, reply) := HandleSms(params);
      TextMessage(sms, reply)
  }
}
