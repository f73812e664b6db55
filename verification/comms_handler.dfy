/**
 * The command handler: a byte accumulator fed by the serial receive callback,
 * and the routing of one JSON command to the ping or light-intensity response.
 * The JSON text is parsed by lwjson, which is not part of this model: a parse is a
 * function from the received bytes to the root token, or None when there is none.
 */
module CommsHandler {
  import opened ValStatus
  import opened CommsFormat
  import opened SysCoordinator

  const RX_BUFFER_SIZE := 256
  const LINE_FEED: u8 := 10
  const CARRIAGE_RETURN: u8 := 13

  /** The value of an lwjson token; Other stands for arrays, reals, booleans and null. */
  datatype Value = Str(text: string) | Int(number: int) | Obj(children: seq<Token>) | Other

  /** An lwjson token: its name when it sits inside an object, and its value. */
  datatype Token = Token(name: Option<string>, value: Value)

  /**
   * strncmp(s, literal, length of s) == 0, for a token text s (which holds no NUL):
   * s is a prefix of literal, the empty text included.
   */
  predicate PrefixOf(s: string, literal: string) {
    |s| <= |literal| && literal[..|s|] == s
  }

  // ---------------------------------------------------------------------------
  // The message envelope
  // ---------------------------------------------------------------------------

  /** Which envelope field a member of the root object sets, following the C's else-if chain. */
  datatype Field = IdField | TypeField | TopicField | ActionField | Ignored

  function Classify(t: Token): Field {
    if t.name.None? || !t.value.Str? then Ignored
    else if PrefixOf(t.name.value, "id") then IdField
    else if PrefixOf(t.name.value, "type") then TypeField
    else if PrefixOf(t.name.value, "topic") then TopicField
    else if PrefixOf(t.name.value, "action") then ActionField
    else Ignored
  }

  /** msgId, type, topic and action as the scan of the root object leaves them. */
  datatype Envelope = Envelope(msgId: string, msgType: Option<string>, topic: Option<string>, action: Option<string>)

  const DEFAULT_ENVELOPE := Envelope("unknown", None, None, None)

  function Absorb(env: Envelope, t: Token): Envelope {
    match Classify(t)
    case IdField => env.(msgId := t.value.text)
    case TypeField => env.(msgType := Some(t.value.text))
    case TopicField => env.(topic := Some(t.value.text))
    case ActionField => env.(action := Some(t.value.text))
    case Ignored => env
  }

  /** The id member of every id-like string member fits msgId's 64-byte buffer with its terminator. */
  predicate IdsFit(ts: seq<Token>) {
    forall i :: 0 <= i < |ts| && Classify(ts[i]) == IdField ==> |ts[i].value.text| < MSG_ID_SIZE
  }

  /** The envelope after scanning the members ts in order. */
  function EnvelopeOf(ts: seq<Token>): (env: Envelope)
    ensures IdsFit(ts) ==> |env.msgId| < MSG_ID_SIZE
    decreases |ts|
  {
    if ts == [] then DEFAULT_ENVELOPE
    else
      assert IdsFit(ts) ==> IdsFit(ts[..|ts| - 1]);
      Absorb(EnvelopeOf(ts[..|ts| - 1]), ts[|ts| - 1])
  }

  /** One envelope field, with the message id seen as always present. */
  function Get(env: Envelope, f: Field): Option<string> {
    match f
    case IdField => Some(env.msgId)
    case TypeField => env.msgType
    case TopicField => env.topic
    case ActionField => env.action
    case Ignored => None
  }

  /** A field's value when no member sets it. */
  function Default(f: Field): Option<string> {
    Get(DEFAULT_ENVELOPE, f)
  }

  /** Absorbing a member changes only the field it is classified as, and sets it to the member's text. */
  lemma AbsorbSetsOneField(env: Envelope, t: Token, f: Field)
    requires f != Ignored
    ensures Get(Absorb(env, t), f) == if Classify(t) == f then Some(t.value.text) else Get(env, f)
  {
  }

  /** A field holds the text of the last member classified as that field. */
  lemma {:induction false} LastMatchWins(ts: seq<Token>, f: Field, k: int)
    requires f != Ignored && 0 <= k < |ts| && Classify(ts[k]) == f
    requires forall j :: k < j < |ts| ==> Classify(ts[j]) != f
    ensures Get(EnvelopeOf(ts), f) == Some(ts[k].value.text)
    decreases |ts|
  {
    var last := |ts| - 1;
    AbsorbSetsOneField(EnvelopeOf(ts[..last]), ts[last], f);
    if k < last {
      LastMatchWins(ts[..last], f, k);
    }
  }

  /** A field no member is classified as keeps its default: "unknown" for the id, absent otherwise. */
  lemma {:induction false} NoMatchKeepsDefault(ts: seq<Token>, f: Field)
    requires f != Ignored
    requires forall j :: 0 <= j < |ts| ==> Classify(ts[j]) != f
    ensures Get(EnvelopeOf(ts), f) == Default(f)
    decreases |ts|
  {
    if ts != [] {
      var last := |ts| - 1;
      AbsorbSetsOneField(EnvelopeOf(ts[..last]), ts[last], f);
      NoMatchKeepsDefault(ts[..last], f);
    }
  }

  /** The first loop of COMMS_ProcessJsonCommand: scan the root's members for id, type, topic and action. */
  method ExtractEnvelope(children: seq<Token>) returns (env: Envelope)
    ensures env == EnvelopeOf(children)
  {
    env := DEFAULT_ENVELOPE;
    var i := 0;
    while i < |children|
      invariant 0 <= i <= |children|
      invariant env == EnvelopeOf(children[..i])
    {
      var t := children[i];
      if t.name.Some? {
        var name := t.name.value;
        if PrefixOf(name, "id") && t.value.Str? {
          env := env.(msgId := t.value.text);
        } else if PrefixOf(name, "type") && t.value.Str? {
          env := env.(msgType := Some(t.value.text));
        } else if PrefixOf(name, "topic") && t.value.Str? {
          env := env.(topic := Some(t.value.text));
        } else if PrefixOf(name, "action") && t.value.Str? {
          env := env.(action := Some(t.value.text));
        }
      }
      assert children[..i + 1][..i] == children[..i];
      i := i + 1;
    }
    assert children[..i] == children;
  }

  // ---------------------------------------------------------------------------
  // The light id of a light/get command
  // ---------------------------------------------------------------------------

  predicate IsDataObject(t: Token) {
    t.name.Some? && PrefixOf(t.name.value, "data") && t.value.Obj?
  }

  predicate IsIntId(t: Token) {
    t.name.Some? && PrefixOf(t.name.value, "id") && t.value.Int?
  }

  /** The first integer id among the members of a data object, narrowed to uint8_t; 0 when there is none. */
  function IdIn(ts: seq<Token>): u8
    decreases |ts|
  {
    if ts == [] then 0
    else if IsIntId(ts[0]) then ToU8(ts[0].value.number)
    else IdIn(ts[1..])
  }

  /** The id inside the first data object of the root; 0 when there is no data object. */
  function LightIdOf(children: seq<Token>): u8
    decreases |children|
  {
    if children == [] then 0
    else if IsDataObject(children[0]) then IdIn(children[0].value.children)
    else LightIdOf(children[1..])
  }

  /** The first integer id member decides, narrowed modulo 256. */
  lemma {:induction false} FirstIntIdDecides(ts: seq<Token>, k: int)
    requires 0 <= k < |ts| && IsIntId(ts[k])
    requires forall j :: 0 <= j < k ==> !IsIntId(ts[j])
    ensures IdIn(ts) == ToU8(ts[k].value.number)
    decreases k
  {
    if k > 0 {
      FirstIntIdDecides(ts[1..], k - 1);
    }
  }

  /** Without an integer id member the light id is 0. */
  lemma {:induction false} NoIntIdIsZero(ts: seq<Token>)
    requires forall j :: 0 <= j < |ts| ==> !IsIntId(ts[j])
    ensures IdIn(ts) == 0
    decreases |ts|
  {
    if ts != [] {
      NoIntIdIsZero(ts[1..]);
    }
  }

  /** Only the first data object is searched; later data objects are never looked at. */
  lemma {:induction false} FirstDataObjectDecides(children: seq<Token>, k: int)
    requires 0 <= k < |children| && IsDataObject(children[k])
    requires forall j :: 0 <= j < k ==> !IsDataObject(children[j])
    ensures LightIdOf(children) == IdIn(children[k].value.children)
    decreases k
  {
    if k > 0 {
      FirstDataObjectDecides(children[1..], k - 1);
    }
  }

  /** Without a data object the light id is 0, which the handler answers as get_all. */
  lemma {:induction false} NoDataObjectIsZero(children: seq<Token>)
    requires forall j :: 0 <= j < |children| ==> !IsDataObject(children[j])
    ensures LightIdOf(children) == 0
    decreases |children|
  {
    if children != [] {
      NoDataObjectIsZero(children[1..]);
    }
  }

  /** The second loop of COMMS_ProcessJsonCommand: the nested search for data.id, with its two breaks. */
  method FindLightId(children: seq<Token>) returns (lightId: u8)
    ensures lightId == LightIdOf(children)
  {
    lightId := 0;
    var i := 0;
    while i < |children|
      invariant 0 <= i <= |children|
      invariant LightIdOf(children) == LightIdOf(children[i..])
    {
      if IsDataObject(children[i]) {
        var data := children[i].value.children;
        var j := 0;
        while j < |data|
          invariant 0 <= j <= |data|
          invariant lightId == 0
          invariant IdIn(data) == IdIn(data[j..])
        {
          if IsIntId(data[j]) {
            lightId := ToU8(data[j].value.number);
            break;
          }
          assert data[j..][1..] == data[j + 1..];
          j := j + 1;
        }
        break;
      }
      assert children[i..][1..] == children[i + 1..];
      i := i + 1;
    }
  }

  // ---------------------------------------------------------------------------
  // Routing
  // ---------------------------------------------------------------------------

  /** The text lwjson hands back has an object at its root. */
  predicate IsObject(root: Option<Token>) {
    root.Some? && root.value.value.Obj?
  }

  /** Every id member of an object root fits msgId; the C overruns msgId otherwise. */
  predicate RootIdsFit(root: Option<Token>) {
    IsObject(root) ==> IdsFit(root.value.value.children)
  }

  /** The valid-command test: type, topic and action present, and type a prefix of "cmd". */
  predicate IsCommand(env: Envelope) {
    env.msgType.Some? && env.topic.Some? && env.action.Some? && PrefixOf(env.msgType.value, "cmd")
  }

  predicate IsPing(env: Envelope) {
    IsCommand(env) && env.topic.value == "system" && env.action.value == "ping"
  }

  predicate IsLightGet(env: Envelope) {
    IsCommand(env) && env.topic.value == "light" && env.action.value == "get"
  }

  predicate IsLightGetAll(env: Envelope) {
    IsCommand(env) && env.topic.value == "light" && env.action.value == "get_all"
  }

  /**
   * COMMS_SendLightIntensityResponse's text over the coordinator's cache:
   * light 0 is every light, lights 1 to 3 are one light, any other id fails.
   */
  function LightIntensityResponse(msgId: string, lightId: u8, cache: seq<u8>): (r: string)
    requires |cache| == LIGHT_COUNT
    ensures Echoes(r, msgId) && EndsWithCrLf(r)
    ensures |msgId| < MSG_ID_SIZE ==> |r| < TX_BUFFER_SIZE
    ensures lightId == 0 ==> r == LightGetAllResponse(msgId, cache[0], cache[1], cache[2])
    ensures 1 <= lightId <= LIGHT_COUNT ==> r == LightGetResponse(msgId, lightId, cache[lightId - 1])
    ensures lightId > LIGHT_COUNT ==> r == LightErrorResponse(msgId, "get")
  {
    if lightId == 0 then LightGetAllResponse(msgId, cache[0], cache[1], cache[2])
    else if lightId <= LIGHT_COUNT then LightGetResponse(msgId, lightId, cache[lightId - 1])
    else LightErrorResponse(msgId, "get")
  }

  /** What COMMS_ProcessJsonCommand sends for a parsed message, given the coordinator's cache. */
  function Respond(root: Option<Token>, cache: seq<u8>): (r: Option<string>)
    requires |cache| == LIGHT_COUNT && RootIdsFit(root)
    ensures r.Some? <==> IsObject(root) && var env := EnvelopeOf(root.value.value.children);
                           IsPing(env) || IsLightGet(env) || IsLightGetAll(env)
    ensures r.Some? ==> var env := EnvelopeOf(root.value.value.children);
                        Echoes(r.value, env.msgId) && EndsWithCrLf(r.value) && |r.value| < TX_BUFFER_SIZE
    ensures IsObject(root) && IsPing(EnvelopeOf(root.value.value.children)) ==>
              r == Some(PingResponse(EnvelopeOf(root.value.value.children).msgId))
    ensures IsObject(root) && IsLightGetAll(EnvelopeOf(root.value.value.children)) ==>
              r == Some(LightIntensityResponse(EnvelopeOf(root.value.value.children).msgId, 0, cache))
    ensures IsObject(root) && IsLightGet(EnvelopeOf(root.value.value.children)) ==>
              var children := root.value.value.children;
              r == Some(LightIntensityResponse(EnvelopeOf(children).msgId, LightIdOf(children), cache))
  {
    if !IsObject(root) then None
    else
      var children := root.value.value.children;
      var env := EnvelopeOf(children);
      if IsPing(env) then Some(PingResponse(env.msgId))
      else if IsLightGet(env) then Some(LightIntensityResponse(env.msgId, LightIdOf(children), cache))
      else if IsLightGetAll(env) then Some(LightIntensityResponse(env.msgId, 0, cache))
      else None
  }

  /** A light/get command whose root has no data object is answered with every light's intensity. */
  lemma GetWithoutDataReportsAll(root: Option<Token>, cache: seq<u8>)
    requires |cache| == LIGHT_COUNT && RootIdsFit(root) && IsObject(root)
    requires IsLightGet(EnvelopeOf(root.value.value.children))
    requires forall j :: 0 <= j < |root.value.value.children| ==> !IsDataObject(root.value.value.children[j])
    ensures Respond(root, cache) == Some(LightGetAllResponse(EnvelopeOf(root.value.value.children).msgId, cache[0], cache[1], cache[2]))
  {
    NoDataObjectIsZero(root.value.value.children);
  }

  /** The serial output of one send: the response, if there is one. */
  function Sent(r: Option<string>): seq<string> {
    if r.Some? then [r.value] else []
  }

  // ---------------------------------------------------------------------------
  // Receive accumulation
  // ---------------------------------------------------------------------------

  predicate IsTerminator(byte: u8) {
    byte == LINE_FEED || byte == CARRIAGE_RETURN
  }

  /** The C string at the start of a buffer: the bytes before the first NUL. */
  function UntilNul(bytes: seq<u8>): (r: seq<u8>)
    ensures |r| <= |bytes| && r == bytes[..|r|]
    ensures forall i :: 0 <= i < |r| ==> r[i] != 0
    ensures |r| < |bytes| ==> bytes[|r|] == 0
    decreases |bytes|
  {
    if bytes == [] || bytes[0] == 0 then []
    else [bytes[0]] + UntilNul(bytes[1..])
  }

  /** rxBuffer and rxIndex. */
  datatype RxState = RxState(buffer: seq<u8>, index: nat)

  predicate Fits(s: RxState) {
    |s.buffer| == RX_BUFFER_SIZE && s.index < RX_BUFFER_SIZE
  }

  /** The new state after one received byte, and the message handed to the command processor, if any. */
  datatype RxResult = RxResult(state: RxState, message: Option<seq<u8>>)

  /** COMMS_SerialRxCallback on values. */
  function RxStep(s: RxState, byte: u8): (r: RxResult)
    requires Fits(s)
    ensures Fits(r.state)
    ensures r.message.Some? <==> IsTerminator(byte)
    ensures IsTerminator(byte) ==> r.state.index == 0
    ensures !IsTerminator(byte) && s.index < RX_BUFFER_SIZE - 1 ==>
              r.state == RxState(s.buffer[s.index := byte], s.index + 1)
    ensures !IsTerminator(byte) && s.index == RX_BUFFER_SIZE - 1 ==> r.state == s
    ensures r.message.Some? ==> 0 < |r.message.value| < RX_BUFFER_SIZE || (s.buffer[0] == 0 && s.index > 0)
    ensures r.message.Some? && s.index < RX_BUFFER_SIZE - 1 ==>
              r.message.value == UntilNul(s.buffer[..s.index] + [byte])
    ensures r.message.Some? && s.index == RX_BUFFER_SIZE - 1 ==>
              r.message.value == UntilNul(s.buffer[..s.index])
  {
    var stored := if s.index < RX_BUFFER_SIZE - 1 then RxState(s.buffer[s.index := byte], s.index + 1) else s;
    if IsTerminator(byte) then
      var buffer := stored.buffer[stored.index := 0];
      assert buffer[..stored.index] == stored.buffer[..stored.index];
      assert s.index < RX_BUFFER_SIZE - 1 ==> stored.buffer[..stored.index] == s.buffer[..s.index] + [byte];
      RxResult(RxState(buffer, 0), if stored.index > 0 then Some(UntilNul(buffer[..stored.index])) else None)
    else
      RxResult(stored, None)
  }

  /** A sequence of received bytes: the state they leave and every message they deliver, in order. */
  datatype Fed = Fed(state: RxState, messages: seq<seq<u8>>)

  function Feed(s: RxState, bytes: seq<u8>): (r: Fed)
    requires Fits(s)
    ensures Fits(r.state)
    decreases |bytes|
  {
    if bytes == [] then Fed(s, [])
    else
      var prev := Feed(s, bytes[..|bytes| - 1]);
      var step := RxStep(prev.state, bytes[|bytes| - 1]);
      Fed(step.state, prev.messages + (if step.message.Some? then [step.message.value] else []))
  }

  function Min(a: int, b: int): int {
    if a < b then a else b
  }

  /** Bytes that are not terminators collect at the front of the buffer, up to 255 of them; the rest are dropped. */
  lemma {:induction false} Accumulates(s: RxState, line: seq<u8>)
    requires Fits(s) && s.index == 0
    requires forall i :: 0 <= i < |line| ==> !IsTerminator(line[i])
    ensures var r := Feed(s, line);
            && r.messages == []
            && r.state.index == Min(|line|, RX_BUFFER_SIZE - 1)
            && r.state.buffer[..r.state.index] == line[..r.state.index]
    decreases |line|
  {
    if line != [] {
      var init := line[..|line| - 1];
      Accumulates(s, init);
      var prev := Feed(s, init);
      if prev.state.index < RX_BUFFER_SIZE - 1 {
        assert prev.state.index == |init|;
        assert Feed(s, line).state.buffer == prev.state.buffer[|init| := line[|init|]];
        assert Feed(s, line).state.buffer[..|line|] == prev.state.buffer[..|init|] + [line[|init|]];
      }
    }
  }

  /** A C string without NUL runs to the end of its bytes. */
  lemma NulFree(bytes: seq<u8>)
    requires forall i :: 0 <= i < |bytes| ==> bytes[i] != 0
    ensures UntilNul(bytes) == bytes
  {
  }

  /** Feeding one more byte is one more RxStep. */
  lemma FeedOneMore(s: RxState, bytes: seq<u8>, b: u8)
    requires Fits(s)
    ensures var prev := Feed(s, bytes);
            var step := RxStep(prev.state, b);
            Feed(s, bytes + [b]) == Fed(step.state, prev.messages + (if step.message.Some? then [step.message.value] else []))
  {
    assert (bytes + [b])[..|bytes|] == bytes;
  }

  /**
   * A line of at most 254 bytes without NUL, followed by a terminator, is delivered as one message
   * that keeps the terminator; a longer line is delivered as its first 255 bytes, without the terminator.
   */
  lemma LineDelivered(s: RxState, line: seq<u8>, t: u8)
    requires Fits(s) && s.index == 0 && IsTerminator(t)
    requires forall i :: 0 <= i < |line| ==> !IsTerminator(line[i]) && line[i] != 0
    ensures Feed(s, line + [t]).state.index == 0
    ensures Feed(s, line + [t]).messages ==
              [if |line| < RX_BUFFER_SIZE - 1 then line + [t] else line[..RX_BUFFER_SIZE - 1]]
  {
    Accumulates(s, line);
    FeedOneMore(s, line, t);
    var prev := Feed(s, line).state;
    var message := RxStep(prev, t).message.value;
    if |line| < RX_BUFFER_SIZE - 1 {
      var expected := prev.buffer[..prev.index] + [t];
      assert expected == line + [t];
      NulFree(expected);
    } else {
      var expected := prev.buffer[..prev.index];
      assert expected == line[..RX_BUFFER_SIZE - 1];
      NulFree(expected);
    }
  }

  /** A line ended by "\r\n" is delivered twice: the line with its "\r", then "\n" on its own. */
  lemma CrLfDeliversTwoMessages(s: RxState, line: seq<u8>)
    requires Fits(s) && s.index == 0 && |line| < RX_BUFFER_SIZE - 1
    requires forall i :: 0 <= i < |line| ==> !IsTerminator(line[i]) && line[i] != 0
    ensures Feed(s, line + [CARRIAGE_RETURN, LINE_FEED]).messages == [line + [CARRIAGE_RETURN], [LINE_FEED]]
  {
    LineDelivered(s, line, CARRIAGE_RETURN);
    FeedOneMore(s, line + [CARRIAGE_RETURN], LINE_FEED);
    assert line + [CARRIAGE_RETURN] + [LINE_FEED] == line + [CARRIAGE_RETURN, LINE_FEED];
    var after := Feed(s, line + [CARRIAGE_RETURN]).state;
    assert RxStep(after, LINE_FEED).message == Some(UntilNul([LINE_FEED]));
    NulFree([LINE_FEED]);
  }

  // ---------------------------------------------------------------------------
  // The handler's state
  // ---------------------------------------------------------------------------

  class Handler {
    const rxBuffer: array<u8>
    var rxIndex: nat
    /** Every text passed to VAL_Serial_Send, in order. */
    var txLog: seq<string>

    ghost predicate Valid()
      reads this
    {
      rxBuffer.Length == RX_BUFFER_SIZE && rxIndex < RX_BUFFER_SIZE
    }

    ghost function Rx(): RxState
      reads this, rxBuffer
    {
      RxState(rxBuffer[..], rxIndex)
    }

    /** The static initialisers: an empty buffer, index 0, nothing sent. */
    constructor ()
      ensures Valid() && fresh(rxBuffer)
      ensures rxIndex == 0 && txLog == []
    {
      rxBuffer := new u8[RX_BUFFER_SIZE](_ => 0);
      rxIndex := 0;
      txLog := [];
    }

    /** COMMS_SendPingResponse: send the pong text. */
    method SendPingResponse(msgId: string)
      modifies this
      ensures txLog == old(txLog) + [PingResponse(msgId)]
      ensures rxIndex == old(rxIndex)
    {
      txLog := txLog + [PingResponse(msgId)];
    }

    /** COMMS_SendLightIntensityResponse: read the coordinator, then send the matching text. */
    method SendLightIntensityResponse(msgId: string, lightId: u8, coord: Coordinator)
      requires coord.Valid()
      modifies this
      ensures txLog == old(txLog) + [LightIntensityResponse(msgId, lightId, coord.cache[..])]
      ensures rxIndex == old(rxIndex)
    {
      var intensities: seq<u8> := [0, 0, 0];
      var status := Error;
      if lightId == 0 {
        status, intensities := coord.GetAllLightIntensities();
      } else if 1 <= lightId <= LIGHT_COUNT {
        var value;
        status, value := coord.GetLightIntensity(lightId, intensities[lightId - 1]);
        intensities := intensities[lightId - 1 := value];
      }
      var text;
      if status == Ok {
        if lightId == 0 {
          text := LightGetAllResponse(msgId, intensities[0], intensities[1], intensities[2]);
        } else {
          text := LightGetResponse(msgId, lightId, intensities[lightId - 1]);
        }
      } else {
        text := LightErrorResponse(msgId, if lightId == 0 then "get_all" else "get");
      }
      txLog := txLog + [text];
    }

    /** COMMS_ProcessJsonCommand: parse the text, validate the envelope and route the command. */
    method ProcessJsonCommand(text: seq<u8>, parse: seq<u8> -> Option<Token>, coord: Coordinator)
      requires coord.Valid() && RootIdsFit(parse(text))
      modifies this
      ensures txLog == old(txLog) + Sent(Respond(parse(text), coord.cache[..]))
      ensures rxIndex == old(rxIndex)
    {
      var root := parse(text);
      if root.None? || !root.value.value.Obj? {
        return;
      }
      var children := root.value.value.children;
      var env := ExtractEnvelope(children);
      if env.msgType.Some? && env.topic.Some? && env.action.Some? && PrefixOf(env.msgType.value, "cmd") {
        if env.topic.value == "system" && env.action.value == "ping" {
          SendPingResponse(env.msgId);
        } else if env.topic.value == "light" {
          if env.action.value == "get" {
            var lightId := FindLightId(children);
            SendLightIntensityResponse(env.msgId, lightId, coord);
          } else if env.action.value == "get_all" {
            SendLightIntensityResponse(env.msgId, 0, coord);
          }
        }
      }
    }

    /** COMMS_SerialRxCallback: store the byte, and on a terminator process the line and start over. */
    method SerialRxCallback(byte: u8, parse: seq<u8> -> Option<Token>, coord: Coordinator)
      requires Valid() && coord.Valid() && coord.cache != rxBuffer
      requires var m := RxStep(Rx(), byte).message; m.Some? ==> RootIdsFit(parse(m.value))
      modifies this, rxBuffer
      ensures Valid()
      ensures Rx() == RxStep(old(Rx()), byte).state
      ensures txLog == old(txLog) + match RxStep(old(Rx()), byte).message
                                    case None => []
                                    case Some(m) => Sent(Respond(parse(m), coord.cache[..]))
    {
      ghost var step := RxStep(Rx(), byte);
      if rxIndex < RX_BUFFER_SIZE - 1 {
        rxBuffer[rxIndex] := byte;
        rxIndex := rxIndex + 1;
      }
      if byte == LINE_FEED || byte == CARRIAGE_RETURN {
        rxBuffer[rxIndex] := 0;
        if rxIndex > 0 {
          var message := UntilNul(rxBuffer[..rxIndex]);
          assert message == step.message.value;
          ProcessJsonCommand(message, parse, coord);
        }
        rxIndex := 0;
      }
    }
  }
}
