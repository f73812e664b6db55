/**
 * The response texts of the command handler. Each response is one JSON object
 * followed by "\r\n", rendered by snprintf into a 256-byte transmit buffer.
 */
module CommsFormat {
  import opened ValStatus

  const TX_BUFFER_SIZE := 256
  /** Size of the buffer that holds the echoed message id, terminator included. */
  const MSG_ID_SIZE := 64

  /** Everything a response holds before the echoed id. */
  const FRAME_HEAD := "{\"type\":\"resp\",\"id\":\""
  /** The characters of a frame other than id, topic, action and data. */
  const FRAME_OVERHEAD := 58

  const CRLF := "\r\n"

  predicate IsDigit(c: char) {
    '0' <= c <= '9'
  }

  predicate EndsWithCrLf(r: string) {
    |r| >= 2 && r[|r| - 2..] == CRLF
  }

  /** The message id appears verbatim right after the head of the frame. */
  predicate Echoes(r: string, msgId: string) {
    |r| >= |FRAME_HEAD| + |msgId| && r[..|FRAME_HEAD|] == FRAME_HEAD && r[|FRAME_HEAD|..|FRAME_HEAD| + |msgId|] == msgId
  }

  function DigitChar(d: nat): (c: char)
    requires d < 10
    ensures IsDigit(c) && c as int - '0' as int == d
  {
    ('0' as int + d) as char
  }

  /** printf's %u: the decimal digits of n, with no leading zero. */
  function Decimal(n: nat): (s: string)
    ensures 1 <= |s|
    ensures forall i :: 0 <= i < |s| ==> IsDigit(s[i])
    ensures |s| > 1 ==> s[0] != '0'
    ensures n < 10 ==> |s| == 1
    ensures n < 100 ==> |s| <= 2
    ensures n < 1000 ==> |s| <= 3
    decreases n
  {
    if n < 10 then [DigitChar(n)] else Decimal(n / 10) + [DigitChar(n % 10)]
  }

  /** The value of a string of decimal digits: the reading a client applies to a %u field. */
  function DigitsValue(s: string): nat
    requires forall i :: 0 <= i < |s| ==> IsDigit(s[i])
    decreases |s|
  {
    if s == [] then 0
    else
      assert IsDigit(s[|s| - 1]);
      DigitsValue(s[..|s| - 1]) * 10 + (s[|s| - 1] as int - '0' as int)
  }

  /** A client reading a %u field gets back the number that was printed. */
  lemma {:induction false} DecimalRoundTrip(n: nat)
    ensures DigitsValue(Decimal(n)) == n
    decreases n
  {
    if n >= 10 {
      DecimalRoundTrip(n / 10);
      var s := Decimal(n);
      assert s[..|s| - 1] == Decimal(n / 10);
    }
  }

  /** The common shape of every response; the C writes it as one format string per response. */
  function Frame(msgId: string, topic: string, action: string, data: string): (r: string)
    ensures |r| == |msgId| + |topic| + |action| + |data| + FRAME_OVERHEAD
    ensures Echoes(r, msgId)
    ensures EndsWithCrLf(r)
  {
    FRAME_HEAD + msgId + "\",\"topic\":\"" + topic + "\",\"action\":\"" + action + "\",\"data\":{" + data + "}}" + CRLF
  }

  /** COMMS_SendPingResponse's text. */
  function PingResponse(msgId: string): (r: string)
    ensures Echoes(r, msgId) && EndsWithCrLf(r)
    ensures |msgId| < MSG_ID_SIZE ==> |r| < TX_BUFFER_SIZE
  {
    Frame(msgId, "system", "ping", "\"status\":\"ok\",\"message\":\"pong\"")
  }

  /** The light/get_all success text: the three intensities in light order. */
  function LightGetAllResponse(msgId: string, a: u8, b: u8, c: u8): (r: string)
    ensures Echoes(r, msgId) && EndsWithCrLf(r)
    ensures |msgId| < MSG_ID_SIZE ==> |r| < TX_BUFFER_SIZE
    ensures var tail := Decimal(a) + ", " + Decimal(b) + ", " + Decimal(c) + "]}}" + CRLF;
            |r| >= |tail| && r[|r| - |tail|..] == tail
  {
    Frame(msgId, "light", "get_all",
      "\"status\":\"ok\",\"intensities\":[" + Decimal(a) + ", " + Decimal(b) + ", " + Decimal(c) + "]")
  }

  /** Where the digits of the light id start in a light/get response, counted from the end of the id. */
  const GET_ID_OFFSET := 60

  /** The light/get success text: the light id and its intensity. */
  function LightGetResponse(msgId: string, lightId: u8, intensity: u8): (r: string)
    ensures Echoes(r, msgId) && EndsWithCrLf(r)
    ensures |msgId| < MSG_ID_SIZE ==> |r| < TX_BUFFER_SIZE
    ensures var at := |FRAME_HEAD| + |msgId| + GET_ID_OFFSET;
            at + |Decimal(lightId)| <= |r| && r[at..at + |Decimal(lightId)|] == Decimal(lightId)
    ensures |r| >= |Decimal(intensity)| + 4 && r[|r| - 4 - |Decimal(intensity)|..|r| - 4] == Decimal(intensity)
  {
    Frame(msgId, "light", "get",
      "\"status\":\"ok\",\"id\":" + Decimal(lightId) + ",\"intensity\":" + Decimal(intensity))
  }

  /** Where the action name starts in a light response, counted from the end of the id. */
  const LIGHT_ACTION_OFFSET := 28

  /** The light error text, naming the action that failed. */
  function LightErrorResponse(msgId: string, action: string): (r: string)
    requires action == "get" || action == "get_all"
    ensures Echoes(r, msgId) && EndsWithCrLf(r)
    ensures |msgId| < MSG_ID_SIZE ==> |r| < TX_BUFFER_SIZE
    ensures var at := |FRAME_HEAD| + |msgId| + LIGHT_ACTION_OFFSET;
            at + |action| < |r| && r[at..at + |action|] == action && r[at + |action|] == '"'
  {
    Frame(msgId, "light", action, "\"status\":\"error\",\"message\":\"Failed to retrieve light intensity\"")
  }
}
