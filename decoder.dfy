/**
 * Turning one stream payload into "content or nothing".
 *
 * Three copies of this logic live in the chat store: `accumulateToMessage`
 * and `processStreamDataCombined` (single-bubble policy) share `DecodePayload`;
 * `processStreamDataWithNewBubbles` (new-bubble policy) is `NewBubble`, which
 * checks markers before it parses and repairs an unclosed quote.
 */
module PayloadDecoder {
  import opened Wrappers
  import opened Text
  import opened JsonValues

  /** The literal the backend prints when its agent starts. */
  const AgentStartMarker := "Agent 'liManus' starting execution"

  /** Top-level members probed, in this order, for the content of a parsed payload. */
  const TopKeys := ["content", "result", "message", "text"]

  /** Members probed inside an object-valued `data`; `accumulateToMessage`
      stops after `message`, the other two decoders also try `text`. */
  function NestedKeys(withText: bool): seq<string> {
    if withText then TopKeys else TopKeys[..3]
  }

  predicate TruthyField(j: Json, key: string)
    requires !j.JNull?
  {
    Get(j, key).Some? && Truthy(Get(j, key).value)
  }

  /** `j.k1 || j.k2 || ...` before the fallback operand: the value of the first
      truthy member among `keys`. */
  function FirstTruthy(j: Json, keys: seq<string>): (r: Option<Json>)
    requires !j.JNull?
    ensures r.None? <==> forall i :: 0 <= i < |keys| ==> !TruthyField(j, keys[i])
    ensures r.Some? ==> Truthy(r.value)
    ensures r.Some? ==> exists i :: 0 <= i < |keys| && Get(j, keys[i]) == Some(r.value)
                          && forall k :: 0 <= k < i ==> !TruthyField(j, keys[k])
    decreases |keys|
  {
    if |keys| == 0 then None
    else if TruthyField(j, keys[0]) then Get(j, keys[0])
    else
      var r := FirstTruthy(j, keys[1..]);
      assert forall i :: 1 <= i < |keys| ==> keys[i] == keys[1..][i - 1];
      r
  }

  /**
   * The key probe on a non-null parsed payload (chat.js 316-333, 678-698,
   * 1118-1135). The result is the value later tested for truthiness;
   * `JStr("")` is the initial `''` left in place when nothing matched.
   */
  function Extract(o: Codec, j: Json, withText: bool): Json
    requires !j.JNull?
  {
    if TruthyField(j, "content") then Get(j, "content").value
    else if TruthyField(j, "result") then Get(j, "result").value
    else if TruthyField(j, "message") then Get(j, "message").value
    else if TruthyField(j, "text") then Get(j, "text").value
    else if TruthyField(j, "data") then
      var d := Get(j, "data").value;
      if d.JStr? then d
      else if d.JObj? || d.JArr? then
        var inner := FirstTruthy(d, NestedKeys(withText));
        if inner.Some? then inner.value else JStr(o.stringify(d))
      else JStr("")
    else if HasKeys(j) then JStr(o.stringify(j))
    else JStr("")
  }

  /** `JSON.parse(data)` followed by a first member read: a parse error throws,
      and so does reading `.content` of `null`; both end in the catch branch. */
  function ParseValue(o: Codec, data: string): (r: Option<Json>)
    ensures r.Some? ==> !r.value.JNull?
  {
    match o.parse(data)
    case Some(j) => if j.JNull? then None else Some(j)
    case None => None
  }

  predicate IsLeadJunk(c: char) { c == '"' || c == '{' || IsSpace(c) }
  predicate IsTrailJunk(c: char) { c == '"' || c == '}' || c == ':' || c == ',' || IsSpace(c) }

  /** `data.replace(/^["{\s]+|["}:,\s]+$/g, '').trim()`. */
  function Clean(data: string): string {
    Trim(StripEnds(data, IsLeadJunk, IsTrailJunk))
  }

  /** The plain-text branch: a blank payload or one that cleans to nothing gives nothing. */
  function Fallback(data: string): Option<string> {
    if Trim(data) != "" then
      var c := Clean(data);
      if c != "" then Some(c) else None
    else None
  }

  /** The single-bubble decoder (`accumulateToMessage` with `withText` false,
      `processStreamDataCombined` with it true): the text to append, if any. */
  function DecodePayload(o: Codec, data: string, withText: bool): Option<string> {
    match ParseValue(o, data)
    case Some(j) =>
      var c := Extract(o, j, withText);
      if Truthy(c) then Some(ToText(c)) else None
    case None => Fallback(data)
  }

  /** What `processStreamDataWithNewBubbles` adds for one payload: nothing, a
      step message or a content message; `prefix` is the id prefix it uses. */
  datatype Bubble =
    | NoBubble
    | StepBubble(prefix: string, content: string)
    | ContentBubble(prefix: string, content: string)

  /** Length of a case-insensitive `event:step|complete|start|end` at the start of `s`, or 0. */
  function EventTagLen(s: string): nat {
    if StartsWithFolded(s, "event:step") then 10
    else if StartsWithFolded(s, "event:complete") then 14
    else if StartsWithFolded(s, "event:start") then 11
    else if StartsWithFolded(s, "event:end") then 9
    else 0
  }

  /** `s` starts with the lower-case ASCII `p`, ignoring the case of ASCII letters
      (the `i` flag of a non-Unicode regular expression on an ASCII pattern). */
  predicate StartsWithFolded(s: string, p: string) {
    |p| <= |s| && forall i :: 0 <= i < |p| ==> LowerAscii(s[i]) == p[i]
  }

  /** `s.replace(/event:(step|complete|start|end)/gi, '')`, scanning left to right. */
  function RemoveEventTags(s: string): (r: string)
    ensures |r| <= |s|
    decreases |s|
  {
    if |s| == 0 then ""
    else
      var n := EventTagLen(s);
      if n > 0 then RemoveEventTags(s[n..]) else [s[0]] + RemoveEventTags(s[1..])
  }

  predicate IsQuoteCommaSpace(c: char) { c == '"' || c == ',' || IsSpace(c) }

  /** Payloads that mention a marker word skip JSON decoding (chat.js 645). */
  predicate MentionsMarker(data: string) {
    Contains(data, "event:") || Contains(data, "step") || Contains(data, "complete") || Contains(data, "Agent")
  }

  /** Parser diagnostics that are dropped rather than shown (chat.js 738). */
  predicate IsParserNoise(data: string) {
    Contains(data, "SyntaxError: Unexpected token") || Contains(data, "SyntaxError: Unexpected end of JSON input")
  }

  /** `processStreamDataWithNewBubbles` (chat.js 603-783) on one payload. */
  function NewBubble(o: Codec, data: string): Bubble {
    if StartsWith(data, "event:") then NoBubble
    else if Contains(data, AgentStartMarker) then StepBubble("agent_start", data)
    else if StartsWith(data, "Step ") || StartsWith(data, "Agent ") then StepBubble("step", data)
    else if MentionsMarker(data) then MarkedBubble(data)
    else DecodedBubble(o, data)
  }

  /** A payload mentioning a marker word: the event tags and the surrounding
      quotes, commas and whitespace are removed (chat.js 645-668). */
  function MarkedBubble(data: string): Bubble {
    var cleaned := Trim(StripEnds(RemoveEventTags(data), IsQuoteCommaSpace, IsQuoteCommaSpace));
    if cleaned != "" then StepBubble("step_info", cleaned) else NoBubble
  }

  /** Any other payload: JSON content, a repaired unclosed string, nothing for
      parser noise, or the cleaned text (chat.js 670-761). */
  function DecodedBubble(o: Codec, data: string): Bubble {
    match ParseValue(o, data)
    case Some(j) =>
      var c := Extract(o, j, true);
      if Truthy(c) then ContentBubble("content", ToText(c)) else NoBubble
    case None => UnparsedBubble(o, data)
  }

  function UnparsedBubble(o: Codec, data: string): Bubble {
    var repaired := if StartsWith(data, "\"") && !EndsWith(data, "\"") then o.parse(data + "\"") else None;
    if repaired.Some? then
      var j := repaired.value;
      ContentBubble("content", if j.JStr? then j.s else o.stringify(j))
    else if IsParserNoise(data) then NoBubble
    else
      match Fallback(data)
      case Some(c) => ContentBubble("text", c)
      case None => NoBubble
  }
}
