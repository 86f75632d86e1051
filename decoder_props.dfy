/** What the payload decoders promise, stated over all inputs. */
module DecoderProperties {
  import opened Wrappers
  import opened Text
  import opened JsonValues
  import opened PayloadDecoder

  lemma {:induction false} LeadLenAll(s: string, p: char -> bool)
    requires forall i :: 0 <= i < |s| ==> p(s[i])
    ensures LeadLen(s, p) == |s|
    decreases |s|
  {
    if |s| > 0 {
      LeadLenAll(s[1..], p);
    }
  }

  /** The trailing `.trim()` of the cleanup never removes anything. */
  lemma CleanIsStrip(s: string)
    ensures Clean(s) == StripEnds(s, IsLeadJunk, IsTrailJunk)
  {
    StripEndsShape(s, IsLeadJunk, IsTrailJunk);
    TrimOfTrimmed(StripEnds(s, IsLeadJunk, IsTrailJunk));
  }

  /**
   * The cleaned text is a piece of the payload that neither starts with a quote,
   * a brace or whitespace nor ends with a quote, brace, colon, comma or
   * whitespace. It is exactly what lies between the maximal leading run of such
   * leading characters and the maximal trailing run of such trailing ones.
   */
  lemma CleanShape(s: string)
    ensures Contains(s, Clean(s))
    ensures var r := Clean(s); |r| > 0 ==> !IsLeadJunk(r[0]) && !IsTrailJunk(r[|r| - 1])
    ensures exists p, q ::
      && 0 <= p <= q <= |s| && Clean(s) == s[p..q]
      && (forall i :: 0 <= i < p ==> IsLeadJunk(s[i])) && (p < |s| ==> !IsLeadJunk(s[p]))
      && (forall i :: q <= i < |s| ==> IsTrailJunk(s[i])) && (p < q ==> !IsTrailJunk(s[q - 1]))
  {
    CleanIsStrip(s);
    StripEndsShape(s, IsLeadJunk, IsTrailJunk);
    var p, q := StripEndsBounds(s, IsLeadJunk, IsTrailJunk);
  }

  /** Cleaning twice is cleaning once. */
  lemma CleanIdempotent(s: string)
    ensures Clean(Clean(s)) == Clean(s)
  {
    CleanIsStrip(s);
    CleanIsStrip(Clean(s));
    StripEndsIdempotent(s, IsLeadJunk, IsTrailJunk);
  }

  /** A blank payload cleans to nothing. */
  lemma BlankCleansToNothing(s: string)
    requires Trim(s) == ""
    ensures Clean(s) == ""
  {
    var p := LeadLen(s, IsSpace);
    var t := s[p..];
    assert |t| == TrailLen(t, IsSpace);
    LeadLenAll(s, IsLeadJunk);
  }

  /** The plain-text branch yields exactly the non-empty cleanups, and what it
      yields is already clean and never ends in a space. */
  lemma FallbackSpec(data: string)
    ensures Fallback(data).Some? <==> Clean(data) != ""
    ensures Fallback(data).Some? ==> Fallback(data).value == Clean(data)
    ensures Fallback(data).Some? ==> Clean(Fallback(data).value) == Fallback(data).value
    ensures Fallback(data).Some? ==> !EndsWith(Fallback(data).value, " ")
  {
    if Trim(data) == "" {
      BlankCleansToNothing(data);
    }
    CleanIdempotent(data);
    CleanShape(data);
    var r := Clean(data);
    assert |r| > 0 ==> r[|r| - 1..][0] == r[|r| - 1];
  }

  /**
   * The whole probe order. The first truthy member among content, result,
   * message and text wins. Failing those, a truthy `data` decides: a string is
   * taken as it is, an object or array is probed again on the nested keys with
   * its serialisation as the last resort, and a number or boolean leaves the
   * initial `''`. Without a truthy `data`, a value with keys is serialised
   * whole, and anything else leaves `''`.
   */
  lemma ExtractFollowsProbeOrder(o: Codec, j: Json, withText: bool)
    requires !j.JNull?
    ensures FirstTruthy(j, TopKeys).Some? ==> Extract(o, j, withText) == FirstTruthy(j, TopKeys).value
    ensures FirstTruthy(j, TopKeys).None? && TruthyField(j, "data") ==>
      var d := Get(j, "data").value;
      && (d.JStr? ==> Extract(o, j, withText) == d)
      && (d.JObj? || d.JArr? ==>
            Extract(o, j, withText) ==
              if FirstTruthy(d, NestedKeys(withText)).Some? then FirstTruthy(d, NestedKeys(withText)).value
              else JStr(o.stringify(d)))
      && (d.JNum? || d.JBool? ==> Extract(o, j, withText) == JStr(""))
    ensures FirstTruthy(j, TopKeys).None? && !TruthyField(j, "data") ==>
      Extract(o, j, withText) == if HasKeys(j) then JStr(o.stringify(j)) else JStr("")
  {
    var ks := TopKeys;
    assert ks[1..] == ["result", "message", "text"];
    assert ks[1..][1..] == ["message", "text"];
    assert ks[1..][1..][1..] == ["text"];
    assert ks[1..][1..][1..][1..] == [];
    if FirstTruthy(j, ks).None? {
      assert !TruthyField(j, ks[0]) && !TruthyField(j, ks[1]) && !TruthyField(j, ks[2]) && !TruthyField(j, ks[3]);
    }
  }

  /** A parsed payload appends (or shows) something exactly when its probed value
      is truthy, and then it is that value's text: empty content adds nothing. */
  lemma DecodeParsedPayload(o: Codec, data: string, j: Json, withText: bool)
    requires ParseValue(o, data) == Some(j)
    ensures DecodePayload(o, data, withText).None? <==> !Truthy(Extract(o, j, withText))
    ensures Truthy(Extract(o, j, withText)) ==> DecodePayload(o, data, withText) == Some(ToText(Extract(o, j, withText)))
  {
  }

  /**
   * On a non-empty object the probe yields a truthy value (so something is
   * appended or a bubble is made) in every case but one: no probed member is
   * truthy and `data` is a truthy number or boolean, which leaves the content
   * empty.
   */
  lemma ExtractTruthyOnObjects(o: Codec, j: Json, withText: bool)
    requires StringifyNonEmpty(o)
    requires j.JObj? && |j.fields| > 0
    ensures Truthy(Extract(o, j, withText)) <==>
      !(FirstTruthy(j, TopKeys).None? && TruthyField(j, "data")
        && (Get(j, "data").value.JNum? || Get(j, "data").value.JBool?))
  {
    var s := o.stringify(j);
    assert s != "";
    ExtractFollowsProbeOrder(o, j, withText);
    if TruthyField(j, "data") {
      var d := Get(j, "data").value;
      var sd := o.stringify(d);
      assert sd != "";
    }
  }

  /** A payload that parses to a non-empty JSON string has keys (one per
      character), so it is serialised again, quotes included. */
  lemma ParsedStringIsRestringified(o: Codec, data: string, s: string, withText: bool)
    requires StringifyNonEmpty(o)
    requires o.parse(data) == Some(JStr(s)) && s != ""
    ensures DecodePayload(o, data, withText) == Some(o.stringify(JStr(s)))
  {
    var t := o.stringify(JStr(s));
    assert t != "";
  }

  /** A payload that parses to `null` throws on `.content` and is decoded as plain text. */
  lemma ParsedNullFallsBack(o: Codec, data: string, withText: bool)
    requires o.parse(data) == Some(JNull)
    ensures DecodePayload(o, data, withText) == Fallback(data)
  {
  }

  /** Serialising `{"content": c}` and decoding it gives `c` back. */
  lemma ContentRoundTrip(o: Codec, c: string, withText: bool)
    requires c != ""
    requires var obj := JObj([Field("content", JStr(c))]); o.parse(o.stringify(obj)) == Some(obj)
    ensures DecodePayload(o, o.stringify(JObj([Field("content", JStr(c))])), withText) == Some(c)
  {
    var obj := JObj([Field("content", JStr(c))]);
    assert Lookup(obj.fields, "content") == Some(JStr(c));
  }

  /** A text lacking one of the characters of `sub` does not contain `sub`. */
  lemma {:induction false} MissingCharNotContained(s: string, sub: string, k: nat)
    requires k < |sub| && sub[k] !in s
    ensures !Contains(s, sub)
    decreases |s|
  {
    if |s| >= |sub| {
      assert s[..|sub|][k] == s[k] && s[k] in s;
      MissingCharNotContained(s[1..], sub, k);
    }
  }

  /** A text that mentions the agent-start marker mentions "Agent". */
  lemma MarkerMentionsAgent(data: string)
    requires Contains(data, AgentStartMarker)
    ensures Contains(data, "Agent")
  {
    var i := ContainsWitness(data, AgentStartMarker);
    assert data[i..i + 5] == data[i..i + |AgentStartMarker|][..5];
    ContainsAt(data, "Agent", i);
  }

  /**
   * Fixed order of the new-bubble decoder: an `event:` payload makes nothing;
   * the agent-start marker, then a `Step `/`Agent ` prefix, make a step message
   * holding the payload verbatim.
   */
  lemma NewBubbleMarkers(o: Codec, data: string)
    ensures StartsWith(data, "event:") ==> NewBubble(o, data) == NoBubble
    ensures !StartsWith(data, "event:") && Contains(data, AgentStartMarker) ==>
      NewBubble(o, data) == StepBubble("agent_start", data)
    ensures !StartsWith(data, "event:") && !Contains(data, AgentStartMarker)
      && (StartsWith(data, "Step ") || StartsWith(data, "Agent "))
      ==> NewBubble(o, data) == StepBubble("step", data)
  {
  }

  /** A text in which no event tag starts anywhere keeps every character. */
  lemma {:induction false} RemoveEventTagsKeepsUntagged(s: string)
    requires forall i :: 0 <= i < |s| ==> EventTagLen(s[i..]) == 0
    ensures RemoveEventTags(s) == s
    decreases |s|
  {
    if |s| > 0 {
      assert EventTagLen(s[0..]) == 0;
      forall i | 0 <= i < |s[1..]| ensures EventTagLen(s[1..][i..]) == 0 {
        assert s[1..][i..] == s[i + 1..];
      }
      RemoveEventTagsKeepsUntagged(s[1..]);
    }
  }

  /** A tag at the very start is dropped, whatever its letter case. */
  lemma RemoveEventTagsDropsLeadingTag(s: string)
    requires StartsWithFolded(s, "event:step")
    ensures RemoveEventTags(s) == RemoveEventTags(s[10..])
  {
  }

  /**
   * The marker branch (chat.js 645-668) adds at most one step message. Its text
   * is a non-empty piece of the payload with the event tags removed, and it
   * neither starts nor ends with a quote, a comma or whitespace. Nothing is
   * added exactly when the payload is only tags, quotes, commas and whitespace.
   */
  lemma MarkedBubbleShape(data: string)
    ensures var t := RemoveEventTags(data);
      var b := MarkedBubble(data);
      && (b == NoBubble || (b.StepBubble? && b.prefix == "step_info"))
      && (b.StepBubble? ==>
            && |b.content| > 0 && Contains(t, b.content)
            && !IsQuoteCommaSpace(b.content[0]) && !IsQuoteCommaSpace(b.content[|b.content| - 1]))
      && (b == NoBubble <==> forall i :: 0 <= i < |t| ==> IsQuoteCommaSpace(t[i]))
  {
    var t := RemoveEventTags(data);
    var u := StripEnds(t, IsQuoteCommaSpace, IsQuoteCommaSpace);
    StripEndsShape(t, IsQuoteCommaSpace, IsQuoteCommaSpace);
    TrimOfTrimmed(u);
    StripEndsAll(t, IsQuoteCommaSpace);
  }

  /** Which piece the marker branch keeps: the tag-stripped payload between its
      maximal leading and maximal trailing runs of quotes, commas and whitespace. */
  lemma MarkedBubblePiece(data: string)
    ensures var t := RemoveEventTags(data);
      var b := MarkedBubble(data);
      b.StepBubble? ==> exists p, q ::
        && 0 <= p < q <= |t| && b.content == t[p..q]
        && (forall i :: 0 <= i < p ==> IsQuoteCommaSpace(t[i])) && !IsQuoteCommaSpace(t[p])
        && (forall i :: q <= i < |t| ==> IsQuoteCommaSpace(t[i])) && !IsQuoteCommaSpace(t[q - 1])
  {
    var t := RemoveEventTags(data);
    MarkedBubbleIsStrip(data);
    var p, q := StripEndsBounds(t, IsQuoteCommaSpace, IsQuoteCommaSpace);
  }

  /** The final `.trim()` of the marker branch never removes anything. */
  lemma MarkedBubbleIsStrip(data: string)
    ensures var u := StripEnds(RemoveEventTags(data), IsQuoteCommaSpace, IsQuoteCommaSpace);
      MarkedBubble(data) == if u != "" then StepBubble("step_info", u) else NoBubble
  {
    var u := StripEnds(RemoveEventTags(data), IsQuoteCommaSpace, IsQuoteCommaSpace);
    StripEndsShape(RemoveEventTags(data), IsQuoteCommaSpace, IsQuoteCommaSpace);
    TrimOfTrimmed(u);
  }

  /**
   * A payload that opens a quote and never closes it, and that parses once a
   * closing quote is added, becomes one content message holding the string.
   */
  lemma UnclosedQuoteRepaired(o: Codec, data: string, s: string)
    requires StartsWith(data, "\"") && !EndsWith(data, "\"")
    requires ParseValue(o, data).None?
    requires o.parse(data + "\"") == Some(JStr(s))
    requires !MentionsMarker(data)
    ensures NewBubble(o, data) == ContentBubble("content", s)
  {
    if Contains(data, AgentStartMarker) {
      MarkerMentionsAgent(data);
    }
    assert data[0] == '"';
  }

  /** `"hello` becomes the content message `hello`. */
  lemma UnclosedQuoteExample(o: Codec)
    requires o.parse("\"hello") == None
    requires o.parse("\"hello\"") == Some(JStr("hello"))
    ensures NewBubble(o, "\"hello") == ContentBubble("content", "hello")
  {
    var d := "\"hello";
    MissingCharNotContained(d, "event:", 5);
    MissingCharNotContained(d, "step", 0);
    MissingCharNotContained(d, "complete", 0);
    MissingCharNotContained(d, "Agent", 0);
    assert !MentionsMarker(d);
    assert StartsWith(d, "\"") && !EndsWith(d, "\"") by { assert d[..1] == "\"" && d[|d| - 1..] == "o"; }
    assert d + "\"" == "\"hello\"";
    UnclosedQuoteRepaired(o, d, "hello");
  }

  /** Under the single-bubble policy the same payload is only cleaned: the
      leading quote goes and `hello` is appended. */
  lemma UnclosedQuoteSingleBubble(o: Codec, withText: bool)
    requires o.parse("\"hello") == None
    ensures DecodePayload(o, "\"hello", withText) == Some("hello")
  {
    var d := "\"hello";
    var h := "hello";
    assert d[0] == '"' && d[1..] == h && d[|d| - 1] == 'o';
    assert LeadLen(d, IsLeadJunk) == 1 by {
      assert IsLeadJunk(d[0]) && !IsLeadJunk(d[1]);
    }
    assert TrailLen(h, IsTrailJunk) == 0 by {
      assert !IsTrailJunk(h[|h| - 1]);
    }
    assert h[..|h|] == h;
    CleanIsStrip(d);
    assert Clean(d) == h;
    FallbackSpec(d);
  }

  /**
   * Parser diagnostics never reach the chat as content: a payload that does not
   * parse, cannot be repaired and carries a `SyntaxError` description yields
   * nothing, unless it also mentions a marker word or starts with `Step `, in
   * which case it is a step message.
   */
  lemma NoiseNeverBecomesContent(o: Codec, data: string)
    requires IsParserNoise(data)
    requires ParseValue(o, data).None?
    requires !(StartsWith(data, "\"") && !EndsWith(data, "\"") && o.parse(data + "\"").Some?)
    ensures !NewBubble(o, data).ContentBubble?
    ensures !MentionsMarker(data) && !StartsWith(data, "Step ") ==> NewBubble(o, data) == NoBubble
  {
    StartsWithPrefix(data, "Agent ", "Agent");
    if Contains(data, AgentStartMarker) {
      MarkerMentionsAgent(data);
    }
  }

  /** Every content or step message the new-bubble decoder makes from the
      plain-text branch is non-empty and already clean. */
  lemma NewBubbleTextIsClean(o: Codec, data: string)
    ensures NewBubble(o, data).ContentBubble? && NewBubble(o, data).prefix == "text" ==>
      NewBubble(o, data).content != "" && Clean(NewBubble(o, data).content) == NewBubble(o, data).content
  {
    FallbackSpec(data);
    var b := NewBubble(o, data);
    if b.ContentBubble? && b.prefix == "text" {
      assert b == DecodedBubble(o, data) || b == MarkedBubble(data);
      assert !MarkedBubble(data).ContentBubble?;
      assert b == UnparsedBubble(o, data);
    }
  }
}
