/**
 * How the AI service turns whatever the agent returned into the reply
 * text: a string as it is, else a string `text` or `content` property,
 * else the last message's content, else the JSON serialisation.
 */
module ResponseText {
  import opened Js

  /** The reply: text found in the response, or the response serialised
      with JSON.stringify (which is not part of this model). */
  datatype Extracted = Text(s: string) | Serialized(response: JsValue)

  /** What the inspection of the response ends in: text found, nothing
      found, or a TypeError (`in` applied to a primitive). */
  datatype Probe = Found(text: string) | NotFound | Threw

  /** `content.map(item => typeof item === 'string' ? item : '').join('')`. */
  function ConcatStrings(items: seq<JsValue>): string
    decreases |items|
  {
    if items == [] then "" else (if items[0].Str? then items[0].s else "") + ConcatStrings(items[1..])
  }

  /** Concatenation distributes over joined arrays. */
  lemma {:induction false} ConcatStringsAppend(a: seq<JsValue>, b: seq<JsValue>)
    ensures ConcatStrings(a + b) == ConcatStrings(a) + ConcatStrings(b)
    decreases |a|
  {
    if a == [] {
      assert a + b == b;
    } else {
      assert (a + b)[1..] == a[1..] + b;
      ConcatStringsAppend(a[1..], b);
    }
  }

  /** Only the string items count, each once, in order: dropping the
      others changes nothing. */
  lemma {:induction false} ConcatStringsIgnoresOthers(items: seq<JsValue>, k: nat)
    requires k < |items| && !items[k].Str?
    ensures ConcatStrings(items[..k] + items[k + 1..]) == ConcatStrings(items)
  {
    assert items == items[..k] + ([items[k]] + items[k + 1..]);
    ConcatStringsAppend(items[..k], [items[k]] + items[k + 1..]);
    ConcatStringsAppend(items[..k], items[k + 1..]);
    assert ([items[k]] + items[k + 1..])[1..] == items[k + 1..];
  }

  /** An array of strings concatenates to their join with ''. */
  lemma {:induction false} ConcatStringsOfStrings(strings: seq<string>)
    ensures ConcatStrings(seq(|strings|, i requires 0 <= i < |strings| => Str(strings[i]))) == Join(strings, "")
    decreases |strings|
  {
    var items := seq(|strings|, i requires 0 <= i < |strings| => Str(strings[i]));
    if |strings| > 0 {
      ConcatStringsOfStrings(strings[1..]);
      assert items[1..] == seq(|strings[1..]|, i requires 0 <= i < |strings[1..]| => Str(strings[1..][i]));
      if |strings| == 1 {
        assert items[1..] == [];
      }
    }
  }

  /** The last message's content, once `messages` is a non-empty array. */
  function LastMessageText(last: JsValue): (p: Probe)
    ensures p.Threw? <==> !IsObjectType(last)
  {
    if !IsObjectType(last) then Threw
    else if !Has(last, "content") then NotFound
    else
      var content := Get(last, "content");
      if content.Str? then Found(content.s)
      else if content.Array? then Found(ConcatStrings(content.items))
      else NotFound
  }

  /** The body of the `try`. */
  function Inspect(response: JsValue): Probe {
    if response.Str? then Found(response.s)
    else if !IsObjectType(response) then Threw
    else if Has(response, "text") && Get(response, "text").Str? then Found(Get(response, "text").s)
    else if Has(response, "content") && Get(response, "content").Str? then Found(Get(response, "content").s)
    else if Has(response, "messages") && Get(response, "messages").Array? && |Get(response, "messages").items| > 0 then
      var messages := Get(response, "messages").items;
      LastMessageText(messages[|messages| - 1])
    else NotFound
  }

  /** extractResponseText: the found text, or the serialisation both when
      nothing was found and when the inspection threw. */
  function ExtractResponseText(response: JsValue): (r: Extracted)
    ensures r.Serialized? ==> r.response == response
    ensures r.Text? <==> Inspect(response).Found?
  {
    match Inspect(response)
    case Found(t) => Text(t)
    case _ => Serialized(response)
  }

  /** A string comes back unchanged. */
  lemma StringUnchanged(s: string)
    ensures ExtractResponseText(Str(s)) == Text(s)
  {
  }

  /** A string `text` property wins over everything else. */
  lemma TextWins(props: map<string, JsValue>)
    requires "text" in props && props["text"].Str?
    ensures ExtractResponseText(Object(props)) == Text(props["text"].s)
  {
  }

  /** Without a string `text`, a string `content` is used. */
  lemma ContentNext(props: map<string, JsValue>)
    requires !("text" in props && props["text"].Str?)
    requires "content" in props && props["content"].Str?
    ensures ExtractResponseText(Object(props)) == Text(props["content"].s)
  {
  }

  /** What decides once neither `text` nor `content` is a string: the last
      message's string content, or its array content's strings joined. */
  lemma LastMessageDecides(props: map<string, JsValue>)
    requires !("text" in props && props["text"].Str?)
    requires !("content" in props && props["content"].Str?)
    ensures var r := ExtractResponseText(Object(props));
      && ("messages" in props && props["messages"].Array? && |props["messages"].items| > 0 ==>
            var last := props["messages"].items[|props["messages"].items| - 1];
            && (last.Object? && "content" in last.props && last.props["content"].Str? ==>
                  r == Text(last.props["content"].s))
            && (last.Object? && "content" in last.props && last.props["content"].Array? ==>
                  r == Text(ConcatStrings(last.props["content"].items)))
            && (!(last.Object? && "content" in last.props && (last.props["content"].Str? || last.props["content"].Array?)) ==>
                  r == Serialized(Object(props))))
      && (!("messages" in props && props["messages"].Array? && |props["messages"].items| > 0) ==>
            r == Serialized(Object(props)))
  {
  }

  /** Every value that is neither a string nor object-typed makes the `in`
      test throw, and the catch serialises it. */
  lemma PrimitivesSerialized(response: JsValue)
    requires !response.Str? && !IsObjectType(response)
    ensures Inspect(response) == Threw
    ensures ExtractResponseText(response) == Serialized(response)
  {
  }

  /** An array as response has no named properties: it is serialised. */
  lemma ArraySerialized(items: seq<JsValue>)
    ensures ExtractResponseText(Array(items)) == Serialized(Array(items))
  {
  }

  /** A non-object last message makes the `in` test throw; the caller
      still receives the serialisation. */
  lemma PrimitiveLastMessageSerialized(props: map<string, JsValue>, earlier: seq<JsValue>, last: JsValue)
    requires props == map["messages" := Array(earlier + [last])]
    requires !IsObjectType(last)
    ensures Inspect(Object(props)) == Threw
    ensures ExtractResponseText(Object(props)) == Serialized(Object(props))
  {
    assert Get(Object(props), "messages").items[|earlier + [last]| - 1] == last;
  }
}
