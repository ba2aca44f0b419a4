/**
 * Chat-message helpers of the proxy (proxy/api.py): flattening chat
 * messages into a completion prompt, and replacing missing or null message
 * content by the empty string.  Each helper is a loop in the source and a
 * method here, proved equal to a specification function about which the
 * properties are stated.
 */
module ProxyMessages {
  import opened Wrappers
  import opened PyText
  import opened JsonModel

  // ---------------------------------------------------------------------
  // Flattening messages into a prompt
  // ---------------------------------------------------------------------

  /** A content item contributes its `text` when it is a dict whose `text` is a string. */
  predicate IsTextItem(item: Json) {
    item.Obj? && Get(item, "text").Str?
  }

  /** The texts of the text items of a list-valued content, in order. */
  function TextParts(items: seq<Json>): seq<string>
  {
    if items == [] then []
    else
      var last := items[|items| - 1];
      TextParts(items[..|items| - 1]) + (if IsTextItem(last) then [Get(last, "text").s] else [])
  }

  /** The text of a message's content: list items joined by newlines, a string as is, anything else "". */
  function ContentText(content: Json): string
  {
    match content
    case Arr(items) => Join(TextParts(items), "\n")
    case Str(s) => s
    case _ => ""
  }

  /** The prompt line one dict message contributes. */
  function MessagePart(fields: seq<(string, Json)>): string
  {
    var role := GetOr(fields, "role", Null);
    var text := ContentText(GetOr(fields, "content", Str("")));
    if Truthy(role) then Strip(PyStr(role) + ": " + text) else text
  }

  /** The part of every dict message, in order; other entries are skipped. */
  function Parts(messages: seq<Json>): seq<string>
  {
    if messages == [] then []
    else
      var last := messages[|messages| - 1];
      Parts(messages[..|messages| - 1]) + (if last.Obj? then [MessagePart(last.fields)] else [])
  }

  /** `[p for p in parts if p]` */
  function NonEmpty(parts: seq<string>): (r: seq<string>)
    ensures forall p :: p in r ==> p != ""
  {
    if parts == [] then []
    else NonEmpty(parts[..|parts| - 1]) + (if parts[|parts| - 1] != "" then [parts[|parts| - 1]] else [])
  }

  /** What `_messages_to_prompt` returns. */
  function PromptOf(messages: Json): string
  {
    if messages.Arr? then Join(NonEmpty(Parts(messages.items)), "\n") else ""
  }

  /** The content handling inside `_messages_to_prompt`'s loop. */
  method ContentToText(content: Json) returns (text: string)
    ensures text == ContentText(content)
  {
    if content.Arr? {
      var textParts: seq<string> := [];
      var j := 0;
      while j < |content.items|
        invariant 0 <= j <= |content.items|
        invariant textParts == TextParts(content.items[..j])
      {
        var item := content.items[j];
        assert content.items[..j + 1][..j] == content.items[..j];
        if item.Obj? && Get(item, "text").Str? {
          textParts := textParts + [Get(item, "text").s];
        }
        j := j + 1;
      }
      assert content.items[..j] == content.items;
      text := Join(textParts, "\n");
    } else {
      text := if content.Str? then content.s else "";
    }
  }

  /** `_messages_to_prompt` */
  method MessagesToPrompt(messages: Json) returns (prompt: string)
    ensures prompt == PromptOf(messages)
  {
    if !messages.Arr? {
      return "";
    }
    var items := messages.items;
    var parts: seq<string> := [];
    var i := 0;
    while i < |items|
      invariant 0 <= i <= |items|
      invariant parts == Parts(items[..i])
    {
      var message := items[i];
      assert items[..i + 1][..i] == items[..i];
      if message.Obj? {
        var role := GetOr(message.fields, "role", Null);
        var contentText := ContentToText(GetOr(message.fields, "content", Str("")));
        if Truthy(role) {
          parts := parts + [Strip(PyStr(role) + ": " + contentText)];
        } else {
          parts := parts + [contentText];
        }
      }
      i := i + 1;
    }
    assert items[..i] == items;
    prompt := Join(NonEmpty(parts), "\n");
  }

  /** Two prompt pieces glued by a newline; an empty piece adds nothing. */
  function Glue(x: string, y: string): string {
    if x == "" then y else if y == "" then x else x + "\n" + y
  }

  lemma {:induction false} PartsAppend(a: seq<Json>, b: seq<Json>)
    ensures Parts(a + b) == Parts(a) + Parts(b)
  {
    if b == [] {
      assert a + b == a;
    } else {
      var n := |b|;
      assert (a + b)[..|a + b| - 1] == a + b[..n - 1];
      assert (a + b)[|a + b| - 1] == b[n - 1];
      PartsAppend(a, b[..n - 1]);
    }
  }

  lemma {:induction false} NonEmptyAppend(p: seq<string>, q: seq<string>)
    ensures NonEmpty(p + q) == NonEmpty(p) + NonEmpty(q)
  {
    if q == [] {
      assert p + q == p;
    } else {
      var n := |q|;
      assert (p + q)[..|p + q| - 1] == p + q[..n - 1];
      assert (p + q)[|p + q| - 1] == q[n - 1];
      NonEmptyAppend(p, q[..n - 1]);
    }
  }

  /** Joining non-empty strings gives the empty string only for the empty list. */
  lemma {:induction false} JoinOfNonEmpty(ps: seq<string>, sep: string)
    requires forall p :: p in ps ==> p != ""
    ensures Join(ps, sep) == "" <==> ps == []
  {
    if |ps| >= 2 {
      assert ps[|ps| - 1] in ps;
    } else if |ps| == 1 {
      assert ps[0] in ps;
    }
  }

  /**
   * The prompt of a concatenation of message lists is the two prompts glued
   * by one newline: every message contributes independently and in order,
   * and one whose part is empty contributes nothing.
   */
  lemma PromptAppend(a: seq<Json>, b: seq<Json>)
    ensures PromptOf(Arr(a + b)) == Glue(PromptOf(Arr(a)), PromptOf(Arr(b)))
  {
    PartsAppend(a, b);
    NonEmptyAppend(Parts(a), Parts(b));
    JoinAppend(NonEmpty(Parts(a)), NonEmpty(Parts(b)), "\n");
    JoinOfNonEmpty(NonEmpty(Parts(a)), "\n");
    JoinOfNonEmpty(NonEmpty(Parts(b)), "\n");
  }

  /**
   * A single message: a non-dict yields "", a dict yields its part, which is
   * the stripped "role: content" when the role is truthy and the content
   * text otherwise (see MessagePart).
   */
  lemma PromptOfOne(m: Json)
    ensures PromptOf(Arr([m])) == if m.Obj? then MessagePart(m.fields) else ""
  {
    assert [m][..0] == [];
    var ps := if m.Obj? then [MessagePart(m.fields)] else [];
    assert Parts([m]) == ps;
    assert NonEmpty(ps) == if ps != [] && ps[0] != "" then ps else [] by {
      assert ps == [] || ps[..0] == [];
    }
  }

  /** A non-list input, and a list with no dict in it, yield the empty prompt. */
  lemma {:induction false} PromptWithoutDicts(messages: Json)
    requires messages.Arr? ==> forall i :: 0 <= i < |messages.items| ==> !messages.items[i].Obj?
    ensures PromptOf(messages) == ""
  {
    if messages.Arr? {
      NoDictsNoParts(messages.items);
    }
  }

  lemma {:induction false} NoDictsNoParts(items: seq<Json>)
    requires forall i :: 0 <= i < |items| ==> !items[i].Obj?
    ensures Parts(items) == []
  {
    if items != [] {
      NoDictsNoParts(items[..|items| - 1]);
    }
  }

  /** Only dict items with a string `text` contribute to a list-valued content. */
  lemma {:induction false} TextPartsAppend(a: seq<Json>, b: seq<Json>)
    ensures TextParts(a + b) == TextParts(a) + TextParts(b)
  {
    if b == [] {
      assert a + b == a;
    } else {
      var n := |b|;
      assert (a + b)[..|a + b| - 1] == a + b[..n - 1];
      assert (a + b)[|a + b| - 1] == b[n - 1];
      TextPartsAppend(a, b[..n - 1]);
    }
  }

  /**
   * The text of a content list split in two is the two texts joined by a
   * newline; a side without text items drops out (an empty `text` string
   * still counts as an item).
   */
  lemma ContentTextAppend(a: seq<Json>, b: seq<Json>)
    ensures ContentText(Arr(a + b)) ==
      if TextParts(a) == [] then ContentText(Arr(b))
      else if TextParts(b) == [] then ContentText(Arr(a))
      else ContentText(Arr(a)) + "\n" + ContentText(Arr(b))
  {
    TextPartsAppend(a, b);
    JoinAppend(TextParts(a), TextParts(b), "\n");
  }

  lemma ContentTextOfItem(item: Json)
    ensures ContentText(Arr([item])) == if IsTextItem(item) then Get(item, "text").s else ""
  {
    assert [item][..0] == [];
    assert TextParts([item]) == if IsTextItem(item) then [Get(item, "text").s] else [];
  }

  // ---------------------------------------------------------------------
  // Null-content sanitising
  // ---------------------------------------------------------------------

  /** The content of a message is usable when the key is present and not null. */
  predicate HasUsableContent(m: Json) {
    m.Obj? && GetOr(m.fields, "content", Null) != Null
  }

  /** One sanitised message: missing or null `content` becomes "", every other key is kept. */
  function SanitizeOne(fields: seq<(string, Json)>): (r: seq<(string, Json)>)
    ensures HasUsableContent(Obj(r))
    ensures forall k :: k != "content" ==> Lookup(r, k) == Lookup(fields, k)
    ensures Lookup(r, "content") ==
      if GetOr(fields, "content", Null) == Null then Some(Str("")) else Lookup(fields, "content")
    ensures HasUsableContent(Obj(fields)) ==> r == fields
  {
    if "content" !in Keys(fields) || GetOr(fields, "content", Null) == Null then
      Put(fields, "content", Str(""))
    else fields
  }

  function Sanitized(messages: seq<Json>): seq<Json>
  {
    if messages == [] then []
    else
      var last := messages[|messages| - 1];
      Sanitized(messages[..|messages| - 1]) + (if last.Obj? then [Obj(SanitizeOne(last.fields))] else [])
  }

  /** What `_sanitize_messages` returns. */
  function SanitizedList(messages: Json): seq<Json>
  {
    if messages.Arr? then Sanitized(messages.items) else []
  }

  /** `_sanitize_messages` */
  method SanitizeMessages(messages: Json) returns (sanitized: seq<Json>)
    ensures sanitized == SanitizedList(messages)
  {
    if !messages.Arr? {
      return [];
    }
    var items := messages.items;
    sanitized := [];
    var i := 0;
    while i < |items|
      invariant 0 <= i <= |items|
      invariant sanitized == Sanitized(items[..i])
    {
      var message := items[i];
      assert items[..i + 1][..i] == items[..i];
      if message.Obj? {
        var msg := message.fields;
        if "content" !in Keys(msg) || GetOr(msg, "content", Null) == Null {
          msg := Put(msg, "content", Str(""));
        }
        sanitized := sanitized + [Obj(msg)];
      }
      i := i + 1;
    }
    assert items[..i] == items;
  }

  /** Every sanitised entry is a dict whose `content` is present and not null. */
  lemma {:induction false} SanitizedUsable(messages: seq<Json>)
    ensures forall i :: 0 <= i < |Sanitized(messages)| ==> HasUsableContent(Sanitized(messages)[i])
  {
    if messages != [] {
      SanitizedUsable(messages[..|messages| - 1]);
    }
  }

  /** Sanitising a concatenation sanitises each part: the output keeps the input order. */
  lemma {:induction false} SanitizedAppend(a: seq<Json>, b: seq<Json>)
    ensures Sanitized(a + b) == Sanitized(a) + Sanitized(b)
  {
    if b == [] {
      assert a + b == a;
    } else {
      var n := |b|;
      assert (a + b)[..|a + b| - 1] == a + b[..n - 1];
      assert (a + b)[|a + b| - 1] == b[n - 1];
      SanitizedAppend(a, b[..n - 1]);
    }
  }

  /** A list of dicts that all have usable content is returned unchanged. */
  lemma {:induction false} SanitizedFixpoint(messages: seq<Json>)
    requires forall i :: 0 <= i < |messages| ==> HasUsableContent(messages[i])
    ensures Sanitized(messages) == messages
  {
    if messages != [] {
      var n := |messages|;
      SanitizedFixpoint(messages[..n - 1]);
      assert messages == messages[..n - 1] + [messages[n - 1]];
    }
  }

  /** `_sanitize_messages(_sanitize_messages(m)) == _sanitize_messages(m)` */
  lemma SanitizeIdempotent(messages: Json)
    ensures SanitizedList(Arr(SanitizedList(messages))) == SanitizedList(messages)
  {
    if messages.Arr? {
      SanitizedUsable(messages.items);
      SanitizedFixpoint(Sanitized(messages.items));
    }
  }
}
