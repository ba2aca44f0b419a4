/**
 * The response side of the proxy (proxy/api.py): when a chat request was
 * sent to the completions endpoint, the completion answer is turned back
 * into chat shape, either as one JSON body or line by line as a
 * server-sent-event stream.  Transport is not modelled: the upstream body
 * or lines are inputs, the chunks to send are outputs, and `json.loads` of
 * an event's data is the function `decode`.
 */
module ProxyResponse {
  import opened Wrappers
  import opened PyText
  import opened JsonModel

  // ---------------------------------------------------------------------
  // Whole bodies (api.py:366-385)
  // ---------------------------------------------------------------------

  /** `for x in v`: lists yield their items, dicts their keys, strings their characters. */
  function PyIter(v: Json): (r: Option<seq<Json>>)
    ensures v.Arr? ==> r == Some(v.items)
    ensures v.Null? || v.Bool? || v.Num? ==> r.None?
  {
    match v
    case Arr(items) => Some(items)
    case Obj(fields) => Some(seq(|fields|, i requires 0 <= i < |fields| => Str(fields[i].0)))
    case Str(s) => Some(seq(|s|, i requires 0 <= i < |s| => Str([s[i]])))
    case _ => None
  }

  /** `data.get("choices") or []`, iterated; None when the value cannot be iterated (a TypeError). */
  function CompletionChoices(data: Json): Option<seq<Json>>
  {
    var v := Get(data, "choices");
    if Truthy(v) then PyIter(v) else Some([])
  }

  /** The `text` of a completion choice; None (Null) for a choice that is not a dict. */
  function ChoiceText(choice: Json): Json {
    if choice.Obj? then Get(choice, "text") else Null
  }

  /** `a or b` */
  function Or(a: Json, b: Json): (r: Json)
    ensures Truthy(a) ==> r == a
    ensures !Truthy(a) ==> r == b
  {
    if Truthy(a) then a else b
  }

  /** The chat choice built from one completion choice. */
  function ChatChoice(choice: Json): Json
  {
    Obj([
      ("index", if choice.Obj? then GetOr(choice.fields, "index", Num(0)) else Num(0)),
      ("message", Obj([("role", Str("assistant")), ("content", Or(ChoiceText(choice), Str("")))])),
      ("finish_reason", if choice.Obj? then Get(choice, "finish_reason") else Null)])
  }

  function ChatBody(data: Json, converted: seq<Json>, requestModel: Json): Json
  {
    Obj([
      ("id", Get(data, "id")),
      ("object", Str("chat.completion")),
      ("created", Get(data, "created")),
      ("model", Or(Get(data, "model"), requestModel)),
      ("choices", Arr(converted)),
      ("usage", Get(data, "usage"))])
  }

  /** The message of the i-th chat choice. */
  function MessageOf(chatChoice: Json): Json {
    Get(chatChoice, "message")
  }

  /**
   * The non-streaming conversion.  A body that is not a dict is passed
   * through; otherwise the answer is a `chat.completion` with exactly one
   * chat choice per completion choice, in order, each an assistant message
   * whose content is the choice's text, or "" when that text is missing or
   * falsy.  None stands for the TypeError raised when `choices` is a
   * non-iterable truthy value.
   */
  method ConvertCompletionBody(data: Json, requestModel: Json) returns (r: Option<Json>)
    ensures !data.Obj? ==> r == Some(data)
    ensures data.Obj? ==> (r.None? <==> CompletionChoices(data).None?)
    ensures data.Obj? && r.Some? ==>
      var choices := CompletionChoices(data).value;
      var out := r.value;
      && Get(out, "object") == Str("chat.completion")
      && Get(out, "id") == Get(data, "id")
      && Get(out, "created") == Get(data, "created")
      && Get(out, "model") == Or(Get(data, "model"), requestModel)
      && Get(out, "usage") == Get(data, "usage")
      && Get(out, "choices").Arr?
      && |Get(out, "choices").items| == |choices|
      && forall i :: 0 <= i < |choices| ==>
           && Get(Get(out, "choices").items[i], "index") == (if choices[i].Obj? then GetOr(choices[i].fields, "index", Num(0)) else Num(0))
           && Get(MessageOf(Get(out, "choices").items[i]), "role") == Str("assistant")
           && Get(MessageOf(Get(out, "choices").items[i]), "content") == Or(ChoiceText(choices[i]), Str(""))
           && Get(Get(out, "choices").items[i], "finish_reason") == (if choices[i].Obj? then Get(choices[i], "finish_reason") else Null)
  {
    if !data.Obj? {
      return Some(data);
    }
    var choicesOpt := CompletionChoices(data);
    if choicesOpt.None? {
      return None;
    }
    var choices := choicesOpt.value;
    var converted := ConvertChoices(choices);
    var out := ChatBody(data, converted, requestModel);
    forall j | 0 <= j < |choices|
      ensures Get(converted[j], "index") == (if choices[j].Obj? then GetOr(choices[j].fields, "index", Num(0)) else Num(0))
      ensures Get(MessageOf(converted[j]), "role") == Str("assistant")
      ensures Get(MessageOf(converted[j]), "content") == Or(ChoiceText(choices[j]), Str(""))
      ensures Get(converted[j], "finish_reason") == (if choices[j].Obj? then Get(choices[j], "finish_reason") else Null)
    {
      ChatChoiceFields(choices[j]);
    }
    ChatBodyFields(data, converted, requestModel);
    r := Some(out);
  }

  /** The loop of lines 370-376: one chat choice per completion choice, in order. */
  method ConvertChoices(choices: seq<Json>) returns (converted: seq<Json>)
    ensures |converted| == |choices|
    ensures forall j :: 0 <= j < |choices| ==> converted[j] == ChatChoice(choices[j])
  {
    converted := [];
    var i := 0;
    while i < |choices|
      invariant 0 <= i <= |choices|
      invariant |converted| == i
      invariant forall j :: 0 <= j < i ==> converted[j] == ChatChoice(choices[j])
    {
      var choice := choices[i];
      var text := if choice.Obj? then Get(choice, "text") else Null;
      var index := if choice.Obj? then GetOr(choice.fields, "index", Num(0)) else Num(0);
      var finishReason := if choice.Obj? then Get(choice, "finish_reason") else Null;
      converted := converted + [Obj([
        ("index", index),
        ("message", Obj([("role", Str("assistant")), ("content", if Truthy(text) then text else Str(""))])),
        ("finish_reason", finishReason)])];
      i := i + 1;
    }
  }

  lemma ChatChoiceFields(choice: Json)
    ensures Get(ChatChoice(choice), "index") == (if choice.Obj? then GetOr(choice.fields, "index", Num(0)) else Num(0))
    ensures Get(MessageOf(ChatChoice(choice)), "role") == Str("assistant")
    ensures Get(MessageOf(ChatChoice(choice)), "content") == Or(ChoiceText(choice), Str(""))
    ensures Get(ChatChoice(choice), "finish_reason") == (if choice.Obj? then Get(choice, "finish_reason") else Null)
  {
    var fs := ChatChoice(choice).fields;
    var msg := fs[1].1;
    LookupListed(fs, "index", fs[0].1);
    LookupListed(fs, "message", msg);
    LookupListed(fs, "finish_reason", fs[2].1);
    LookupListed(msg.fields, "role", Str("assistant"));
    LookupListed(msg.fields, "content", msg.fields[1].1);
  }

  lemma ChatBodyFields(data: Json, converted: seq<Json>, requestModel: Json)
    ensures Get(ChatBody(data, converted, requestModel), "object") == Str("chat.completion")
    ensures Get(ChatBody(data, converted, requestModel), "id") == Get(data, "id")
    ensures Get(ChatBody(data, converted, requestModel), "created") == Get(data, "created")
    ensures Get(ChatBody(data, converted, requestModel), "model") == Or(Get(data, "model"), requestModel)
    ensures Get(ChatBody(data, converted, requestModel), "usage") == Get(data, "usage")
    ensures Get(ChatBody(data, converted, requestModel), "choices") == Arr(converted)
  {
    var fs := ChatBody(data, converted, requestModel).fields;
    LookupListed(fs, "id", fs[0].1);
    LookupListed(fs, "object", fs[1].1);
    LookupListed(fs, "created", fs[2].1);
    LookupListed(fs, "model", fs[3].1);
    LookupListed(fs, "choices", fs[4].1);
    LookupListed(fs, "usage", fs[5].1);
  }

  // ---------------------------------------------------------------------
  // Event streams (api.py:314-353)
  // ---------------------------------------------------------------------

  /** What the converter yields: a `chat.completion.chunk` event, or the `[DONE]` marker. */
  datatype Event = Chunk(chunk: Json) | Done

  /** The events sent, and whether the conversion stopped on an exception. */
  datatype StreamOutput = StreamOutput(events: seq<Event>, raised: bool)

  /** The effect of one upstream line. */
  datatype LineEffect =
    | Skip                 // not a data line, not JSON, or no choices
    | Finish               // the [DONE] marker
    | Emit(choice: Json, payload: Json)
    | Raise                // an exception inside the generator

  /** The text after `data:`, stripped (line 320). */
  function DataOf(line: string): string
    requires StartsWith(line, "data:")
  {
    Strip(line[5..])
  }

  /** What the choices of a decoded event lead to (lines 328-331). */
  function ClassifyPayload(pj: Json): (r: LineEffect)
    ensures !pj.Obj? ==> r == Raise
    ensures pj.Obj? && !Truthy(Get(pj, "choices")) ==> r == Skip
    ensures r.Emit? <==> Get(pj, "choices").Arr? && Get(pj, "choices").items != [] && Get(pj, "choices").items[0].Obj?
    ensures r.Emit? ==> r.choice == Get(pj, "choices").items[0] && r.payload == pj
    ensures pj.Obj? && Truthy(Get(pj, "choices")) && !r.Emit? ==> r == Raise
  {
    if !pj.Obj? then Raise
    else
      var choices := Get(pj, "choices");
      if !Truthy(choices) then Skip
      else if !choices.Arr? then Raise
      else if !choices.items[0].Obj? then Raise
      else Emit(choices.items[0], pj)
  }

  /** Classifies one upstream line (lines 316-331). */
  function ClassifyLine(line: string, decode: string -> Option<Json>): (r: LineEffect)
    ensures !StartsWith(line, "data:") ==> r == Skip
    ensures StartsWith(line, "data:") ==> (r == Finish <==> DataOf(line) == "[DONE]")
    ensures StartsWith(line, "data:") && DataOf(line) != "[DONE]" && decode(DataOf(line)).None? ==> r == Skip
    ensures StartsWith(line, "data:") && DataOf(line) != "[DONE]" && decode(DataOf(line)).Some? ==>
      r == ClassifyPayload(decode(DataOf(line)).value)
    ensures r.Emit? ==> r.choice.Obj? && StartsWith(line, "data:") && decode(DataOf(line)) == Some(r.payload)
  {
    if line == "" || !StartsWith(line, "data:") then Skip
    else if DataOf(line) == "[DONE]" then Finish
    else
      match decode(DataOf(line))
      case None => Skip
      case Some(pj) => ClassifyPayload(pj)
  }

  /** The delta of an emitted chunk: the role only when not yet sent, content only for non-empty string text. */
  function Delta(choice: Json, sentRole: bool): Json
  {
    var text := Get(choice, "text");
    Obj((if !sentRole then [("role", Str("assistant"))] else [])
        + (if text.Str? && text.s != "" then [("content", text)] else []))
  }

  function StreamChunk(choice: Json, pj: Json, sentRole: bool, requestModel: Json): Json
  {
    Obj([
      ("id", Get(pj, "id")),
      ("object", Str("chat.completion.chunk")),
      ("created", Get(pj, "created")),
      ("model", Or(Get(pj, "model"), requestModel)),
      ("choices", Arr([ChunkChoice(choice, sentRole)]))])
  }

  function ChunkChoice(choice: Json, sentRole: bool): Json
  {
    Obj([
      ("index", if choice.Obj? then GetOr(choice.fields, "index", Num(0)) else Num(0)),
      ("delta", Delta(choice, sentRole)),
      ("finish_reason", Get(choice, "finish_reason"))])
  }

  /** What each upstream line leads to, in order, under a given line classifier. */
  function Classified(lines: seq<string>, classify: string -> LineEffect): (r: seq<LineEffect>)
    ensures |r| == |lines|
  {
    seq(|lines|, k requires 0 <= k < |lines| => classify(lines[k]))
  }

  /** The events produced by a run of line effects, given whether the role was already sent. */
  function Converted(effects: seq<LineEffect>, sentRole: bool, requestModel: Json): StreamOutput
  {
    if effects == [] then StreamOutput([], false)
    else match effects[0]
      case Skip => Converted(effects[1..], sentRole, requestModel)
      case Finish => StreamOutput([Done], false)
      case Raise => StreamOutput([], true)
      case Emit(choice, pj) =>
        var rest := Converted(effects[1..], true, requestModel);
        StreamOutput([Chunk(StreamChunk(choice, pj, sentRole, requestModel))] + rest.events, rest.raised)
  }

  /** What `_stream_completion_as_chat` yields for the upstream `lines`. */
  function ConvertedStream(lines: seq<string>, requestModel: Json, decode: string -> Option<Json>): StreamOutput
  {
    Converted(Classified(lines, line => ClassifyLine(line, decode)), false, requestModel)
  }

  /** What effect `i` of a run contributes to the conversion of the rest of the run from `i` on. */
  lemma ConvertedStep(effects: seq<LineEffect>, i: nat, sentRole: bool, requestModel: Json)
    requires i < |effects|
    ensures effects[i].Skip? ==>
      Converted(effects[i..], sentRole, requestModel) == Converted(effects[i + 1..], sentRole, requestModel)
    ensures effects[i].Finish? ==> Converted(effects[i..], sentRole, requestModel) == StreamOutput([Done], false)
    ensures effects[i].Raise? ==> Converted(effects[i..], sentRole, requestModel) == StreamOutput([], true)
    ensures effects[i].Emit? ==>
      var next := Converted(effects[i + 1..], true, requestModel);
      && Converted(effects[i..], sentRole, requestModel).events
         == [Chunk(StreamChunk(effects[i].choice, effects[i].payload, sentRole, requestModel))] + next.events
      && Converted(effects[i..], sentRole, requestModel).raised == next.raised
  {
    assert effects[i..][0] == effects[i] && effects[i..][1..] == effects[i + 1..];
  }

  lemma AppendRegroup(events: seq<Event>, e: Event, rest: seq<Event>)
    ensures events + ([e] + rest) == (events + [e]) + rest
  {
  }

  /** The converter's loop with its `sent_role` flag, for any line classifier. */
  method ConvertLines(lines: seq<string>, requestModel: Json, classify: string -> LineEffect) returns (out: StreamOutput)
    ensures out == Converted(Classified(lines, classify), false, requestModel)
  {
    ghost var effects := Classified(lines, classify);
    ghost var spec := Converted(effects, false, requestModel);
    var events: seq<Event> := [];
    var sentRole := false;
    var i := 0;
    while i < |lines|
      invariant 0 <= i <= |lines|
      invariant spec.events == events + Converted(effects[i..], sentRole, requestModel).events
      invariant spec.raised == Converted(effects[i..], sentRole, requestModel).raised
    {
      var effect := classify(lines[i]);
      ConvertedStep(effects, i, sentRole, requestModel);
      match effect
      case Skip =>
        i := i + 1;
      case Finish =>
        return StreamOutput(events + [Done], false);
      case Raise =>
        return StreamOutput(events, true);
      case Emit(choice, pj) =>
        var chunk := StreamChunk(choice, pj, sentRole, requestModel);
        AppendRegroup(events, Chunk(chunk), Converted(effects[i + 1..], true, requestModel).events);
        events := events + [Chunk(chunk)];
        sentRole := true;
        i := i + 1;
    }
    assert effects[i..] == [];
    out := StreamOutput(events, false);
  }

  /** `_stream_completion_as_chat` over the upstream lines (lines 314-353). */
  method ConvertStream(lines: seq<string>, requestModel: Json, decode: string -> Option<Json>) returns (out: StreamOutput)
    ensures out == ConvertedStream(lines, requestModel, decode)
  {
    out := ConvertLines(lines, requestModel, line => ClassifyLine(line, decode));
  }

  /** The delta of a chunk event. */
  function DeltaOf(e: Event): Json {
    if e.Chunk? then
      var choices := Get(e.chunk, "choices");
      if choices.Arr? && |choices.items| > 0 then Get(choices.items[0], "delta") else Null
    else Null
  }

  lemma ChunkChoices(choice: Json, pj: Json, sentRole: bool, requestModel: Json)
    ensures Get(StreamChunk(choice, pj, sentRole, requestModel), "choices") == Arr([ChunkChoice(choice, sentRole)])
  {
    var fs := StreamChunk(choice, pj, sentRole, requestModel).fields;
    LookupListed(fs, "choices", fs[4].1);
  }

  lemma ChunkDelta(choice: Json, sentRole: bool)
    ensures Get(ChunkChoice(choice, sentRole), "delta") == Delta(choice, sentRole)
  {
    var fs := ChunkChoice(choice, sentRole).fields;
    LookupListed(fs, "delta", fs[1].1);
  }

  lemma DeltaOfChunk(choice: Json, pj: Json, sentRole: bool, requestModel: Json)
    ensures DeltaOf(Chunk(StreamChunk(choice, pj, sentRole, requestModel))) == Delta(choice, sentRole)
  {
    ChunkChoices(choice, pj, sentRole, requestModel);
    ChunkDelta(choice, sentRole);
  }

  lemma DeltaFields(choice: Json, sentRole: bool)
    ensures Has(Delta(choice, sentRole), "role") <==> !sentRole
    ensures !sentRole ==> Get(Delta(choice, sentRole), "role") == Str("assistant")
    ensures Has(Delta(choice, sentRole), "content") <==> Get(choice, "text").Str? && Get(choice, "text").s != ""
    ensures Has(Delta(choice, sentRole), "content") ==> Get(Delta(choice, sentRole), "content") == Get(choice, "text")
  {
    var fs := Delta(choice, sentRole).fields;
    var text := Get(choice, "text");
    var hasText := text.Str? && text.s != "";
    if !sentRole {
      LookupListed(fs, "role", Str("assistant"));
    } else {
      assert fs == if hasText then [("content", text)] else [];
      assert Lookup(fs, "role").None?;
    }
    if hasText {
      LookupListed(fs, "content", text);
    } else {
      assert fs == if !sentRole then [("role", Str("assistant"))] else [];
      assert Lookup(fs, "content").None?;
    }
  }

  /** Only the first chunk of `evs` may carry a role, and it does iff the role was not sent yet. */
  predicate RoleOnlyFirst(evs: seq<Event>, sentRole: bool)
  {
    forall i :: 0 <= i < |evs| && evs[i].Chunk? ==> (Has(DeltaOf(evs[i]), "role") <==> i == 0 && !sentRole)
  }

  lemma RoleOnlyFirstCons(e: Event, evs: seq<Event>, sentRole: bool)
    requires e.Chunk? && (Has(DeltaOf(e), "role") <==> !sentRole)
    requires RoleOnlyFirst(evs, true)
    ensures RoleOnlyFirst([e] + evs, sentRole)
  {
    forall i | 0 < i < |[e] + evs| ensures ([e] + evs)[i] == evs[i - 1] {}
  }

  /**
   * "assistant" is sent exactly once, in the first chunk: the delta of the
   * first chunk has the role iff the role was not sent before, and no later
   * chunk has it.
   */
  lemma {:induction false} RoleOnlyInFirstChunk(effects: seq<LineEffect>, sentRole: bool, requestModel: Json)
    ensures RoleOnlyFirst(Converted(effects, sentRole, requestModel).events, sentRole)
  {
    if effects != [] {
      match effects[0]
      case Skip =>
        RoleOnlyInFirstChunk(effects[1..], sentRole, requestModel);
      case Finish =>
      case Raise =>
      case Emit(choice, pj) =>
        var rest := Converted(effects[1..], true, requestModel);
        RoleOnlyInFirstChunk(effects[1..], true, requestModel);
        DeltaOfChunk(choice, pj, sentRole, requestModel);
        DeltaFields(choice, sentRole);
        RoleOnlyFirstCons(Chunk(StreamChunk(choice, pj, sentRole, requestModel)), rest.events, sentRole);
    }
  }

  /** The `[DONE]` marker, if any, is the last event, and then nothing raised. */
  predicate DoneLast(out: StreamOutput)
  {
    forall i :: 0 <= i < |out.events| && out.events[i].Done? ==> i == |out.events| - 1 && !out.raised
  }

  lemma DoneLastCons(c: Json, out: StreamOutput)
    requires DoneLast(out)
    ensures DoneLast(StreamOutput([Chunk(c)] + out.events, out.raised))
  {
    forall i | 0 < i < |[Chunk(c)] + out.events| ensures ([Chunk(c)] + out.events)[i] == out.events[i - 1] {}
  }

  /** The `[DONE]` marker, when sent, is the last event, and the stream did not raise. */
  lemma {:induction false} DoneIsLast(effects: seq<LineEffect>, sentRole: bool, requestModel: Json)
    ensures DoneLast(Converted(effects, sentRole, requestModel))
  {
    if effects != [] {
      match effects[0]
      case Skip =>
        DoneIsLast(effects[1..], sentRole, requestModel);
      case Finish =>
      case Raise =>
      case Emit(choice, pj) =>
        DoneIsLast(effects[1..], true, requestModel);
        DoneLastCons(StreamChunk(choice, pj, sentRole, requestModel), Converted(effects[1..], true, requestModel));
    }
  }

  /** Lines that are not `data:` lines, that do not decode, or have no choices change nothing. */
  lemma SkippedLine(line: string, rest: seq<string>, requestModel: Json, decode: string -> Option<Json>)
    requires ClassifyLine(line, decode) == Skip
    ensures ConvertedStream([line] + rest, requestModel, decode) == ConvertedStream(rest, requestModel, decode)
  {
    var classify := l => ClassifyLine(l, decode);
    assert Classified([line] + rest, classify) == [Skip] + Classified(rest, classify);
  }

  /** At most one event per upstream line. */
  lemma {:induction false} EventsBounded(effects: seq<LineEffect>, sentRole: bool, requestModel: Json)
    ensures |Converted(effects, sentRole, requestModel).events| <= |effects|
  {
    if effects != [] {
      EventsBounded(effects[1..], sentRole, requestModel);
      EventsBounded(effects[1..], true, requestModel);
    }
  }

  /** A `[DONE]` data line ends the stream with the marker, whatever follows. */
  lemma DoneMarkerData(pad: string, trail: string)
    requires AllSpace(pad) && AllSpace(trail)
    ensures StartsWith("data:" + pad + "[DONE]" + trail, "data:")
    ensures DataOf("data:" + pad + "[DONE]" + trail) == "[DONE]"
  {
    var marker := "[DONE]";
    var line := "data:" + pad + marker + trail;
    assert line[..5] == "data:";
    assert line[5..] == pad + marker + trail;
    StripIgnoresPadding(pad, marker, trail);
    assert marker[0] == '[' && marker[|marker| - 1] == ']';
    StripUnpadded(marker);
  }

  lemma DoneLineFinishes(pad: string, trail: string, decode: string -> Option<Json>)
    requires AllSpace(pad) && AllSpace(trail)
    ensures ClassifyLine("data:" + pad + "[DONE]" + trail, decode) == Finish
  {
    DoneMarkerData(pad, trail);
  }

  /**
   * A `[DONE]` data line, with any white space around the marker, ends the
   * stream with the marker, whatever follows.
   */
  lemma DoneEndsStream(pad: string, trail: string, rest: seq<string>, requestModel: Json, decode: string -> Option<Json>)
    requires AllSpace(pad) && AllSpace(trail)
    ensures ConvertedStream(["data:" + pad + "[DONE]" + trail] + rest, requestModel, decode) == StreamOutput([Done], false)
  {
    var lines := ["data:" + pad + "[DONE]" + trail] + rest;
    DoneLineFinishes(pad, trail, decode);
    assert Classified(lines, l => ClassifyLine(l, decode))[0] == Finish;
  }

  /** Every chunk whose delta has content has non-empty string content. */
  predicate ContentIsText(evs: seq<Event>)
  {
    forall i :: 0 <= i < |evs| && evs[i].Chunk? && Has(DeltaOf(evs[i]), "content") ==>
      Get(DeltaOf(evs[i]), "content").Str? && Get(DeltaOf(evs[i]), "content").s != ""
  }

  lemma ChunkContentIsText(choice: Json, pj: Json, sentRole: bool, requestModel: Json)
    ensures ContentIsText([Chunk(StreamChunk(choice, pj, sentRole, requestModel))])
  {
    DeltaOfChunk(choice, pj, sentRole, requestModel);
    DeltaFields(choice, sentRole);
  }

  lemma ContentIsTextCons(e: Event, evs: seq<Event>)
    requires ContentIsText([e]) && ContentIsText(evs)
    ensures ContentIsText([e] + evs)
  {
    forall i | 0 < i < |[e] + evs| ensures ([e] + evs)[i] == evs[i - 1] {}
  }

  /**
   * Each chunk's delta carries content only when its completion text is a
   * non-empty string.
   */
  lemma {:induction false} ContentOnlyForText(effects: seq<LineEffect>, sentRole: bool, requestModel: Json)
    ensures ContentIsText(Converted(effects, sentRole, requestModel).events)
  {
    if effects != [] {
      match effects[0]
      case Skip =>
        ContentOnlyForText(effects[1..], sentRole, requestModel);
      case Finish =>
      case Raise =>
      case Emit(choice, pj) =>
        var e := Chunk(StreamChunk(choice, pj, sentRole, requestModel));
        ContentOnlyForText(effects[1..], true, requestModel);
        ChunkContentIsText(choice, pj, sentRole, requestModel);
        ContentIsTextCons(e, Converted(effects[1..], true, requestModel).events);
    }
  }
}
