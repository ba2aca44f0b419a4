/**
 * The request side of the OpenAI-compatible proxy (proxy/api.py,
 * `_proxy_to_litellm` up to the HTTP call): normalising `input`/`prompt`
 * into `messages`/`prompt`, the compat "completion" mode, null-content
 * sanitising, the per-endpoint key allow-lists, the decision to reroute a
 * chat request to the completions endpoint, and the forwarded URL and
 * headers.  The database lookup of a model's compat mode and the request
 * body are inputs; nothing is sent.
 */
module ProxyRequest {
  import opened Wrappers
  import opened PyText
  import opened JsonModel
  import ProxyMessages

  // ---------------------------------------------------------------------
  // Boolean settings
  // ---------------------------------------------------------------------

  const FlagTrueValues: set<string> := {"1", "true", "yes", "on"}

  /** `_env_flag(name, default)`, where `raw` is the environment's value for `name`. */
  function EnvFlag(raw: Option<string>, default: bool): bool
  {
    match raw
    case None => default
    case Some(v) => Lower(Strip(v)) in FlagTrueValues
  }

  /**
   * The default is used exactly when the variable is unset. A set variable
   * ignores the default, and is true exactly when it is one of 1, true, yes,
   * on, in any letter case, with any white space around it.
   */
  lemma EnvFlagCases(v: string, default: bool)
    ensures EnvFlag(None, default) == default
    ensures EnvFlag(Some(v), default) == EnvFlag(Some(v), !default)
    ensures EnvFlag(Some(v), default) <==>
      exists a, w, c :: v == a + w + c && AllSpace(a) && AllSpace(c) && Lower(w) in FlagTrueValues
  {
    if EnvFlag(Some(v), default) {
      var a, c := StripSplits(v);
    }
    forall a, w, c | v == a + w + c && AllSpace(a) && AllSpace(c) && Lower(w) in FlagTrueValues
      ensures EnvFlag(Some(v), default)
    {
      PaddedSpelling(a, w, c, default);
    }
  }

  /** A padded, case-varied spelling of a true word sets the flag. */
  lemma PaddedSpelling(a: string, w: string, c: string, default: bool)
    requires AllSpace(a) && AllSpace(c) && Lower(w) in FlagTrueValues
    ensures EnvFlag(Some(a + w + c), default)
  {
    StripIgnoresPadding(a, w, c);
    LowerStripCommute(w);
    FlagWordUnpadded(Lower(w));
  }

  lemma FlagWordUnpadded(w: string)
    requires w in FlagTrueValues
    ensures Strip(w) == w
  {
    assert w != [] && !IsSpace(w[0]) && !IsSpace(w[|w| - 1]) by {
      if w == "1" {
      } else if w == "true" {
      } else if w == "yes" {
      } else {
        assert w == "on";
      }
    }
    StripUnpadded(w);
  }

  /** Surrounding white space and letter case never change a flag. */
  lemma EnvFlagNormalises(a: string, v: string, c: string, default: bool)
    requires AllSpace(a) && AllSpace(c)
    ensures EnvFlag(Some(a + v + c), default) == EnvFlag(Some(v), default)
    ensures EnvFlag(Some(Lower(v)), default) == EnvFlag(Some(v), default)
  {
    StripIgnoresPadding(a, v, c);
    LowerStripCommute(v);
    LowerIdempotent(Strip(v));
  }

  // ---------------------------------------------------------------------
  // Key allow-lists (api.py:163-209)
  // ---------------------------------------------------------------------

  const ChatKeys: set<string> := {
    "model", "messages", "stream", "temperature", "top_p", "max_tokens", "n",
    "stop", "presence_penalty", "frequency_penalty", "logit_bias", "user",
    "tools", "tool_choice", "response_format", "seed", "stream_options"}

  const CompletionKeys: set<string> := {
    "model", "prompt", "stream", "temperature", "top_p", "max_tokens", "n",
    "stop", "presence_penalty", "frequency_penalty", "logit_bias", "user",
    "suffix", "best_of", "logprobs", "echo"}

  /** `{key: value for key, value in payload.items() if key in allowed}` */
  function KeepAllowed(fields: seq<(string, Json)>, allowed: set<string>): (r: seq<(string, Json)>)
    ensures |r| <= |fields|
  {
    if fields == [] then []
    else (if fields[0].0 in allowed then [fields[0]] else []) + KeepAllowed(fields[1..], allowed)
  }

  /** The filtered payload holds only allowed keys, each with the value it had. */
  lemma {:induction false} KeepAllowedContents(fields: seq<(string, Json)>, allowed: set<string>)
    ensures forall k :: k in Keys(KeepAllowed(fields, allowed)) ==> k in allowed
    ensures forall k :: k in allowed ==> Lookup(KeepAllowed(fields, allowed), k) == Lookup(fields, k)
  {
    if fields != [] {
      var rest := KeepAllowed(fields[1..], allowed);
      KeepAllowedContents(fields[1..], allowed);
      assert fields == [fields[0]] + fields[1..];
      forall k
        ensures Lookup(fields, k) == if fields[0].0 == k then Some(fields[0].1) else Lookup(fields[1..], k)
        ensures Lookup([fields[0]] + rest, k) == if fields[0].0 == k then Some(fields[0].1) else Lookup(rest, k)
      {
        LookupCons(fields[0], fields[1..], k);
        LookupCons(fields[0], rest, k);
      }
      LookupCons(fields[0], rest, fields[0].0);
      if fields[0].0 !in allowed {
        assert KeepAllowed(fields, allowed) == rest;
      } else {
        assert KeepAllowed(fields, allowed) == [fields[0]] + rest;
      }
    }
  }

  /** `[key for key in payload.keys() if key not in allowed]` */
  function DroppedKeys(fields: seq<(string, Json)>, allowed: set<string>): (r: seq<string>)
    ensures forall k :: k in r <==> k in Keys(fields) && k !in allowed
  {
    if fields == [] then []
    else (if fields[0].0 in allowed then [] else [fields[0].0]) + DroppedKeys(fields[1..], allowed)
  }

  /**
   * Filtering splits the payload's keys: every key is either kept or
   * dropped, and the payload is left as it is exactly when nothing is dropped.
   */
  lemma {:induction false} FilterSplitsKeys(fields: seq<(string, Json)>, allowed: set<string>)
    ensures |KeepAllowed(fields, allowed)| + |DroppedKeys(fields, allowed)| == |fields|
    ensures KeepAllowed(fields, allowed) == fields <==> DroppedKeys(fields, allowed) == []
  {
    if fields != [] {
      FilterSplitsKeys(fields[1..], allowed);
      if fields[0].0 !in allowed {
        assert |KeepAllowed(fields, allowed)| < |fields|;
      }
    }
  }

  /** Filtering keeps payload order: filtering a concatenation filters each part. */
  lemma {:induction false} KeptInOrder(a: seq<(string, Json)>, b: seq<(string, Json)>, allowed: set<string>)
    ensures KeepAllowed(a + b, allowed) == KeepAllowed(a, allowed) + KeepAllowed(b, allowed)
  {
    if a == [] {
      assert a + b == b;
    } else {
      var head := if a[0].0 in allowed then [a[0]] else [];
      assert (a + b)[0] == a[0];
      assert (a + b)[1..] == a[1..] + b;
      KeptInOrder(a[1..], b, allowed);
      calc {
        KeepAllowed(a + b, allowed);
        head + KeepAllowed(a[1..] + b, allowed);
        head + (KeepAllowed(a[1..], allowed) + KeepAllowed(b, allowed));
        (head + KeepAllowed(a[1..], allowed)) + KeepAllowed(b, allowed);
        KeepAllowed(a, allowed) + KeepAllowed(b, allowed);
      }
    }
  }

  /** The dropped keys are listed in payload order. */
  lemma {:induction false} DroppedInOrder(a: seq<(string, Json)>, b: seq<(string, Json)>, allowed: set<string>)
    ensures DroppedKeys(a + b, allowed) == DroppedKeys(a, allowed) + DroppedKeys(b, allowed)
  {
    if a == [] {
      assert a + b == b;
    } else {
      assert (a + b)[0] == a[0];
      assert (a + b)[1..] == a[1..] + b;
      DroppedInOrder(a[1..], b, allowed);
    }
  }

  // ---------------------------------------------------------------------
  // Payload normalisation (api.py:111-161)
  // ---------------------------------------------------------------------

  /** The payload being rewritten, with the `normalized_payload` and `force_completion` flags. */
  datatype Rewrite = Rewrite(payload: Json, normalized: bool, force: bool)

  predicate AllDicts(items: seq<Json>) {
    forall i :: 0 <= i < |items| ==> items[i].Obj?
  }

  predicate AllStrings(items: seq<Json>) {
    forall i :: 0 <= i < |items| ==> items[i].Str?
  }

  function Strings(items: seq<Json>): (r: seq<string>)
    requires AllStrings(items)
    ensures |r| == |items| && forall i :: 0 <= i < |items| ==> r[i] == items[i].s
  {
    seq(|items|, i requires 0 <= i < |items| => items[i].s)
  }

  /** A dict without `messages`: the only payloads the input and prompt rewrites touch. */
  predicate LacksMessages(p: Json) {
    p.Obj? && !Has(p, "messages")
  }

  /**
   * Lines 111-123: without `messages`, a list-valued `input` becomes
   * `messages` and a string `input` becomes `prompt` (forcing the
   * completion endpoint); `input` is removed, nothing else changes.
   */
  function InputRewrite(st: Rewrite): (r: Rewrite)
    ensures !(LacksMessages(st.payload) && (Get(st.payload, "input").Arr? || Get(st.payload, "input").Str?)) ==> r == st
    ensures LacksMessages(st.payload) && Get(st.payload, "input").Arr? ==>
      && r.payload.Obj? && Get(r.payload, "messages") == Get(st.payload, "input") && !Has(r.payload, "input")
      && (forall k :: k != "messages" && k != "input" ==> Lookup(r.payload.fields, k) == Lookup(st.payload.fields, k))
      && r.normalized && r.force == st.force
    ensures LacksMessages(st.payload) && Get(st.payload, "input").Str? ==>
      && r.payload.Obj? && Get(r.payload, "prompt") == Get(st.payload, "input") && !Has(r.payload, "input")
      && !Has(r.payload, "messages")
      && (forall k :: k != "prompt" && k != "input" ==> Lookup(r.payload.fields, k) == Lookup(st.payload.fields, k))
      && r.normalized && r.force
  {
    var p := st.payload;
    if LacksMessages(p) && Has(p, "input") then
      var v := Get(p, "input");
      if v.Arr? then Rewrite(Obj(Delete(Put(p.fields, "messages", v), "input")), true, st.force)
      else if v.Str? then
        var fs := Delete(Put(p.fields, "prompt", v), "input");
        assert Lookup(fs, "messages") == Lookup(p.fields, "messages");
        Rewrite(Obj(fs), true, true)
      else st
    else st
  }

  /**
   * Lines 125-136: without `messages`, a `prompt` list of dicts moves to
   * `messages` (an empty list becomes `messages = []`), and a list of
   * strings becomes a single newline-joined prompt string.
   */
  function PromptRewrite(st: Rewrite): (r: Rewrite)
    ensures !(LacksMessages(st.payload) && Get(st.payload, "prompt").Arr?) ==> r == st
    ensures LacksMessages(st.payload) && Get(st.payload, "prompt").Arr? && AllDicts(Get(st.payload, "prompt").items) ==>
      && r.payload.Obj? && Get(r.payload, "messages") == Get(st.payload, "prompt") && !Has(r.payload, "prompt")
      && (forall k :: k != "messages" && k != "prompt" ==> Lookup(r.payload.fields, k) == Lookup(st.payload.fields, k))
      && r.normalized && r.force == st.force
    ensures (LacksMessages(st.payload) && Get(st.payload, "prompt").Arr? && !AllDicts(Get(st.payload, "prompt").items)
             && AllStrings(Get(st.payload, "prompt").items)) ==>
      && r.payload.Obj? && Get(r.payload, "prompt") == Str(Join(Strings(Get(st.payload, "prompt").items), "\n"))
      && Keys(r.payload.fields) == Keys(st.payload.fields)
      && (forall k :: k != "prompt" ==> Lookup(r.payload.fields, k) == Lookup(st.payload.fields, k))
      && r.normalized && r.force == st.force
    ensures (LacksMessages(st.payload) && Get(st.payload, "prompt").Arr? && !AllDicts(Get(st.payload, "prompt").items)
             && !AllStrings(Get(st.payload, "prompt").items)) ==> r == st
  {
    var p := st.payload;
    if LacksMessages(p) && Has(p, "prompt") then
      var v := Get(p, "prompt");
      if v.Arr? && AllDicts(v.items) then
        Rewrite(Obj(Delete(Put(p.fields, "messages", v), "prompt")), true, st.force)
      else if v.Arr? && AllStrings(v.items) then
        Rewrite(Obj(Put(p.fields, "prompt", Str(Join(Strings(v.items), "\n")))), true, st.force)
      else st
    else st
  }

  /** Lines 138-148: the compat mode recorded for the payload's string `model`; Null when there is none. */
  function CompatModeOf(p: Json, compatModes: map<string, Json>): (mode: Json)
    ensures mode != Null ==> Get(p, "model").Str? && Get(p, "model").s in compatModes
    ensures p.Obj? && Get(p, "model").Str? && Get(p, "model").s in compatModes ==> mode == compatModes[Get(p, "model").s]
  {
    var model := Get(p, "model");
    if p.Obj? && model.Str? && model.s in compatModes then compatModes[model.s] else Null
  }

  /**
   * Lines 149-154: in compat "completion" mode the messages are flattened
   * into `prompt`, `messages` is removed and the completion endpoint is forced.
   */
  function CompatRewrite(st: Rewrite, mode: Json): (r: Rewrite)
    ensures !(mode == Str("completion") && Has(st.payload, "messages")) ==> r == st
    ensures mode == Str("completion") && Has(st.payload, "messages") ==>
      && r.payload.Obj? && !Has(r.payload, "messages")
      && Get(r.payload, "prompt") == Str(ProxyMessages.PromptOf(Get(st.payload, "messages")))
      && (forall k :: k != "prompt" && k != "messages" ==> Lookup(r.payload.fields, k) == Lookup(st.payload.fields, k))
      && r.normalized && r.force
  {
    var p := st.payload;
    if mode == Str("completion") && Has(p, "messages") then
      Rewrite(Obj(Delete(Put(p.fields, "prompt", Str(ProxyMessages.PromptOf(Get(p, "messages")))), "messages")), true, true)
    else st
  }

  /** Lines 156-161: `messages` is replaced by its sanitised form when that differs. */
  function SanitizeRewrite(st: Rewrite): (r: Rewrite)
    ensures !Has(st.payload, "messages") ==> r == st
    ensures Has(st.payload, "messages") ==>
      && Has(r.payload, "messages")
      && Get(r.payload, "messages") == Arr(ProxyMessages.SanitizedList(Get(st.payload, "messages")))
      && Keys(r.payload.fields) == Keys(st.payload.fields)
      && (forall k :: k != "messages" ==> Lookup(r.payload.fields, k) == Lookup(st.payload.fields, k))
      && r.force == st.force
      && r.normalized == (st.normalized || Arr(ProxyMessages.SanitizedList(Get(st.payload, "messages"))) != Get(st.payload, "messages"))
  {
    var p := st.payload;
    if Has(p, "messages") then
      var sanitized := Arr(ProxyMessages.SanitizedList(Get(p, "messages")));
      if sanitized != Get(p, "messages") then
        Rewrite(Obj(Put(p.fields, "messages", sanitized)), true, st.force)
      else
        assert Lookup(p.fields, "messages") == Some(sanitized);
        st
    else st
  }

  /** The payload after lines 111-161, before filtering, and the compat mode found. */
  function Normalize(body: Json, compatModes: map<string, Json>): (Rewrite, Json)
  {
    var s2 := PromptRewrite(InputRewrite(Rewrite(body, false, false)));
    var mode := CompatModeOf(s2.payload, compatModes);
    (SanitizeRewrite(CompatRewrite(s2, mode)), mode)
  }

  /** Lines 201-204: the allow-list that applies to a payload. */
  function AllowedKeys(force: bool, p: Json): set<string>
  {
    if force || !Has(p, "messages") then CompletionKeys else ChatKeys
  }

  // ---------------------------------------------------------------------
  // Rerouting (api.py:219-233, 279-282)
  // ---------------------------------------------------------------------

  const ChatPath := "/v1/chat/completions"
  const CompletionPath := "/v1/completions"

  /** A string that, once JSON-encoded, contains the text `"prompt"`. */
  predicate IsPromptToken(s: string) {
    s == "prompt" || EndsWith(s, "\"prompt")
  }

  /**
   * Whether `json.dumps(payload)` contains the text `"prompt"` (with the
   * quotes): some key or string value is `prompt`, or ends in a double
   * quote followed by `prompt` (that quote is written escaped).
   */
  predicate MentionsPrompt(j: Json)
  {
    match j
    case Str(s) => IsPromptToken(s)
    case Arr(items) => exists i :: 0 <= i < |items| && MentionsPrompt(items[i])
    case Obj(fields) => exists i :: 0 <= i < |fields| && FieldMentionsPrompt(j, fields[i])
    case _ => false
  }

  predicate FieldMentionsPrompt(parent: Json, f: (string, Json))
    requires f.1 < parent
    decreases parent, 0
  {
    IsPromptToken(f.0) || MentionsPrompt(f.1)
  }

  /** `messages_missing`: `messages` is not a non-empty list. */
  predicate MessagesMissing(p: Json) {
    var m := Get(p, "messages");
    !m.Arr? || |m.items| == 0
  }

  /**
   * Lines 219-233: the endpoint a request goes to.  `bodyMentionsPrompt`
   * says whether the body to be sent contains the text `"prompt"`.
   */
  function RoutedPath(targetPath: string, p: Json, force: bool, compatMode: Json, bodyMentionsPrompt: bool): string
  {
    if !EndsWith(targetPath, ChatPath) then targetPath
    else
      var hasMessages := Has(p, "messages");
      var hasPrompt := Has(p, "prompt") || bodyMentionsPrompt;
      if compatMode == Str("completion") then CompletionPath
      else if force || (hasPrompt && (MessagesMissing(p) || !hasMessages)) then CompletionPath
      else if !hasMessages && p == Null then CompletionPath
      else targetPath
  }

  /**
   * A chat request goes to the completions endpoint exactly when the model
   * is in compat "completion" mode, completion is forced, a prompt is
   * present while `messages` is not a non-empty list, or the body is not
   * JSON (or is `null`).  Other endpoints are never rerouted.
   */
  lemma RerouteCases(targetPath: string, p: Json, force: bool, compatMode: Json, bodyMentionsPrompt: bool)
    ensures !EndsWith(targetPath, ChatPath) ==> RoutedPath(targetPath, p, force, compatMode, bodyMentionsPrompt) == targetPath
    ensures EndsWith(targetPath, ChatPath) ==>
      (RoutedPath(targetPath, p, force, compatMode, bodyMentionsPrompt) == CompletionPath <==>
        || compatMode == Str("completion")
        || force
        || ((Has(p, "prompt") || bodyMentionsPrompt) && MessagesMissing(p))
        || p == Null)
  {
    if EndsWith(targetPath, ChatPath) {
      assert |targetPath| >= |ChatPath| > |CompletionPath|;
      if !Has(p, "messages") {
        assert MessagesMissing(p);
      }
    }
  }

  /** Lines 279-282: a chat request sent to the completions endpoint is never a completions path on both ends. */
  lemma ChatPathIsNotCompletionPath(path: string)
    requires EndsWith(path, ChatPath)
    ensures !EndsWith(path, CompletionPath)
  {
    var n := |path|;
    assert path[n - 15] == path[n - |ChatPath|..][|ChatPath| - 15] == 'h';
  }

  // ---------------------------------------------------------------------
  // The whole request step
  // ---------------------------------------------------------------------

  datatype RequestPlan = RequestPlan(
    payload: Json,
    normalized: bool,
    forceCompletion: bool,
    droppedKeys: seq<string>,
    compatMode: Json,
    sourcePath: string,
    targetPath: string,
    url: string,
    stream: bool,
    requestModel: Json,
    wrapCompletionToChat: bool)

  /** Lines 106-136: `input` and list-valued `prompt` are reshaped. */
  method ReshapeBody(body: Json) returns (payload: Json, normalized: bool, force: bool)
    ensures Rewrite(payload, normalized, force) == PromptRewrite(InputRewrite(Rewrite(body, false, false)))
  {
    payload := body;
    normalized := false;
    force := false;

    if payload.Obj? && !Has(payload, "messages") && Has(payload, "input") {
      var inputValue := Get(payload, "input");
      if inputValue.Arr? {
        payload := Obj(Delete(Put(payload.fields, "messages", inputValue), "input"));
        normalized := true;
      } else if inputValue.Str? {
        payload := Obj(Delete(Put(payload.fields, "prompt", inputValue), "input"));
        normalized := true;
        force := true;
      }
    }
    assert Rewrite(payload, normalized, force) == InputRewrite(Rewrite(body, false, false));

    if payload.Obj? && !Has(payload, "messages") && Has(payload, "prompt") {
      var promptValue := Get(payload, "prompt");
      if promptValue.Arr? {
        if AllDicts(promptValue.items) {
          payload := Obj(Delete(Put(payload.fields, "messages", promptValue), "prompt"));
          normalized := true;
        } else if AllStrings(promptValue.items) {
          payload := Obj(Put(payload.fields, "prompt", Str(Join(Strings(promptValue.items), "\n"))));
          normalized := true;
        }
      }
    }
  }

  /** Lines 106-161: the rewrites of the parsed body, flag by flag. */
  method NormalizePayload(body: Json, compatModes: map<string, Json>)
    returns (payload: Json, normalized: bool, force: bool, compatMode: Json)
    ensures (Rewrite(payload, normalized, force), compatMode) == Normalize(body, compatModes)
  {
    payload, normalized, force := ReshapeBody(body);
    compatMode := Null;
    ghost var s2 := Rewrite(payload, normalized, force);

    if payload.Obj? {
      var modelName := Get(payload, "model");
      if modelName.Str? && modelName.s in compatModes {
        compatMode := compatModes[modelName.s];
        if compatMode == Str("completion") && Has(payload, "messages") {
          var prompt := ProxyMessages.MessagesToPrompt(Get(payload, "messages"));
          payload := Obj(Delete(Put(payload.fields, "prompt", Str(prompt)), "messages"));
          normalized := true;
          force := true;
        }
      }
      assert compatMode == CompatModeOf(s2.payload, compatModes);
      assert Rewrite(payload, normalized, force) == CompatRewrite(s2, compatMode);

      if Has(payload, "messages") {
        var sanitized := ProxyMessages.SanitizeMessages(Get(payload, "messages"));
        if Arr(sanitized) != Get(payload, "messages") {
          payload := Obj(Put(payload.fields, "messages", Arr(sanitized)));
          normalized := true;
        }
      }
    }
  }

  /**
   * Lines 163-209: keys outside the endpoint's allow-list are dropped and
   * listed in `dropped`, in payload order; the payload counts as rewritten
   * only when something was dropped.
   */
  method FilterPayload(payload: Json, force: bool) returns (filtered: Json, dropped: seq<string>)
    ensures payload.Obj? ==>
      && filtered == Obj(KeepAllowed(payload.fields, AllowedKeys(force, payload)))
      && dropped == DroppedKeys(payload.fields, AllowedKeys(force, payload))
    ensures !payload.Obj? ==> filtered == payload && dropped == []
    ensures filtered.Obj? ==> forall k :: k in Keys(filtered.fields) ==> k in AllowedKeys(force, filtered)
    ensures (filtered == payload) <==> (dropped == [])
  {
    filtered := payload;
    dropped := [];
    if payload.Obj? {
      var allowed := if force then CompletionKeys else if Has(payload, "messages") then ChatKeys else CompletionKeys;
      var kept := KeepAllowed(payload.fields, allowed);
      dropped := DroppedKeys(payload.fields, allowed);
      FilterSplitsKeys(payload.fields, allowed);
      KeepAllowedContents(payload.fields, allowed);
      if kept != payload.fields {
        filtered := Obj(kept);
      }
      assert allowed == AllowedKeys(force, payload);
      assert "messages" in Keys(filtered.fields) ==> "messages" in allowed;
      assert AllowedKeys(force, filtered) == allowed by {
        if !force && Has(payload, "messages") {
          assert Lookup(kept, "messages") == Lookup(payload.fields, "messages");
        }
      }
    }
  }

  /** Lines 219-233: the endpoint the request is sent to. */
  method RouteRequest(targetPath: string, payload: Json, force: bool, compatMode: Json, bodyMentionsPrompt: bool)
    returns (target: string)
    ensures target == RoutedPath(targetPath, payload, force, compatMode, bodyMentionsPrompt)
  {
    target := targetPath;
    if EndsWith(targetPath, ChatPath) {
      var hasMessages := Has(payload, "messages");
      var hasPrompt := Has(payload, "prompt");
      var messagesValue := Get(payload, "messages");
      var messagesMissing := !messagesValue.Arr? || |messagesValue.items| == 0;
      if !hasPrompt {
        hasPrompt := bodyMentionsPrompt;
      }
      if compatMode == Str("completion") {
        target := CompletionPath;
      } else if force || (hasPrompt && (messagesMissing || !hasMessages)) {
        target := CompletionPath;
      } else if !hasMessages && payload == Null {
        target := CompletionPath;
      }
    }
  }

  /**
   * `_proxy_to_litellm` up to the HTTP call.  `body` is the parsed request
   * body (Null when it is not JSON), `rawMentionsPrompt` whether the raw
   * body contains the text `"prompt"`, and `compatModes` maps the model ids
   * of compat providers to the `mode` their user parameters set.  A missing
   * LiteLLM base URL is the HTTP 400 error.
   */
  method PrepareRequest(litellmBaseUrl: string, targetPath: string, body: Json, rawMentionsPrompt: bool,
                        compatModes: map<string, Json>)
    returns (r: Result<RequestPlan, nat>)
    ensures litellmBaseUrl == "" <==> r.Failure?
    ensures r.Failure? ==> r.error == 400
    ensures r.Success? ==>
      var plan := r.value;
      var (st, mode) := Normalize(body, compatModes);
      && plan.compatMode == mode
      && plan.forceCompletion == st.force
      && (st.payload.Obj? ==>
            && plan.payload == Obj(KeepAllowed(st.payload.fields, AllowedKeys(st.force, st.payload)))
            && plan.droppedKeys == DroppedKeys(st.payload.fields, AllowedKeys(st.force, st.payload)))
      && (!st.payload.Obj? ==> plan.payload == st.payload && plan.droppedKeys == [])
      && plan.normalized == (st.normalized || plan.droppedKeys != [])
      && plan.sourcePath == targetPath
      && plan.targetPath == RoutedPath(targetPath, plan.payload, st.force, mode,
                                       if plan.normalized then MentionsPrompt(plan.payload) else rawMentionsPrompt)
      && plan.url == RightTrimChar(litellmBaseUrl, '/') + plan.targetPath
      && plan.stream == Truthy(Get(plan.payload, "stream"))
      && plan.requestModel == Get(plan.payload, "model")
    ensures r.Success? && r.value.payload.Obj? ==>
      forall k :: k in Keys(r.value.payload.fields) ==> k in AllowedKeys(r.value.forceCompletion, r.value.payload)
    ensures r.Success? ==>
      (r.value.wrapCompletionToChat <==> EndsWith(targetPath, ChatPath) && EndsWith(r.value.targetPath, CompletionPath))
  {
    if litellmBaseUrl == "" {
      return Failure(400);
    }
    var payload, normalized, force, compatMode := NormalizePayload(body, compatModes);
    var filtered, dropped := FilterPayload(payload, force);
    if filtered != payload {
      normalized := true;
    }
    payload := filtered;

    var bodyMentionsPrompt := if normalized then MentionsPrompt(payload) else rawMentionsPrompt;
    var sourcePath := targetPath;
    var target := RouteRequest(targetPath, payload, force, compatMode, bodyMentionsPrompt);

    var stream := payload.Obj? && Truthy(Get(payload, "stream"));
    var requestModel := Get(payload, "model");
    var wrap := EndsWith(sourcePath, ChatPath) && EndsWith(target, CompletionPath);
    var url := RightTrimChar(litellmBaseUrl, '/') + target;
    r := Success(RequestPlan(payload, normalized, force, dropped, compatMode, sourcePath, target, url,
                             stream, requestModel, wrap));
  }

  /**
   * Lines 263-272: the forwarded headers.  The client's `authorization`
   * header wins over the configured API key; "" stands for an absent value.
   */
  function ForwardHeaders(authorization: string, apiKey: string, contentType: string): (headers: seq<(string, string)>)
    ensures forall i, j :: 0 <= i < j < |headers| ==> headers[i].0 != headers[j].0
    ensures forall h :: h in headers ==> h.0 == "authorization" || h.0 == "content-type"
    ensures authorization != "" ==> ("authorization", authorization) in headers
    ensures authorization == "" && apiKey != "" ==> ("authorization", "Bearer " + apiKey) in headers
    ensures authorization == "" && apiKey == "" ==> forall h :: h in headers ==> h.0 != "authorization"
    ensures contentType != "" ==> ("content-type", contentType) in headers
    ensures forall h :: h in headers && h.0 == "content-type" ==> contentType != "" && h.1 == contentType
  {
    var auth := if authorization != "" then [("authorization", authorization)]
                else if apiKey != "" then [("authorization", "Bearer " + apiKey)]
                else [];
    auth + (if contentType != "" then [("content-type", contentType)] else [])
  }
}
