/**
 * `Z3ProgramGenerator`: asks a language model for a Z3 DSL program, first
 * through the structured-output API and then through plain chat completions,
 * whose reply is searched for a JSON object.
 *
 * The model client, `json.loads`, `model_dump_json` and `build_prompt` are
 * outside this model; they are passed in as functions (`LlmClient`, `Library`).
 */
module ProgramGenerator {
  import opened Wrappers
  import opened JsonValue
  import opened StructuredOutput

  const StructuredSystemPrompt: string :=
    "You are an assistant that produces Z3 DSL programs. "
    + "Always respond with JSON that matches the provided schema."

  const DefaultModel: string := "gpt-4o"
  const DefaultTemperature: real := 0.1
  const DefaultMaxTokens: int := 16384

  const GenerateFailure: string := "Failed to extract valid JSON from response"
  const FeedbackFailure: string := "Failed to extract valid JSON from feedback response"

  // ---------------------------------------------------------------------------
  // Messages

  datatype Role = System | User | Assistant {
    /** The `"role"` string sent to the API. */
    function Name(): string {
      match this
      case System => "system"
      case User => "user"
      case Assistant => "assistant"
    }
  }

  /** One `{"role": ..., "content": ...}` chat message. */
  datatype Message = Message(role: Role, content: string)

  /** The user turn that reports an error back to the model. */
  function FeedbackText(errorTrace: string): string {
    "There was an error processing your response:\n" + errorTrace + "\nPlease fix the JSON accordingly."
  }

  // ---------------------------------------------------------------------------
  // Searching a reply for JSON: the two regular expressions of `_extract_json`

  /** Python's `\s` on a str pattern: the characters `str.isspace` accepts. */
  predicate IsSpace(c: char) {
    var n := c as int;
    || 0x09 <= n <= 0x0D || 0x1C <= n <= 0x20 || n == 0x85 || n == 0xA0 || n == 0x1680
    || 0x2000 <= n <= 0x200A || n == 0x2028 || n == 0x2029 || n == 0x202F || n == 0x205F || n == 0x3000
  }

  const JsonFence: string := "```json"
  const Fence: string := "```"

  /** `w` occurs in `s` at position `p`. */
  predicate HasAt(s: string, p: nat, w: string) {
    p + |w| <= |s| && s[p..p + |w|] == w
  }

  /** `s[a..b]` is all whitespace. */
  predicate AllSpace(s: string, a: nat, b: nat) {
    a <= b <= |s| && forall t :: a <= t < b ==> IsSpace(s[t])
  }

  /** The end of the run of whitespace that starts at `p` (a greedy `\s*`). */
  function SkipSpaces(s: string, p: nat): (q: nat)
    requires p <= |s|
    ensures p <= q <= |s|
    ensures AllSpace(s, p, q)
    ensures q < |s| ==> !IsSpace(s[q])
    decreases |s| - p
  {
    if p < |s| && IsSpace(s[p]) then SkipSpaces(s, p + 1) else p
  }

  /** A whitespace run followed by a non-space character ends where `SkipSpaces` stops. */
  lemma SpaceRunEnd(s: string, a: nat, m: nat)
    requires AllSpace(s, a, m) && m < |s| && !IsSpace(s[m])
    ensures m == SkipSpaces(s, a)
  {
  }

  /** "```json", optional whitespace, and the opening brace at `j`: where the fenced pattern's group starts. */
  ghost predicate OpensAt(s: string, i: nat, j: nat) {
    HasAt(s, i, JsonFence) && AllSpace(s, i + |JsonFence|, j) && j < |s| && s[j] == '{'
  }

  /** The brace at `k`, optional whitespace, and "```" at `m`: where the fenced pattern's group may end. */
  ghost predicate ClosesAt(s: string, k: nat, m: nat) {
    k < |s| && s[k] == '}' && k + 1 <= m && AllSpace(s, k + 1, m) && HasAt(s, m, Fence)
  }

  ghost predicate Closes(s: string, k: nat) {
    exists m: nat :: ClosesAt(s, k, m)
  }

  /**
   * The pattern "```json\s*(\{[\s\S]*?\})\s*```" matches with the fence at `i`
   * and the group `s[j..k + 1]`.
   */
  ghost predicate FenceMatch(s: string, i: nat, j: nat, k: nat) {
    OpensAt(s, i, j) && j < k && Closes(s, k)
  }

  /** Whether the brace at `k` closes a fenced block, decided by scanning. */
  predicate ClosesHere(s: string, k: nat)
    requires k < |s|
  {
    s[k] == '}' && HasAt(s, SkipSpaces(s, k + 1), Fence)
  }

  lemma ClosesIff(s: string, k: nat)
    requires k < |s|
    ensures Closes(s, k) <==> ClosesHere(s, k)
  {
    var q := SkipSpaces(s, k + 1);
    if ClosesHere(s, k) {
      assert ClosesAt(s, k, q);
    }
    if Closes(s, k) {
      var m: nat :| ClosesAt(s, k, m);
      assert s[m..m + |Fence|] == Fence;
      assert s[m] == s[m..m + |Fence|][0] == Fence[0] == '`';
      assert !IsSpace(s[m]);
      SpaceRunEnd(s, k + 1, m);
    }
  }

  /** The opening brace after a fence is where its whitespace run ends. */
  lemma OpensUnique(s: string, i: nat)
    ensures forall j: nat :: OpensAt(s, i, j) ==> j == SkipSpaces(s, i + |JsonFence|)
  {
    forall j: nat | OpensAt(s, i, j)
      ensures j == SkipSpaces(s, i + |JsonFence|)
    {
      SpaceRunEnd(s, i + |JsonFence|, j);
    }
  }

  /** The first brace at or after `k` that closes a fenced block: the lazy `[\s\S]*?\}`. */
  function FindClose(s: string, k: nat): (r: Option<nat>)
    requires k <= |s|
    ensures r.Some? ==> k <= r.value < |s| && Closes(s, r.value)
    ensures r.Some? ==> forall t: nat :: k <= t < r.value ==> !Closes(s, t)
    ensures r.None? ==> forall t: nat :: k <= t < |s| ==> !Closes(s, t)
    decreases |s| - k
  {
    if k == |s| then None
    else
      ClosesIff(s, k);
      if ClosesHere(s, k) then Some(k) else FindClose(s, k + 1)
  }

  /** Where a fenced match lies: the fence, and the braces that delimit the group. */
  datatype FenceHit = FenceHit(fence: nat, open: nat, close: nat)

  /** The fenced match that starts at `i`, with its shortest group, if there is one. */
  function MatchAt(s: string, i: nat): (r: Option<FenceHit>)
    requires i <= |s|
    ensures r.Some? ==> r.value.fence == i && FenceMatch(s, i, r.value.open, r.value.close)
    ensures r.Some? ==> forall j: nat, k: nat :: k < r.value.close ==> !FenceMatch(s, i, j, k)
    ensures r.None? ==> forall j: nat, k: nat :: !FenceMatch(s, i, j, k)
  {
    OpensUnique(s, i);
    if !HasAt(s, i, JsonFence) then None
    else
      var j := SkipSpaces(s, i + |JsonFence|);
      if j == |s| || s[j] != '{' then None
      else
        assert OpensAt(s, i, j);
        match FindClose(s, j + 1)
        case None => None
        case Some(k) => Some(FenceHit(i, j, k))
  }

  /** The leftmost fenced match at or after `i`: what `re.search` finds. */
  function FindFenceFrom(s: string, i: nat): (r: Option<FenceHit>)
    requires i <= |s|
    ensures r.Some? ==> i <= r.value.fence && FenceMatch(s, r.value.fence, r.value.open, r.value.close)
    ensures r.Some? ==> forall f: nat, j: nat, k: nat :: i <= f < r.value.fence ==> !FenceMatch(s, f, j, k)
    ensures r.Some? ==> forall j: nat, k: nat :: k < r.value.close ==> !FenceMatch(s, r.value.fence, j, k)
    ensures r.None? ==> forall f: nat, j: nat, k: nat :: i <= f ==> !FenceMatch(s, f, j, k)
    decreases |s| - i
  {
    match MatchAt(s, i)
    case Some(hit) => Some(hit)
    case None => if i == |s| then None else FindFenceFrom(s, i + 1)
  }

  function FindFence(s: string): (r: Option<FenceHit>)
    ensures r.Some? ==> r.value.open < r.value.close < |s|
  {
    FindFenceFrom(s, 0)
  }

  /** `s[f..l + 1]` is what "\{[\s\S]*\}" matches: from the first "{" to the last "}". */
  ghost predicate GreedyBraces(s: string, f: nat, l: nat) {
    && f < l < |s| && s[f] == '{' && s[l] == '}'
    && (forall t :: 0 <= t < f ==> s[t] != '{')
    && (forall t :: l < t < |s| ==> s[t] != '}')
  }

  function FirstIndexOf(s: string, c: char, from: nat): (r: Option<nat>)
    requires from <= |s|
    ensures r.Some? ==> from <= r.value < |s| && s[r.value] == c
    ensures r.Some? ==> forall t :: from <= t < r.value ==> s[t] != c
    ensures r.None? ==> forall t :: from <= t < |s| ==> s[t] != c
    decreases |s| - from
  {
    if from == |s| then None
    else if s[from] == c then Some(from)
    else FirstIndexOf(s, c, from + 1)
  }

  /** The last index of `c` in `s[..upTo]`. */
  function LastIndexOf(s: string, c: char, upTo: nat): (r: Option<nat>)
    requires upTo <= |s|
    ensures r.Some? ==> r.value < upTo && s[r.value] == c
    ensures r.Some? ==> forall t :: r.value < t < upTo ==> s[t] != c
    ensures r.None? ==> forall t :: 0 <= t < upTo ==> s[t] != c
  {
    if upTo == 0 then None
    else if s[upTo - 1] == c then Some(upTo - 1)
    else LastIndexOf(s, c, upTo - 1)
  }

  /** The braces of a greedy brace match. */
  datatype Span = Span(open: nat, close: nat)

  /** The match of "\{[\s\S]*\}", or None when no "}" follows the first "{". */
  function FindBraces(s: string): (r: Option<Span>)
    ensures r.Some? ==> GreedyBraces(s, r.value.open, r.value.close)
    ensures r.None? ==> forall f, l :: 0 <= f < l < |s| && s[f] == '{' ==> s[l] != '}'
  {
    match (FirstIndexOf(s, '{', 0), LastIndexOf(s, '}', |s|))
    case (Some(f), Some(l)) => if f < l then Some(Span(f, l)) else None
    case _ => None
  }

  // ---------------------------------------------------------------------------
  // The model API and the generator

  /** The arguments of `responses.parse`; the output format is always the `StructuredProgram` schema. */
  datatype StructuredRequest = StructuredRequest(model: string, input: seq<Message>, temperature: real, maxOutputTokens: int)

  /** The arguments of `chat.completions.create`. */
  datatype ChatRequest = ChatRequest(model: string, messages: seq<Message>, maxCompletionTokens: int)

  /** What `responses.parse` does: raise, or return a response whose `output_parsed` may be missing. */
  datatype ParseOutcome = ParseRaised(error: string) | ParseResponse(outputParsed: Option<StructuredProgram>)

  /** What `_call_chat_completion` does: raise (its text is `str(exc)`), or return the reply's content. */
  datatype ChatOutcome = ChatRaised(error: string) | ChatReply(content: string)

  /**
   * The model client, one answer per request. `responsesParse` is None when the
   * client has no `responses` attribute, a falsy one, or one without `parse`.
   */
  datatype LlmClient = LlmClient(
    responsesParse: Option<StructuredRequest -> ParseOutcome>,
    chatCreate: ChatRequest -> ChatOutcome)

  /** Library code the generator calls: `build_prompt`, `json.loads` (None on a decode error) and `model_dump_json`. */
  datatype Library = Library(
    buildPrompt: string -> string,
    jsonLoads: string -> Option<Value>,
    dumpJson: StructuredProgram -> string)

  datatype GenerationResult = GenerationResult(
    jsonProgram: Option<Value>,
    rawResponse: string,
    success: bool,
    error: Option<string> := None)
  {
    /** A success carries a truthy program and no error; a failure carries an error and no program. */
    predicate Consistent() {
      && (success <==> jsonProgram.Some?)
      && (success <==> error.None?)
      && (success ==> Truthy(jsonProgram.value))
    }
  }

  datatype Z3ProgramGenerator = Z3ProgramGenerator(llmClient: LlmClient, model: string := DefaultModel) {

    /** `_initial_messages`: the system instruction, then the prompt. */
    function InitialMessages(prompt: string): (ms: seq<Message>)
      ensures |ms| == 2
      ensures ms[0] == Message(System, StructuredSystemPrompt) && ms[1] == Message(User, prompt)
      ensures ms[0].role.Name() == "system" && ms[1].role.Name() == "user"
    {
      [Message(System, StructuredSystemPrompt), Message(User, prompt)]
    }

    /** `_feedback_messages`: the initial conversation, the model's previous reply, then the feedback. */
    function FeedbackMessages(prompt: string, previousResponse: string, feedbackMessage: string): (ms: seq<Message>)
      ensures |ms| == 4
      ensures ms[..2] == InitialMessages(prompt)
      ensures ms[2] == Message(Assistant, previousResponse) && ms[3] == Message(User, feedbackMessage)
      ensures ms[2].role.Name() == "assistant" && ms[3].role.Name() == "user"
    {
      [Message(System, StructuredSystemPrompt), Message(User, prompt),
       Message(Assistant, previousResponse), Message(User, feedbackMessage)]
    }

    /** `_extract_json`: decode the candidate JSON text of a reply, if it has one. */
    function ExtractJson(markdownContent: string, lib: Library): (r: Option<Value>)
      ensures r.Some? ==> exists a: nat, b: nat ::
        (&& a < b < |markdownContent|
         && markdownContent[a] == '{' && markdownContent[b] == '}'
         && lib.jsonLoads(markdownContent[a..b + 1]) == r)
    {
      match FindFence(markdownContent)
      case Some(hit) => lib.jsonLoads(markdownContent[hit.open..hit.close + 1])
      case None =>
        match FindBraces(markdownContent)
        case Some(span) => lib.jsonLoads(markdownContent[span.open..span.close + 1])
        case None => None
    }

    /**
     * With a fenced match, the result is the decoding of its group: the
     * shortest group of the leftmost fence. A decode failure there gives None;
     * the brace fallback is not tried.
     */
    lemma ExtractFenced(s: string, lib: Library, i: nat, j: nat, k: nat)
      requires FenceMatch(s, i, j, k)
      requires forall f: nat, j': nat, k': nat :: f < i ==> !FenceMatch(s, f, j', k')
      requires forall j': nat, k': nat :: k' < k ==> !FenceMatch(s, i, j', k')
      ensures k < |s| && ExtractJson(s, lib) == lib.jsonLoads(s[j..k + 1])
    {
    }

    /** Without a fenced match, the result is the decoding of the text from the first "{" to the last "}". */
    lemma ExtractUnfenced(s: string, lib: Library, f: nat, l: nat)
      requires forall i: nat, j: nat, k: nat :: !FenceMatch(s, i, j, k)
      requires GreedyBraces(s, f, l)
      ensures ExtractJson(s, lib) == lib.jsonLoads(s[f..l + 1])
    {
    }

    /** Without a fenced match and without a "}" after the first "{", the result is None. */
    lemma ExtractNothing(s: string, lib: Library)
      requires forall i: nat, j: nat, k: nat :: !FenceMatch(s, i, j, k)
      requires forall f, l :: 0 <= f < l < |s| && s[f] == '{' ==> s[l] != '}'
      ensures ExtractJson(s, lib) == None
    {
    }

    /**
     * `_call_structured_api`: the parsed program as the interpreter dictionary
     * and its JSON text, or None when the structured API is missing, raises, or
     * parses nothing.
     */
    function CallStructuredApi(messages: seq<Message>, temperature: real, maxTokens: int, lib: Library): (r: Option<(Value, string)>)
      ensures llmClient.responsesParse.None? ==> r.None?
      ensures llmClient.responsesParse.Some? ==>
        var outcome := llmClient.responsesParse.value(StructuredRequest(model, messages, temperature, maxTokens));
        && (outcome.ParseRaised? ==> r.None?)
        && (outcome.ParseResponse? && outcome.outputParsed.None? ==> r.None?)
        && (outcome.ParseResponse? && outcome.outputParsed.Some? ==>
              var p := outcome.outputParsed.value;
              r == Some((Obj(p.DslDict()), lib.dumpJson(p))))
      ensures r.Some? ==> r.value.0.Obj? && SectionKeys <= r.value.0.fields.Keys && Truthy(r.value.0)
    {
      match llmClient.responsesParse
      case None => None
      case Some(parse) =>
        match parse(StructuredRequest(model, messages, temperature, maxTokens))
        case ParseRaised(_) => None
        case ParseResponse(parsed) =>
          match parsed
          case None => None
          case Some(p) =>
            var program := p.DslDict();
            assert "sorts" in program;
            Some((Obj(program), lib.dumpJson(p)))
    }

    /**
     * The decision tree `generate` and `generate_with_feedback` share: the
     * structured result if there is one, otherwise the chat reply's JSON.
     */
    function Respond(messages: seq<Message>, temperature: real, maxTokens: int, lib: Library, extractionError: string): (r: GenerationResult)
      ensures r.Consistent()
    {
      match CallStructuredApi(messages, temperature, maxTokens, lib)
      case Some((program, text)) => GenerationResult(Some(program), text, true)
      case None =>
        match llmClient.chatCreate(ChatRequest(model, messages, maxTokens))
        case ChatRaised(e) => GenerationResult(None, "", false, Some(e))
        case ChatReply(rawResponse) =>
          var jsonProgram := ExtractJson(rawResponse, lib);
          if jsonProgram.Some? && Truthy(jsonProgram.value) then GenerationResult(jsonProgram, rawResponse, true)
          else GenerationResult(None, rawResponse, false, Some(extractionError))
    }

    /** `generate`: the two initial messages, with the plain extraction-failure text. */
    function Generate(question: string, lib: Library, temperature: real := DefaultTemperature, maxTokens: int := DefaultMaxTokens): (r: GenerationResult)
      ensures r.Consistent()
      ensures r == Respond(InitialMessages(lib.buildPrompt(question)), temperature, maxTokens, lib, GenerateFailure)
    {
      var prompt := lib.buildPrompt(question);
      Respond(InitialMessages(prompt), temperature, maxTokens, lib, GenerateFailure)
    }

    /** `generate_with_feedback`: the four feedback messages, with the feedback extraction-failure text. */
    function GenerateWithFeedback(
      question: string, errorTrace: string, previousResponse: string, lib: Library,
      temperature: real := DefaultTemperature, maxTokens: int := DefaultMaxTokens): (r: GenerationResult)
      ensures r.Consistent()
      ensures r == Respond(FeedbackMessages(lib.buildPrompt(question), previousResponse, FeedbackText(errorTrace)),
                           temperature, maxTokens, lib, FeedbackFailure)
    {
      var prompt := lib.buildPrompt(question);
      var messages := FeedbackMessages(prompt, previousResponse, FeedbackText(errorTrace));
      Respond(messages, temperature, maxTokens, lib, FeedbackFailure)
    }

    /** A structured result wins, and the chat API does not affect the outcome. */
    lemma StructuredFirst(messages: seq<Message>, temperature: real, maxTokens: int, lib: Library, extractionError: string,
                          otherChat: ChatRequest -> ChatOutcome)
      requires CallStructuredApi(messages, temperature, maxTokens, lib).Some?
      ensures var (program, text) := CallStructuredApi(messages, temperature, maxTokens, lib).value;
        Respond(messages, temperature, maxTokens, lib, extractionError) == GenerationResult(Some(program), text, true, None)
      ensures var other := this.(llmClient := llmClient.(chatCreate := otherChat));
        other.Respond(messages, temperature, maxTokens, lib, extractionError)
        == Respond(messages, temperature, maxTokens, lib, extractionError)
    {
    }

    /** When the chat call raises, the result is a failure with an empty raw response and the exception text. */
    lemma ChatRaisedFails(messages: seq<Message>, temperature: real, maxTokens: int, lib: Library, extractionError: string)
      requires CallStructuredApi(messages, temperature, maxTokens, lib).None?
      requires llmClient.chatCreate(ChatRequest(model, messages, maxTokens)).ChatRaised?
      ensures Respond(messages, temperature, maxTokens, lib, extractionError)
        == GenerationResult(None, "", false, Some(llmClient.chatCreate(ChatRequest(model, messages, maxTokens)).error))
    {
    }

    /**
     * A chat reply keeps its raw text; it succeeds exactly when extraction
     * yields a truthy value, and otherwise reports the fixed extraction error.
     */
    lemma ReplyExtracted(messages: seq<Message>, temperature: real, maxTokens: int, lib: Library, extractionError: string)
      requires CallStructuredApi(messages, temperature, maxTokens, lib).None?
      requires llmClient.chatCreate(ChatRequest(model, messages, maxTokens)).ChatReply?
      ensures var raw := llmClient.chatCreate(ChatRequest(model, messages, maxTokens)).content;
        var r := Respond(messages, temperature, maxTokens, lib, extractionError);
        var extracted := ExtractJson(raw, lib);
        && r.rawResponse == raw
        && (r.success <==> extracted.Some? && Truthy(extracted.value))
        && (r.success ==> r.jsonProgram == extracted)
        && (!r.success ==> r.error == Some(extractionError))
    {
    }

    /**
     * An extracted empty object `{}` is falsy, so a reply that is exactly "{}"
     * is reported as a failure, with the reply kept as the raw response.
     */
    lemma EmptyObjectFails(messages: seq<Message>, temperature: real, maxTokens: int, lib: Library, extractionError: string)
      requires CallStructuredApi(messages, temperature, maxTokens, lib).None?
      requires llmClient.chatCreate(ChatRequest(model, messages, maxTokens)) == ChatReply("{}")
      requires lib.jsonLoads("{}") == Some(Obj(map[]))
      ensures Respond(messages, temperature, maxTokens, lib, extractionError)
        == GenerationResult(None, "{}", false, Some(extractionError))
    {
      ExtractUnfenced("{}", lib, 0, 1);
      assert "{}"[0..2] == "{}";
      assert ExtractJson("{}", lib) == Some(Obj(map[]));
    }
  }
}
