/**
 * The seven nodes of the meeting-notes pipeline. Each node reads and writes the shared
 * memory; a node is described twice: by a step function from the memory before the node to
 * the memory after it and the node's outcome (a returned dict or a raised exception), and
 * by a method that performs the same reads and writes one by one on a `Memory` object and
 * is proved to agree with the step function. The lemmas state the rules of each node on the
 * step functions.
 */
module Nodes {
  import opened Wrappers
  import opened Json
  import opened Text
  import opened Config
  import opened Schema
  import opened Extraction
  import opened Prompt
  import opened SlackBlocks
  import opened Graph
  import opened Context

  // ---------------------------------------------------------------------------
  // Outcomes
  // ---------------------------------------------------------------------------

  /**
   * An exception leaving a node. The agent's own `ValueError`s carry their message; a
   * failed schema check raised by the report model carries its reason; `TypeError` and
   * `AttributeError` are raised by the runtime when a memory value has the wrong shape;
   * `ProviderError` is whatever the language-model client raises, with its message.
   */
  datatype PyException =
    | ValueError(message: string)
    | ValidationError(reason: SchemaError)
    | TypeError
    | AttributeError
    | ProviderError(description: string)

  datatype Outcome = Completed(result: Json) | Raised(exception: PyException)

  /** The memory after a node, and how the node ended. */
  datatype Step = Step(store: map<string, Json>, outcome: Outcome)

  /** Apart from the entries named in `keys`, `after` is `before`. */
  ghost predicate WritesOnly(before: map<string, Json>, after: map<string, Json>, keys: seq<string>) {
    forall k :: k !in keys ==> (k in after <==> k in before) && (k in before ==> after[k] == before[k])
  }

  // ---------------------------------------------------------------------------
  // Memory keys
  // ---------------------------------------------------------------------------

  const TranscriptKey: string := "transcript"
  const MeetingNameKey: string := "meeting_name"
  const MeetingDateKey: string := "meeting_date"
  const SlackChannelKey: string := "slack_channel"
  const LlmProviderKey: string := "llm_provider"
  const ValidatedTranscriptKey: string := "validated_transcript"
  const ValidationErrorKey: string := "validation_error"
  const RawExtractionKey: string := "raw_extraction"
  const MeetingNotesKey: string := "meeting_notes"
  const ParseErrorKey: string := "parse_error"
  const SlackPayloadKey: string := "slack_payload"
  const SlackResultKey: string := "slack_result"
  const FinalOutputKey: string := "final_output"

  // ---------------------------------------------------------------------------
  // Node specifications
  // ---------------------------------------------------------------------------

  const ValidateInputNode: NodeSpec := NodeSpec(
    "validate-input", "Validate Input",
    [TranscriptKey, MeetingNameKey, MeetingDateKey, SlackChannelKey, LlmProviderKey],
    [ValidatedTranscriptKey, MeetingNameKey, MeetingDateKey, SlackChannelKey, LlmProviderKey, ValidationErrorKey],
    false)

  const ExtractMeetingDataNode: NodeSpec := NodeSpec(
    "extract-meeting-data", "Extract Meeting Data",
    [ValidatedTranscriptKey, MeetingNameKey, MeetingDateKey, LlmProviderKey],
    [RawExtractionKey],
    false)

  const ParseAndValidateNode: NodeSpec := NodeSpec(
    "parse-and-validate", "Parse & Validate Output",
    [RawExtractionKey],
    [MeetingNotesKey, ParseErrorKey],
    false)

  const FormatSlackNode: NodeSpec := NodeSpec(
    "format-slack-message", "Format Slack Message",
    [MeetingNotesKey, MeetingNameKey, MeetingDateKey],
    [SlackPayloadKey],
    false)

  const PostToSlackNode: NodeSpec := NodeSpec(
    "post-to-slack", "Post to Slack",
    [SlackPayloadKey, SlackChannelKey],
    [SlackResultKey],
    false)

  const CompileOutputNode: NodeSpec := NodeSpec(
    "compile-final-output", "Compile Final Output",
    [MeetingNotesKey, SlackResultKey],
    [FinalOutputKey],
    true)

  const HandleErrorNode: NodeSpec := NodeSpec(
    "handle-error", "Handle Error",
    [ValidationErrorKey, ParseErrorKey],
    [FinalOutputKey],
    true)

  // ---------------------------------------------------------------------------
  // Rendering a memory value into text
  // ---------------------------------------------------------------------------

  /** The values whose `str()` the model spells out: everything except lists and dicts. */
  predicate Scalar(v: Json) {
    !v.JArr? && !v.JObj?
  }

  /** `str(v)` (equivalently `f"{v}"`) for a scalar value. */
  function Display(v: Json): string
    requires Scalar(v)
  {
    match v
    case JNull => "None"
    case JBool(b) => if b then "True" else "False"
    case JNum(n) => if n < 0 then "-" + Decimal(-n) else Decimal(n)
    case JStr(s) => s
  }

  // ---------------------------------------------------------------------------
  // validate_input
  // ---------------------------------------------------------------------------

  const UntitledMeeting: string := "Untitled Meeting"
  const MinTranscriptLength: nat := 50
  const EmptyTranscriptError: string := "transcript field is required and cannot be empty"
  const EmptyTranscriptMessage: string := "Empty transcript provided"
  const TooShortMessage: string := "Transcript too short"

  function TooShortError(length: nat): string {
    "Transcript is too short (" + Decimal(length) + " chars). Minimum 50 characters required."
  }

  /** The registry alias a requested provider resolves to: its lower-case form, if registered. */
  function ResolveProvider(requested: string): string {
    if Lower(requested) in ModelRegistry then Lower(requested) else DefaultProvider
  }

  const StatusOk: Json := JObj(map["status" := JStr("ok")])

  /** `validate_input` on the memory `store`. */
  function ValidateInputStep(store: map<string, Json>): Step {
    var transcript := Lookup(store, TranscriptKey, JStr(""));
    var meetingName := Lookup(store, MeetingNameKey, JStr(UntitledMeeting));
    var meetingDate := Lookup(store, MeetingDateKey, JStr(UnknownDate));
    var slackChannel := Lookup(store, SlackChannelKey, JNull);
    var llmProvider := Lookup(store, LlmProviderKey, JStr(DefaultProvider));
    if !Truthy(transcript) then
      Step(store[ValidationErrorKey := JStr(EmptyTranscriptError)], Raised(ValueError(EmptyTranscriptMessage)))
    else if !transcript.JStr? then
      Step(store, Raised(AttributeError))
    else if Strip(transcript.s) == "" then
      Step(store[ValidationErrorKey := JStr(EmptyTranscriptError)], Raised(ValueError(EmptyTranscriptMessage)))
    else
      var trimmed := Strip(transcript.s);
      if |trimmed| < MinTranscriptLength then
        Step(store[ValidationErrorKey := JStr(TooShortError(|trimmed|))], Raised(ValueError(TooShortMessage)))
      else
        var requested := Or(llmProvider, JStr(DefaultProvider));
        if !requested.JStr? then Step(store, Raised(AttributeError))
        else
          Step(store[ValidatedTranscriptKey := JStr(trimmed)]
                    [MeetingNameKey := Or(meetingName, JStr(UntitledMeeting))]
                    [MeetingDateKey := Or(meetingDate, JStr(UnknownDate))]
                    [SlackChannelKey := slackChannel]
                    [LlmProviderKey := JStr(ResolveProvider(requested.s))]
                    [ValidationErrorKey := JNull],
               Completed(StatusOk))
  }

  method ValidateInput(mem: Memory) returns (outcome: Outcome)
    modifies mem
    ensures Step(mem.store, outcome) == ValidateInputStep(old(mem.store))
  {
    var transcript := mem.Get(TranscriptKey, JStr(""));
    var meetingName := mem.Get(MeetingNameKey, JStr(UntitledMeeting));
    var meetingDate := mem.Get(MeetingDateKey, JStr(UnknownDate));
    var slackChannel := mem.Get(SlackChannelKey, JNull);
    var llmProvider := mem.Get(LlmProviderKey, JStr(DefaultProvider));

    if !Truthy(transcript) {
      mem.Set(ValidationErrorKey, JStr(EmptyTranscriptError));
      return Raised(ValueError(EmptyTranscriptMessage));
    }
    if !transcript.JStr? {
      return Raised(AttributeError);
    }
    if Strip(transcript.s) == "" {
      mem.Set(ValidationErrorKey, JStr(EmptyTranscriptError));
      return Raised(ValueError(EmptyTranscriptMessage));
    }

    var trimmed := Strip(transcript.s);
    if |trimmed| < MinTranscriptLength {
      mem.Set(ValidationErrorKey, JStr(TooShortError(|trimmed|)));
      return Raised(ValueError(TooShortMessage));
    }

    var requested := Or(llmProvider, JStr(DefaultProvider));
    if !requested.JStr? {
      return Raised(AttributeError);
    }
    var resolved := Lower(requested.s);
    if resolved !in ModelRegistry {
      resolved := DefaultProvider;
    }

    mem.Set(ValidatedTranscriptKey, JStr(trimmed));
    mem.Set(MeetingNameKey, Or(meetingName, JStr(UntitledMeeting)));
    mem.Set(MeetingDateKey, Or(meetingDate, JStr(UnknownDate)));
    mem.Set(SlackChannelKey, slackChannel);
    mem.Set(LlmProviderKey, JStr(resolved));
    mem.Set(ValidationErrorKey, JNull);
    outcome := Completed(StatusOk);
  }

  /** A transcript the validator refuses: missing, falsy, or under 50 characters once trimmed. */
  predicate TranscriptRejected(store: map<string, Json>) {
    var t := Lookup(store, TranscriptKey, JStr(""));
    !Truthy(t) || (t.JStr? && |Strip(t.s)| < MinTranscriptLength)
  }

  /**
   * A missing, empty, whitespace-only or too short transcript, and only such a transcript,
   * makes the validator raise a `ValueError`; it then records a non-empty message under
   * `validation_error` and writes nothing else. The message names the empty transcript
   * exactly when nothing is left after trimming.
   */
  lemma ValidateInputRejects(store: map<string, Json>)
    ensures var step := ValidateInputStep(store);
      TranscriptRejected(store) <==> step.outcome.Raised? && step.outcome.exception.ValueError?
    ensures var step := ValidateInputStep(store);
      var t := Lookup(store, TranscriptKey, JStr(""));
      TranscriptRejected(store) ==>
        && ValidationErrorKey in step.store
        && step.store == store[ValidationErrorKey := step.store[ValidationErrorKey]]
        && step.store[ValidationErrorKey].JStr?
        && step.store[ValidationErrorKey].s != ""
        && (step.store[ValidationErrorKey].s == EmptyTranscriptError <==> !t.JStr? || Strip(t.s) == "")
  {
    var t := Lookup(store, TranscriptKey, JStr(""));
    if t.JStr? && Strip(t.s) != "" {
      var n := |Strip(t.s)|;
      var prefix := "Transcript is too short (";
      assert TooShortError(n) == prefix + Decimal(n) + " chars). Minimum 50 characters required.";
      assert TooShortError(n)[0] == prefix[0];
    }
  }

  /**
   * A string transcript of at least 50 characters once trimmed is accepted whenever the
   * requested provider is a string or falsy. The memory then holds the trimmed transcript,
   * a registered provider alias (the lower-cased request when registered, otherwise
   * `anthropic`), a truthy meeting name and date (the placeholders replacing falsy ones),
   * the channel as given and a cleared `validation_error`; no other key is written.
   */
  lemma ValidateInputAccepts(store: map<string, Json>)
    requires TranscriptKey in store && store[TranscriptKey].JStr?
    requires |Strip(store[TranscriptKey].s)| >= MinTranscriptLength
    ensures var step := ValidateInputStep(store);
      var requested := Or(Lookup(store, LlmProviderKey, JStr(DefaultProvider)), JStr(DefaultProvider));
      step.outcome.Completed? <==> requested.JStr?
    ensures var step := ValidateInputStep(store);
      var requested := Or(Lookup(store, LlmProviderKey, JStr(DefaultProvider)), JStr(DefaultProvider));
      step.outcome.Completed? ==>
        && step.outcome.result == StatusOk
        && step.store[ValidatedTranscriptKey] == JStr(Strip(store[TranscriptKey].s))
        && step.store[LlmProviderKey].JStr?
        && step.store[LlmProviderKey].s in ModelRegistry
        && (Lower(requested.s) in ModelRegistry ==> step.store[LlmProviderKey].s == Lower(requested.s))
        && (Lower(requested.s) !in ModelRegistry ==> step.store[LlmProviderKey].s == DefaultProvider)
        && Truthy(step.store[MeetingNameKey])
        && Truthy(step.store[MeetingDateKey])
        && (MeetingNameKey in store && Truthy(store[MeetingNameKey]) ==> step.store[MeetingNameKey] == store[MeetingNameKey])
        && (MeetingDateKey in store && Truthy(store[MeetingDateKey]) ==> step.store[MeetingDateKey] == store[MeetingDateKey])
        && (!(MeetingNameKey in store && Truthy(store[MeetingNameKey])) ==> step.store[MeetingNameKey] == JStr(UntitledMeeting))
        && (!(MeetingDateKey in store && Truthy(store[MeetingDateKey])) ==> step.store[MeetingDateKey] == JStr(UnknownDate))
        && step.store[SlackChannelKey] == Lookup(store, SlackChannelKey, JNull)
        && step.store[ValidationErrorKey] == JNull
        && WritesOnly(store, step.store, ValidateInputNode.outputKeys)
  {
    assert Truthy(store[TranscriptKey]);
  }

  /** Resolution ignores the case of ASCII letters: "Claude", "CLAUDE" and "claude" agree. */
  lemma ResolveProviderIgnoresCase(requested: string)
    ensures ResolveProvider(Upper(requested)) == ResolveProvider(requested)
    ensures ResolveProvider(Lower(requested)) == ResolveProvider(requested)
  {
    assert Lower(Upper(requested)) == Lower(requested);
    assert Lower(Lower(requested)) == Lower(requested);
  }

  /** Every registered alias resolves to itself; an unregistered one (such as "gpt-99-turbo") to `anthropic`. */
  lemma ResolveProviderExamples()
    ensures forall p :: p in ModelRegistry ==> ResolveProvider(p) == p
    ensures ResolveProvider("Gemini") == "gemini"
    ensures ResolveProvider("gpt-99-turbo") == DefaultProvider
  {
    forall p | p in ModelRegistry
      ensures ResolveProvider(p) == p
    {
      assert Lower(p) == p;
    }
    assert Lower("Gemini") == "gemini";
  }

  // ---------------------------------------------------------------------------
  // extract_meeting_data
  // ---------------------------------------------------------------------------

  /** `MODEL_REGISTRY.get(provider, default_config.model)`; a list or dict cannot be a key. */
  function ModelFor(provider: Json): (r: Result<string, PyException>)
    ensures r.Success? <==> Scalar(provider)
    ensures r.Success? ==> r.value in ModelRegistry.Values
  {
    if provider.JArr? || provider.JObj? then Failure(TypeError)
    else if provider.JStr? && provider.s in ModelRegistry then Success(ModelRegistry[provider.s])
    else
      assert ModelRegistry[DefaultProvider] == DefaultModel;
      Success(DefaultModel)
  }

  /** The texts interpolated into the prompt are scalars. */
  predicate PromptInputsScalar(store: map<string, Json>) {
    && Scalar(Lookup(store, ValidatedTranscriptKey, JStr("")))
    && Scalar(Lookup(store, MeetingNameKey, JStr(UntitledMeeting)))
    && Scalar(Lookup(store, MeetingDateKey, JStr(UnknownDate)))
  }

  /** The completion request `extract_meeting_data` sends, or the exception raised before it. */
  function ExtractRequest(store: map<string, Json>): Result<Completion, PyException>
    requires PromptInputsScalar(store)
  {
    var model :- ModelFor(Lookup(store, LlmProviderKey, JStr(DefaultProvider)));
    var transcript := Lookup(store, ValidatedTranscriptKey, JStr(""));
    var meetingName := Lookup(store, MeetingNameKey, JStr(UntitledMeeting));
    var meetingDate := Lookup(store, MeetingDateKey, JStr(UnknownDate));
    var prompt := BuildExtractionPrompt(Display(transcript), Display(meetingName), Display(meetingDate));
    Success(Completion(prompt, model, MaxTokens))
  }

  /**
   * `extract_meeting_data`: the reply of the model to the request, stored verbatim; an
   * exception of the model client leaves the node uncaught, with nothing written.
   */
  function ExtractStep(store: map<string, Json>, reply: Completion -> LlmReply): Step
    requires PromptInputsScalar(store)
  {
    match ExtractRequest(store)
    case Failure(e) => Step(store, Raised(e))
    case Success(request) =>
      match reply(request)
      case Errored(message) => Step(store, Raised(ProviderError(message)))
      case Answered(text) =>
        Step(store[RawExtractionKey := JStr(text)], Completed(JObj(map[RawExtractionKey := JStr(text)])))
  }

  method ExtractMeetingData(mem: Memory, llm: Llm) returns (outcome: Outcome)
    requires PromptInputsScalar(mem.store)
    modifies mem, llm
    ensures Step(mem.store, outcome) == ExtractStep(old(mem.store), llm.reply)
    ensures ExtractRequest(old(mem.store)).Success? ==>
      llm.requests == old(llm.requests) + [ExtractRequest(old(mem.store)).value]
    ensures ExtractRequest(old(mem.store)).Failure? ==> llm.requests == old(llm.requests)
  {
    var provider := mem.Get(LlmProviderKey, JStr(DefaultProvider));
    if provider.JArr? || provider.JObj? {
      return Raised(TypeError);
    }
    var model := DefaultModel;
    if provider.JStr? && provider.s in ModelRegistry {
      model := ModelRegistry[provider.s];
    }

    var transcript := mem.Get(ValidatedTranscriptKey, JStr(""));
    var meetingName := mem.Get(MeetingNameKey, JStr(UntitledMeeting));
    var meetingDate := mem.Get(MeetingDateKey, JStr(UnknownDate));
    var prompt := BuildExtractionPrompt(Display(transcript), Display(meetingName), Display(meetingDate));

    var reply := llm.Complete(Completion(prompt, model, MaxTokens));
    match reply
    case Errored(message) =>
      outcome := Raised(ProviderError(message));
    case Answered(text) =>
      mem.Set(RawExtractionKey, JStr(text));
      outcome := Completed(JObj(map[RawExtractionKey := JStr(text)]));
  }

  /**
   * With a registered provider alias in memory, the extraction asks the model registered
   * for it, with the 4096-token budget, for a prompt that ends with the validated
   * transcript. The node completes exactly when the model answers; the answer is then stored
   * verbatim under `raw_extraction`, and otherwise the client's exception is raised, and in
   * both cases nothing else changes.
   */
  lemma ExtractWithRegisteredProvider(store: map<string, Json>, reply: Completion -> LlmReply)
    requires PromptInputsScalar(store)
    requires LlmProviderKey in store && store[LlmProviderKey].JStr? && store[LlmProviderKey].s in ModelRegistry
    ensures var request := ExtractRequest(store);
      var transcript := Display(Lookup(store, ValidatedTranscriptKey, JStr("")));
      && request.Success?
      && request.value.model == ModelRegistry[store[LlmProviderKey].s]
      && request.value.maxTokens == MaxTokens
      && |request.value.prompt| >= |transcript|
      && request.value.prompt[|request.value.prompt| - |transcript|..] == transcript
      && (ExtractStep(store, reply).outcome.Completed? <==> reply(request.value).Answered?)
      && (reply(request.value).Answered? ==>
            ExtractStep(store, reply).store == store[RawExtractionKey := JStr(reply(request.value).text)])
      && (reply(request.value).Errored? ==>
            ExtractStep(store, reply) == Step(store, Raised(ProviderError(reply(request.value).message))))
  {
    var transcript := Display(Lookup(store, ValidatedTranscriptKey, JStr("")));
    var name := Display(Lookup(store, MeetingNameKey, JStr(UntitledMeeting)));
    var date := Display(Lookup(store, MeetingDateKey, JStr(UnknownDate)));
    PromptLayout(transcript, name, date);
  }

  /**
   * After a successful validation the extraction asks the model registered for the resolved
   * provider, and its prompt ends with the trimmed transcript; it completes exactly when the
   * model answers.
   */
  lemma ValidatedExtraction(store: map<string, Json>, reply: Completion -> LlmReply)
    requires ValidateInputStep(store).outcome.Completed?
    requires PromptInputsScalar(ValidateInputStep(store).store)
    ensures var validated := ValidateInputStep(store).store;
      var request := ExtractRequest(validated);
      && TranscriptKey in store && store[TranscriptKey].JStr?
      && LlmProviderKey in validated && validated[LlmProviderKey].JStr?
      && validated[LlmProviderKey].s in ModelRegistry
      && request.Success?
      && request.value.model == ModelRegistry[validated[LlmProviderKey].s]
      && |request.value.prompt| >= |Strip(store[TranscriptKey].s)|
      && request.value.prompt[|request.value.prompt| - |Strip(store[TranscriptKey].s)|..] == Strip(store[TranscriptKey].s)
      && (ExtractStep(validated, reply).outcome.Completed? <==> reply(request.value).Answered?)
  {
    var validated := ValidateInputStep(store).store;
    ValidateInputRejects(store);
    ValidateInputAccepts(store);
    ExtractWithRegisteredProvider(validated, reply);
  }

  // ---------------------------------------------------------------------------
  // parse_and_validate_output
  // ---------------------------------------------------------------------------

  const ParseFailurePrefix: string := "Output parse/validation failed: "
  const NoJsonPrefix: string := "No JSON object found in LLM response. Raw: "

  /** Stand-in for the decoder's own description of malformed input. */
  const DecodeErrorText: string := "invalid JSON document"

  /** `str(exc)` for a failure to obtain a JSON value. */
  function ExtractErrorText(e: ExtractError): string {
    match e
    case NoJsonFound(rawHead) => NoJsonPrefix + rawHead
    case MalformedJson => DecodeErrorText
  }

  /** Stand-in for the report model's description of a failed check: the offending field. */
  function SchemaErrorText(e: SchemaError): string {
    match e
    case NotAnObject(field) => field + ": Input should be a valid dictionary"
    case MissingField(field) => field + ": Field required"
    case WrongType(field) => field + ": Input should be of the declared type"
    case BadPriority(value) => "priority: String should match pattern '^(high|medium|low)$'"
  }

  /** The failure path: the message is recorded under `parse_error` and raised. */
  function ParseFailure(store: map<string, Json>, detail: string): Step {
    var message := ParseFailurePrefix + detail;
    Step(store[ParseErrorKey := JStr(message)], Raised(ValueError(message)))
  }

  /** `parse_and_validate_output`, with `decode` in the role of `json.loads`. */
  function ParseStep(store: map<string, Json>, decode: Decoder): Step {
    var raw := Lookup(store, RawExtractionKey, JStr(""));
    if !raw.JStr? then Step(store, Raised(TypeError))
    else ParseExtracted(store, ExtractJson(raw.s, decode))
  }

  /** What the node does with the value extracted from the reply, or with the failure to extract one. */
  function ParseExtracted(store: map<string, Json>, extracted: Result<Json, ExtractError>): Step {
    match extracted
    case Failure(e) => ParseFailure(store, ExtractErrorText(e))
    case Success(parsed) =>
      if !parsed.JObj? then Step(store, Raised(TypeError))
      else
        match ParseNotes(parsed.fields)
        case Failure(e) => ParseFailure(store, SchemaErrorText(e))
        case Success(notes) =>
          Step(store[MeetingNotesKey := Dump(notes)][ParseErrorKey := JNull],
               Completed(JObj(map[MeetingNotesKey := Dump(notes)])))
  }

  method ParseAndValidateOutput(mem: Memory, decode: Decoder) returns (outcome: Outcome)
    modifies mem
    ensures Step(mem.store, outcome) == ParseStep(old(mem.store), decode)
  {
    var raw := mem.Get(RawExtractionKey, JStr(""));
    if !raw.JStr? {
      return Raised(TypeError);
    }

    var detail: string;
    var extracted := ExtractJson(raw.s, decode);
    if extracted.Success? {
      var parsed := extracted.value;
      if !parsed.JObj? {
        return Raised(TypeError);
      }
      var checked := ParseNotes(parsed.fields);
      if checked.Success? {
        var notes := checked.value;
        mem.Set(MeetingNotesKey, Dump(notes));
        mem.Set(ParseErrorKey, JNull);
        return Completed(JObj(map[MeetingNotesKey := Dump(notes)]));
      }
      detail := SchemaErrorText(checked.error);
    } else {
      detail := ExtractErrorText(extracted.error);
    }

    var message := ParseFailurePrefix + detail;
    mem.Set(ParseErrorKey, JStr(message));
    outcome := Raised(ValueError(message));
  }

  /**
   * Parsing a string reply either succeeds, storing the dump of the report validated from
   * the reply, a dict that validates again, and clearing `parse_error`; or it fails with a
   * `ValueError` whose message starts with the fixed prefix and is also recorded under
   * `parse_error`, nothing else being written; or the decoded value is not an object, and
   * nothing is written. It succeeds exactly when a JSON window is found, decodes to an
   * object, and that object passes the report checks.
   */
  lemma ParseRecordsOutcome(store: map<string, Json>, decode: Decoder)
    requires RawExtractionKey in store && store[RawExtractionKey].JStr?
    ensures var step := ParseStep(store, decode);
      var extracted := ExtractJson(store[RawExtractionKey].s, decode);
      step.outcome.Completed? <==>
        extracted.Success? && extracted.value.JObj? && ParseNotes(extracted.value.fields).Success?
    ensures var step := ParseStep(store, decode);
      step.outcome.Completed? ==>
        && step.store[ParseErrorKey] == JNull
        && step.store[MeetingNotesKey].JObj?
        && ParseNotes(step.store[MeetingNotesKey].fields).Success?
        && step.outcome.result == JObj(map[MeetingNotesKey := step.store[MeetingNotesKey]])
    ensures var step := ParseStep(store, decode);
      var extracted := ExtractJson(store[RawExtractionKey].s, decode);
      step.outcome.Completed? ==>
        step.store[MeetingNotesKey] == Dump(ParseNotes(extracted.value.fields).value)
    ensures var step := ParseStep(store, decode);
      step.outcome.Raised? && step.outcome.exception.ValueError? ==>
        && step.store == store[ParseErrorKey := JStr(step.outcome.exception.message)]
        && ParseFailurePrefix <= step.outcome.exception.message
    ensures var step := ParseStep(store, decode);
      step.outcome.Raised? && !step.outcome.exception.ValueError? ==> step.store == store
    ensures WritesOnly(store, ParseStep(store, decode).store, ParseAndValidateNode.outputKeys)
  {
    var extracted := ExtractJson(store[RawExtractionKey].s, decode);
    if extracted.Success? && extracted.value.JObj? {
      var checked := ParseNotes(extracted.value.fields);
      if checked.Success? {
        ParsedNotesWellFormed(extracted.value.fields);
        DumpRoundTrip(checked.value);
      }
    }
  }

  /**
   * A reply without `{` or without `}` fails, and the recorded message quotes the first 200
   * characters of the reply.
   */
  lemma ParseReportsMissingJson(store: map<string, Json>, decode: Decoder)
    requires RawExtractionKey in store && store[RawExtractionKey].JStr?
    requires '{' !in Clean(store[RawExtractionKey].s) || '}' !in Clean(store[RawExtractionKey].s)
    ensures ParseStep(store, decode) ==
      ParseFailure(store, NoJsonPrefix + Prefix(store[RawExtractionKey].s, 200))
  {
  }

  /**
   * A reply wrapped in a ```json fence is parsed like the bare reply: both succeed or fail
   * together, and on success they leave the same memory.
   */
  lemma ParseIgnoresFence(store: map<string, Json>, s: string, decode: Decoder)
    requires NoBacktick(s)
    ensures var fenced := ParseStep(store[RawExtractionKey := JStr(Fenced(s))], decode);
      var bare := ParseStep(store[RawExtractionKey := JStr(s)], decode);
      && (fenced.outcome.Completed? <==> bare.outcome.Completed?)
      && (fenced.outcome.Completed? ==> fenced == Step(bare.store[RawExtractionKey := JStr(Fenced(s))], bare.outcome))
  {
    FencedCleanUnchanged(s);
    if JsonWindow(s).Success? {
      ParseSameExtraction(store, Fenced(s), s, decode);
    }
  }

  /** Two replies from which the same JSON value (or the same error) is extracted parse alike. */
  lemma ParseSameExtraction(store: map<string, Json>, r1: string, r2: string, decode: Decoder)
    requires ExtractJson(r1, decode) == ExtractJson(r2, decode)
    ensures var a := ParseStep(store[RawExtractionKey := JStr(r1)], decode);
      var b := ParseStep(store[RawExtractionKey := JStr(r2)], decode);
      a.outcome == b.outcome && a.store == b.store[RawExtractionKey := JStr(r1)]
  {
    var s2 := store[RawExtractionKey := JStr(r2)];
    assert store[RawExtractionKey := JStr(r1)] == s2[RawExtractionKey := JStr(r1)];
    ParseExtractedIgnoresRaw(s2, JStr(r1), ExtractJson(r1, decode));
  }

  /** The raw reply is neither read nor written once the value has been extracted. */
  lemma ParseExtractedIgnoresRaw(store: map<string, Json>, raw: Json, extracted: Result<Json, ExtractError>)
    ensures var a := ParseExtracted(store[RawExtractionKey := raw], extracted);
      var b := ParseExtracted(store, extracted);
      a.outcome == b.outcome && a.store == b.store[RawExtractionKey := raw]
  {
    assert RawExtractionKey[0] != MeetingNotesKey[0] && RawExtractionKey[0] != ParseErrorKey[0];
    match extracted
    case Failure(e) =>
      var message := ParseFailurePrefix + ExtractErrorText(e);
      UpdateCommutes(store, RawExtractionKey, raw, ParseErrorKey, JStr(message));
    case Success(parsed) =>
      if parsed.JObj? {
        match ParseNotes(parsed.fields)
        case Failure(e) =>
          var message := ParseFailurePrefix + SchemaErrorText(e);
          UpdateCommutes(store, RawExtractionKey, raw, ParseErrorKey, JStr(message));
        case Success(notes) =>
          var dumped := Dump(notes);
          UpdateCommutes(store, RawExtractionKey, raw, MeetingNotesKey, dumped);
          UpdateCommutes(store[MeetingNotesKey := dumped], RawExtractionKey, raw, ParseErrorKey, JNull);
      }
  }

  /** Writes to two different keys can be done in either order. */
  lemma UpdateCommutes(m: map<string, Json>, k1: string, v1: Json, k2: string, v2: Json)
    requires k1 != k2
    ensures m[k1 := v1][k2 := v2] == m[k2 := v2][k1 := v1]
  {
  }

  // ---------------------------------------------------------------------------
  // format_slack_message
  // ---------------------------------------------------------------------------

  const DefaultMessageTitle: string := "Meeting Notes"

  /** The plain-text fallback shown where blocks cannot be. */
  function FallbackText(meetingName: string): string {
    ":bee: *" + meetingName + "* \U{2014} Meeting Notes Ready"
  }

  /** The date as `_build_slack_blocks` tests it: a falsy date counts as no date. */
  function DateText(v: Json): string
    requires Scalar(v)
  {
    if Truthy(v) then Display(v) else ""
  }

  /** The message payload for a report. */
  function Payload(notes: MeetingNotes, meetingName: string, meetingDate: string): Json {
    JObj(map["blocks" := JArr(BlocksJson(Layout(notes, meetingName, meetingDate))),
             "text" := JStr(FallbackText(meetingName))])
  }

  predicate FormatInputsScalar(store: map<string, Json>) {
    Scalar(Lookup(store, MeetingNameKey, JStr(DefaultMessageTitle)))
    && Scalar(Lookup(store, MeetingDateKey, JStr("")))
  }

  /** `format_slack_message`: the stored report re-validated and rendered. */
  function FormatStep(store: map<string, Json>): Step
    requires FormatInputsScalar(store)
  {
    var notesRaw := Lookup(store, MeetingNotesKey, JObj(map[]));
    if !notesRaw.JObj? then Step(store, Raised(TypeError))
    else
      match ParseNotes(notesRaw.fields)
      case Failure(e) => Step(store, Raised(ValidationError(e)))
      case Success(notes) =>
        var meetingName := Display(Lookup(store, MeetingNameKey, JStr(DefaultMessageTitle)));
        var meetingDate := DateText(Lookup(store, MeetingDateKey, JStr("")));
        var payload := Payload(notes, meetingName, meetingDate);
        Step(store[SlackPayloadKey := payload], Completed(JObj(map[SlackPayloadKey := payload])))
  }

  method FormatSlackMessage(mem: Memory) returns (outcome: Outcome)
    requires FormatInputsScalar(mem.store)
    modifies mem
    ensures Step(mem.store, outcome) == FormatStep(old(mem.store))
  {
    var notesRaw := mem.Get(MeetingNotesKey, JObj(map[]));
    if !notesRaw.JObj? {
      return Raised(TypeError);
    }
    var checked := ParseNotes(notesRaw.fields);
    if checked.Failure? {
      return Raised(ValidationError(checked.error));
    }
    var notes := checked.value;
    var meetingName := Display(mem.Get(MeetingNameKey, JStr(DefaultMessageTitle)));
    var meetingDate := DateText(mem.Get(MeetingDateKey, JStr("")));

    var blocks := BuildSlackBlocks(notes, meetingName, meetingDate);
    var payload := JObj(map["blocks" := JArr(BlocksJson(blocks)), "text" := JStr(FallbackText(meetingName))]);
    mem.Set(SlackPayloadKey, payload);
    outcome := Completed(JObj(map[SlackPayloadKey := payload]));
  }

  /**
   * Formatting right after a successful parse cannot fail: the stored dict validates back to
   * the report the reply held, and the payload is that report's layout, each block a dict
   * with a `type`, with the fallback text naming the meeting. Only `slack_payload` is written.
   */
  lemma FormatAfterParse(store: map<string, Json>, decode: Decoder)
    requires RawExtractionKey in store && store[RawExtractionKey].JStr?
    requires ParseStep(store, decode).outcome.Completed?
    requires FormatInputsScalar(ParseStep(store, decode).store)
    ensures var parsed := ParseStep(store, decode).store;
      var extracted := ExtractJson(store[RawExtractionKey].s, decode);
      var notes := ParseNotes(extracted.value.fields).value;
      var meetingName := Display(Lookup(parsed, MeetingNameKey, JStr(DefaultMessageTitle)));
      var meetingDate := DateText(Lookup(parsed, MeetingDateKey, JStr("")));
      var step := FormatStep(parsed);
      && step.outcome.Completed?
      && step.store == parsed[SlackPayloadKey := Payload(notes, meetingName, meetingDate)]
      && WritesOnly(parsed, step.store, FormatSlackNode.outputKeys)
  {
    var extracted := ExtractJson(store[RawExtractionKey].s, decode);
    var notes := ParseNotes(extracted.value.fields).value;
    ParsedNotesWellFormed(extracted.value.fields);
    DumpRoundTrip(notes);
  }

  /** Without a stored report the formatter raises: the empty dict lacks `summary`. */
  lemma FormatWithoutNotes(store: map<string, Json>)
    requires MeetingNotesKey !in store
    requires FormatInputsScalar(store)
    ensures FormatStep(store) == Step(store, Raised(ValidationError(MissingField("summary"))))
  {
  }

  /** Every block of every payload is a dict with a `type`, and the payload has its two keys. */
  lemma PayloadShape(notes: MeetingNotes, meetingName: string, meetingDate: string)
    ensures var p := Payload(notes, meetingName, meetingDate);
      && p.fields.Keys == {"blocks", "text"}
      && p.fields["blocks"].JArr?
      && (forall b :: b in p.fields["blocks"].items ==> b.JObj? && "type" in b.fields)
      && p.fields["text"] == JStr(FallbackText(meetingName))
  {
    EveryBlockTyped(notes, meetingName, meetingDate);
  }

  // ---------------------------------------------------------------------------
  // post_to_slack
  // ---------------------------------------------------------------------------

  const SlackToolName: string := "slack_post_message"
  const NoChannelResult: Json := JObj(map["sent" := JBool(false), "reason" := JStr("no_channel")])
  const NotSentResult: Json := JObj(map["sent" := JBool(false)])

  /** Stand-in for `str(exc)` when the stored payload is not a dict. */
  const PayloadNotDictText: string := "object has no attribute 'get'"

  /** The one call made to deliver `payload` to `channel`. */
  function SlackCall(channel: Json, payload: map<string, Json>): ToolCall {
    ToolCall(SlackToolName,
      JObj(map["channel" := channel,
               "blocks" := Lookup(payload, "blocks", JArr([])),
               "text" := Lookup(payload, "text", JStr(DefaultMessageTitle))]))
  }

  /** The record of a delivery attempt: sent with the tool's result, or not sent with the reason. */
  function DeliveryResult(reply: ToolReply): Json {
    match reply
    case Returned(value) => JObj(map["sent" := JBool(true), "result" := value])
    case Failed(message) => JObj(map["sent" := JBool(false), "reason" := JStr(message)])
  }

  /** The tool calls `post_to_slack` makes on `store`. */
  function PostCalls(store: map<string, Json>): seq<ToolCall> {
    var channel := Lookup(store, SlackChannelKey, JNull);
    var payload := Lookup(store, SlackPayloadKey, JObj(map[]));
    if Truthy(channel) && payload.JObj? then [SlackCall(channel, payload.fields)] else []
  }

  /** `post_to_slack`, with `reply` in the role of the tool dispatcher. */
  function PostStep(store: map<string, Json>, reply: ToolCall -> ToolReply): Step {
    var channel := Lookup(store, SlackChannelKey, JNull);
    var payload := Lookup(store, SlackPayloadKey, JObj(map[]));
    if !Truthy(channel) then
      Step(store[SlackResultKey := NoChannelResult], Completed(JObj(map[SlackResultKey := NotSentResult])))
    else
      var result :=
        if payload.JObj? then DeliveryResult(reply(SlackCall(channel, payload.fields)))
        else JObj(map["sent" := JBool(false), "reason" := JStr(PayloadNotDictText)]);
      Step(store[SlackResultKey := result], Completed(JObj(map[SlackResultKey := result])))
  }

  method PostToSlack(mem: Memory, tools: ToolRegistry) returns (outcome: Outcome)
    modifies mem, tools
    ensures Step(mem.store, outcome) == PostStep(old(mem.store), tools.reply)
    ensures tools.calls == old(tools.calls) + PostCalls(old(mem.store))
  {
    var slackChannel := mem.Get(SlackChannelKey, JNull);
    var slackPayload := mem.Get(SlackPayloadKey, JObj(map[]));

    if !Truthy(slackChannel) {
      mem.Set(SlackResultKey, NoChannelResult);
      return Completed(JObj(map[SlackResultKey := NotSentResult]));
    }

    if slackPayload.JObj? {
      var reply := tools.Call(SlackCall(slackChannel, slackPayload.fields));
      match reply
      case Returned(value) =>
        mem.Set(SlackResultKey, JObj(map["sent" := JBool(true), "result" := value]));
      case Failed(message) =>
        mem.Set(SlackResultKey, JObj(map["sent" := JBool(false), "reason" := JStr(message)]));
    } else {
      mem.Set(SlackResultKey, JObj(map["sent" := JBool(false), "reason" := JStr(PayloadNotDictText)]));
    }
    outcome := Completed(JObj(map[SlackResultKey := mem.Get(SlackResultKey, JNull)]));
  }

  /**
   * Delivery never raises and writes only `slack_result`, a dict whose `sent` flag is a
   * boolean. Without a channel no call is made and the reason is `no_channel`. With a
   * channel and a payload dict, exactly one call to `slack_post_message` carries the channel
   * and the payload's blocks and text; the flag is true exactly when that call returned, and
   * a failed call's message becomes the reason.
   */
  lemma PostRules(store: map<string, Json>, reply: ToolCall -> ToolReply)
    ensures var step := PostStep(store, reply);
      && step.outcome.Completed?
      && WritesOnly(store, step.store, PostToSlackNode.outputKeys)
      && step.store[SlackResultKey].JObj?
      && "sent" in step.store[SlackResultKey].fields
      && step.store[SlackResultKey].fields["sent"].JBool?
    ensures var channel := Lookup(store, SlackChannelKey, JNull);
      !Truthy(channel) ==>
        PostCalls(store) == [] && PostStep(store, reply).store[SlackResultKey] == NoChannelResult
    ensures var step := PostStep(store, reply);
      var calls := PostCalls(store);
      && |calls| <= 1
      && (step.store[SlackResultKey].fields["sent"] == JBool(true) <==> |calls| == 1 && reply(calls[0]).Returned?)
      && (|calls| == 1 ==>
            && calls[0].name == SlackToolName
            && calls[0].args.fields["channel"] == store[SlackChannelKey]
            && step.store[SlackResultKey] == DeliveryResult(reply(calls[0])))
    ensures var channel := Lookup(store, SlackChannelKey, JNull);
      var payload := Lookup(store, SlackPayloadKey, JObj(map[]));
      var calls := PostCalls(store);
      Truthy(channel) && payload.JObj? ==>
        && calls == [ToolCall("slack_post_message",
                              JObj(map["channel" := channel,
                                       "blocks" := Lookup(payload.fields, "blocks", JArr([])),
                                       "text" := Lookup(payload.fields, "text", JStr("Meeting Notes"))]))]
        && PostStep(store, reply).store[SlackResultKey] == DeliveryResult(reply(calls[0]))
    ensures var channel := Lookup(store, SlackChannelKey, JNull);
      var payload := Lookup(store, SlackPayloadKey, JObj(map[]));
      Truthy(channel) && !payload.JObj? ==>
        && PostCalls(store) == []
        && PostStep(store, reply).store[SlackResultKey] ==
             JObj(map["sent" := JBool(false), "reason" := JStr(PayloadNotDictText)])
    ensures var calls := PostCalls(store);
      |calls| == 1 && reply(calls[0]).Failed? ==>
        PostStep(store, reply).store[SlackResultKey].fields["reason"] == JStr(reply(calls[0]).message)
  {
  }

  // ---------------------------------------------------------------------------
  // compile_final_output
  // ---------------------------------------------------------------------------

  const SentFlag: string := "slack_message_sent"

  /** `compile_final_output`: the stored report with the delivery flag merged in. */
  function CompileStep(store: map<string, Json>): Step {
    var notesRaw := Lookup(store, MeetingNotesKey, JObj(map[]));
    var slackResult := Lookup(store, SlackResultKey, NotSentResult);
    if !notesRaw.JObj? then Step(store, Raised(TypeError))
    else if !slackResult.JObj? then Step(store, Raised(AttributeError))
    else
      var output := JObj(notesRaw.fields[SentFlag := Lookup(slackResult.fields, "sent", JBool(false))]);
      Step(store[FinalOutputKey := output], Completed(output))
  }

  method CompileFinalOutput(mem: Memory) returns (outcome: Outcome)
    modifies mem
    ensures Step(mem.store, outcome) == CompileStep(old(mem.store))
  {
    var notesRaw := mem.Get(MeetingNotesKey, JObj(map[]));
    var slackResult := mem.Get(SlackResultKey, NotSentResult);
    if !notesRaw.JObj? {
      return Raised(TypeError);
    }
    if !slackResult.JObj? {
      return Raised(AttributeError);
    }
    var output := JObj(notesRaw.fields[SentFlag := Lookup(slackResult.fields, "sent", JBool(false))]);
    mem.Set(FinalOutputKey, output);
    outcome := Completed(output);
  }

  /**
   * When the stored report and delivery record are dicts, the output is the report with
   * every entry unchanged except `slack_message_sent`, which is the record's `sent` flag
   * (False when absent); the same dict is stored as `final_output` and nothing else is
   * written. Otherwise the node raises and writes nothing.
   */
  lemma CompileMerges(store: map<string, Json>)
    ensures var notesRaw := Lookup(store, MeetingNotesKey, JObj(map[]));
      var slackResult := Lookup(store, SlackResultKey, NotSentResult);
      CompileStep(store).outcome.Completed? <==> notesRaw.JObj? && slackResult.JObj?
    ensures var notesRaw := Lookup(store, MeetingNotesKey, JObj(map[]));
      var slackResult := Lookup(store, SlackResultKey, NotSentResult);
      var step := CompileStep(store);
      step.outcome.Completed? ==>
        && step.outcome.result.JObj?
        && step.outcome.result.fields.Keys == notesRaw.fields.Keys + {SentFlag}
        && (forall k :: k in notesRaw.fields && k != SentFlag ==> step.outcome.result.fields[k] == notesRaw.fields[k])
        && step.outcome.result.fields[SentFlag] == Lookup(slackResult.fields, "sent", JBool(false))
        && step.store == store[FinalOutputKey := step.outcome.result]
    ensures CompileStep(store).outcome.Raised? ==> CompileStep(store).store == store
    ensures WritesOnly(store, CompileStep(store).store, CompileOutputNode.outputKeys)
  {
  }

  /** Without a delivery record the report is compiled as not sent. */
  lemma CompileWithoutDelivery(store: map<string, Json>)
    requires SlackResultKey !in store
    requires MeetingNotesKey in store && store[MeetingNotesKey].JObj?
    ensures CompileStep(store).outcome == Completed(JObj(store[MeetingNotesKey].fields[SentFlag := JBool(false)]))
  {
  }

  /**
   * Delivery followed by compilation: the compiled flag is True exactly when the one tool
   * call was made and returned, and it is always a boolean.
   */
  lemma PostThenCompile(store: map<string, Json>, reply: ToolCall -> ToolReply)
    requires MeetingNotesKey in store && store[MeetingNotesKey].JObj?
    ensures var posted := PostStep(store, reply).store;
      var step := CompileStep(posted);
      var calls := PostCalls(store);
      && step.outcome.Completed?
      && step.outcome.result.fields[SentFlag].JBool?
      && (step.outcome.result.fields[SentFlag] == JBool(true) <==> |calls| == 1 && reply(calls[0]).Returned?)
  {
    PostRules(store, reply);
  }

  // ---------------------------------------------------------------------------
  // handle_error
  // ---------------------------------------------------------------------------

  const UnknownErrorMessage: string := "Unknown error occurred"

  /** The fixed error report: flagged, with the message, an empty summary and empty lists. */
  function ErrorOutput(message: Json): Json {
    JObj(map[
      "error" := JBool(true),
      "error_message" := message,
      "summary" := JStr(""),
      "attendees" := JArr([]),
      "decisions" := JArr([]),
      "action_items" := JArr([]),
      "blockers" := JArr([]),
      "follow_ups" := JArr([]),
      SentFlag := JBool(false)])
  }

  /** `handle_error`: the first truthy of the validation error and the parse error, or a fixed text. */
  function HandleErrorStep(store: map<string, Json>): Step {
    var validationError := Lookup(store, ValidationErrorKey, JNull);
    var parseError := Lookup(store, ParseErrorKey, JNull);
    var message := Or(validationError, Or(parseError, JStr(UnknownErrorMessage)));
    var output := ErrorOutput(message);
    Step(store[FinalOutputKey := output], Completed(output))
  }

  method HandleError(mem: Memory) returns (outcome: Outcome)
    modifies mem
    ensures Step(mem.store, outcome) == HandleErrorStep(old(mem.store))
  {
    var validationError := mem.Get(ValidationErrorKey, JNull);
    var parseError := mem.Get(ParseErrorKey, JNull);
    var message := Or(validationError, Or(parseError, JStr(UnknownErrorMessage)));
    var output := ErrorOutput(message);
    mem.Set(FinalOutputKey, output);
    outcome := Completed(output);
  }

  /**
   * The error report never fails and always has the same shape. Its message is the
   * validation error when that is truthy, else the parse error when that is truthy, else
   * "Unknown error occurred", so it is always truthy; read as a report it is the empty,
   * undelivered report. Only `final_output` is written.
   */
  lemma ErrorPrecedence(store: map<string, Json>)
    ensures var step := HandleErrorStep(store);
      var validationError := Lookup(store, ValidationErrorKey, JNull);
      var parseError := Lookup(store, ParseErrorKey, JNull);
      && step.outcome.Completed?
      && step.outcome.result.JObj?
      && step.outcome.result.fields["error"] == JBool(true)
      && (Truthy(validationError) ==> step.outcome.result.fields["error_message"] == validationError)
      && (!Truthy(validationError) && Truthy(parseError) ==> step.outcome.result.fields["error_message"] == parseError)
      && (!Truthy(validationError) && !Truthy(parseError) ==>
            step.outcome.result.fields["error_message"] == JStr(UnknownErrorMessage))
      && Truthy(step.outcome.result.fields["error_message"])
      && ParseNotes(step.outcome.result.fields) == Success(MeetingNotes("", [], [], [], [], [], false))
      && step.store == store[FinalOutputKey := step.outcome.result]
      && WritesOnly(store, step.store, HandleErrorNode.outputKeys)
  {
    var message := Or(Lookup(store, ValidationErrorKey, JNull), Or(Lookup(store, ParseErrorKey, JNull), JStr(UnknownErrorMessage)));
    ErrorOutputShape(message);
  }

  /** The error report carries its message and the error flag, and reads as the empty, undelivered report. */
  lemma ErrorOutputShape(message: Json)
    ensures ErrorOutput(message).fields["error"] == JBool(true)
    ensures ErrorOutput(message).fields["error_message"] == message
    ensures ParseNotes(ErrorOutput(message).fields) == Success(MeetingNotes("", [], [], [], [], [], false))
  {
  }

  /** A rejected transcript is what the error report then states. */
  lemma RejectionReported(store: map<string, Json>)
    requires TranscriptRejected(store)
    ensures var rejected := ValidateInputStep(store).store;
      HandleErrorStep(rejected).outcome.result.fields["error_message"] == rejected[ValidationErrorKey]
  {
    ValidateInputRejects(store);
  }

  /**
   * An exception of the model client after a successful validation writes nothing. When the
   * incoming memory holds no truthy `parse_error`, neither error key is then set, so the
   * error report states "Unknown error occurred".
   */
  lemma ExtractionFailureReported(store: map<string, Json>, reply: Completion -> LlmReply)
    requires ValidateInputStep(store).outcome.Completed?
    requires PromptInputsScalar(ValidateInputStep(store).store)
    requires !Truthy(Lookup(store, ParseErrorKey, JNull))
    requires ExtractStep(ValidateInputStep(store).store, reply).outcome.Raised?
    ensures var validated := ValidateInputStep(store).store;
      var failed := ExtractStep(validated, reply);
      && failed.store == validated
      && failed.outcome.exception.ProviderError?
      && HandleErrorStep(failed.store).outcome.result.fields["error_message"] == JStr(UnknownErrorMessage)
  {
    var validated := ValidateInputStep(store).store;
    ValidatedExtraction(store, reply);
    ExtractWithRegisteredProvider(validated, reply);
    ValidatedErrorKeys(store);
    UnknownErrorReported(validated);
  }

  /** A successful validation clears `validation_error` and leaves `parse_error` as it was. */
  lemma ValidatedErrorKeys(store: map<string, Json>)
    requires ValidateInputStep(store).outcome.Completed?
    ensures var validated := ValidateInputStep(store).store;
      && Lookup(validated, ValidationErrorKey, JNull) == JNull
      && Lookup(validated, ParseErrorKey, JNull) == Lookup(store, ParseErrorKey, JNull)
  {
  }

  /** With neither error recorded, the error report states the fixed text. */
  lemma UnknownErrorReported(store: map<string, Json>)
    requires !Truthy(Lookup(store, ValidationErrorKey, JNull)) && !Truthy(Lookup(store, ParseErrorKey, JNull))
    ensures HandleErrorStep(store).outcome.result.fields["error_message"] == JStr(UnknownErrorMessage)
  {
    ErrorOutputShape(JStr(UnknownErrorMessage));
  }

  /**
   * After a successful validation, a failed parse is what the error report states: the
   * cleared validation error gives way to the parse error.
   */
  lemma ParseFailureReported(store: map<string, Json>, decode: Decoder)
    requires ValidationErrorKey in store && store[ValidationErrorKey] == JNull
    requires RawExtractionKey in store && store[RawExtractionKey].JStr?
    requires ParseStep(store, decode).outcome.Raised? && ParseStep(store, decode).outcome.exception.ValueError?
    ensures var failed := ParseStep(store, decode);
      HandleErrorStep(failed.store).outcome.result.fields["error_message"] == JStr(failed.outcome.exception.message)
  {
    ParseRecordsOutcome(store, decode);
  }
}
