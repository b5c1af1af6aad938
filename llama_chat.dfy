/**
 * The session layer of the chat wrapper: the process-wide model handle with
 * its initialise/cleanup lifecycle, one conversation turn (format the
 * history plus the new user message, ask the engine, strip its text, extend
 * the history or roll back to the caller's history with a "Confused:"
 * sentinel), and the seed history a fresh conversation starts from.
 *
 * The inference engine and the model loader are foreign code: both appear
 * here as function parameters whose outcome is either a value or an error
 * detail.
 */
module LlamaChat {
  import opened PromptFormat
  import opened Whitespace

  // ---------------------------------------------------------------------
  // The foreign collaborators
  // ---------------------------------------------------------------------

  datatype Option<T> = None | Some(value: T)

  /** An opaque loaded model, as handed back by the loader. */
  datatype ModelHandle = ModelHandle(id: nat)

  /** The arguments forwarded to the loader. */
  datatype LoadRequest = LoadRequest(modelPath: string, contextSize: int, gpuLayers: int, verbose: bool)

  /** The loader either returns a handle or raises with some detail. */
  datatype LoadOutcome = Loaded(handle: ModelHandle) | LoadFailed(detail: string)

  /** The arguments of one generation call (the sampling temperature and top-p are left out). */
  datatype Generation = Generation(prompt: string, maxTokens: nat, stop: seq<string>, echo: bool)

  /**
   * The outcome of one generation call together with the extraction of
   * `choices[0]['text']`: the text, or the detail of whatever was raised.
   */
  datatype Completion = Ok(text: string) | Err(detail: string)

  const DefaultContextSize: int := 2048
  const DefaultGpuLayers: int := 0
  const MaxTokens: nat := 120
  const StopSequences: seq<string> := ["\n\n", "User:", "System:"]

  /** The generation request sent for a given prompt. */
  function Request(prompt: string): (g: Generation)
    ensures g.prompt == prompt && g.maxTokens == 120 && !g.echo
    ensures g.stop == ["\n\n", "User:", "System:"]
  {
    Generation(prompt, MaxTokens, StopSequences, false)
  }

  // ---------------------------------------------------------------------
  // Sentinel replies
  // ---------------------------------------------------------------------

  const Confused: string := "Confused: "
  const NotInitializedReply: string := Confused + "Model not initialized. Please call initialize_model() first."
  const GenerationErrorPrefix: string := Confused + "Error generating response: "

  predicate StartsWith(s: string, prefix: string) {
    |prefix| <= |s| && s[..|prefix|] == prefix
  }

  // ---------------------------------------------------------------------
  // One conversation turn, as a function of the handle state
  // ---------------------------------------------------------------------

  /** What a turn hands back: the reply text and the history to continue from. */
  datatype Reply = Reply(text: string, history: seq<Message>)

  /**
   * The turn as a whole: with no handle, the not-initialised sentinel and
   * the caller's history; otherwise the engine is asked for a continuation of
   * the history extended by the user message, and its stripped text is
   * appended as an assistant message, or on failure the error sentinel is
   * returned with the caller's history.
   */
  function Turn(model: Option<ModelHandle>, userPrompt: string, history: seq<Message>,
                engine: (ModelHandle, Generation) -> Completion): (r: Reply)
    ensures |history| <= |r.history| <= |history| + 2
    ensures r.history[..|history|] == history
  {
    match model
    case None => Reply(NotInitializedReply, history)
    case Some(handle) =>
      var working := history + [Message(UserRole, userPrompt)];
      match engine(handle, Request(Format(working)))
      case Err(detail) => Reply(GenerationErrorPrefix + detail, history)
      case Ok(text) =>
        var answer := Strip(text);
        Reply(answer, working + [Message(AssistantRole, answer)])
  }

  /** No handle: the fixed sentinel, which starts with "Confused: ", and the caller's history. */
  lemma TurnWithoutModel(userPrompt: string, history: seq<Message>, engine: (ModelHandle, Generation) -> Completion)
    ensures Turn(None, userPrompt, history, engine) == Reply(NotInitializedReply, history)
    ensures StartsWith(NotInitializedReply, Confused)
  {
  }

  /**
   * The engine is asked for exactly one continuation: the caller's history
   * rendered, then the new user turn, then the cue. Two engines that agree on
   * that one request give the same turn.
   */
  lemma {:induction false} TurnPrompt(handle: ModelHandle, userPrompt: string, history: seq<Message>,
                                      engine1: (ModelHandle, Generation) -> Completion,
                                      engine2: (ModelHandle, Generation) -> Completion)
    requires var prompt := Body(history) + ("User: " + userPrompt + "\n") + "Assistant:";
      engine1(handle, Request(prompt)) == engine2(handle, Request(prompt))
    ensures Turn(Some(handle), userPrompt, history, engine1) == Turn(Some(handle), userPrompt, history, engine2)
  {
    UserTurnLast(history, userPrompt);
  }

  /**
   * A failed engine call or extraction: the error sentinel followed by the
   * failure detail, and the history is rolled back.
   */
  lemma TurnFailureRollsBack(handle: ModelHandle, userPrompt: string, history: seq<Message>,
                             engine: (ModelHandle, Generation) -> Completion)
    requires engine(handle, Request(Format(history + [Message(UserRole, userPrompt)]))).Err?
    ensures var r := Turn(Some(handle), userPrompt, history, engine);
      && r.history == history
      && r.text == GenerationErrorPrefix + engine(handle, Request(Format(history + [Message(UserRole, userPrompt)]))).detail
      && StartsWith(r.text, GenerationErrorPrefix)
      && StartsWith(r.text, Confused)
  {
  }

  /**
   * A successful engine call: the history grows by exactly the user message
   * and the assistant message, its first entries are the caller's history,
   * and the reply is the engine text with outer whitespace stripped, the same
   * text as the appended assistant message.
   */
  lemma TurnSuccessAppends(handle: ModelHandle, userPrompt: string, history: seq<Message>,
                           engine: (ModelHandle, Generation) -> Completion)
    requires engine(handle, Request(Format(history + [Message(UserRole, userPrompt)]))).Ok?
    ensures var text := engine(handle, Request(Format(history + [Message(UserRole, userPrompt)]))).text;
      var r := Turn(Some(handle), userPrompt, history, engine);
      && |r.history| == |history| + 2
      && r.history[..|history|] == history
      && r.history[|history|] == Message(UserRole, userPrompt)
      && r.history[|history| + 1] == Message(AssistantRole, r.text)
      && r.text == Strip(text)
      && NoOuterSpace(r.text)
  {
  }

  /**
   * Every turn, whatever the handle and the engine do, returns either the
   * caller's history unchanged or that history extended by exactly the user
   * message and an assistant message carrying the reply.
   */
  lemma {:induction false} TurnHistoryOutcomes(model: Option<ModelHandle>, userPrompt: string, history: seq<Message>,
                                               engine: (ModelHandle, Generation) -> Completion)
    ensures var r := Turn(model, userPrompt, history, engine);
      || r.history == history
      || r.history == history + [Message(UserRole, userPrompt), Message(AssistantRole, r.text)]
    ensures var r := Turn(model, userPrompt, history, engine);
      r.history == history <==> (model.None? || engine(model.value, Request(Format(history + [Message(UserRole, userPrompt)]))).Err?)
  {
  }

  // ---------------------------------------------------------------------
  // Conversation shape and the seed history
  // ---------------------------------------------------------------------

  /** Complete exchanges: a user message then an assistant message, repeated. */
  predicate CompletePairs(t: seq<Message>) {
    t == [] || (|t| >= 2 && t[0].role == UserRole && t[1].role == AssistantRole && CompletePairs(t[2..]))
  }

  /** A system message followed by complete user/assistant exchanges. */
  predicate WellFormed(h: seq<Message>) {
    |h| >= 1 && h[0].role == SystemRole && CompletePairs(h[1..])
  }

  /** Appending one more exchange keeps the exchanges complete. */
  lemma {:induction false} CompletePairsAppend(t: seq<Message>, question: string, answer: string)
    requires CompletePairs(t)
    ensures CompletePairs(t + [Message(UserRole, question), Message(AssistantRole, answer)])
  {
    var pair := [Message(UserRole, question), Message(AssistantRole, answer)];
    if t == [] {
      assert (t + pair)[2..] == [];
    } else {
      assert (t + pair)[2..] == t[2..] + pair;
      CompletePairsAppend(t[2..], question, answer);
    }
  }

  /** One example exchange of the seed. */
  datatype Exchange = Exchange(question: string, answer: string)

  /** The exchanges as user/assistant message pairs, in order. */
  function Exchanges(ex: seq<Exchange>): (t: seq<Message>)
    ensures |t| == 2 * |ex|
  {
    if ex == [] then []
    else [Message(UserRole, ex[0].question), Message(AssistantRole, ex[0].answer)] + Exchanges(ex[1..])
  }

  /** The exchanges form complete user/assistant pairs. */
  lemma {:induction false} ExchangesComplete(ex: seq<Exchange>)
    ensures CompletePairs(Exchanges(ex))
  {
    if ex != [] {
      var t := Exchanges(ex);
      assert t[2..] == Exchanges(ex[1..]);
      ExchangesComplete(ex[1..]);
    }
  }

  /** The `i`-th exchange becomes the messages at positions `2 * i` and `2 * i + 1`. */
  lemma {:induction false} ExchangesAt(ex: seq<Exchange>, i: nat)
    requires i < |ex|
    ensures Exchanges(ex)[2 * i] == Message(UserRole, ex[i].question)
    ensures Exchanges(ex)[2 * i + 1] == Message(AssistantRole, ex[i].answer)
  {
    var pair := [Message(UserRole, ex[0].question), Message(AssistantRole, ex[0].answer)];
    var rest := Exchanges(ex[1..]);
    assert Exchanges(ex) == pair + rest;
    if i > 0 {
      ExchangesAt(ex[1..], i - 1);
      assert ex[1..][i - 1] == ex[i];
      PastPair(pair, rest, 2 * i - 2);
    }
  }

  /** Indexing past a leading pair is indexing the rest, two positions earlier. */
  lemma PastPair(pair: seq<Message>, rest: seq<Message>, j: nat)
    requires |pair| == 2 && j + 1 < |rest|
    ensures (pair + rest)[j + 2] == rest[j] && (pair + rest)[j + 3] == rest[j + 1]
  {
  }

  /** The number of example exchanges in the source's seed. */
  const SeedExchangeCount: nat := 6

  /**
   * The seed history: the personality system message followed by the example
   * exchanges (their wording is a parameter).
   */
  function InitialHistory(systemText: string, examples: seq<Exchange>): (h: seq<Message>)
    ensures |h| == 1 + 2 * |examples|
    ensures h[0] == Message(SystemRole, systemText)
    ensures WellFormed(h)
  {
    var h := [Message(SystemRole, systemText)] + Exchanges(examples);
    assert h[1..] == Exchanges(examples);
    ExchangesComplete(examples);
    h
  }

  /** Example `i` of the seed is the user message at `1 + 2 * i` and its answer at `2 + 2 * i`. */
  lemma InitialHistoryAt(systemText: string, examples: seq<Exchange>, i: nat)
    requires i < |examples|
    ensures InitialHistory(systemText, examples)[1 + 2 * i] == Message(UserRole, examples[i].question)
    ensures InitialHistory(systemText, examples)[2 + 2 * i] == Message(AssistantRole, examples[i].answer)
  {
    ExchangesAt(examples, i);
  }

  /** Every turn keeps a well-formed conversation well-formed. */
  lemma {:induction false} TurnKeepsWellFormed(model: Option<ModelHandle>, userPrompt: string, history: seq<Message>,
                                               engine: (ModelHandle, Generation) -> Completion)
    requires WellFormed(history)
    ensures WellFormed(Turn(model, userPrompt, history, engine).history)
  {
    var r := Turn(model, userPrompt, history, engine);
    TurnHistoryOutcomes(model, userPrompt, history, engine);
    if r.history != history {
      var pair := [Message(UserRole, userPrompt), Message(AssistantRole, r.text)];
      assert r.history[1..] == history[1..] + pair;
      CompletePairsAppend(history[1..], userPrompt, r.text);
    }
  }

  /** A stub engine that answers every request with the same canned text. */
  function CannedEngine(handle: ModelHandle, request: Generation): Completion {
    Ok("Neutral: test.")
  }

  /** Against the stub, any turn with a handle replies with the canned text and grows the history by two. */
  lemma CannedEngineTurn(handle: ModelHandle, userPrompt: string, history: seq<Message>)
    ensures Turn(Some(handle), userPrompt, history, CannedEngine).text == "Neutral: test."
    ensures |Turn(Some(handle), userPrompt, history, CannedEngine).history| == |history| + 2
  {
  }

  /**
   * An end-to-end scenario: the six-exchange seed, the question "What is
   * gravity?" and the stub engine give the canned reply and a history that
   * grows from 13 to 15 messages.
   */
  lemma CannedEngineScenario(handle: ModelHandle, systemText: string, examples: seq<Exchange>)
    requires |examples| == SeedExchangeCount
    ensures var seed := InitialHistory(systemText, examples);
      var r := Turn(Some(handle), "What is gravity?", seed, CannedEngine);
      && r.text == "Neutral: test."
      && |seed| == 13
      && |r.history| == 15
  {
    CannedEngineTurn(handle, "What is gravity?", InitialHistory(systemText, examples));
  }

  // ---------------------------------------------------------------------
  // The process-wide handle and its lifecycle
  // ---------------------------------------------------------------------

  /** What initialisation reports. */
  datatype InitStatus = AlreadyInitialized | LoadedNow | LoadError(detail: string)

  /** The module-global model handle, `None` until a model is loaded. */
  class Session {
    var model: Option<ModelHandle>

    constructor ()
      ensures model == None
    {
      model := None;
    }

    /**
     * Loads a model unless one is already loaded. While a handle exists this
     * changes nothing, whatever the arguments; a failed load leaves no handle
     * and reports (re-raises) the loader's error.
     */
    method Initialize(modelPath: string, loader: LoadRequest -> LoadOutcome,
                      contextSize: int := DefaultContextSize, gpuLayers: int := DefaultGpuLayers,
                      verbose: bool := false)
      returns (status: InitStatus)
      modifies this
      ensures old(model).Some? ==> model == old(model) && status == AlreadyInitialized
      ensures old(model).None? ==>
        match loader(LoadRequest(modelPath, contextSize, gpuLayers, verbose))
        case Loaded(handle) => model == Some(handle) && status == LoadedNow
        case LoadFailed(detail) => model == None && status == LoadError(detail)
    {
      if model.Some? {
        return AlreadyInitialized;
      }
      match loader(LoadRequest(modelPath, contextSize, gpuLayers, verbose))
      case Loaded(handle) =>
        model := Some(handle);
        status := LoadedNow;
      case LoadFailed(detail) =>
        status := LoadError(detail);
    }

    /** Releases the handle if there is one; always ends with no handle. */
    method Cleanup()
      modifies this
      ensures model == None
    {
      if model.Some? {
        model := None;
      }
    }

    /**
     * One conversation turn against the current handle. The caller's history
     * is a value and is not changed; the working copy is the history plus the
     * user message, and on success the working copy is extended with the
     * assistant message.
     */
    method Respond(userPrompt: string, history: seq<Message>, engine: (ModelHandle, Generation) -> Completion)
      returns (reply: string, newHistory: seq<Message>)
      ensures Reply(reply, newHistory) == Turn(model, userPrompt, history, engine)
      ensures model.None? ==> reply == NotInitializedReply && newHistory == history
    {
      if model.None? {
        return NotInitializedReply, history;
      }
      var working := history + [Message(UserRole, userPrompt)];
      var prompt := BuildPrompt(working);
      match engine(model.value, Request(prompt))
      case Err(detail) =>
        reply, newHistory := GenerationErrorPrefix + detail, history;
      case Ok(text) =>
        reply := Strip(text);
        working := working + [Message(AssistantRole, reply)];
        newHistory := working;
    }
  }

  // ---------------------------------------------------------------------
  // Lifecycle scenarios
  // ---------------------------------------------------------------------

  /** A turn after cleanup behaves exactly like a turn that never had a model. */
  method RespondAfterCleanup(s: Session, userPrompt: string, history: seq<Message>,
                             engine: (ModelHandle, Generation) -> Completion)
    returns (reply: string, newHistory: seq<Message>)
    modifies s
    ensures s.model == None
    ensures reply == NotInitializedReply && newHistory == history
  {
    s.Cleanup();
    reply, newHistory := s.Respond(userPrompt, history, engine);
  }

  /** Initialising twice, with different paths, keeps the handle of the first load. */
  method InitializeTwice(firstPath: string, secondPath: string, loader: LoadRequest -> LoadOutcome)
    returns (s: Session, second: InitStatus)
    requires loader(LoadRequest(firstPath, DefaultContextSize, DefaultGpuLayers, false)).Loaded?
    ensures s.model == Some(loader(LoadRequest(firstPath, DefaultContextSize, DefaultGpuLayers, false)).handle)
    ensures second == AlreadyInitialized
  {
    s := new Session();
    var first := s.Initialize(firstPath, loader);
    second := s.Initialize(secondPath, loader);
  }

  /** Cleanup twice is the same as cleanup once. */
  method CleanupTwice(s: Session)
    modifies s
    ensures s.model == None
  {
    s.Cleanup();
    s.Cleanup();
  }
}
