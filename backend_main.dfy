/**
 * The FastAPI backend: the chat-template dispatcher, the cleaning of a
 * generated continuation, and the `loaded_models` cache behind the
 * `/models` and `/chat/completions` endpoints. Tokenisation and generation
 * are an oracle: the decoded model output is a parameter.
 */
module BackendMain {
  import opened Wrappers
  import opened Text

  datatype Message = Message(role: string, content: string)

  /** The four prompt layouts `format_chat_prompt` can produce. */
  datatype Template = Llama | TinyLlama | DialoGPT | Generic

  /** Branch selection, in the order the source tests it. */
  function SelectTemplate(modelName: string): Template
  {
    if Contains(LowerStr(modelName), "llama") then Llama
    else if Contains(LowerStr(modelName), "tinyllama") then TinyLlama
    else if Contains(modelName, "DialoGPT") then DialoGPT
    else Generic
  }

  /** The text one message contributes in the line-per-turn layouts; other roles contribute nothing. */
  function Turn(t: Template, m: Message): string
  {
    match t
    case Llama =>
      if m.role == "system" then "<|start_header_id|>system<|end_header_id|>\n" + m.content + "<|eot_id|>\n"
      else if m.role == "user" then "<|start_header_id|>user<|end_header_id|>\n" + m.content + "<|eot_id|>\n"
      else if m.role == "assistant" then "<|start_header_id|>assistant<|end_header_id|>\n" + m.content + "<|eot_id|>\n"
      else ""
    case TinyLlama =>
      if m.role == "system" then "<|system|>\n" + m.content + "</s>\n"
      else if m.role == "user" then "<|user|>\n" + m.content + "</s>\n"
      else if m.role == "assistant" then "<|assistant|>\n" + m.content + "</s>\n"
      else ""
    case _ =>
      if m.role == "system" then "System: " + m.content + "\n"
      else if m.role == "user" then "Human: " + m.content + "\n"
      else if m.role == "assistant" then "Assistant: " + m.content + "\n"
      else ""
  }

  /** The generation cue appended after the turns. */
  function Trailer(t: Template): string
  {
    match t
    case Llama => "<|start_header_id|>assistant<|end_header_id|>\n"
    case TinyLlama => "<|assistant|>\n"
    case _ => "Assistant:"
  }

  /** The text of each message, in order. */
  function Turns(t: Template, msgs: seq<Message>): (r: seq<string>)
    ensures |r| == |msgs|
    ensures forall i | 0 <= i < |msgs| :: r[i] == Turn(t, msgs[i])
  {
    seq(|msgs|, i requires 0 <= i < |msgs| => Turn(t, msgs[i]))
  }

  lemma TurnsAppend(t: Template, a: seq<Message>, b: seq<Message>)
    ensures Turns(t, a + b) == Turns(t, a) + Turns(t, b)
  {
  }

  /** The turns of `msgs`, concatenated in order. */
  function Body(t: Template, msgs: seq<Message>): string
  {
    Concat(Turns(t, msgs))
  }

  /** `system_context`: the first system message's content and a space, or "". */
  function SystemContext(msgs: seq<Message>): string
  {
    if msgs == [] then ""
    else if msgs[0].role == "system" then msgs[0].content + " "
    else SystemContext(msgs[1..])
  }

  predicate IsChatTurn(m: Message) { m.role == "user" || m.role == "assistant" }

  /** `chat_history`: the contents of the user and assistant messages, in order. */
  function ChatHistory(msgs: seq<Message>): seq<string>
  {
    if msgs == [] then []
    else ChatHistory(msgs[..|msgs| - 1]) + (if IsChatTurn(msgs[|msgs| - 1]) then [msgs[|msgs| - 1].content] else [])
  }

  /** The prompt `format_chat_prompt` returns. */
  function Prompt(msgs: seq<Message>, modelName: string): string
  {
    var t := SelectTemplate(modelName);
    if t == DialoGPT then
      var history := ChatHistory(msgs);
      SystemContext(msgs) + (if history != [] then history[|history| - 1] else "")
    else Body(t, msgs) + Trailer(t)
  }

  /** `format_chat_prompt`: dispatch on the model name. */
  method FormatChatPrompt(messages: seq<Message>, modelName: string) returns (conversation: string)
    ensures conversation == Prompt(messages, modelName)
  {
    var t := SelectTemplate(modelName);
    if t == DialoGPT {
      conversation := FormatDialoGPT(messages);
    } else {
      conversation := FormatTurns(t, messages);
    }
  }

  /** The Llama, TinyLlama and generic branches: one block per message, then the generation cue. */
  method FormatTurns(t: Template, messages: seq<Message>) returns (conversation: string)
    ensures conversation == Body(t, messages) + Trailer(t)
  {
    conversation := "";
    var i := 0;
    while i < |messages|
      invariant 0 <= i <= |messages|
      invariant conversation == Body(t, messages[..i])
    {
      BodySnoc(t, messages, i);
      conversation := conversation + Turn(t, messages[i]);
      i := i + 1;
    }
    assert messages[..|messages|] == messages;
    conversation := conversation + Trailer(t);
  }

  /** The DialoGPT branch: the first system message as context, then the last user/assistant content. */
  method FormatDialoGPT(messages: seq<Message>) returns (conversation: string)
    ensures var history := ChatHistory(messages);
      conversation == SystemContext(messages) + (if history != [] then history[|history| - 1] else "")
  {
    var systemContext := "";
    var i := 0;
    while i < |messages|
      invariant 0 <= i <= |messages|
      invariant SystemContext(messages) == SystemContext(messages[i..])
    {
      if messages[i].role == "system" {
        systemContext := messages[i].content + " ";
        break;
      }
      assert messages[i..][1..] == messages[i + 1..];
      i := i + 1;
    }
    var chatHistory: seq<string> := [];
    i := 0;
    while i < |messages|
      invariant 0 <= i <= |messages|
      invariant chatHistory == ChatHistory(messages[..i])
    {
      assert messages[..i + 1][..i] == messages[..i];
      if messages[i].role == "user" {
        chatHistory := chatHistory + [messages[i].content];
      } else if messages[i].role == "assistant" {
        chatHistory := chatHistory + [messages[i].content];
      }
      i := i + 1;
    }
    assert messages[..|messages|] == messages;
    if chatHistory != [] {
      conversation := systemContext + chatHistory[|chatHistory| - 1];
    } else {
      conversation := systemContext;
    }
  }

  /** One more message adds its own block at the end. */
  lemma BodySnoc(t: Template, messages: seq<Message>, i: nat)
    requires i < |messages|
    ensures Body(t, messages[..i + 1]) == Body(t, messages[..i]) + Turn(t, messages[i])
  {
    assert messages[..i + 1] == messages[..i] + [messages[i]];
    TurnsAppend(t, messages[..i], [messages[i]]);
    ConcatSnoc(Turns(t, messages[..i]), Turn(t, messages[i]));
  }

  /** The turns of a concatenation are the concatenation of the turns. */
  lemma BodyConcat(t: Template, a: seq<Message>, b: seq<Message>)
    ensures Body(t, a + b) == Body(t, a) + Body(t, b)
  {
    TurnsAppend(t, a, b);
    ConcatAppend(Turns(t, a), Turns(t, b));
  }

  /** Prompts are built message by message: each message adds its own text in front of the rest. */
  lemma BodyCons(t: Template, m: Message, rest: seq<Message>)
    ensures Body(t, [m] + rest) == Turn(t, m) + Body(t, rest)
  {
    BodyConcat(t, [m], rest);
    assert Turns(t, [m]) == [] + [Turn(t, m)];
    ConcatSnoc([], Turn(t, m));
  }

  /**
   * A Llama-family prompt is the concatenation of the messages' blocks
   * followed by the final empty assistant header.
   */
  lemma LlamaPrompt(msgs: seq<Message>, modelName: string)
    requires Contains(LowerStr(modelName), "llama")
    ensures Prompt(msgs, modelName) == Body(Llama, msgs) + "<|start_header_id|>assistant<|end_header_id|>\n"
    ensures Prompt([], modelName) == "<|start_header_id|>assistant<|end_header_id|>\n"
  {
    assert Turns(Llama, []) == [];
  }

  /** Without "llama" in any case and without "DialoGPT", the generic `System:`/`Human:`/`Assistant:` layout is used. */
  lemma GenericPrompt(msgs: seq<Message>, modelName: string, content: string)
    requires !Contains(LowerStr(modelName), "llama") && !Contains(modelName, "DialoGPT")
    ensures Prompt(msgs, modelName) == Body(Generic, msgs) + "Assistant:"
    ensures Prompt([], modelName) == "Assistant:"
    ensures Prompt([Message("user", content)], modelName) == "Human: " + content + "\n" + "Assistant:"
  {
    TinyLlamaUnreachable(modelName);
    assert SelectTemplate(modelName) == Generic;
    GenericBody(content);
  }

  /** The generic body of no message, and of one user message. */
  lemma GenericBody(content: string)
    ensures Body(Generic, []) == []
    ensures Body(Generic, [Message("user", content)]) == "Human: " + content + "\n"
  {
    assert Turns(Generic, []) == [];
    assert Turns(Generic, [Message("user", content)]) == [] + ["Human: " + content + "\n"];
    ConcatSnoc([], "Human: " + content + "\n");
  }

  /** A message whose role is not system, user or assistant contributes nothing, in every layout. */
  lemma OtherRoleContributesNothing(t: Template, m: Message)
    requires m.role != "system" && m.role != "user" && m.role != "assistant"
    ensures Turn(t, m) == ""
  {
  }

  /** Every name containing "tinyllama" also contains "llama", so the TinyLlama layout is never chosen. */
  lemma TinyLlamaUnreachable(modelName: string)
    ensures SelectTemplate(modelName) != TinyLlama
  {
    var lower := LowerStr(modelName);
    if Contains(lower, "tinyllama") {
      assert OccursAt("tinyllama", "llama", 4);
      ContainsTrans(lower, "tinyllama", "llama");
    }
  }

  /** The DialoGPT test is case-sensitive: a name without upper-case letters never selects it. */
  lemma DialoGPTCaseSensitive(modelName: string)
    requires LowerStr(modelName) == modelName
    ensures SelectTemplate(modelName) != DialoGPT
  {
    NoUpperNoOccurrence(modelName, "DialoGPT");
  }

  lemma {:induction false} ChatHistoryLast(msgs: seq<Message>, k: nat)
    requires k < |msgs| && IsChatTurn(msgs[k])
    requires forall j | k < j < |msgs| :: !IsChatTurn(msgs[j])
    ensures ChatHistory(msgs) != [] && ChatHistory(msgs)[|ChatHistory(msgs)| - 1] == msgs[k].content
    decreases |msgs|
  {
    if k < |msgs| - 1 {
      ChatHistoryLast(msgs[..|msgs| - 1], k);
    }
  }

  lemma {:induction false} ChatHistoryEmpty(msgs: seq<Message>)
    requires forall j | 0 <= j < |msgs| :: !IsChatTurn(msgs[j])
    ensures ChatHistory(msgs) == []
    decreases |msgs|
  {
    if msgs != [] {
      ChatHistoryEmpty(msgs[..|msgs| - 1]);
    }
  }

  /** The DialoGPT prompt: the system context followed by the content of the last user/assistant message. */
  lemma DialoGPTPromptLastTurn(msgs: seq<Message>, modelName: string, k: nat)
    requires SelectTemplate(modelName) == DialoGPT
    requires k < |msgs| && IsChatTurn(msgs[k]) && forall j | k < j < |msgs| :: !IsChatTurn(msgs[j])
    ensures Prompt(msgs, modelName) == SystemContext(msgs) + msgs[k].content
  {
    ChatHistoryLast(msgs, k);
  }

  /** Without user or assistant messages the DialoGPT prompt is the system context alone. */
  lemma DialoGPTPromptNoTurns(msgs: seq<Message>, modelName: string)
    requires SelectTemplate(modelName) == DialoGPT
    requires forall j | 0 <= j < |msgs| :: !IsChatTurn(msgs[j])
    ensures Prompt(msgs, modelName) == SystemContext(msgs)
  {
    ChatHistoryEmpty(msgs);
  }

  // ---------------------------------------------------------------------
  // Cleaning the generated continuation

  const EndMarkers: seq<string> := ["<|eot_id|>", "<|endoftext|>", "</s>"]
  const UserMarkers: seq<string> := ["<|start_header_id|>user<|end_header_id|>", "Human:", "<|user|>"]
  const FallbackResponse: string := "Hello! My normal response failed, so this is a fallback response. How can I assist you?"

  /** `full_response[len(prompt):]`: Python slicing past the end gives "". */
  function Continuation(fullResponse: string, prompt: string): (r: string)
    ensures |r| == if |prompt| <= |fullResponse| then |fullResponse| - |prompt| else 0
    ensures EndsWith(fullResponse, r)
  {
    if |prompt| <= |fullResponse| then fullResponse[|prompt|..] else ""
  }

  predicate NonEmptyMarkers(markers: seq<string>)
  {
    forall k | 0 <= k < |markers| :: markers[k] != []
  }

  /**
   * One `if`/`elif` chain of marker cuts: only the first marker of the list
   * that occurs is used, keeping the stripped text before its first occurrence.
   */
  function CutAtFirstMarker(s: string, markers: seq<string>): string
    requires NonEmptyMarkers(markers)
  {
    if markers == [] then s
    else if Contains(s, markers[0]) then Trim(SplitHead(s, markers[0]))
    else CutAtFirstMarker(s, markers[1..])
  }

  lemma MarkersNonEmpty()
    ensures NonEmptyMarkers(EndMarkers) && NonEmptyMarkers(UserMarkers)
  {
  }

  /** The cleaning steps over any marker lists and fallback text. */
  function CleanText(continuation: string, ends: seq<string>, users: seq<string>, fallback: string): string
    requires NonEmptyMarkers(ends) && NonEmptyMarkers(users)
  {
    var r := Trim(continuation);
    var r := CutAtFirstMarker(r, ends);
    var r := CutAtFirstMarker(r, users);
    var r := Trim(r);
    if r == [] then fallback else r
  }

  /** The response `generate_response` returns for a decoded model output. */
  function Cleaned(fullResponse: string, prompt: string): string
  {
    CleanText(Continuation(fullResponse, prompt), EndMarkers, UserMarkers, FallbackResponse)
  }

  datatype ModelEntry = ModelEntry(model: string, tokenizer: string, device: string)

  /**
   * `generate_response` after the model call: `decoded` is the oracle's
   * decoded output for `prompt`; the response is reassigned step by step.
   */
  method GenerateResponse(prompt: string, modelData: Option<ModelEntry>, decoded: string) returns (r: Result<string>)
    ensures modelData.None? ==> r.Err? && r.status == 500
    ensures modelData.Some? ==> r == Ok(Cleaned(decoded, prompt))
  {
    if modelData.None? {
      return Err(500, "Generation failed: Model data is None - model failed to load");
    }
    MarkersNonEmpty();
    var response := Trim(Continuation(decoded, prompt));
    response := CutAtFirstMarker(response, EndMarkers);
    response := CutAtFirstMarker(response, UserMarkers);
    response := Trim(response);
    if response == [] {
      response := FallbackResponse;
    }
    return Ok(response);
  }

  lemma CutHeadIsInfix(s: string, m: string)
    requires m != []
    ensures Contains(s, Trim(SplitHead(s, m)))
  {
    var h := SplitHead(s, m);
    var k, hi := TrimLo(h), TrimHi(h);
    var t := Trim(h);
    assert t == h[k..hi] && |t| == hi - k;
    SliceOfPrefix(s, |h|, k, hi);
    assert t == s[k..k + |t|];
    assert OccursAt(s, t, k);
  }

  /** A cut leaves a part of its input. */
  lemma {:induction false} CutIsInfix(s: string, markers: seq<string>)
    requires NonEmptyMarkers(markers)
    ensures Contains(s, CutAtFirstMarker(s, markers))
    decreases |markers|
  {
    if markers == [] {
      assert OccursAt(s, s, 0);
    } else if Contains(s, markers[0]) {
      CutHeadIsInfix(s, markers[0]);
    } else {
      CutIsInfix(s, markers[1..]);
    }
  }

  /** Apart from the fallback text, the response is a part of the continuation. */
  lemma CleanTextIsPart(c: string, ends: seq<string>, users: seq<string>, fallback: string)
    requires NonEmptyMarkers(ends) && NonEmptyMarkers(users)
    ensures CleanText(c, ends, users, fallback) == fallback || Contains(c, CleanText(c, ends, users, fallback))
  {
    var r0 := Trim(c);
    var r1 := CutAtFirstMarker(r0, ends);
    var r2 := CutAtFirstMarker(r1, users);
    ContainsTrim(c);
    CutIsInfix(r0, ends);
    CutIsInfix(r1, users);
    ContainsTrim(r2);
    ContainsTrans(c, r0, r1);
    ContainsTrans(c, r1, r2);
    ContainsTrans(c, r2, Trim(r2));
  }

  lemma CleanedIsPartOfContinuation(fullResponse: string, prompt: string)
    ensures Cleaned(fullResponse, prompt) == FallbackResponse
         || Contains(Continuation(fullResponse, prompt), Cleaned(fullResponse, prompt))
  {
    CleanTextIsPart(Continuation(fullResponse, prompt), EndMarkers, UserMarkers, FallbackResponse);
  }

  lemma CleanTextNonEmptyAndTrimmed(c: string, ends: seq<string>, users: seq<string>, fallback: string)
    requires NonEmptyMarkers(ends) && NonEmptyMarkers(users) && fallback != []
    ensures var r := CleanText(c, ends, users, fallback);
      r != [] && (r == fallback || (!IsSpace(r[0]) && !IsSpace(r[|r| - 1])))
  {
    TrimBounds(CutAtFirstMarker(CutAtFirstMarker(Trim(c), ends), users));
  }

  /** The response is never empty, and apart from the fallback text it has no surrounding whitespace. */
  lemma CleanedNonEmptyAndTrimmed(fullResponse: string, prompt: string)
    ensures Cleaned(fullResponse, prompt) != []
    ensures Cleaned(fullResponse, prompt) == FallbackResponse
         || (!IsSpace(Cleaned(fullResponse, prompt)[0])
             && !IsSpace(Cleaned(fullResponse, prompt)[|Cleaned(fullResponse, prompt)| - 1]))
  {
    CleanTextNonEmptyAndTrimmed(Continuation(fullResponse, prompt), EndMarkers, UserMarkers, FallbackResponse);
  }

  lemma NotContainsAfterCut(s: string, markers: seq<string>, m: string)
    requires NonEmptyMarkers(markers)
    requires !Contains(s, m)
    ensures !Contains(CutAtFirstMarker(s, markers), m)
  {
    CutIsInfix(s, markers);
    InfixLacks(s, CutAtFirstMarker(s, markers), m);
  }

  lemma NotContainsAfterTrim(s: string, m: string)
    requires !Contains(s, m)
    ensures !Contains(Trim(s), m)
  {
    NotContainsInfix(s, m, TrimLo(s), TrimHi(s));
  }

  /** When the first end marker occurs, neither it nor anything after it survives. */
  lemma CleanTextDropsFirstEndMarker(c: string, ends: seq<string>, users: seq<string>, fallback: string)
    requires NonEmptyMarkers(ends) && NonEmptyMarkers(users) && ends != []
    requires Contains(Trim(c), ends[0])
    ensures CleanText(c, ends, users, fallback) == fallback || !Contains(CleanText(c, ends, users, fallback), ends[0])
  {
    var m := ends[0];
    var r1 := CutAtFirstMarker(Trim(c), ends);
    SplitHeadSpec(Trim(c), m);
    NotContainsAfterTrim(SplitHead(Trim(c), m), m);
    NotContainsAfterCut(r1, users, m);
    NotContainsAfterTrim(CutAtFirstMarker(r1, users), m);
  }

  /**
   * If the stripped continuation carries the Llama end-of-turn marker, the
   * response holds no end-of-turn marker (unless it is the fallback text).
   */
  lemma CleanedDropsEndOfTurn(fullResponse: string, prompt: string)
    requires Contains(Trim(Continuation(fullResponse, prompt)), "<|eot_id|>")
    ensures Cleaned(fullResponse, prompt) == FallbackResponse || !Contains(Cleaned(fullResponse, prompt), "<|eot_id|>")
  {
    CleanTextDropsFirstEndMarker(Continuation(fullResponse, prompt), EndMarkers, UserMarkers, FallbackResponse);
  }

  // ---------------------------------------------------------------------
  // The model cache and the endpoints that use it

  datatype ModelSpec = ModelSpec(name: string, description: string, parameters: Option<string>, contextLength: Option<int>)

  /** `available_models`, in its declaration order. */
  const AvailableModels: seq<(string, ModelSpec)> := [
    ("Orenguteng/Llama-3-8B-Lexi-Uncensored",
     ModelSpec("Llama 3.1 8B Lexi Uncensored",
               "Meta's powerful 8B parameter language model with improved reasoning and capabilities",
               Some("8B"), Some(8192)))
  ]

  predicate IsAvailable(modelId: string)
  {
    exists k :: 0 <= k < |AvailableModels| && AvailableModels[k].0 == modelId
  }

  datatype ModelInfo = ModelInfo(id: string, name: string, description: string,
                                 parameters: Option<string>, contextLength: Option<int>, loaded: bool)

  datatype LoadStatus = AlreadyLoaded | Loading

  datatype ChatRequest = ChatRequest(messages: seq<Message>, model: string, maxTokens: int)
  datatype Usage = Usage(promptTokens: nat, completionTokens: nat, totalTokens: nat)
  datatype ChatResponse = ChatResponse(created: int, model: string, content: string, usage: Usage)

  /** The rough token counts reported in `usage`: whitespace-separated words. */
  function UsageOf(prompt: string, response: string): (u: Usage)
    ensures u.totalTokens == u.promptTokens + u.completionTokens
    ensures u.promptTokens <= |prompt| && u.completionTokens <= |response|
  {
    WordCountBound(prompt);
    WordCountBound(response);
    Usage(WordCount(prompt), WordCount(response), WordCount(prompt) + WordCount(response))
  }

  class ModelServer {
    /** `loaded_models`: model id to its loaded handles. */
    var loadedModels: map<string, ModelEntry>

    /** Only models from the registry are ever loaded through the endpoints. */
    ghost predicate Valid()
      reads this
    {
      forall id | id in loadedModels :: IsAvailable(id)
    }

    constructor ()
      ensures loadedModels == map[] && Valid()
    {
      loadedModels := map[];
    }

    /**
     * `load_model`: a cached entry is returned as is; otherwise `loader` is the
     * outcome of loading the tokenizer and model (None when either raises), and
     * the entry is inserted only when it succeeded.
     */
    method LoadModel(modelName: string, loader: Option<ModelEntry>) returns (r: Result<ModelEntry>)
      modifies this
      ensures modelName in old(loadedModels) ==>
                r == Ok(old(loadedModels)[modelName]) && loadedModels == old(loadedModels)
      ensures modelName !in old(loadedModels) && loader.Some? ==>
                r == Ok(loader.value) && loadedModels == old(loadedModels)[modelName := loader.value]
      ensures modelName !in old(loadedModels) && loader.None? ==>
                r.Err? && r.status == 500 && loadedModels == old(loadedModels)
    {
      if modelName in loadedModels {
        return Ok(loadedModels[modelName]);
      }
      if loader.None? {
        return Err(500, "Failed to load model " + modelName);
      }
      loadedModels := loadedModels[modelName := loader.value];
      return Ok(loadedModels[modelName]);
    }

    /** `unload_model`: 400 unless loaded; otherwise exactly that key is removed. */
    method UnloadModel(modelName: string) returns (r: Result<string>)
      modifies this
      ensures modelName !in old(loadedModels) ==> r.Err? && r.status == 400 && loadedModels == old(loadedModels)
      ensures modelName in old(loadedModels) ==> r == Ok("unloaded") && loadedModels == old(loadedModels) - {modelName}
      ensures old(Valid()) ==> Valid()
    {
      if modelName !in loadedModels {
        return Err(400, "Model " + modelName + " not loaded");
      }
      loadedModels := loadedModels - {modelName};
      return Ok("unloaded");
    }

    /** `list_models`: one entry per registry model, flagged by cache membership. */
    method ListModels() returns (models: seq<ModelInfo>)
      ensures |models| == |AvailableModels|
      ensures forall k | 0 <= k < |models| ::
                var (id, spec) := AvailableModels[k];
                models[k] == ModelInfo(id, spec.name, spec.description, spec.parameters, spec.contextLength,
                                       id in loadedModels)
    {
      models := [];
      var k := 0;
      while k < |AvailableModels|
        invariant 0 <= k <= |AvailableModels| && |models| == k
        invariant forall j | 0 <= j < k ::
                    var (id, spec) := AvailableModels[j];
                    models[j] == ModelInfo(id, spec.name, spec.description, spec.parameters, spec.contextLength,
                                           id in loadedModels)
      {
        var (id, spec) := AvailableModels[k];
        models := models + [ModelInfo(id, spec.name, spec.description, spec.parameters, spec.contextLength,
                                      id in loadedModels)];
        k := k + 1;
      }
    }

    /** `load_specific_model` up to scheduling the background load. */
    method LoadSpecificModel(modelName: string) returns (r: Result<LoadStatus>)
      ensures !IsAvailable(modelName) ==> r.Err? && r.status == 400
      ensures IsAvailable(modelName) ==> r == Ok(if modelName in loadedModels then AlreadyLoaded else Loading)
    {
      if !IsAvailable(modelName) {
        return Err(400, "Model " + modelName + " not available");
      }
      if modelName in loadedModels {
        return Ok(AlreadyLoaded);
      }
      return Ok(Loading);
    }

    /**
     * `create_chat_completion`: an unknown model is rejected before any load;
     * otherwise the model is loaded (or taken from the cache), the prompt is
     * formatted and the oracle's `decoded` output is cleaned.
     */
    method CreateChatCompletion(request: ChatRequest, loader: Option<ModelEntry>, decoded: string, now: int)
      returns (r: Result<ChatResponse>)
      modifies this
      ensures !IsAvailable(request.model) ==> r.Err? && r.status == 400 && loadedModels == old(loadedModels)
      ensures IsAvailable(request.model) && request.model !in old(loadedModels) && loader.None? ==>
                r.Err? && r.status == 500 && loadedModels == old(loadedModels)
      ensures r.Ok? ==>
                var prompt := Prompt(request.messages, request.model);
                && request.model in loadedModels
                && r.value.content == Cleaned(decoded, prompt)
                && r.value.usage == UsageOf(prompt, r.value.content)
                && r.value.model == request.model
      ensures IsAvailable(request.model) && (request.model in old(loadedModels) || loader.Some?) ==> r.Ok?
      ensures loadedModels == old(loadedModels) || (request.model !in old(loadedModels)
                && loader.Some? && loadedModels == old(loadedModels)[request.model := loader.value])
      ensures old(Valid()) ==> Valid()
    {
      if !IsAvailable(request.model) {
        return Err(400, "Model " + request.model + " not available");
      }
      var modelData := LoadModel(request.model, loader);
      if modelData.Err? {
        return Err(modelData.status, modelData.message);
      }
      var prompt := FormatChatPrompt(request.messages, request.model);
      var generated := GenerateResponse(prompt, Some(modelData.value), decoded);
      var content := generated.value;
      return Ok(ChatResponse(now, request.model, content, UsageOf(prompt, content)));
    }
  }
}
