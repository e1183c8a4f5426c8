/**
 * The direct OpenAI client of `src/utils/openaiApi.ts`: the token-usage log it keeps in
 * browser storage, the statistics read back from it, and the request it builds for a
 * chat completion.
 */
module OpenAiApi {
  import opened Wrappers
  import opened Text
  import opened Numbers

  /** The `usage` block of a completion response. */
  datatype ApiUsage = ApiUsage(promptTokens: int, completionTokens: int, totalTokens: int)

  /** One line of the stored usage log; `timestamp` is the time of logging in ms. */
  datatype UsageEntry = UsageEntry(
    timestamp: int,
    model: string,
    promptTokens: int,
    completionTokens: int,
    totalTokens: int,
    queryType: string)

  datatype UsageStats = UsageStats(total: int, byModel: map<string, int>)

  datatype ChatRole = System | User | Assistant

  datatype ChatMessage = ChatMessage(role: ChatRole, content: string)

  /** The body posted to the chat-completions endpoint. */
  datatype Payload = Payload(model: string, messages: seq<ChatMessage>, temperature: real, maxTokens: int)

  /** The query type `logTokenUsage` records when its caller gives none. */
  const DefaultQueryType := "standard"

  const DefaultModel := "gpt-3.5-turbo"
  const DefaultTemperature := 0.7
  const DefaultMaxTokens := 1000

  const MissingKeyMessage := "OpenAI API key is not set. Please add your API key in the Settings."

  /** `getAvailableModels`: a fixed list of four distinct models, the default one among them. */
  function AvailableModels(): (r: seq<string>)
    ensures |r| == 4 && NoDuplicates(r) && DefaultModel in r
  {
    ["gpt-4o-mini", "gpt-4o", "gpt-4-turbo", "gpt-3.5-turbo"]
  }

  /**
   * `logTokenUsage`: appends exactly one entry copied from `usage` to the log; a stored
   * log that does not parse makes the call fail quietly, leaving storage as it was.
   */
  function LogTokenUsage(stored: Slot<UsageEntry>, model: string, usage: ApiUsage, queryType: string,
      now: int): (r: Slot<UsageEntry>)
    ensures stored.Malformed? ==> r == stored
    ensures !stored.Malformed? ==>
      && r.Parsed? && |r.items| == |stored.Items()| + 1
      && r.items[..|stored.Items()|] == stored.Items()
      && r.items[|stored.Items()|] == UsageEntry(now, model, usage.promptTokens,
        usage.completionTokens, usage.totalTokens, queryType)
  {
    if stored.Malformed? then stored
    else
      var entry := UsageEntry(now, model, usage.promptTokens, usage.completionTokens,
        usage.totalTokens, queryType);
      Parsed(stored.Items() + [entry])
  }

  /** The summed `total_tokens` of a log, left to right. */
  function SumTotals(logs: seq<UsageEntry>): int
  {
    if logs == [] then 0 else SumTotals(logs[..|logs| - 1]) + logs[|logs| - 1].totalTokens
  }

  /** The per-model totals after folding the whole log, left to right. */
  function ByModel(logs: seq<UsageEntry>): map<string, int>
  {
    if logs == [] then map[]
    else
      var last := logs[|logs| - 1];
      AddTo(ByModel(logs[..|logs| - 1]), last.model, last.totalTokens)
  }

  /** The entries of a log that were billed to `model`. */
  function OfModel(logs: seq<UsageEntry>, model: string): seq<UsageEntry>
  {
    Filter(logs, BilledTo(model))
  }

  function BilledTo(model: string): UsageEntry -> bool
  {
    (e: UsageEntry) => e.model == model
  }

  /** A model has entries in the log exactly when some entry names it. */
  lemma OfModelNonEmpty(logs: seq<UsageEntry>, model: string)
    ensures OfModel(logs, model) != [] <==> exists k | 0 <= k < |logs| :: logs[k].model == model
  {
    if OfModel(logs, model) != [] {
      var k :| 0 <= k < |logs| && logs[k] == OfModel(logs, model)[0];
    }
    if exists k | 0 <= k < |logs| :: logs[k].model == model {
      var k :| 0 <= k < |logs| && logs[k].model == model;
      assert logs[k] in OfModel(logs, model);
    }
  }

  /**
   * The per-model table has a key for exactly the models that occur in the log, and each
   * value is the total of that model's entries.
   */
  lemma ByModelSpec(logs: seq<UsageEntry>, model: string)
    ensures model in ByModel(logs) <==> exists k | 0 <= k < |logs| :: logs[k].model == model
    ensures model in ByModel(logs) ==> ByModel(logs)[model] == SumTotals(OfModel(logs, model))
  {
    ByModelOfModel(logs, model);
    OfModelNonEmpty(logs, model);
  }

  lemma {:induction false} ByModelOfModel(logs: seq<UsageEntry>, model: string)
    ensures model in ByModel(logs) <==> OfModel(logs, model) != []
    ensures model in ByModel(logs) ==> ByModel(logs)[model] == SumTotals(OfModel(logs, model))
  {
    if logs != [] {
      var init, last := logs[..|logs| - 1], logs[|logs| - 1];
      ByModelOfModel(init, model);
      assert logs == init + [last];
      FilterSnoc(init, last, BilledTo(model));
      var before := OfModel(init, model);
      var prev := ByModel(init);
      assert ByModel(logs) == AddTo(prev, last.model, last.totalTokens);
      if model == last.model {
        assert OfModel(logs, model) == before + [last];
        assert (before + [last])[..|before|] == before;
        assert SumTotals(before + [last]) == SumTotals(before) + last.totalTokens;
        assert ByModel(logs)[model] == (if model in prev then prev[model] else 0) + last.totalTokens;
      } else {
        assert OfModel(logs, model) == before;
        assert model in ByModel(logs) <==> model in prev;
      }
    }
  }

  /** The values of the per-model table add up to the overall total. */
  lemma {:induction false} ByModelSum(logs: seq<UsageEntry>)
    ensures MapSum(ByModel(logs)) == SumTotals(logs)
  {
    if logs != [] {
      var last := logs[|logs| - 1];
      ByModelSum(logs[..|logs| - 1]);
      MapSumAddTo(ByModel(logs[..|logs| - 1]), last.model, last.totalTokens);
    }
  }

  /**
   * `getTokenUsageStats`: the overall and per-model token totals of the stored log; an
   * unset key or a log that does not parse gives zero and an empty table.
   */
  method GetTokenUsageStats(stored: Slot<UsageEntry>) returns (r: UsageStats)
    ensures !stored.Parsed? ==> r == UsageStats(0, map[])
    ensures stored.Parsed? ==> r == UsageStats(SumTotals(stored.items), ByModel(stored.items))
  {
    if !stored.Parsed? {
      return UsageStats(0, map[]);
    }
    var logs := stored.items;
    var total := 0;
    var byModel: map<string, int> := map[];
    for i := 0 to |logs|
      invariant total == SumTotals(logs[..i]) && byModel == ByModel(logs[..i])
    {
      var entry := logs[i];
      assert logs[..i + 1][..i] == logs[..i];
      total := total + entry.totalTokens;
      byModel := AddTo(byModel, entry.model, entry.totalTokens);
    }
    assert logs[..|logs|] == logs;
    r := UsageStats(total, byModel);
  }

  /** A configured key: present and not the empty string. */
  predicate HasKey(apiKey: Option<string>)
  {
    apiKey.Some? && apiKey.value != []
  }

  /**
   * The request `generateChatCompletion` posts: without a key it fails before building
   * anything; otherwise the system message (the fixed security preamble `preamble`, a
   * space, then the persona prompt), the history as given, and the user's message last.
   */
  function ChatRequest(apiKey: Option<string>, preamble: string, systemPrompt: string, userMessage: string,
      history: seq<ChatMessage>, model: string, temperature: real, maxTokens: int): (r: Result<Payload>)
    ensures r.Err? <==> !HasKey(apiKey)
    ensures r.Err? ==> r.status == 0 && r.message == MissingKeyMessage
    ensures r.Ok? ==>
      var msgs := r.value.messages;
      && |msgs| == |history| + 2
      && msgs[0] == ChatMessage(System, preamble + " " + systemPrompt)
      && msgs[1..|msgs| - 1] == history
      && msgs[|msgs| - 1] == ChatMessage(User, userMessage)
      && r.value.model == model && r.value.temperature == temperature && r.value.maxTokens == maxTokens
  {
    if !HasKey(apiKey) then Err(0, MissingKeyMessage)
    else
      var fullSystemPrompt := preamble + " " + systemPrompt;
      var messages := [ChatMessage(System, fullSystemPrompt)] + history + [ChatMessage(User, userMessage)];
      Ok(Payload(model, messages, temperature, maxTokens))
  }
}
