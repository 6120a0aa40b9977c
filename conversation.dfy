/** The transcript that one `/chat` request builds, as functions of the prompt, the replies
    the model gives and the forecast text, with the properties of the tool-calling loop. */
module Conversation {
  import opened JsValues
  import opened Tools

  /** The finish reason with which the model asks for tool calls. */
  const TOOL_CALLS: string := "tool_calls"

  const SYSTEM_PROMPT: string :=
    "あなたは飲食店を提案するアシスタントです。ユーザーにおすすめの飲食店を提案してください。getRestaurant関数を呼び出して飲食店の情報を得てください。"

  /** A reply of the model: its text, its finish reason and the tool calls it requests. */
  datatype AIMessage = AIMessage(content: string, finishReason: string, toolCalls: seq<ToolCall>)

  /** One transcript entry. */
  datatype Message =
    | System(text: string)
    | Human(text: string)
    | AI(reply: AIMessage)
    | Tool(result: ToolMessage)

  /** What one call of the model was given: the bare prompt text or a whole transcript. */
  datatype ModelInput = Prompt(text: string) | Transcript(messages: seq<Message>)

  /** `response_metadata.finish_reason` of an entry; only model replies carry one. */
  function FinishReason(m: Message): string {
    if m.AI? then m.reply.finishReason else ""
  }

  predicate RequestsTools(r: AIMessage) {
    r.finishReason == TOOL_CALLS
  }

  /** Some reply at index `from` or later does not ask for tools. */
  predicate StopsFrom(script: seq<AIMessage>, from: nat) {
    exists i :: from <= i < |script| && !RequestsTools(script[i])
  }

  /** Some reply in the script does not ask for tools, so the loop stops. */
  predicate Stops(script: seq<AIMessage>) {
    StopsFrom(script, 0)
  }

  /** Every tool call of `first` can be dispatched. */
  predicate CallsValid(first: AIMessage) {
    AllValid(first.toolCalls)
  }

  /** What a handler given `script` needs of it: it stops, and if the first reply asks for
      tools, those tools exist. */
  predicate Runnable(script: seq<AIMessage>) {
    Stops(script) && (RequestsTools(script[0]) ==> CallsValid(script[0]))
  }

  /** The index of the first reply at `from` or later that does not ask for tools. */
  function StopFrom(script: seq<AIMessage>, from: nat): (n: nat)
    requires StopsFrom(script, from)
    ensures from <= n < |script| && !RequestsTools(script[n])
    decreases |script| - from
  {
    if !RequestsTools(script[from]) then from else StopFrom(script, from + 1)
  }

  /** The index of the first reply that does not ask for tools. */
  function FirstStop(script: seq<AIMessage>): (n: nat)
    requires Stops(script)
    ensures n < |script| && !RequestsTools(script[n])
  {
    StopFrom(script, 0)
  }

  /** The transcript before the loop. */
  function Seed(prompt: string, first: AIMessage): seq<Message> {
    [System(SYSTEM_PROMPT), Human(prompt), AI(first)]
  }

  /** The tool messages of the first n calls of a round, in the order of `calls`. */
  function Results(calls: seq<ToolCall>, n: nat, forecast: string): (ms: seq<Message>)
    requires n <= |calls| && ValidUpTo(calls, n)
    ensures |ms| == n
  {
    if n == 0 then []
    else Results(calls, n - 1, forecast) + [Tool(Run(calls[n - 1], forecast))]
  }

  /** The tool messages one round appends: one per call. */
  function ToolMessages(calls: seq<ToolCall>, forecast: string): seq<Message>
    requires AllValid(calls)
  {
    Results(calls, |calls|, forecast)
  }

  /** The i-th tool message of a round is the result of the i-th call, linked to it by id. */
  lemma {:induction false} ResultsAt(calls: seq<ToolCall>, n: nat, forecast: string, i: nat)
    requires n <= |calls| && ValidUpTo(calls, n) && i < n
    ensures ValidCall(calls[i])
    ensures Results(calls, n, forecast)[i] == Tool(Run(calls[i], forecast))
    ensures Results(calls, n, forecast)[i].result.toolCallId == calls[i].id
  {
    if i < n - 1 {
      ResultsAt(calls, n - 1, forecast, i);
    }
  }

  /** The requests the first n calls of a round make, while the shared position holds
      `latitude`, `longitude`. */
  function FetchesUpTo(calls: seq<ToolCall>, n: nat, latitude: Value, longitude: Value): seq<Fetch>
    requires n <= |calls|
  {
    if n == 0 then []
    else FetchesUpTo(calls, n - 1, latitude, longitude) + CallFetches(calls[n - 1], latitude, longitude)
  }

  /** The requests one round makes. */
  function RoundFetches(calls: seq<ToolCall>, latitude: Value, longitude: Value): seq<Fetch> {
    FetchesUpTo(calls, |calls|, latitude, longitude)
  }

  /** The requests of a round whose requests are `s`, repeated for `n` rounds. */
  function Repeat(s: seq<Fetch>, n: nat): seq<Fetch> {
    if n == 0 then [] else Repeat(s, n - 1) + s
  }

  /** What the loop needs to run n rounds on `script`: the n-th reply exists, and if any
      round runs, the first reply's tool calls can be dispatched. */
  predicate RoundsOk(script: seq<AIMessage>, n: nat) {
    n < |script| && (n == 0 || CallsValid(script[0]))
  }

  /** The transcript after n rounds: each round appends the results of the FIRST reply's tool
      calls, then the model's next reply. */
  function History(prompt: string, script: seq<AIMessage>, n: nat, forecast: string): seq<Message>
    requires RoundsOk(script, n)
  {
    if n == 0 then Seed(prompt, script[0])
    else History(prompt, script, n - 1, forecast) + ToolMessages(script[0].toolCalls, forecast) + [AI(script[n])]
  }

  /** What the model has been given after n rounds: the bare prompt, then before each later
      reply, the transcript as it stood then. */
  function Inputs(prompt: string, script: seq<AIMessage>, n: nat, forecast: string): seq<ModelInput>
    requires RoundsOk(script, n)
  {
    if n == 0 then [Prompt(prompt)]
    else
      Inputs(prompt, script, n - 1, forecast)
      + [Transcript(History(prompt, script, n - 1, forecast) + ToolMessages(script[0].toolCalls, forecast))]
  }

  /** The whole transcript of a request whose model replies with `script`. */
  function Final(prompt: string, script: seq<AIMessage>, forecast: string): seq<Message>
    requires Runnable(script)
  {
    History(prompt, script, FirstStop(script), forecast)
  }

  /** Every model call of a request, in order. */
  function ModelInputs(prompt: string, script: seq<AIMessage>, forecast: string): seq<ModelInput>
    requires Runnable(script)
  {
    Inputs(prompt, script, FirstStop(script), forecast)
  }

  /** Every request made by tools during a request at position (`latitude`, `longitude`). */
  function RequestFetches(script: seq<AIMessage>, latitude: Value, longitude: Value): seq<Fetch>
    requires Stops(script)
  {
    Repeat(RoundFetches(script[0].toolCalls, latitude, longitude), FirstStop(script))
  }

  // ---------------------------------------------------------------------------------------
  // Properties of the loop

  /** The loop, having run n rounds, sees a reply asking for tools exactly when it has not
      reached the stopping reply. */
  lemma StopIndex(script: seq<AIMessage>, n: nat)
    requires Stops(script) && n <= FirstStop(script)
    ensures n < |script|
    ensures RequestsTools(script[n]) <==> n < FirstStop(script)
    ensures n < FirstStop(script) ==> RequestsTools(script[0])
  {
    if n < FirstStop(script) {
      BeforeStop(script, 0, n);
      BeforeStop(script, 0, 0);
    }
  }

  /** Every reply from `from` up to the stopping one asks for tools. */
  lemma {:induction false} BeforeStop(script: seq<AIMessage>, from: nat, j: nat)
    requires StopsFrom(script, from) && from <= j < StopFrom(script, from)
    ensures RequestsTools(script[j])
    decreases |script| - from
  {
    if j > from {
      BeforeStop(script, from + 1, j);
    }
  }

  /** After n rounds, the transcript holds 3 + n * (k + 1) entries, k being the number of
      tool calls of the first reply, and its last entry is the n-th reply. */
  lemma {:induction false} HistoryLength(prompt: string, script: seq<AIMessage>, n: nat, forecast: string)
    requires RoundsOk(script, n)
    ensures var t := History(prompt, script, n, forecast);
      |t| == 3 + n * (|script[0].toolCalls| + 1) && t[|t| - 1] == AI(script[n])
  {
    if n > 0 {
      var k := |script[0].toolCalls|;
      HistoryLength(prompt, script, n - 1, forecast);
      assert (n - 1) * (k + 1) + k + 1 == n * (k + 1);
    }
  }

  /** The transcript is append-only: the transcript after m rounds is a prefix of the one
      after n >= m rounds. */
  lemma {:induction false} AppendOnly(prompt: string, script: seq<AIMessage>, m: nat, n: nat, forecast: string)
    requires RoundsOk(script, n) && m <= n
    ensures History(prompt, script, m, forecast) <= History(prompt, script, n, forecast)
  {
    if m < n {
      AppendOnly(prompt, script, m, n - 1, forecast);
    }
  }

  /** Whatever the number of rounds, the transcript starts with the system prompt, the user's
      prompt and the first reply. */
  lemma SeedStaysFirst(prompt: string, script: seq<AIMessage>, n: nat, forecast: string)
    requires RoundsOk(script, n)
    ensures |History(prompt, script, n, forecast)| >= 3
    ensures History(prompt, script, n, forecast)[..3] == [System(SYSTEM_PROMPT), Human(prompt), AI(script[0])]
  {
    AppendOnly(prompt, script, 0, n, forecast);
  }

  /** Round j + 1 appends to the transcript of the rounds before it. */
  lemma RoundOffsets(j: nat, k: nat, n: nat)
    requires j < n
    ensures j * (k + 1) + k + 1 == (j + 1) * (k + 1) <= n * (k + 1)
  {
  }


  /** Round j + 1 (j counting from 0) occupies positions 3 + j*(k+1) .. 3 + j*(k+1) + k: first
      the results of the first reply's k tool calls in list order, each linked to its call's
      id, then reply j + 1. */
  lemma RoundLayout(prompt: string, script: seq<AIMessage>, n: nat, forecast: string, j: nat, i: nat)
    requires RoundsOk(script, n)
    requires j < n && i <= |script[0].toolCalls|
    ensures var k, t := |script[0].toolCalls|, History(prompt, script, n, forecast);
      3 + j * (k + 1) + i < |t| &&
      (i < k ==> ValidCall(script[0].toolCalls[i])
                 && t[3 + j * (k + 1) + i] == Tool(Run(script[0].toolCalls[i], forecast))
                 && t[3 + j * (k + 1) + i].result.toolCallId == script[0].toolCalls[i].id) &&
      (i == k ==> t[3 + j * (k + 1) + i] == AI(script[j + 1]))
  {
    var k := |script[0].toolCalls|;
    AppendOnly(prompt, script, j + 1, n, forecast);
    HistoryLength(prompt, script, j, forecast);
    HistoryLength(prompt, script, n, forecast);
    RoundOffsets(j, k, n);
    if i < k {
      ResultsAt(script[0].toolCalls, k, forecast, i);
    }
  }

  /** After n rounds the model has been called n + 1 times, the first time with the bare prompt
      text, not the seeded transcript. */
  lemma {:induction false} InputsLength(prompt: string, script: seq<AIMessage>, n: nat, forecast: string)
    requires RoundsOk(script, n)
    ensures |Inputs(prompt, script, n, forecast)| == n + 1
    ensures Inputs(prompt, script, n, forecast)[0] == Prompt(prompt)
  {
    if n > 0 {
      InputsLength(prompt, script, n - 1, forecast);
    }
  }

  /** The inputs of the first m + 1 calls stay as they were in later rounds. */
  lemma {:induction false} InputsAppendOnly(prompt: string, script: seq<AIMessage>, m: nat, n: nat, forecast: string)
    requires RoundsOk(script, n) && m <= n
    ensures Inputs(prompt, script, m, forecast) <= Inputs(prompt, script, n, forecast)
  {
    if m < n {
      InputsAppendOnly(prompt, script, m, n - 1, forecast);
    }
  }

  /** The model call before reply j + 1 sees the whole transcript up to and including round
      j + 1's tool results. */
  lemma InputSeesTranscript(prompt: string, script: seq<AIMessage>, n: nat, forecast: string, j: nat)
    requires RoundsOk(script, n)
    requires j < n
    ensures var k, t := |script[0].toolCalls|, History(prompt, script, n, forecast);
      |Inputs(prompt, script, n, forecast)| == n + 1 &&
      3 + j * (k + 1) + k <= |t| &&
      Inputs(prompt, script, n, forecast)[j + 1] == Transcript(t[..3 + j * (k + 1) + k])
  {
    var k := |script[0].toolCalls|;
    var before := History(prompt, script, j, forecast) + ToolMessages(script[0].toolCalls, forecast);
    InputIsRoundPrefix(prompt, script, n, forecast, j);
    assert Inputs(prompt, script, n, forecast)[j + 1] == Transcript(before);
    HistoryLength(prompt, script, j, forecast);
    assert |before| == 3 + j * (k + 1) + k;
    HistoryPrefix(prompt, script, n, forecast, j);
  }

  /** The input of call j + 1 is fixed once round j + 1 has started. */
  lemma InputIsRoundPrefix(prompt: string, script: seq<AIMessage>, n: nat, forecast: string, j: nat)
    requires RoundsOk(script, n) && j < n
    ensures |Inputs(prompt, script, n, forecast)| == n + 1
    ensures Inputs(prompt, script, n, forecast)[j + 1]
         == Transcript(History(prompt, script, j, forecast) + ToolMessages(script[0].toolCalls, forecast))
  {
    InputsLength(prompt, script, n, forecast);
    InputsLength(prompt, script, j + 1, forecast);
    InputsAppendOnly(prompt, script, j + 1, n, forecast);
  }

  /** The transcript after n rounds starts with the transcript of round j + 1 up to its tool
      results. */
  lemma HistoryPrefix(prompt: string, script: seq<AIMessage>, n: nat, forecast: string, j: nat)
    requires RoundsOk(script, n) && j < n
    ensures var before := History(prompt, script, j, forecast) + ToolMessages(script[0].toolCalls, forecast);
      |before| <= |History(prompt, script, n, forecast)| &&
      History(prompt, script, n, forecast)[..|before|] == before
  {
    var before := History(prompt, script, j, forecast) + ToolMessages(script[0].toolCalls, forecast);
    AppendOnly(prompt, script, j + 1, n, forecast);
    assert History(prompt, script, j + 1, forecast) == before + [AI(script[j + 1])];
  }

  /** When the loop ends, the last entry is the first reply whose finish reason is not
      "tool_calls", after exactly one round per earlier reply. */
  lemma FinalEndsWithStop(prompt: string, script: seq<AIMessage>, forecast: string)
    requires Runnable(script)
    ensures var t, n := Final(prompt, script, forecast), FirstStop(script);
      |t| == 3 + n * (|script[0].toolCalls| + 1) &&
      t[|t| - 1] == AI(script[n]) &&
      FinishReason(t[|t| - 1]) != TOOL_CALLS
  {
    HistoryLength(prompt, script, FirstStop(script), forecast);
  }

  /** A first reply that does not ask for tools ends the request without a round: one model
      call, no tool call, no request to a web service. */
  lemma NoToolsNoRounds(prompt: string, script: seq<AIMessage>, forecast: string, latitude: Value, longitude: Value)
    requires |script| > 0 && !RequestsTools(script[0])
    ensures Runnable(script)
    ensures Final(prompt, script, forecast) == [System(SYSTEM_PROMPT), Human(prompt), AI(script[0])]
    ensures ModelInputs(prompt, script, forecast) == [Prompt(prompt)]
    ensures RequestFetches(script, latitude, longitude) == []
  {
    assert Stops(script);
  }

  /** Every shop search a request makes uses the position of that request. */
  lemma {:induction false} SearchesUseRequestPosition(calls: seq<ToolCall>, latitude: Value, longitude: Value, n: nat)
    ensures forall f <- Repeat(RoundFetches(calls, latitude, longitude), n) ::
      f.RestaurantFetch? ==> f == RestaurantFetch(latitude, longitude, RESTAURANT_COUNT)
  {
    if n > 0 {
      SearchesUseRequestPosition(calls, latitude, longitude, n - 1);
      RoundSearchesUsePosition(calls, |calls|, latitude, longitude);
    }
  }

  lemma {:induction false} RoundSearchesUsePosition(calls: seq<ToolCall>, n: nat, latitude: Value, longitude: Value)
    requires n <= |calls|
    ensures forall f <- FetchesUpTo(calls, n, latitude, longitude) ::
      f.RestaurantFetch? ==> f == RestaurantFetch(latitude, longitude, RESTAURANT_COUNT)
  {
    if n > 0 {
      RoundSearchesUsePosition(calls, n - 1, latitude, longitude);
    }
  }
}
