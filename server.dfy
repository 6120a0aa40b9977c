/** The `/chat` handler: it records the request's coordinates in the shared position, checks
    the prompt, then runs the tool-calling loop against the chat model. */
module Server {
  import opened JsValues
  import opened Tools
  import opened Conversation

  /** The module-level `position` object that every request overwrites and the restaurant
      tool reads. */
  class Position {
    var latitude: Value
    var longitude: Value

    constructor ()
      ensures latitude == Number(0.0) && longitude == Number(0.0)
    {
      latitude := Number(0.0);
      longitude := Number(0.0);
    }
  }

  /** The chat model bound to the four tools, seen from outside: it answers its calls with
      `replies` in order, counts the calls it has answered and remembers what it was given. */
  class ChatModel {
    const replies: seq<AIMessage>
    var answered: nat
    var received: seq<ModelInput>

    constructor (replies: seq<AIMessage>)
      ensures this.replies == replies && answered == 0 && received == []
    {
      this.replies := replies;
      answered := 0;
      received := [];
    }

    /** The replies still to come. */
    function Pending(): seq<AIMessage>
      reads this
      requires answered <= |replies|
    {
      replies[answered..]
    }

    method Invoke(input: ModelInput) returns (reply: AIMessage)
      requires answered < |replies|
      modifies this
      ensures reply == replies[old(answered)]
      ensures answered == old(answered) + 1
      ensures received == old(received) + [input]
    {
      reply := replies[answered];
      answered := answered + 1;
      received := received + [input];
    }
  }

  /** The web services the tools fetch from, seen from outside: the weather service serves a
      fixed forecast text, and every request made is remembered. */
  class Web {
    const forecastText: string
    var requests: seq<Fetch>

    constructor (forecastText: string)
      ensures this.forecastText == forecastText && requests == []
    {
      this.forecastText := forecastText;
      requests := [];
    }

    method FetchForecast() returns (text: string)
      modifies this
      ensures text == forecastText
      ensures requests == old(requests) + [ForecastFetch]
    {
      text := forecastText;
      requests := requests + [ForecastFetch];
    }

    /** A shop search; its answer is never used by the tool that makes it. */
    method FetchRestaurants(latitude: Value, longitude: Value, count: int)
      modifies this
      ensures requests == old(requests) + [RestaurantFetch(latitude, longitude, count)]
    {
      requests := requests + [RestaurantFetch(latitude, longitude, count)];
    }
  }

  /** A parsed `/chat` request body. */
  datatype Request = Request(promptText: Value, latitude: Value, longitude: Value)

  datatype Response = Status(code: int) | Json(content: string)

  /** `toolsByName[call.name].invoke(call)`: runs the tool the call names with the position as
      it is now. */
  method InvokeTool(call: ToolCall, position: Position, web: Web) returns (msg: ToolMessage)
    requires ValidCall(call)
    modifies web
    ensures msg == Run(call, web.forecastText)
    ensures web.requests == old(web.requests) + CallFetches(call, position.latitude, position.longitude)
  {
    var tool := TOOLS_BY_NAME[call.name];
    match tool {
      case Add =>
        msg := ToolMessage(Num(AddTool(call.args["a"], call.args["b"])), call.id, "add");
      case Multiply =>
        msg := ToolMessage(Num(MultiplyTool(call.args["a"], call.args["b"])), call.id, "multiply");
      case GetForecast =>
        var text := web.FetchForecast();
        msg := ToolMessage(Text(text), call.id, "getForecast");
      case GetRestaurant =>
        web.FetchRestaurants(position.latitude, position.longitude, RESTAURANT_COUNT);
        msg := ToolMessage(Text(RESTAURANT_REPLY), call.id, "getRestaurant");
    }
  }

  /** The inner `for` loop of the handler: runs `calls` in order and appends each result to
      the transcript. */
  method RunToolCalls(calls: seq<ToolCall>, transcript: seq<Message>, position: Position, web: Web)
      returns (extended: seq<Message>)
    requires AllValid(calls)
    modifies web
    ensures extended == transcript + ToolMessages(calls, web.forecastText)
    ensures web.requests == old(web.requests) + RoundFetches(calls, position.latitude, position.longitude)
  {
    extended := transcript;
    for i := 0 to |calls|
      invariant ValidUpTo(calls, i)
      invariant extended == transcript + Results(calls, i, web.forecastText)
      invariant web.requests == old(web.requests) + FetchesUpTo(calls, i, position.latitude, position.longitude)
    {
      ValidBelow(calls, |calls|, i);
      var msg := InvokeTool(calls[i], position, web);
      extended := extended + [Tool(msg)];
    }
  }

  /** Where the handler stands after n rounds on the replies `script`, which the model started
      answering after `base` earlier calls: the transcript, the model's inputs and the web
      requests are those of n rounds. `round` is the requests one round makes. */
  ghost predicate AtRound(prompt: string, script: seq<AIMessage>, base: nat, n: nat,
                          received0: seq<ModelInput>, requests0: seq<Fetch>, round: seq<Fetch>,
                          first: AIMessage, transcript: seq<Message>, position: Position, model: ChatModel, web: Web)
    reads position, model, web
  {
    && RoundsOk(script, n) && first == script[0]
    && base <= |model.replies| && script == model.replies[base..]
    && model.answered == base + n + 1
    && transcript == History(prompt, script, n, web.forecastText)
    && |transcript| >= 3 && transcript[|transcript| - 1] == AI(script[n])
    && model.received == received0 + Inputs(prompt, script, n, web.forecastText)
    && round == RoundFetches(first.toolCalls, position.latitude, position.longitude)
    && web.requests == requests0 + Repeat(round, n)
  }

  /** One round of the handler's `while` loop: runs the first reply's tool calls, appending
      each result, then asks the model with the whole transcript and appends its reply. */
  method Round(ghost prompt: string, ghost script: seq<AIMessage>, ghost base: nat, ghost n: nat,
               ghost received0: seq<ModelInput>, ghost requests0: seq<Fetch>, ghost round: seq<Fetch>,
               first: AIMessage, transcript: seq<Message>, position: Position, model: ChatModel, web: Web)
      returns (extended: seq<Message>)
    requires RoundsOk(script, n + 1)
    requires AtRound(prompt, script, base, n, received0, requests0, round, first, transcript, position, model, web)
    modifies model, web
    ensures AtRound(prompt, script, base, n + 1, received0, requests0, round, first, extended, position, model, web)
  {
    extended := RunToolCalls(first.toolCalls, transcript, position, web);
    var reply := model.Invoke(Transcript(extended));
    extended := extended + [AI(reply)];
  }

  /** The `/chat` handler. `messages` is the transcript it builds, returned for the proofs. */
  method HandleChat(request: Request, position: Position, model: ChatModel, web: Web)
      returns (response: Response, ghost messages: seq<Message>)
    requires model.answered <= |model.replies|
    requires IsString(request.promptText) ==> Runnable(model.Pending())
    modifies position, model, web
    ensures position.latitude == request.latitude && position.longitude == request.longitude
    ensures !IsString(request.promptText) ==>
      response == Status(400) && messages == []
      && model.answered == old(model.answered) && model.received == old(model.received)
      && web.requests == old(web.requests)
    ensures IsString(request.promptText) ==>
      var prompt, script := request.promptText.s, old(model.Pending());
      && messages == Final(prompt, script, web.forecastText)
      && response == Json(messages[|messages| - 1].reply.content)
      && response == Json(script[FirstStop(script)].content)
      && model.answered == old(model.answered) + FirstStop(script) + 1
      && model.received == old(model.received) + ModelInputs(prompt, script, web.forecastText)
      && web.requests == old(web.requests) + RequestFetches(script, request.latitude, request.longitude)
  {
    position.latitude := request.latitude;
    position.longitude := request.longitude;
    messages := [];
    if !IsString(request.promptText) {
      response := Status(400);
      return;
    }
    ghost var script := model.Pending();
    var transcript := Converse(request.promptText.s, position, model, web);
    FinalEndsWithStop(request.promptText.s, script, web.forecastText);
    messages := transcript;
    response := Json(transcript[|transcript| - 1].reply.content);
  }

  /** The conversation part of the handler: seeds the transcript, asks the model with the bare
      prompt, then runs the tool-calling loop. */
  method Converse(prompt: string, position: Position, model: ChatModel, web: Web) returns (transcript: seq<Message>)
    requires model.answered <= |model.replies| && Runnable(model.Pending())
    modifies model, web
    ensures var script := old(model.Pending());
      && transcript == Final(prompt, script, web.forecastText)
      && model.answered == old(model.answered) + FirstStop(script) + 1
      && model.received == old(model.received) + ModelInputs(prompt, script, web.forecastText)
      && web.requests == old(web.requests) + RequestFetches(script, position.latitude, position.longitude)
  {
    ghost var script, base := model.Pending(), model.answered;
    ghost var received0, requests0 := model.received, web.requests;
    transcript := [System(SYSTEM_PROMPT), Human(prompt)];
    var first := model.Invoke(Prompt(prompt));
    transcript := transcript + [AI(first)];
    ghost var n;
    transcript, n := Loop(prompt, script, base, received0, requests0, first, transcript, position, model, web);
  }

  /** The handler's `while` loop: while the last entry's finish reason is "tool_calls", runs the
      FIRST reply's tool calls and asks the model again with the whole transcript. It stops
      after the first reply that does not ask for tools. */
  method Loop(ghost prompt: string, ghost script: seq<AIMessage>, ghost base: nat,
              ghost received0: seq<ModelInput>, ghost requests0: seq<Fetch>,
              first: AIMessage, transcript: seq<Message>, position: Position, model: ChatModel, web: Web)
      returns (final: seq<Message>, ghost n: nat)
    requires Runnable(script) && first == script[0]
    requires base <= |model.replies| && script == model.replies[base..]
    requires model.answered == base + 1
    requires transcript == History(prompt, script, 0, web.forecastText)
    requires model.received == received0 + Inputs(prompt, script, 0, web.forecastText)
    requires web.requests == requests0
    modifies model, web
    ensures n == FirstStop(script)
    ensures model.answered == base + n + 1
    ensures final == History(prompt, script, n, web.forecastText)
    ensures model.received == received0 + Inputs(prompt, script, n, web.forecastText)
    ensures web.requests == requests0 + Repeat(RoundFetches(first.toolCalls, position.latitude, position.longitude), n)
  {
    ghost var stop := FirstStop(script);
    ghost var round := RoundFetches(first.toolCalls, position.latitude, position.longitude);
    final := transcript;
    n := 0;
    while FinishReason(final[|final| - 1]) == TOOL_CALLS
      invariant n <= stop
      invariant AtRound(prompt, script, base, n, received0, requests0, round, first, final, position, model, web)
      decreases stop - n
    {
      StopIndex(script, n);
      final := Round(prompt, script, base, n, received0, requests0, round, first, final, position, model, web);
      n := n + 1;
    }
    StopIndex(script, n);
  }
}
