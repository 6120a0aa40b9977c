/** The four tools the chat model may call, the `toolsByName` table that dispatches on a
    tool call's name, and what running each tool yields and fetches. */
module Tools {
  import opened JsValues

  datatype ToolName = Add | Multiply | GetForecast | GetRestaurant

  datatype Option<T> = None | Some(value: T)

  /** A tool call as the model emits it: an id, the requested tool's name and its numeric
      arguments (the schemas of the arithmetic tools admit numbers only). */
  datatype ToolCall = ToolCall(id: string, name: string, args: map<string, real>)

  /** What a tool returns: the arithmetic tools a number, the others text. */
  datatype Output = Num(n: real) | Text(s: string)

  /** The tool-result message a tool produces when it is invoked with a tool call. */
  datatype ToolMessage = ToolMessage(content: Output, toolCallId: string, name: string)

  /** An outgoing HTTP request made by a tool. */
  datatype Fetch =
    | ForecastFetch
    | RestaurantFetch(latitude: Value, longitude: Value, count: int)

  const TOOLS_BY_NAME: map<string, ToolName> :=
    map["add" := Add, "multiply" := Multiply, "getForecast" := GetForecast, "getRestaurant" := GetRestaurant]

  /** The number of shops the restaurant tool asks the search service for. */
  const RESTAURANT_COUNT: int := 100

  /** The restaurant tool's answer, whatever the search service sent back. */
  const RESTAURANT_REPLY: string := "おいしいレストランがあります"

  /** The name each tool is registered under. */
  function NameOf(t: ToolName): (name: string)
    ensures name in TOOLS_BY_NAME && TOOLS_BY_NAME[name] == t
  {
    match t
    case Add => "add"
    case Multiply => "multiply"
    case GetForecast => "getForecast"
    case GetRestaurant => "getRestaurant"
  }

  /** `toolsByName[name]`: the tool registered under `name`, or nothing. */
  function Lookup(name: string): (r: Option<ToolName>)
    ensures r.Some? <==> name in {"add", "multiply", "getForecast", "getRestaurant"}
    ensures r.Some? ==> NameOf(r.value) == name
  {
    if name in TOOLS_BY_NAME then Some(TOOLS_BY_NAME[name]) else None
  }

  /** Each tool is found under the name it is registered with, and under no other name. */
  lemma RegisteredUnderOwnName(t: ToolName, name: string)
    ensures Lookup(NameOf(t)) == Some(t)
    ensures Lookup(name) == Some(t) ==> name == NameOf(t)
  {
  }

  /** The arithmetic tools' schema `{a: number, b: number}`; the other two take no arguments. */
  predicate ArgsFit(t: ToolName, args: map<string, real>) {
    (t == Add || t == Multiply) ==> "a" in args && "b" in args
  }

  /** A call the handler can run: its name is registered and its arguments fit the schema. */
  predicate ValidCall(call: ToolCall) {
    call.name in TOOLS_BY_NAME && ArgsFit(TOOLS_BY_NAME[call.name], call.args)
  }

  /** The first n calls of `calls` can be run. */
  predicate ValidUpTo(calls: seq<ToolCall>, n: nat)
    requires n <= |calls|
  {
    n == 0 || (ValidUpTo(calls, n - 1) && ValidCall(calls[n - 1]))
  }

  /** Every call in `calls` can be run. */
  predicate AllValid(calls: seq<ToolCall>) {
    ValidUpTo(calls, |calls|)
  }

  /** If the first n calls can be run, so can the first i + 1 of them for i < n; in particular
      call i can. */
  lemma {:induction false} ValidBelow(calls: seq<ToolCall>, n: nat, i: nat)
    requires n <= |calls| && ValidUpTo(calls, n) && i < n
    ensures ValidUpTo(calls, i + 1) && ValidCall(calls[i])
  {
    if i + 1 < n {
      ValidBelow(calls, n - 1, i);
    }
  }

  lemma {:induction false} ValidUpToIff(calls: seq<ToolCall>, n: nat)
    requires n <= |calls|
    ensures ValidUpTo(calls, n) <==> forall i | 0 <= i < n :: ValidCall(calls[i])
  {
    if n > 0 {
      ValidUpToIff(calls, n - 1);
    }
  }

  /** AllValid says the same as asking every call to be valid. */
  lemma AllValidIff(calls: seq<ToolCall>)
    ensures AllValid(calls) <==> forall c <- calls :: ValidCall(c)
  {
    ValidUpToIff(calls, |calls|);
  }

  function AddTool(a: real, b: real): real {
    a + b
  }

  function MultiplyTool(a: real, b: real): real {
    a * b
  }

  /** The message produced by running the tool `call` names; `forecast` is the text the
      weather service currently serves. */
  function Run(call: ToolCall, forecast: string): (m: ToolMessage)
    requires ValidCall(call)
    ensures m.toolCallId == call.id && m.name == call.name
  {
    var tool := TOOLS_BY_NAME[call.name];
    var out := match tool
      case Add => Num(AddTool(call.args["a"], call.args["b"]))
      case Multiply => Num(MultiplyTool(call.args["a"], call.args["b"]))
      case GetForecast => Text(forecast)
      case GetRestaurant => Text(RESTAURANT_REPLY);
    ToolMessage(out, call.id, NameOf(tool))
  }

  /** The HTTP requests running `call` makes, with the shared position read at that moment;
      a name that is not registered makes none. */
  function CallFetches(call: ToolCall, latitude: Value, longitude: Value): seq<Fetch> {
    match Lookup(call.name)
    case Some(GetForecast) => [ForecastFetch]
    case Some(GetRestaurant) => [RestaurantFetch(latitude, longitude, RESTAURANT_COUNT)]
    case _ => []
  }

  lemma AddCallSums(id: string, a: real, b: real, forecast: string)
    ensures Run(ToolCall(id, "add", map["a" := a, "b" := b]), forecast) == ToolMessage(Num(a + b), id, "add")
  {
  }

  lemma MultiplyCallMultiplies(id: string, a: real, b: real, forecast: string)
    ensures Run(ToolCall(id, "multiply", map["a" := a, "b" := b]), forecast) == ToolMessage(Num(a * b), id, "multiply")
  {
    var call := ToolCall(id, "multiply", map["a" := a, "b" := b]);
    assert call.args["a"] == a && call.args["b"] == b;
    assert TOOLS_BY_NAME[call.name] == Multiply;
  }

  /** The forecast tool answers the text the weather service serves and makes one request,
      to that service. */
  lemma ForecastCallReturnsForecast(call: ToolCall, forecast: string, latitude: Value, longitude: Value)
    requires ValidCall(call) && call.name == "getForecast"
    ensures Run(call, forecast).content == Text(forecast)
    ensures CallFetches(call, latitude, longitude) == [ForecastFetch]
  {
  }

  /** The restaurant tool answers the same fixed text for every call, position and forecast,
      and the only request it makes is a shop search at the position it is given. */
  lemma RestaurantReplyIsFixed(call: ToolCall, forecast: string, latitude: Value, longitude: Value)
    requires ValidCall(call) && call.name == "getRestaurant"
    ensures Run(call, forecast).content == Text(RESTAURANT_REPLY)
    ensures CallFetches(call, latitude, longitude) == [RestaurantFetch(latitude, longitude, RESTAURANT_COUNT)]
  {
  }
}
