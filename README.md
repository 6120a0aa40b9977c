# Restaurant chat server: the `/chat` tool-calling loop

This project models the `/chat` handler of the restaurant-recommendation chat server in
`server.mjs`. The handler:

- stores the request's coordinates in the module-level `position` object;
- answers 400 when `promptText` is not a string;
- seeds a transcript with the system prompt and the user's prompt, and asks the tool-enabled
  chat model for a first reply;
- while the last transcript entry's finish reason is `"tool_calls"`, runs tool calls through the
  `toolsByName` table, appending each tool result, then asks the model again with the whole
  transcript and appends its reply;
- answers with the content of the last transcript entry.

The four tools are `add`, `multiply`, `getForecast` and `getRestaurant`.

The model keeps two behaviours of the code as they are written:

- The first model call is given the bare prompt text, not the seeded transcript.
- Every round of the loop runs the tool calls of the FIRST reply, whatever the later replies
  asked for. So each round appends exactly k + 1 entries, k being the number of tool calls in the
  first reply.

The code has no cap on the number of rounds and does not check tool names or the coordinates.
It does not catch the exception thrown by a rejected argument or a failing tool, and it hands the
coordinates to the restaurant tool through the global `position`.

Files:

- `js_values.dfy` (module `JsValues`): the JavaScript values a parsed request body can hold.
- `tools.dfy` (module `Tools`):
  - the four tools and the `toolsByName` table;
  - the message each tool call produces;
  - the HTTP requests each tool call makes.
- `conversation.dfy` (module `Conversation`):
  - the transcript after n rounds, what each model call was given, and the requests the tools made, all as functions of the prompt, the model's replies and the forecast text;
  - the lemmas about the loop.
- `server.dfy` (module `Server`): the handler itself, as imperative methods.
  - `Position` is the global `position` object, which the handler writes and the restaurant tool reads.
  - `ChatModel` stands for the language model: it answers with a fixed sequence of replies and records every input it was given.
  - `Web` stands for the two web services: it records every request made to them.
  - The postconditions of `RunToolCalls`, `Round`, `Loop`, `Converse` and `HandleChat` tie their new state to the functions of `Conversation`.

## Model

| member | source | states |
|---|---|---|
| Tools.NameOf | server.mjs:73-78 | every tool's name is a key of `toolsByName` that maps back to that tool |
| Tools.Lookup | server.mjs:73-78 | `toolsByName[name]` finds a tool exactly for the four names `add`, `multiply`, `getForecast`, `getRestaurant`, and the tool found is the one registered under that name |
| Tools.RegisteredUnderOwnName | server.mjs:73-78 | looking up a tool's own name finds that tool, and no other name finds it |
| Tools.AllValidIff | server.mjs:116-118 | the recursive condition the handler needs on a reply's tool calls says exactly that every call names a registered tool and carries the arguments its schema asks for |
| Tools.ValidUpToIff | server.mjs:116-118 | the first n tool calls can be dispatched exactly when each of them can |
| Tools.Run | server.mjs:117-118 | the tool message a dispatched call produces carries the call's id and the name of the tool that ran |
| Tools.AddTool | server.mjs:11-14 | the body of the `add` tool: the sum of its arguments a and b |
| Tools.AddCallSums | server.mjs:11-14 | an `add` call with arguments a and b yields the tool message holding a + b, tagged with the call's id and `add` |
| Tools.MultiplyTool | server.mjs:25-28 | the body of the `multiply` tool: the product of its arguments a and b |
| Tools.MultiplyCallMultiplies | server.mjs:25-28 | a `multiply` call with arguments a and b yields the tool message holding a * b, tagged with the call's id and `multiply` |
| Tools.CallFetches | server.mjs:41-59 | the requests a tool call makes: one forecast request for `getForecast`, one search for 100 shops at the given coordinates for `getRestaurant`, none for the arithmetic tools |
| Tools.ForecastCallReturnsForecast | server.mjs:39-47 | a `getForecast` call answers the text the weather service serves and makes exactly one request, to the weather service |
| Tools.RestaurantReplyIsFixed | server.mjs:54-64 | a `getRestaurant` call answers the fixed text whatever the search returns, and makes exactly one request: a search for 100 shops at the position it reads |
| Conversation.FirstStop | server.mjs:111-114 | the loop stops at the first reply whose finish reason is not `"tool_calls"`; that index exists when some reply stops |
| Conversation.Seed | server.mjs:104-109 | the transcript before the loop: the system prompt, the user's prompt, then the first reply |
| Conversation.StopFrom | server.mjs:111-114 | the search from index `from` ends at a reply that does not ask for tools, at or after `from` |
| Conversation.BeforeStop | server.mjs:111-114 | every reply from `from` up to the stopping one asks for tools, so the loop does not stop before it |
| Conversation.StopIndex | server.mjs:111-114 | after n rounds (n up to the stopping index) the last reply asks for tools exactly when n is before the stopping index, and then the first reply asked for tools too |
| Conversation.Results | server.mjs:116-121 | the tool messages of a round's first n calls number n |
| Conversation.ResultsAt | server.mjs:116-121 | the i-th tool message of a round is the result of running the i-th call, and carries that call's id |
| Conversation.History | server.mjs:104-127 | the transcript after n rounds: the seed, then per round the results of the first reply's k tool calls in list order followed by reply n; every loop lemma and Server.Loop are stated against it |
| Conversation.Inputs | server.mjs:108-125 | what the model was given after n rounds: the bare prompt text first, then before each reply j + 1 the transcript of j rounds followed by the first reply's tool results |
| Conversation.RequestFetches | server.mjs:111-127 | the web requests of a whole request: the requests of the first reply's tool calls, once per round, for FirstStop rounds, at the request's coordinates |
| Conversation.HistoryLength | server.mjs:104-127 | after n rounds the transcript holds 3 + n * (k + 1) entries (k tool calls in the first reply) and its last entry is reply n |
| Conversation.AppendOnly | server.mjs:104-127 | the transcript is append-only: the transcript after m rounds is a prefix of the transcript after any n >= m rounds |
| Conversation.SeedStaysFirst | server.mjs:104-109 | whatever the number of rounds, the transcript starts with the system prompt, the user's prompt and the first reply |
| Conversation.RoundLayout | server.mjs:115-126 | round j + 1 occupies positions 3 + j(k + 1) to 3 + j(k + 1) + k: first the results of the first reply's k tool calls in list order, each with its call's id, then reply j + 1 |
| Conversation.InputsLength | server.mjs:108-125 | after n rounds the model has been called n + 1 times, and the first call was given the bare prompt text |
| Conversation.InputsAppendOnly | server.mjs:108-125 | later rounds leave the inputs of earlier model calls as they were |
| Conversation.InputSeesTranscript | server.mjs:123-125 | the model call before reply j + 1 was given the transcript as it stood then: everything up to and including round j + 1's tool results |
| Conversation.FinalEndsWithStop | server.mjs:111-114 | when the loop ends, the transcript holds 3 + n(k + 1) entries for n rounds, its last entry is reply n, and that entry's finish reason is not `"tool_calls"` |
| Conversation.NoToolsNoRounds | server.mjs:108-114 | if the first reply does not ask for tools, no round runs: the transcript is the seed, the model is called once with the bare prompt, and no tool makes a request |
| Conversation.SearchesUseRequestPosition | server.mjs:57-59 | every shop search made during the rounds of a request uses the position of that request |
| Conversation.RoundSearchesUsePosition | server.mjs:57-59 | every shop search made by the calls of one round uses the position held at that time |
| Server.Position.constructor | server.mjs:8 | the global position starts at latitude 0 and longitude 0 |
| Server.ChatModel.Invoke | server.mjs:108 | one model call: the next scripted reply is returned and the input is recorded |
| Server.Web.FetchForecast | server.mjs:41-46 | a forecast request returns the text the weather service serves and is recorded |
| Server.Web.FetchRestaurants | server.mjs:57-59 | a shop search is recorded with the latitude, longitude and count it was made with |
| Server.InvokeTool | server.mjs:117-118 | dispatching a call through `toolsByName` yields the call's tool message and makes exactly that call's requests, with the position read at that moment |
| Server.RunToolCalls | server.mjs:116-121 | the inner loop appends the tool messages of the calls in list order and makes their requests in the same order |
| Server.Round | server.mjs:115-126 | one round takes the transcript, model inputs and request log from their values after n rounds to their values after n + 1 rounds |
| Server.Loop | server.mjs:111-127 | the `while` loop runs exactly as many rounds as there are replies before the first stopping one, ending with the transcript, model inputs and requests of that many rounds |
| Server.Converse | server.mjs:104-127 | seeding, the first model call and the loop leave the whole transcript, every model input and every web request as the specification functions give them, and consume one reply per model call |
| Server.HandleChat | server.mjs:92-130 | the position always takes the request's coordinates. A non-string prompt gets a 400 with no model call and no request. Otherwise the response holds the content of the last transcript entry, which is the first reply that does not ask for tools, and the shop searches use the request's position |

## Left out

- The browser client (`public/script.js`): page templating, geolocation, speech input and the request to `/chat`. It is user interface.
- Express setup, static files, JSON body parsing and `listen`. The parsed body is the `Request` value the handler receives; a field the client did not send reads as `Undefined`.
- The LangChain chat model and `bindTools`. The model is an oracle that answers each call with the next reply of a fixed sequence. Its replies are inputs of the model, not computed.
- The content of the two web services. The forecast is one fixed text per `Web`, so a forecast that changes between two calls of one request is not modelled. The shop search's answer is ignored by the code, so only the request is recorded.
- The zod schemas and the `tool()` wrappers. Arguments are a map from names to numbers, and a call the handler runs must name a registered tool and carry `a` and `b` for the arithmetic tools.
- Server.HandleChat: requires that every tool call of the first reply names a registered tool with fitting arguments. On an unknown name the code calls `invoke` on `undefined` and the request fails with an exception; that failure is not modelled.
- Server.HandleChat: requires that some scripted reply stops asking for tools. The code has no iteration cap, so a model that always asks for tools keeps the request running forever; that case is not modelled.
- Tool failures (a fetch that rejects, a body that is not JSON). The code does not handle them, and they are not modelled.
- Tools.AddCallSums: numbers are reals, so the rounding of JavaScript's double-precision arithmetic is not modelled.
- Tools.MultiplyCallMultiplies: numbers are reals, so the rounding of JavaScript's double-precision arithmetic is not modelled.
- Tool results are kept as numbers or text; their conversion to a message string inside LangChain is not modelled.
- The race between concurrent requests on the global `position`. The model is one request at a time, so between the write and the tools' reads only this request writes `position`.
