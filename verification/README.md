# Rebilly HTTP client — a verified model of its core

The Rebilly HTTP client sends PSR-7 requests through a chain of middleware to
an adapter, and returns the adapter's response. This project models that
core in Dafny:

- **The middleware contract** (module `Middleware`, `middleware.dfy`). A stage
  gets the request, the response and a `next` callable. It may return
  `next(...)`, call `next` and return nothing, return a response of its own, or
  throw. If it returns nothing, the response it was given is the result.
- **The stack** (module `Pipeline`, `stack.dfy`). A FIFO list holds the
  callable items it was built with. Each call rewinds the list's cursor and
  runs a dispatcher that takes the stage under the cursor, advances the
  cursor, and calls the stage with the dispatcher itself as `next`. Past the
  last stage it calls the terminal continuation. `Stack` is a class whose
  `Dispatch` and `Invoke` methods move the cursor and are proved against the
  recursive specification `Run`. A ghost log records every stage entered and
  every terminal call.
- **The cURL adapter** (module `Curl`, `curl.dfy`). This covers:
  - the base option map built from the defaults, the caller's options and the
    enforced transfer and security options;
  - the translation of a request into per-request options: header lines, URL,
    the method switch, and the `Expect:`/`Content-Type:` suppression lines;
  - the `execute` routine driving a session: open, set options, execute, read
    the header size, close on every path;
  - the parsing of the reply into a response: line split, status-line match,
    and the header lines split at colons and commas.

  The session itself is a stand-in whose behaviour is a parameter (`Network`):
  whether it opens, and what a transfer with given options yields.
- **The client** (module `Clients`, `client.dfy`). This covers:
  - the verb facade `__call`;
  - `send`, which records the options, the last request and the last response,
    and runs the middleware with the client as terminal;
  - the terminal `__invoke`, which calls the adapter and checks its result;
  - the request and response factories.

Messages are immutable values (`Http.Request`, `Http.Response`) with an
ordered header list. Header names compare case-insensitively, and
`withHeader` replaces a field and places it last. Callables are Dafny
functions. An adapter is a function of the request, the prototype response and
the request options.

## Model

| member | source | states |
|---|---|---|
| Http.WithoutHasField | src/Adapter/Curl/CurlAdapter.php:94-95 | After `withoutHeader(name)`, a field is present iff it was present and is not `name`. Other fields keep their values. |
| Http.WithField | src/Adapter/Curl/CurlAdapter.php:141 | After `withHeader(name, values)`, the field reads back exactly `values`, and every other field reads as before. |
| Http.WithOverrides | src/Adapter/Curl/CurlAdapter.php:137-142 | A later `withHeader` of the same name, in any letter case, replaces the earlier one entirely. |
| Middleware.Returns | src/Middleware.php:38-53 | What a stage hands back, per kind: `next`'s result for the rewritten pair; nothing after calling `next` (but `next`'s exception); its own reply to the pair it receives, or nothing; or the exception it makes of that pair. |
| Middleware.Settle | src/Middleware/Stack.php:65 | The dispatcher's `?: $response`: a returned response is the step's result, nothing falls back to the response the stage was given, and an exception passes through. |
| Middleware.Frame | src/Middleware.php:38-53 | Per stage kind: returning nothing yields the response given; a response returned for the pair is the result; `return $next(...)` yields downstream's result; a dropped downstream result is replaced by the given response, but its exception propagates; the exception a stage makes of the pair propagates. |
| Middleware.NextUnusedWithoutForwarding | src/Middleware.php:42 | A stage that answers or throws gives the same result whatever `next` is. |
| Middleware.DroppedDownstreamInvisible | src/Middleware.php:38-40 | Calling `next` and returning nothing yields the given response for every succeeding downstream. |
| Pipeline.Callables | src/Middleware/Stack.php:51-53 | The stage list `array_filter($items, 'is_callable')` keeps, in order; its properties are stated by the two rows below. |
| Pipeline.CallablesAppend | src/Middleware/Stack.php:51-53 | Filtering the items distributes over concatenation, so the kept stages stay in registration order. |
| Pipeline.CallablesKeepExactly | src/Middleware/Stack.php:51-53 | A stage is in the list iff it was a callable item. |
| Pipeline.Run | src/Middleware/Stack.php:56-66 | One dispatch from cursor `k`: past the end, the terminal settled against the response; otherwise the stage at `k` framed with the dispatch from `k + 1` as `next`. Its result and its events (stages entered, terminal called) are what the lemmas below describe. |
| Pipeline.RunFollowsContract | src/Middleware/Stack.php:62-65 | Each dispatch step is the stage under the cursor framed with the next step as `next`. |
| Pipeline.TraceShape | src/Middleware/Stack.php:56-66 | Stages are entered in order from the cursor, each index within the list. The terminal, if called, is the last event and comes only after every stage. |
| Pipeline.AtMostOnce | src/Middleware/Stack.php:62-63 | No stage is entered twice in one call, and the terminal is called at most once. |
| Pipeline.EntriesOfRun | src/Middleware/Stack.php:62-63 | The cursor never moves past the end of the list. |
| Pipeline.NonForwardingStops | src/Middleware/Stack.php:62-65 | A stage that does not call `next` ends the run: no later stage runs and the terminal is not called. Behind delegating stages, what it makes of the rewritten pair is the result: its answer, that pair's response when it answers nothing, or its exception. |
| Pipeline.DelegatesReachTerminal | src/Middleware/Stack.php:56-66 | With only delegating stages, the result is the terminal's answer to the pair as each stage rewrote it in order, or that pair's response if it answers nothing. |
| Pipeline.ForwardersReachTerminal | src/Middleware/Stack.php:58-59 | With only forwarding stages, every stage runs, then the terminal. A terminal exception propagates unchanged. |
| Pipeline.StackTestScenario | tests/Middleware/StackTest.php:29-73 | In the repository's stack test, the result has headers 1 and 2 and neither 3 nor 4, although all four stages and the terminal ran. |
| Pipeline.Stack.constructor | src/Middleware/Stack.php:46-53 | The list holds exactly the callable items in order, with the cursor at its end. |
| Pipeline.Stack.Dispatch | src/Middleware/Stack.php:56-66 | The result equals `Run` from the current cursor. The log grows by that run's events, and the cursor advances by the number of stages entered. |
| Pipeline.Stack.Invoke | src/Middleware/Stack.php:72-81 | Rewinds the cursor, stores `next` as the terminal, and returns `Run` from the start. An empty stack gives `next`'s answer or the response. |
| Curl.BaseOptions | src/Adapter/Curl/CurlAdapter.php:38-59 | The key set is the caller's keys plus the enforced ones. Return-transfer and header are on, peer check is 1 and host check is 2. The user agent is the caller's if given, else the default. Other caller options are kept. |
| Curl.CurlAdapter.constructor | src/Adapter/Curl/CurlAdapter.php:38-59 | Stores the base options built from the server's user agent (when not falsy) or `Curl/PHP` plus the version. |
| Curl.DefaultUserAgent | src/Adapter/Curl/CurlAdapter.php:43 | The server's user agent when it is set and not falsy, otherwise `Curl/PHP` followed by the engine version. |
| Curl.Merge | src/Adapter/Curl/CurlAdapter.php:166 | Per-request options win on shared keys; base options fill in the rest; no other key appears. |
| Curl.FieldLine | src/Adapter/Curl/CurlAdapter.php:74-76 | A header field as one line: its name, a colon and a space, and its values joined with a comma and a space; `FieldLineRoundTrip` states that it parses back. |
| Curl.Checked | src/Adapter/Curl/CurlAdapter.php:89-108 | The request after the method switch: for POST without `Content-Length` and `Transfer-Encoding`, for PUT without `Content-Length`, otherwise unchanged; method, URI and body are kept. |
| Curl.VerbOptions | src/Adapter/Curl/CurlAdapter.php:82-111 | The options the exact-case method switch adds: no-body for HEAD, HTTP GET for GET, post and post fields for POST, put with a temporary file and its size for PUT, a custom request otherwise (stated by `LinesAndVerb`). |
| Curl.Suppressions | src/Adapter/Curl/CurlAdapter.php:113-121 | `Expect:` is added iff the request has no `Expect`, and `Content-Type:` iff it has no `Content-Type`; nothing else is added. |
| Curl.RequestOptions | src/Adapter/Curl/CurlAdapter.php:68-121 | The per-request options as written: the lines of every request field, then the suppression lines, with the URL and the method's options; stated by `TranslationRules`. |
| Curl.TranslationRules | src/Adapter/Curl/CurlAdapter.php:68-121 | Covers the URL and one line per field, in order, including the length fields. It adds `Expect:` iff there is no Expect, and `Content-Type:` iff there is no Content-Type. Each method gets exactly its own options: HEAD no-body, GET http-get, POST post plus body, PUT put plus temp file plus byte count, others a custom request. |
| Curl.SuppressionsUnchecked | src/Adapter/Curl/CurlAdapter.php:94-121 | Dropping the length fields for POST and PUT never changes whether the `Expect:` and `Content-Type:` lines are added. |
| Curl.LengthFieldStillSent | src/Adapter/Curl/CurlAdapter.php:74-77 | As written, a POST carrying `Content-Length: 3` still sends that line, although the request the switch produced no longer has the field. |
| Curl.IntendedRequestOptions | src/Adapter/Curl/CurlAdapter.php:92-95 | The translation the comment intends: the lines are built after the length fields are dropped, so a POST sends neither `Content-Length` nor `Transfer-Encoding` and a PUT no `Content-Length`; every other field and every other option is as written. |
| Curl.LinesAndVerb | src/Adapter/Curl/CurlAdapter.php:77-111 | Whatever the header lines, the options hold exactly those lines, the URL, and the method's own options with their values. |
| Curl.RequestKeepsEnforced | src/Adapter/Curl/CurlAdapter.php:166 | Whatever the request, the merged options keep the transfer and security settings and the base user agent. |
| Curl.CurlAdapter.Translate | src/Adapter/Curl/CurlAdapter.php:70-121 | The loop and switch build exactly the translation whose rules `TranslationRules` states. |
| Curl.Session.constructor | src/Adapter/Curl/CurlAdapter.php:158 | A new session is created, not yet opened, with no options. |
| Curl.Session.Open | src/Adapter/Curl/CurlAdapter.php:162 | Opening succeeds as the session's behaviour says. |
| Curl.Session.SetOptions | src/Adapter/Curl/CurlAdapter.php:166 | An opened session holds exactly the options given. |
| Curl.Session.Execute | src/Adapter/Curl/CurlAdapter.php:168 | The transfer is what the behaviour yields for the applied options. |
| Curl.Session.HeaderSize | src/Adapter/Curl/CurlAdapter.php:175 | Returns the header size of the transfer made. |
| Curl.Session.ErrorMessage | src/Adapter/Curl/CurlAdapter.php:172 | Returns the session's error message. |
| Curl.Session.ErrorCode | src/Adapter/Curl/CurlAdapter.php:172 | Returns the session's error code. |
| Curl.Session.Close | src/Adapter/Curl/CurlAdapter.php:182 | The session is closed. |
| Curl.SplitReply | src/Adapter/Curl/CurlAdapter.php:175-180 | The body is the suffix after the header size. The header section is null iff the prefix before it is falsy (empty or `0`), and otherwise is that prefix. Section plus body is the raw reply. |
| Curl.Perform | src/Adapter/Curl/CurlAdapter.php:156-186 | `Cannot initialize a cURL session` when the session does not open. The session's message and code when the transfer fails. When it opens and the transfer completes, success with the reply split at the reported header size. |
| Curl.CurlAdapter.Execute | src/Adapter/Curl/CurlAdapter.php:156-186 | Gives exactly `Perform` over the merged options, and the fresh session is closed on every path. |
| Curl.SplitCrlf | src/Adapter/Curl/CurlAdapter.php:125 | The split at every CRLF with empty pieces dropped: no piece is empty and none contains a CRLF. |
| Curl.MatchStatusLine | src/Adapter/Curl/CurlAdapter.php:128-130 | No match iff the status pattern matches nowhere in the line. On a match the captures are well formed: a version of the form digit, dot, digit; a code from 0 to 999; a reason without a line feed. |
| Curl.SplitValues | src/Adapter/Curl/CurlAdapter.php:139 | The split at commas with the whitespace around them: no value is empty and none contains a comma. |
| Curl.ParseField | src/Adapter/Curl/CurlAdapter.php:138-139 | A header line as a field: values only when there is a name, and none when the line has no colon; the values themselves are as `SplitValues` states. |
| Curl.ApplyFields | src/Adapter/Curl/CurlAdapter.php:137-142 | `withHeader` for each parsed field in order; what it yields is stated by `ApplyFieldsReads`. |
| Curl.ParseReply | src/Adapter/Curl/CurlAdapter.php:123-145 | The response built from a reply: the prototype's body with the reply body appended; status 0 and an empty reason and version when the first line does not match the status pattern. |
| Curl.TrimStart | src/Adapter/Curl/CurlAdapter.php:138-139 | Removes exactly the leading PCRE whitespace. |
| Curl.TrimEnd | src/Adapter/Curl/CurlAdapter.php:138-139 | Removes exactly the trailing PCRE whitespace. |
| Curl.FindChar | src/Adapter/Curl/CurlAdapter.php:138-139 | Finds the first occurrence of a separator, or reports none iff there is none. |
| Curl.ColonPieces | src/Adapter/Curl/CurlAdapter.php:138 | The split at the first colon yields at most two pieces, none of them empty. |
| Curl.FindCrlf | src/Adapter/Curl/CurlAdapter.php:125 | Finds the first CRLF, or reports none iff there is none. |
| Curl.FindStatus | src/Adapter/Curl/CurlAdapter.php:128 | Finds the leftmost position where the unanchored status pattern matches, or reports none iff there is none. |
| Curl.UntilNewline | src/Adapter/Curl/CurlAdapter.php:128 | `(.*)` captures the longest prefix without a line feed. |
| Curl.ApplyFieldsReads | src/Adapter/Curl/CurlAdapter.php:137-142 | After applying the parsed lines, a field holds the values of the last line of its name, or the prototype's if no line names it. Nothing but the headers changes. |
| Curl.Exchange | src/Adapter/Curl/CurlAdapter.php:68-145 | `__invoke` fails iff `execute` fails, and then with `execute`'s RuntimeException. On success the response is the parse of `execute`'s reply over the prototype. |
| Curl.CurlAdapter.Invoke | src/Adapter/Curl/CurlAdapter.php:68-145 | Translate, execute and parse give exactly `Exchange` over the adapter's base options. |
| Curl.CurlAdapter.Respond | src/Adapter/Curl/CurlAdapter.php:123-145 | The loop over header lines builds exactly the parsed response. |
| Curl.SplitValuesJoin | src/Adapter/Curl/CurlAdapter.php:139 | Plain values joined with `, ` split back into the same values. |
| Curl.FieldLineRoundTrip | src/Adapter/Curl/CurlAdapter.php:138-139 | A well-formed field written as `Name: v1, v2` parses back to the same field. |
| Curl.FieldLinesRoundTrip | src/Adapter/Curl/CurlAdapter.php:74-76 | The header lines the adapter writes parse back to the request's fields, and contain no line feed. |
| Curl.SplitCrlfRendered | src/Adapter/Curl/CurlAdapter.php:125 | Lines each ended by CRLF split back into the non-empty lines. |
| Curl.StatusLineRoundTrip | src/Adapter/Curl/CurlAdapter.php:128-130 | A well-formed status line matches with exactly its version, code and reason as captures. |
| Curl.HeadLines | src/Adapter/Curl/CurlAdapter.php:125-128 | A header section splits into its status line and field lines, with or without the closing blank line. |
| Curl.ReplyRoundTrip | src/Adapter/Curl/CurlAdapter.php:123-145 | A reply with a well-formed header section, cut at its size, parses to: the prototype, body appended, status, reason and version from the status line, then the fields applied in order. |
| Curl.TestReply | tests/Adapter/Curl/CurlAdapterTest.php:48-68 | The adapter test's reply parses to status 200, reason OK, version 1.1, the JSON body, and its content type. |
| Clients.CreateRequest | src/Client.php:173-176 | The request the factory builds: the method upper-cased, the URI and fields as given, and the payload as body unless it is falsy (none, empty or `0`), which gives an empty body. |
| Clients.CreateResponse | src/Client.php:188-191 | The response the factory builds, with protocol version 1.1, and an empty body and reason when none are given; its defaults are stated by `ResponseDefaults`. |
| Clients.ResponseDefaults | src/Client.php:188-191 | The default response has status 200, version 1.1, no headers, an empty body and no reason. |
| Clients.Terminal | src/Client.php:83-93 | A falsy adapter result yields the prototype. A response is returned. Anything else raises `Wrong response`. An adapter exception propagates. Success iff the adapter succeeds with something other than a non-response. |
| Clients.TerminalSettles | src/Middleware/Stack.php:58-59 | As the stack's terminal, the client never returns nothing, so the fallback to the dispatcher's response never applies. |
| Clients.Delivered | src/Client.php:142 | What the middleware delivers for one `send`: the client's own `__invoke` when it is its own middleware, otherwise the stack's run with the client as terminal; stated by the two rows below. |
| Clients.EmptyStackIsClient | src/Client.php:71 | A stack with no callable item delivers what the client alone delivers. |
| Clients.DelegatingStackReachesAdapter | src/Client.php:142 | Behind delegating stages, the adapter gets the pair as the stages rewrote it, and the terminal's result is the result. |
| Clients.CurlBehaviour | src/Client.php:72 | The default adapter as a callable: a `CurlAdapter` built with no options, whose exchange ignores the request options; stated by `CurlAlwaysAnswers`. |
| Clients.CurlAlwaysAnswers | src/Client.php:72 | With the default adapter, the result is exactly the cURL exchange over the default base options. |
| Clients.Facade | src/Client.php:108-124 | Accepted iff the upper-cased name is HEAD, GET, DELETE, POST or PUT. A verb without a body gets a null payload inserted. Any other name raises `BadMethodCallException` naming the method. |
| Clients.FacadeIgnoresCase | src/Client.php:110 | A name is accepted iff its upper-cased form is, and both reshape the arguments alike. |
| Clients.Bind | src/Client.php:137 | Binding succeeds iff there are at least three arguments, the method and URI are strings or null, the payload is a string, null or an empty array, and the headers and options, when given, are arrays of their kind or empty. A null method or URI is empty, a null or empty-array payload is none, and missing or empty headers and options are empty. |
| Clients.ReadOnlyCall | src/Client.php:110-116 | HEAD, GET or DELETE in any case, called with a URI alone, binds to that verb and URI with no payload, headers or options. |
| Clients.BodyCall | src/Client.php:117-120 | POST or PUT in any case, called with a payload and a URI, binds to that verb and URI, with the string payload or none for an empty array. |
| Clients.FacadeCalls | tests/ClientTest.php:60-89 | The test's calls: `get($uri)` and `delete($uri)`, and `post([], $uri)` and `put([], $uri)`, send their verb to the URI with no payload. `post($payload, $uri)` sends that payload, and `show($uri)` is refused. |
| Clients.FacadeRequest | src/Client.php:108-124 | A facade call's request method is the called name upper-cased. A verb without a body sends no payload and takes the URI from its first argument; a verb with a body takes it from its second. |
| Clients.AdapterScenarios | tests/ClientTest.php:28-55 | An adapter returning nothing yields the default response, and one returning a non-response raises `Wrong response`. |
| Clients.Client.constructor | src/Client.php:69-73 | An empty middleware list makes the client its own middleware; otherwise a fresh stack of the callable items. No adapter means the cURL adapter. |
| Clients.Client.Send | src/Client.php:137-145 | Stores the options and the new request. The result is what the middleware delivers with the client as terminal. The last response is that result, or the default one after an exception. A stack keeps its stages, holds the client as terminal, and logs exactly one run of its stages. |
| Clients.Client.Call | src/Client.php:108-124 | A refused name raises `BadMethodCallException`, and arguments that do not bind raise the binding error. In both cases nothing is sent: the stack is untouched and the client keeps its state. Otherwise the call is `send` with the reshaped arguments, with `send`'s result and bookkeeping, and the stack runs its unchanged stages exactly once. |
| Clients.Client.GetLastRequest | src/Client.php:150-153 | Returns the last request sent. |
| Clients.Client.GetLastResponse | src/Client.php:158-161 | Returns the last response stored. |

## Findings

| source | as written | input that shows it | evidently intended | confidence | as-written member | corrected member |
|---|---|---|---|---|---|---|
| src/Adapter/Curl/CurlAdapter.php:74-95 | The header lines are built from the request before the method switch removes `Content-Length` and `Transfer-Encoding`, so the removal has no effect on what is sent. | A POST with the field `Content-Length: 3`: the header option still holds the line `Content-Length: 3`. | As the comment on the removal says (no duplicate length field), a POST sends neither length field and a PUT no `Content-Length`, because cURL sets them itself. | high; not executed | Curl.LengthFieldStillSent | Curl.IntendedRequestOptions |

The adapter members (`RequestOptions`, `CurlAdapter.Translate`, `Exchange`) keep the translation as written, so that what they promise is what the library sends. `IntendedRequestOptions` is the corrected translation, and its contract states that it differs from the one as written only in the header lines.

## Left out

- The cURL session: CurlSession.php is not part of this model. A session is a stand-in whose behaviour (opens or not, transfer result, error message and code) is a parameter.
- The `php://temp` file written for PUT is modelled as its content (`TempFile`); file I/O and its failure modes are not modelled.
- Curl.CurlAdapter.Invoke: the per-request options the client passes are not read. `CurlAdapter::__invoke` declares two parameters, although the `Adapter` interface (src/Adapter.php) declares a third.
- Message library behaviour outside the calls modelled here is not modelled. This includes header-name validation, the `Host` field derived from the URI, trimming of header values, and stream errors for non-string payloads.
- Clients.CreateResponse: a missing reason phrase stays empty. The message library fills in the standard phrase for the status code, here and in `withStatus`.
- Body streams are modelled as strings. `getBody()->write($body)` appends the reply body to the prototype's body; the stream's position and the sharing of the stream object between response copies are not modelled.
- Clients.Bind: an array given as the method or the URI is refused with `ArgumentError`. PHP binds it, since those parameters are untyped, and hands it to the message library, whose handling of such values is not modelled. A non-empty array payload is refused too. The message library of that time opens a body stream only for a payload that is not falsy, so an empty array is no body, but it raises for a non-empty array. In PHP that exception comes after `send` has stored the options; in the model nothing is stored.
- Clients.Bind: a non-empty options-like array given as the headers, or a non-empty header-like array given as the options, is refused. PHP accepts any array there.
- The status pattern's captures when it does not match (PHP nulls) become an empty version, status 0 and an empty reason. What the message library does with a null status is not modelled.
- PHP's refusal to bind `send`'s arguments (too few, or a non-array for headers or options) is modelled as `ArgumentError`, as is the array case above. Its message text is not the engine's.
- Callables are pure functions of the request and response, and a stage has one of four behaviours: return `next`'s result, call `next` and return nothing, return what it makes of the pair it receives (a response, or nothing), or throw an exception made from that pair. A stage that returns a truthy value that is not a response is not modelled. The dispatcher passes such a value through, and the client raises `Wrong response` only for its adapter. Not modelled are: a stage that changes `next`'s result before returning it, one that catches an exception from `next`, one whose choice to call `next` depends on the request, one that calls `next` twice (the shared cursor would resume past the stages already entered), middleware with its own state, and a stack nested as a stage of another stack.
- The fallback `?: $response` in Stack.php:80 is covered by `Run` and never applies, because the dispatcher always returns a response.
- The order of the options within the option array, and so the order in which libcurl applies them, is not modelled; options are maps. Options interact in libcurl (HTTP GET clears the no-body setting, for instance), so the effect of the merged options is not modelled either.
- A Dafny character stands for one byte of a PHP string. The PUT size is the body's length in bytes, and the header size cuts the reply at a byte offset; multi-byte text and encodings are not modelled.
- Concurrency and re-entrant use of one stack by two calls at once are not modelled.
