# LimboArbiter request handling, modelled in Dafny

LimboArbiter is a small bridge service. It accepts a SOAP job request over
HTTP, checks a shared access key, and reads the job fields from the SOAP
body. It then picks a free loopback port in 31501..33000 and starts the
game-server worker (RCC) for the requested version on that port. Last, it
sends the worker an `OpenJobEx` call whose script is either a Lua one-liner
("2016") or a JSON settings document ("2018", "2020").

This project models the decision logic of `Program.cs` and proves its
properties:

- `Decimal`: `int.Parse` and `int.ToString` for 32-bit integers. Parsing a
  printed number gives it back.
- `PortSearch`: the `FindOpenPort` loop, as a method proved against a
  specification function. It finds the lowest bindable port, or it fails
  exactly when every port is busy.
- `SoapRequest`: `ParseSoapRequest` and `GetValue`, over the SOAP body
  given as a map from element name to text. Every field is read verbatim,
  a missing element reads as "", and Version and RenderType are required.
  Parsing the body written for a field tuple gives the tuple back.
- `RccLauncher`: the version-to-executable table, the `cmd.exe` argument
  string and the outcomes of `StartRCCService`. The port can be read back
  from the arguments.
- `Payload`: the three interpolated payload templates, as sequences of
  literal pieces and holes. Each JSON member and query parameter carries
  its field. The 2020 payload is the 2018 payload plus one member. Fields
  a template lacks do not affect it.
- `Dispatcher`: `HandleRequestAsync`, written two ways:
  - `Dispatch`, a function that returns the status written, whether the
    response was closed, and the trace of steps that ran;
  - `HandleRequest`, an imperative method over a response object, proved
    equal to `Dispatch`.

  Lemmas state which requests get 403 and which get 500, the order of the
  steps, and what the job call carries.

The model follows the code as written, including these easily missed
behaviours:

- A delivered job gets no status code and the response is never closed.
  The worker's acknowledgement is not forwarded.
- The "Renderer" version has an executable but no payload template. Its
  worker is started, and the request then fails with 500.
- A request must carry a non-empty RenderType. Every numeric field must
  parse, so a request that names only Version, PlaceId, JobId and
  MaxPlayers fails with 500.
- A search that reaches a port outside 0..65535 stops with an error. In
  the source, the listener's constructor throws there. For the handler's
  range 31501..33000 this cannot happen.

The operating system is an input to the model:
- `avail(port)`: whether a listener can be bound on that port;
- `fileExists(path)`: `File.Exists`;
- `processStarts`: whether `Process.Start` returns true without throwing;
- `proxyThrows`: whether the SOAP proxy throws when the call is issued.

## Model

| member | source | states |
|---|---|---|
| Decimal.ShowNat | Program.cs:72 | A non-negative integer prints as a non-empty string of decimal digits, with no leading zero unless it is "0". |
| Decimal.ShowInt | Program.cs:72 | `int.ToString()` for the integer holes, the launch port and the endpoint port: "-" and the digits of the magnitude. `ParseShowInt` reads it back and `ShowIntInjective` shows distinct 32-bit values print differently. |
| Decimal.ParseInt32 | Program.cs:217 | Whatever `int.Parse` accepts lies in the 32-bit range. |
| Decimal.DigitsOfShowNat | Program.cs:217 | The digits printed for n read back as n. |
| Decimal.ParseShowInt | Program.cs:217 | Parsing a printed integer gives it back exactly when it fits in 32 bits, and fails otherwise. |
| Decimal.ShowIntInjective | Program.cs:72 | Two 32-bit integers print alike only when they are equal. |
| PortSearch.FirstOpenPort | Program.cs:25-46 | The scan from startPort to endPort, as a function. `FirstOpenPortMeaning` states what it returns and `FindOpenPort` is proved to return the same. |
| PortSearch.FirstOpenPortMeaning | Program.cs:22-47 | The scan returns the lowest bindable port of the range. It fails with "No open ports found." exactly when every port of [start, end] is busy, the empty range included. It stops early only at an out-of-range port, after all earlier ports were busy. |
| PortSearch.FoundPortIsLowest | Program.cs:25-43 | In a range of valid ports, a bindable port q means the search succeeds with a port no higher than q. |
| PortSearch.FindOpenPort | Program.cs:22-47 | The loop returns what the specification function returns. On success the port is the lowest bindable one in the range. It fails with NoOpenPorts exactly when every port of the range is busy. |
| SoapRequest.GetValue | Program.cs:248 | The text of the named element of the body, or "" when the body or the element is missing. `GetValueOfBody` and `ReadFields` state this for the twelve elements. |
| SoapRequest.GetValueOfBody | Program.cs:248 | `GetValue` on a body holding the element returns the element's text, whatever other elements are present. |
| SoapRequest.ReadFields | Program.cs:248-261 | Each of the twelve fields is the text of the element of the same name (SiteURL for siteUrl, UDPPort for udpPort, and so on), or "" when the body or the element is missing. |
| SoapRequest.ParseSoapRequest | Program.cs:239-277 | Parsing succeeds exactly for an envelope whose Version and RenderType are both non-empty. On success, each of the twelve fields is the text of its element (SiteURL gives siteUrl, UDPPort gives udpPort, and so on), or "" when the element is missing. Malformed XML is a failure of its own kind. |
| SoapRequest.ParseBodyOf | Program.cs:248-270 | Round trip: the body written for a field tuple parses back to that tuple when Version and RenderType are non-empty. Otherwise it fails with "Version is required". |
| SoapRequest.ParseIgnoresOtherElements | Program.cs:248-261 | Elements other than the twelve names never change the result. |
| SoapRequest.NoBodyIsRejected | Program.cs:246-266 | An envelope without a SOAP Body fails as missing its Version. |
| RccLauncher.ExecutablePath | Program.cs:52-59 | Exactly "2016", "2018", "2020" and "Renderer" have an executable. Each maps to its fixed path, and every other tag is rejected. |
| RccLauncher.LaunchArguments | Program.cs:72 | The `cmd.exe` argument string: `/K`, the quoted executable path, `-console -verbose` and the port in decimal. `PortOfLaunchArguments` reads the port back from it. |
| RccLauncher.StartRccService | Program.cs:50-131 | An unknown tag is rejected before anything else. A missing executable returns no process without a start attempt. Otherwise the process is started with the version's executable and the arguments for the given port, and it is returned exactly when the start succeeds. |
| RccLauncher.PortOfLaunchArguments | Program.cs:72 | The port can be read back from the launch arguments built for it. |
| Payload.Template | Program.cs:138-144 | There is a template exactly for "2016", "2018" and "2020". |
| Payload.BuildPayload | Program.cs:138-144 | A payload is built exactly for "2016", "2018" and "2020". Every other version, "Renderer" included, fails with "Unknown version" naming it. |
| Payload.Interpolate | Program.cs:140-142 | String interpolation over the three templates `LuaTemplate2016`, `JsonTemplate2018` and `JsonTemplate2020`, whose literal text is the source's. What each hole becomes is stated by `HoleInContext`, `LuaQueryString`, `JsonMembers`, `Json2018PreferredPort` and `Json2020PreferredPort`. |
| Payload.HoleInContext | Program.cs:140-142 | A hole's value is spliced in verbatim, with no escaping, right between the literal text around it. |
| Payload.LuaQueryString | Program.cs:140 | The "2016" query string carries placeId, jobId, universeId, matchmaking, maxPlayers and udpPort, each right after its own parameter name. |
| Payload.LuaReadsSixFields | Program.cs:140 | The "2016" payload depends only on those six fields. |
| Payload.JsonWindowsOfTemplates | Program.cs:141-142 | Both JSON templates have the hole of each job member from the top-level GameId to the settings' JobId between that member's key and the text that follows it. |
| Payload.PreferredPortWindows | Program.cs:141-142 | The last settings member, PreferredPort, holds udpPort. In "2018" it is followed by the closing text, in "2020" by a comma. |

| Payload.JsonMembers | Program.cs:141-142 | In "2018" and "2020", jobId fills the top-level GameId and the settings' GameId and JobId. maxPlayers fills MaxPlayers, MaxGameInstances and PreferredPlayerCapacity. placeId, universeId, matchmaking, creatorId, placeVersion and siteUrl each fill their own member. Integers appear in decimal and strings verbatim between quotes. |
| Payload.Json2018PreferredPort | Program.cs:141 | The "2018" payload carries `"PreferredPort":` followed by udpPort in decimal and the closing text. |
| Payload.Json2020PreferredPort | Program.cs:142 | The "2020" payload carries `"PreferredPort":` followed by udpPort in decimal and a comma. |

| Payload.Json2018IgnoresPlaceFetchUrl | Program.cs:141 | The "2018" payload does not depend on placeFetchUrl. |
| Payload.Json2020Shape | Program.cs:141-142 | The 2020 template is the 2018 template with a PlaceFetchUrl member inserted before the closing piece. |
| Payload.Json2020InsertsPlaceFetchUrl | Program.cs:141-142 | The "2020" payload is the "2018" payload with `,"PlaceFetchUrl":"<placeFetchUrl>"` inserted right after the PreferredPort value, before the closing text. Nothing else differs. |
| Dispatcher.ParseJob | Program.cs:217 | The seven numeric fields parse exactly when `int.Parse` accepts each of them. Each parsed number is exactly what `int.Parse` returns for its own field, and lies in the 32-bit range. jobId, siteUrl and placeFetchUrl are passed through unchanged. |
| Dispatcher.ParseJobOfFields | Program.cs:217 | The fields written for a job with 32-bit integers parse back to that job. |
| Dispatcher.Endpoint | Program.cs:147 | The worker's SOAP endpoint on localhost at the given port. `PortOfEndpoint` reads the port back from it. |
| Dispatcher.PortOfEndpoint | Program.cs:147 | The endpoint is `http://localhost:`, the port in decimal and `/RCCServiceSoap`, and the text between them parses back to the port. |
| Dispatcher.LaunchAndSend | Program.cs:217-228 | After the launch, the job is sent exactly when a process came back and the version has a payload template. The call goes to that port with the request's job id, a 120-second expiration and the version's payload. Otherwise the response gets 500 and is closed. |
| Dispatcher.AfterParse | Program.cs:216-228 | After a successful parse, the outcome is 500 and closed, or delivered with no status and left open. The trace starts with the parsed fields. |
| Dispatcher.Dispatch | Program.cs:192-237 | 403 exactly when the Access-Key header is missing, empty or not "testkey". Such a request runs no step. No status is written exactly when the job was sent, and then the response stays open. Every other status is 403 or 500, and the response is closed. |
| Dispatcher.WorkerPortSearch | Program.cs:216 | The search over 31501..33000 finds the lowest bindable port, or fails exactly when all 1500 ports are busy. It never hits an invalid port. |
| Dispatcher.InternalErrorExactly | Program.cs:199-235 | With the right key, the answer is 500 exactly when the request cannot be delivered. The causes are: a parse failure, no free port, a malformed number, an unknown version, a missing executable, a failed start, or a version without a payload. Whether the proxy call throws never leads to 500. |
| Dispatcher.DeliveryFollowsLaunch | Program.cs:216-221 | A delivered job comes last, right after a launch that returned a running process on the lowest free port. It carries the request's job id, a 120-second expiration and the payload for the version and the parsed job. |
| Dispatcher.LaunchOnlyAfterChecks | Program.cs:199-217 | A launch happens only after the key check, the parse, a successful port search and the parse of all seven numbers, in that order. It uses the lowest free port and the parsed version. |
| Dispatcher.NumbersParsedAfterSearch | Program.cs:216-217 | With a free port, a request with a malformed number keeps the found port in its trace and launches nothing, so the numbers are parsed after the search. With all ports busy, it fails with only the parse recorded. |
| Dispatcher.RendererStartsThenFails | Program.cs:217-220 | A "Renderer" request starts its worker process, and the request is answered with 500 all the same. |
| Dispatcher.WellFormedRequestIsDelivered | Program.cs:192-237 | A request that carries a job's fields, with a templated version, a free port, an existing executable and a successful start, is delivered. It goes to the lowest free port with the payload built from that very job. |
| Dispatcher.MissingExecutableFails | Program.cs:217-227 | A missing executable gives 500 with no start attempt. |
| Dispatcher.ExhaustedPortsFail | Program.cs:216 | With all worker ports busy, the request fails with 500 before the numbers are parsed or anything is launched. |
| Dispatcher.RenderTypeIsRequired | Program.cs:263-266 | A request with only Version=2018, PlaceId, JobId and MaxPlayers fails with 500 before the port search, because its RenderType is empty. |
| Dispatcher.Response.constructor | Program.cs:195 | A fresh response has status 200 and is open. |
| Dispatcher.Response.FailWith | Program.cs:226-227 | Sets the status code and closes the response. |
| Dispatcher.HandleRequest | Program.cs:192-237 | The handler returns the trace of `Dispatch`. It writes `Dispatch`'s status, or leaves the old one. It closes the response exactly when `Dispatch` does. |
| Dispatcher.HandleParsed | Program.cs:214-228 | The port search by `FindOpenPort` and the number parse update the response and the trace as `AfterParse` says. |
| Dispatcher.LaunchAndSendJob | Program.cs:217-228 | The launch and the payload update the response and the trace as `LaunchAndSend` says. |

## Left out

- The HTTP accept loop, `Task.Run` and concurrent requests (Program.cs:170-190): they involve no per-request decision.
- Real socket binding: `TcpListener` is the `avail` input. The race between the probe closing its listener and the worker binding the port is an OS-level concurrency issue and is not modelled.
- XML parsing and namespace lookup: a request is either malformed or an envelope given as a map from element name to text. Repeated elements, nested content and the namespace check are not modelled.
- Reading the request body: a failure of `ReadToEndAsync` or of the content encoding would also give 500. The model starts from the parsed document.
- Process creation through `cmd.exe`, stream redirection and the output handlers: these only log. `File.Exists` and `Process.Start` are inputs, and a thrown exception counts as a failed start.
- The SOAP proxy call: the model records only the arguments it receives. The call is not awaited, so its result is never seen, and a synchronous exception from it is only logged (`proxyThrows`).
- Console logging, colours and `Main`.
- Decimal.ParseInt32: does not model culture-specific signs, trailing NUL characters, or other number styles of `int.Parse`.
- Culture-specific negative signs in `int.ToString`: the model always prints "-".
- `renderType` and `isRetry`: the worker launch and the payload never use them. The model checks only that RenderType is non-empty.
- Lifetime of the started process after the request fails (for example "Renderer"): the model records that it was started, not what becomes of it.
