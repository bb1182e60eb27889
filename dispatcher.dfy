/**
 * `HandleRequestAsync`: one inbound job request, from the access-key gate to
 * the job handed to the freshly started worker.
 *
 * The steps run in the source's order: access key, `ParseSoapRequest`,
 * `FindOpenPort(31501, 33000)`, `int.Parse` of the seven numeric fields,
 * `StartRCCService`, and `SendSoapRequest` (payload, then the `OpenJobEx`
 * call). Any exception on the way is caught by the handler and answered
 * with 500; a null process is answered with 500 too. When the job is sent,
 * the handler sets no status and does not close the response.
 *
 * The operating system is an input (`Environment`): which ports can be
 * bound, which files exist, whether the process starts, and whether the
 * SOAP proxy throws when the call is issued.
 */
module Dispatcher {
  import opened Wrappers
  import opened Decimal
  import opened PortSearch
  import opened SoapRequest
  import L = RccLauncher
  import P = Payload

  const AccessKey: string := "testkey"
  const FirstWorkerPort: int := 31501
  const LastWorkerPort: int := 33000
  const JobExpirationSeconds: int := 120

  const StatusOk: int := 200  // what `HttpListenerResponse` starts with
  const StatusForbidden: int := 403
  const StatusInternalServerError: int := 500

  datatype Environment = Environment(
    avail: int -> bool,          // a listener can be bound on this loopback port
    fileExists: string -> bool,  // `File.Exists`
    processStarts: bool,         // `Process.Start` returns true without throwing
    proxyThrows: bool)           // `OpenJobExAsync` throws before returning its task

  /** The arguments the SOAP proxy receives: endpoint, `Job` and `ScriptExecution`. */
  datatype OpenJobCall = OpenJobCall(endpoint: string, jobId: string, expirationInSeconds: int, script: string)

  /**
   * The steps that succeeded, in order, each with what it produced. A step
   * that fails ends the request and leaves no entry of its own.
   */
  datatype Step =
    | Parsed(fields: RequestFields)
    | PortFound(port: int)
    | NumbersParsed(job: P.JobSettings)
    | Launched(launch: L.LaunchOutcome)
    | JobSent(call: OpenJobCall, proxyThrew: bool)

  /** The status written (`None`: left untouched), whether the response was closed, and the trace. */
  datatype Outcome = Outcome(status: Option<int>, closed: bool, trace: seq<Step>)
  {
    /** The job reached the worker's SOAP endpoint. */
    predicate Delivered() {
      trace != [] && trace[|trace| - 1].JobSent?
    }
  }

  function Endpoint(port: int): string {
    "http://localhost:" + ShowInt(port) + "/RCCServiceSoap"
  }

  /** The worker's endpoint names its port: the text between host and path reads back as the port. */
  lemma PortOfEndpoint(port: int)
    requires IsInt32(port)
    ensures var e := Endpoint(port);
      && |e| >= 32 && e[..17] == "http://localhost:" && e[|e| - 15..] == "/RCCServiceSoap"
      && ParseInt32(e[17..|e| - 15]) == Some(port)
  {
    var host, digits, path := "http://localhost:", ShowInt(port), "/RCCServiceSoap";
    var e := Endpoint(port);
    assert e == host + digits + path;
    assert e[..17] == host;
    assert e[|e| - 15..] == path;
    assert e[17..|e| - 15] == digits;
    ParseShowInt(port);
  }

  /**
   * The seven `int.Parse` calls on the raw fields; any of them throwing fails
   * the whole request, whichever it is.
   */
  function ParseJob(f: RequestFields): (r: Option<P.JobSettings>)
    ensures r.Some? <==>
      && ParseInt32(f.placeId).Some? && ParseInt32(f.universeId).Some? && ParseInt32(f.matchmaking).Some?
      && ParseInt32(f.maxPlayers).Some? && ParseInt32(f.udpPort).Some? && ParseInt32(f.creatorId).Some?
      && ParseInt32(f.placeVersion).Some?
    ensures r.Some? ==>
      && Some(r.value.placeId) == ParseInt32(f.placeId) && Some(r.value.universeId) == ParseInt32(f.universeId)
      && Some(r.value.matchmaking) == ParseInt32(f.matchmaking) && Some(r.value.maxPlayers) == ParseInt32(f.maxPlayers)
      && Some(r.value.udpPort) == ParseInt32(f.udpPort) && Some(r.value.creatorId) == ParseInt32(f.creatorId)
      && Some(r.value.placeVersion) == ParseInt32(f.placeVersion)
    ensures r.Some? ==>
      && IsInt32(r.value.placeId) && IsInt32(r.value.universeId) && IsInt32(r.value.matchmaking)
      && IsInt32(r.value.maxPlayers) && IsInt32(r.value.udpPort) && IsInt32(r.value.creatorId)
      && IsInt32(r.value.placeVersion)
      && r.value.jobId == f.jobId && r.value.siteUrl == f.siteUrl && r.value.placeFetchUrl == f.placeFetchUrl
  {
    match (ParseInt32(f.placeId), ParseInt32(f.universeId), ParseInt32(f.matchmaking), ParseInt32(f.maxPlayers),
           ParseInt32(f.udpPort), ParseInt32(f.creatorId), ParseInt32(f.placeVersion))
    case (Some(placeId), Some(universeId), Some(matchmaking), Some(maxPlayers), Some(udpPort), Some(creatorId), Some(placeVersion)) =>
      Some(P.JobSettings(placeId, f.jobId, universeId, matchmaking, maxPlayers, udpPort, creatorId, placeVersion,
                         f.siteUrl, f.placeFetchUrl))
    case _ => None
  }

  /** The raw fields a client sends for `job`: integers in decimal, strings as they are. */
  function FieldsOf(version: string, renderType: string, job: P.JobSettings): RequestFields {
    RequestFields(version, renderType, ShowInt(job.placeId), ShowInt(job.maxPlayers), job.jobId,
                  ShowInt(job.universeId), ShowInt(job.matchmaking), ShowInt(job.creatorId),
                  ShowInt(job.placeVersion), job.siteUrl, ShowInt(job.udpPort), job.placeFetchUrl)
  }

  predicate IsInt32Job(job: P.JobSettings) {
    && IsInt32(job.placeId) && IsInt32(job.universeId) && IsInt32(job.matchmaking) && IsInt32(job.maxPlayers)
    && IsInt32(job.udpPort) && IsInt32(job.creatorId) && IsInt32(job.placeVersion)
  }

  /** Numbers written in decimal are read back as themselves. */
  lemma ParseJobOfFields(version: string, renderType: string, job: P.JobSettings)
    requires IsInt32Job(job)
    ensures ParseJob(FieldsOf(version, renderType, job)) == Some(job)
  {
    ParseShowInt(job.placeId);
    ParseShowInt(job.universeId);
    ParseShowInt(job.matchmaking);
    ParseShowInt(job.maxPlayers);
    ParseShowInt(job.udpPort);
    ParseShowInt(job.creatorId);
    ParseShowInt(job.placeVersion);
  }

  function Fail(trace: seq<Step>): Outcome {
    Outcome(Some(StatusInternalServerError), true, trace)
  }

  /** Launch and deliver: `StartRCCService`, then `SendSoapRequest` when a process came back. */
  function LaunchAndSend(f: RequestFields, port: int, job: P.JobSettings, env: Environment): (o: Outcome)
    ensures o.status.None? <==> o.Delivered()
    ensures o.status.Some? ==> o.status.value == StatusInternalServerError && o.closed
    ensures o.status.None? ==> !o.closed
    ensures |o.trace| == 4 || |o.trace| == 5
    ensures o.trace[0] == Parsed(f) && o.trace[1] == PortFound(port) && o.trace[2] == NumbersParsed(job)
    ensures o.trace[3] == Launched(L.StartRccService(port, f.version, env.fileExists, env.processStarts))
    ensures o.Delivered() <==> o.trace[3].launch.Running? && P.HasTemplate(f.version)
    ensures o.Delivered() ==>
      o.trace[4] == JobSent(OpenJobCall(Endpoint(port), f.jobId, JobExpirationSeconds, P.BuildPayload(f.version, job).value), env.proxyThrows)
  {
    var launch := L.StartRccService(port, f.version, env.fileExists, env.processStarts);
    var trace := [Parsed(f), PortFound(port), NumbersParsed(job), Launched(launch)];
    if !launch.Running? then Fail(trace)
    else
      match P.BuildPayload(f.version, job)
      case Failure(_) => Fail(trace)
      case Success(script) =>
        var call := OpenJobCall(Endpoint(port), f.jobId, JobExpirationSeconds, script);
        Outcome(None, false, trace + [JobSent(call, env.proxyThrows)])
  }

  /** Everything after a successful parse: the port search, the numbers, the launch and the delivery. */
  function AfterParse(f: RequestFields, env: Environment): (o: Outcome)
    ensures o.status.None? <==> o.Delivered()
    ensures o.status.Some? ==> o.status.value == StatusInternalServerError && o.closed
    ensures o.status.None? ==> !o.closed
    ensures o.trace != [] && o.trace[0] == Parsed(f)
  {
    match FirstOpenPort(FirstWorkerPort, LastWorkerPort, env.avail)
    case Failure(_) => Fail([Parsed(f)])
    case Success(port) =>
      match ParseJob(f)
      case None => Fail([Parsed(f), PortFound(port)])
      case Some(job) => LaunchAndSend(f, port, job, env)
  }

  /** What `HandleRequestAsync` does with a request carrying `accessKey` (`None`: no such header) and `doc`. */
  function Dispatch(accessKey: Option<string>, doc: Document, env: Environment): (o: Outcome)
    ensures o.status == Some(StatusForbidden) <==> accessKey != Some(AccessKey)
    ensures accessKey != Some(AccessKey) ==> o.closed && o.trace == []
    ensures o.status.None? <==> o.Delivered()
    ensures o.status.Some? ==> o.closed && (o.status.value == StatusForbidden || o.status.value == StatusInternalServerError)
    ensures o.status.None? ==> !o.closed
  {
    if accessKey != Some(AccessKey) then
      Outcome(Some(StatusForbidden), true, [])
    else
      match ParseSoapRequest(doc)
      case Failure(_) => Fail([])
      case Success(f) => AfterParse(f, env)
  }

  // ----- The worker port range -----

  /** Every port of 31501..33000 is a valid TCP port, so the scan either finds the lowest free one or is exhausted. */
  lemma WorkerPortSearch(avail: int -> bool)
    ensures var r := FirstOpenPort(FirstWorkerPort, LastWorkerPort, avail);
      && (r.Success? ==> IsLowestOpen(FirstWorkerPort, LastWorkerPort, avail, r.value))
      && (r.Failure? <==> AllBusy(FirstWorkerPort, LastWorkerPort + 1, avail))
  {
    FirstOpenPortMeaning(FirstWorkerPort, LastWorkerPort, avail);
  }

  // ----- Which requests end how -----

  /** What a request needs to reach the worker, in terms of its inputs. */
  ghost predicate Deliverable(doc: Document, env: Environment) {
    && ParseSoapRequest(doc).Success?
    && !AllBusy(FirstWorkerPort, LastWorkerPort + 1, env.avail)
    && ParseJob(ParseSoapRequest(doc).value).Some?
    && P.HasTemplate(ParseSoapRequest(doc).value.version)
    && env.fileExists(L.ExecutablePath(ParseSoapRequest(doc).value.version).value)
    && env.processStarts
  }

  /**
   * With the right key, the request is answered with 500 exactly when it
   * cannot be delivered: a parse error, no free port, a malformed number, an
   * unknown version, a missing executable, a failed start, or a version with
   * no payload template. Whether the proxy throws plays no part.
   */
  lemma InternalErrorExactly(doc: Document, env: Environment)
    ensures var o := Dispatch(Some(AccessKey), doc, env);
      && (o.status == Some(StatusInternalServerError) <==> !Deliverable(doc, env))
      && (o.status.None? <==> Deliverable(doc, env))
  {
    var o := Dispatch(Some(AccessKey), doc, env);
    WorkerPortSearch(env.avail);
    if ParseSoapRequest(doc).Success? {
      var f := ParseSoapRequest(doc).value;
      var r := FirstOpenPort(FirstWorkerPort, LastWorkerPort, env.avail);
      if r.Success? && ParseJob(f).Some? {
        var launch := L.StartRccService(r.value, f.version, env.fileExists, env.processStarts);
        assert launch.Running? <==> L.IsKnownVersion(f.version) && env.fileExists(L.ExecutablePath(f.version).value) && env.processStarts;
      }
    }
  }

  /**
   * The job is sent last, right after a launch that produced a running
   * process, to that process's port; it carries the request's job id, a
   * 120-second expiration and the payload for the request's version.
   */
  lemma DeliveryFollowsLaunch(accessKey: Option<string>, doc: Document, env: Environment)
    ensures var o := Dispatch(accessKey, doc, env);
      o.Delivered() ==>
        && accessKey == Some(AccessKey) && ParseSoapRequest(doc).Success?
        && |o.trace| == 5
        && o.trace[0] == Parsed(ParseSoapRequest(doc).value)
        && o.trace[1].PortFound? && o.trace[2].NumbersParsed? && o.trace[3].Launched?
        && var f, port, job, launch, call := o.trace[0].fields, o.trace[1].port, o.trace[2].job, o.trace[3].launch, o.trace[4].call;
           && IsLowestOpen(FirstWorkerPort, LastWorkerPort, env.avail, port)
           && launch.Running? && launch.port == port
           && launch.path == L.ExecutablePath(f.version).value
           && launch.arguments == L.LaunchArguments(launch.path, port)
           && ParseJob(f) == Some(job)
           && call == OpenJobCall(Endpoint(port), f.jobId, JobExpirationSeconds, P.BuildPayload(f.version, job).value)
  {
    var o := Dispatch(accessKey, doc, env);
    if o.Delivered() {
      var f := ParseSoapRequest(doc).value;
      var r := FirstOpenPort(FirstWorkerPort, LastWorkerPort, env.avail);
      WorkerPortSearch(env.avail);
      assert o == AfterParse(f, env);
      assert r.Success? && ParseJob(f).Some?;
      assert o == LaunchAndSend(f, r.value, ParseJob(f).value, env);
    }
  }

  /** No process is launched unless the key, the document, the port search and all seven numbers passed. */
  lemma LaunchOnlyAfterChecks(accessKey: Option<string>, doc: Document, env: Environment)
    ensures var o := Dispatch(accessKey, doc, env);
      |o.trace| >= 4 ==>
        && accessKey == Some(AccessKey) && ParseSoapRequest(doc).Success?
        && var f, r := ParseSoapRequest(doc).value, FirstOpenPort(FirstWorkerPort, LastWorkerPort, env.avail);
           && r.Success? && IsLowestOpen(FirstWorkerPort, LastWorkerPort, env.avail, r.value)
           && ParseJob(f).Some?
           && o.trace[1] == PortFound(r.value) && o.trace[2] == NumbersParsed(ParseJob(f).value)
           && o.trace[3] == Launched(L.StartRccService(r.value, f.version, env.fileExists, env.processStarts))
  {
    var o := Dispatch(accessKey, doc, env);
    if |o.trace| >= 4 {
      var f := ParseSoapRequest(doc).value;
      var r := FirstOpenPort(FirstWorkerPort, LastWorkerPort, env.avail);
      WorkerPortSearch(env.avail);
      assert o == AfterParse(f, env);
      assert o == LaunchAndSend(f, r.value, ParseJob(f).value, env);
    }
  }

  /**
   * The numbers are parsed only after the port search: with every worker
   * port busy the request fails before them, and with a free port a malformed
   * number fails it after the search and before any launch.
   */
  lemma NumbersParsedAfterSearch(doc: Document, env: Environment)
    requires ParseSoapRequest(doc).Success? && ParseJob(ParseSoapRequest(doc).value).None?
    ensures var o := Dispatch(Some(AccessKey), doc, env);
      && o.status == Some(StatusInternalServerError)
      && (AllBusy(FirstWorkerPort, LastWorkerPort + 1, env.avail) ==> o.trace == [Parsed(ParseSoapRequest(doc).value)])
      && (!AllBusy(FirstWorkerPort, LastWorkerPort + 1, env.avail) ==> |o.trace| == 2 && o.trace[1].PortFound?)
  {
    WorkerPortSearch(env.avail);
  }

  /**
   * "Renderer" has an executable but no payload template: its worker is
   * started, and then the request fails with 500 all the same.
   */
  lemma RendererStartsThenFails(doc: Document, env: Environment)
    requires ParseSoapRequest(doc).Success? && ParseSoapRequest(doc).value.version == "Renderer"
    requires !AllBusy(FirstWorkerPort, LastWorkerPort + 1, env.avail)
    requires ParseJob(ParseSoapRequest(doc).value).Some?
    requires env.fileExists(L.PathRenderer) && env.processStarts
    ensures var o := Dispatch(Some(AccessKey), doc, env);
      && o.status == Some(StatusInternalServerError)
      && |o.trace| == 4 && o.trace[3].Launched? && o.trace[3].launch.Running?
      && o.trace[3].launch.path == L.PathRenderer
  {
    var f := ParseSoapRequest(doc).value;
    var r := FirstOpenPort(FirstWorkerPort, LastWorkerPort, env.avail);
    WorkerPortSearch(env.avail);
    assert Dispatch(Some(AccessKey), doc, env) == LaunchAndSend(f, r.value, ParseJob(f).value, env);
  }

  /**
   * A well-formed request for a job, with the executable present and the
   * process starting, is delivered on the lowest free worker port with the
   * payload built from that very job.
   */
  lemma WellFormedRequestIsDelivered(version: string, renderType: string, job: P.JobSettings, extra: Body, env: Environment)
    requires P.HasTemplate(version) && renderType != "" && IsInt32Job(job)
    requires forall name | name in extra :: ElementNamed(name).None?
    requires !AllBusy(FirstWorkerPort, LastWorkerPort + 1, env.avail)
    requires env.fileExists(L.ExecutablePath(version).value) && env.processStarts
    ensures var o := Dispatch(Some(AccessKey), Envelope(Some(BodyOf(FieldsOf(version, renderType, job)) + extra)), env);
      var r := FirstOpenPort(FirstWorkerPort, LastWorkerPort, env.avail);
      && o.status.None? && !o.closed && |o.trace| == 5
      && r.Success? && IsLowestOpen(FirstWorkerPort, LastWorkerPort, env.avail, r.value)
      && o.trace[1] == PortFound(r.value)
      && o.trace[4] == JobSent(OpenJobCall(Endpoint(r.value), job.jobId, JobExpirationSeconds,
                                           P.BuildPayload(version, job).value), env.proxyThrows)
  {
    var f := FieldsOf(version, renderType, job);
    var doc := Envelope(Some(BodyOf(f) + extra));
    ParseBodyOf(f, extra);
    assert ParseSoapRequest(doc) == Success(f);
    ParseJobOfFields(version, renderType, job);
    WorkerPortSearch(env.avail);
    var r := FirstOpenPort(FirstWorkerPort, LastWorkerPort, env.avail);
    assert Dispatch(Some(AccessKey), doc, env) == AfterParse(f, env);
    assert AfterParse(f, env) == LaunchAndSend(f, r.value, job, env);
  }

  /** A missing executable fails the request with 500 without any start attempt. */
  lemma MissingExecutableFails(doc: Document, env: Environment)
    requires ParseSoapRequest(doc).Success? && L.IsKnownVersion(ParseSoapRequest(doc).value.version)
    requires !env.fileExists(L.ExecutablePath(ParseSoapRequest(doc).value.version).value)
    ensures var o := Dispatch(Some(AccessKey), doc, env);
      && o.status == Some(StatusInternalServerError) && o.closed && |o.trace| <= 4
      && (|o.trace| == 4 ==> o.trace[3].launch.ExecutableNotFound?)
  {
    var f := ParseSoapRequest(doc).value;
    var r := FirstOpenPort(FirstWorkerPort, LastWorkerPort, env.avail);
    var o := Dispatch(Some(AccessKey), doc, env);
    assert o == AfterParse(f, env);
    if r.Success? && ParseJob(f).Some? {
      assert o == LaunchAndSend(f, r.value, ParseJob(f).value, env);
    }
  }

  /** With every worker port busy, the request fails with 500 before any launch. */
  lemma ExhaustedPortsFail(doc: Document, env: Environment)
    requires ParseSoapRequest(doc).Success?
    requires AllBusy(FirstWorkerPort, LastWorkerPort + 1, env.avail)
    ensures var o := Dispatch(Some(AccessKey), doc, env);
      && o.status == Some(StatusInternalServerError) && o.closed
      && o.trace == [Parsed(ParseSoapRequest(doc).value)]
  {
    WorkerPortSearch(env.avail);
  }

  /**
   * A request naming only Version, PlaceId, JobId and MaxPlayers has an empty
   * RenderType, so it fails with 500 before the port search.
   */
  lemma RenderTypeIsRequired(env: Environment)
    ensures var body := map["Version" := "2018", "PlaceId" := "111", "JobId" := "abc", "MaxPlayers" := "10"];
      var o := Dispatch(Some(AccessKey), Envelope(Some(body)), env);
      o.status == Some(StatusInternalServerError) && o.trace == []
  {
    var body := map["Version" := "2018", "PlaceId" := "111", "JobId" := "abc", "MaxPlayers" := "10"];
    assert "RenderType" !in body;
  }

  // ----- The handler itself -----

  /** The parts of `HttpListenerResponse` the handler touches. */
  class Response {
    var statusCode: int
    var closed: bool

    constructor ()
      ensures statusCode == StatusOk && !closed
    {
      statusCode := StatusOk;
      closed := false;
    }

    /** Sets the status code and closes the response. */
    method FailWith(code: int)
      modifies this
      ensures statusCode == code && closed
    {
      statusCode := code;
      closed := true;
    }
  }

  /** The source's handler, step by step: the key gate and the parse, then the rest. */
  method HandleRequest(response: Response, accessKey: Option<string>, doc: Document, env: Environment)
    returns (trace: seq<Step>)
    modifies response
    ensures var o := Dispatch(accessKey, doc, env);
      && trace == o.trace
      && response.statusCode == (if o.status.Some? then o.status.value else old(response.statusCode))
      && response.closed == (o.closed || old(response.closed))
  {
    if accessKey != Some(AccessKey) {
      response.FailWith(StatusForbidden);
      return [];
    }
    var parsed := ParseSoapRequest(doc);
    if parsed.Failure? {
      response.FailWith(StatusInternalServerError);
      return [];
    }
    trace := HandleParsed(response, parsed.value, env);
  }

  /** The port search by `FindOpenPort` and the seven numbers, then the launch. */
  method HandleParsed(response: Response, f: RequestFields, env: Environment) returns (trace: seq<Step>)
    modifies response
    ensures var o := AfterParse(f, env);
      && trace == o.trace
      && response.statusCode == (if o.status.Some? then o.status.value else old(response.statusCode))
      && response.closed == (o.closed || old(response.closed))
  {
    var search := FindOpenPort(FirstWorkerPort, LastWorkerPort, env.avail);
    if search.Failure? {
      response.FailWith(StatusInternalServerError);
      return [Parsed(f)];
    }
    var numbers := ParseJob(f);
    if numbers.None? {
      response.FailWith(StatusInternalServerError);
      return [Parsed(f), PortFound(search.value)];
    }
    trace := LaunchAndSendJob(response, f, search.value, numbers.value, env);
  }

  /** `StartRCCService`, then `SendSoapRequest` when a process came back. */
  method LaunchAndSendJob(response: Response, f: RequestFields, port: int, job: P.JobSettings, env: Environment)
    returns (trace: seq<Step>)
    modifies response
    ensures var o := LaunchAndSend(f, port, job, env);
      && trace == o.trace
      && response.statusCode == (if o.status.Some? then o.status.value else old(response.statusCode))
      && response.closed == (o.closed || old(response.closed))
  {
    var launch := L.StartRccService(port, f.version, env.fileExists, env.processStarts);
    trace := [Parsed(f), PortFound(port), NumbersParsed(job), Launched(launch)];
    if !launch.Running? {
      response.FailWith(StatusInternalServerError);
      return;
    }
    var payload := P.BuildPayload(f.version, job);
    if payload.Failure? {
      response.FailWith(StatusInternalServerError);
      return;
    }
    var call := OpenJobCall(Endpoint(port), f.jobId, JobExpirationSeconds, payload.value);
    trace := trace + [JobSent(call, env.proxyThrows)];
  }
}
