/**
 * `ParseSoapRequest`: reads the twelve job fields out of the SOAP body of an
 * inbound request.
 *
 * The XML text itself is not modelled: a request is either text that does
 * not parse as XML, or an envelope whose `Body` element (if any) is given as
 * the map from the local names of its children in the service namespace to
 * their text content.
 */
module SoapRequest {
  import opened Wrappers

  /** Children of the SOAP `Body` in the service namespace: local name to text. */
  type Body = map<string, string>

  datatype Document =
    | Malformed                   // XDocument.Parse throws
    | Envelope(body: Option<Body>) // None: the root has no SOAP Body element

  /** The tuple the source returns, as raw text; the numeric fields are parsed later by the caller. */
  datatype RequestFields = RequestFields(
    version: string,
    renderType: string,
    placeId: string,
    maxPlayers: string,
    jobId: string,
    universeId: string,
    matchmaking: string,
    creatorId: string,
    placeVersion: string,
    siteUrl: string,
    udpPort: string,
    placeFetchUrl: string)

  datatype ParseError =
    | MalformedXml     // the parser's exception, rethrown
    | VersionRequired  // "Version is required": Version or RenderType empty

  /** The twelve elements read from the body, in the order the source reads them. */
  datatype Element =
    | Version | RenderType | PlaceId | MaxPlayers | JobId | UniverseId
    | Matchmaking | CreatorId | PlaceVersion | SiteUrl | UdpPort | PlaceFetchUrl

  /** The element's local name in the XML. */
  function LocalName(e: Element): string {
    match e
    case Version => "Version"
    case RenderType => "RenderType"
    case PlaceId => "PlaceId"
    case MaxPlayers => "MaxPlayers"
    case JobId => "JobId"
    case UniverseId => "UniverseId"
    case Matchmaking => "Matchmaking"
    case CreatorId => "CreatorId"
    case PlaceVersion => "PlaceVersion"
    case SiteUrl => "SiteURL"
    case UdpPort => "UDPPort"
    case PlaceFetchUrl => "PlaceFetchUrl"
  }

  /** The element a local name denotes, if it is one of the twelve. */
  function ElementNamed(name: string): (e: Option<Element>)
    ensures e.Some? ==> LocalName(e.value) == name
  {
    if name == "Version" then Some(Version)
    else if name == "RenderType" then Some(RenderType)
    else if name == "PlaceId" then Some(PlaceId)
    else if name == "MaxPlayers" then Some(MaxPlayers)
    else if name == "JobId" then Some(JobId)
    else if name == "UniverseId" then Some(UniverseId)
    else if name == "Matchmaking" then Some(Matchmaking)
    else if name == "CreatorId" then Some(CreatorId)
    else if name == "PlaceVersion" then Some(PlaceVersion)
    else if name == "SiteURL" then Some(SiteUrl)
    else if name == "UDPPort" then Some(UdpPort)
    else if name == "PlaceFetchUrl" then Some(PlaceFetchUrl)
    else None
  }

  /** Every local name is recognised as its own element, so no two elements share a name. */
  lemma {:induction false} ElementNamedLocalName(e: Element)
    ensures ElementNamed(LocalName(e)) == Some(e)
  {
    match e
    case Version =>
    case RenderType =>
    case PlaceId =>
    case MaxPlayers =>
    case JobId =>
    case UniverseId =>
    case Matchmaking =>
    case CreatorId =>
    case PlaceVersion =>
    case SiteUrl =>
    case UdpPort =>
    case PlaceFetchUrl =>
  }

  /** `GetValue`: the element's text, or "" when the body or the element is missing. */
  function GetValue(body: Option<Body>, name: string): string {
    if body.Some? && name in body.value then body.value[name] else ""
  }

  /** The field of `f` that element `e` fills. */
  function FieldOf(f: RequestFields, e: Element): string {
    match e
    case Version => f.version
    case RenderType => f.renderType
    case PlaceId => f.placeId
    case MaxPlayers => f.maxPlayers
    case JobId => f.jobId
    case UniverseId => f.universeId
    case Matchmaking => f.matchmaking
    case CreatorId => f.creatorId
    case PlaceVersion => f.placeVersion
    case SiteUrl => f.siteUrl
    case UdpPort => f.udpPort
    case PlaceFetchUrl => f.placeFetchUrl
  }

  /** The twelve reads of `GetValue`, one per element. */
  function ReadFields(body: Option<Body>): (f: RequestFields)
    ensures forall e: Element :: FieldOf(f, e) == GetValue(body, LocalName(e))
  {
    RequestFields(
      GetValue(body, LocalName(Version)),
      GetValue(body, LocalName(RenderType)),
      GetValue(body, LocalName(PlaceId)),
      GetValue(body, LocalName(MaxPlayers)),
      GetValue(body, LocalName(JobId)),
      GetValue(body, LocalName(UniverseId)),
      GetValue(body, LocalName(Matchmaking)),
      GetValue(body, LocalName(CreatorId)),
      GetValue(body, LocalName(PlaceVersion)),
      GetValue(body, LocalName(SiteUrl)),
      GetValue(body, LocalName(UdpPort)),
      GetValue(body, LocalName(PlaceFetchUrl)))
  }

  function ParseSoapRequest(doc: Document): (r: Result<RequestFields, ParseError>)
    ensures r.Success? <==> doc.Envelope? && GetValue(doc.body, "Version") != "" && GetValue(doc.body, "RenderType") != ""
    ensures r.Success? ==> doc.Envelope? && forall e: Element :: FieldOf(r.value, e) == GetValue(doc.body, LocalName(e))
    ensures r == Failure(MalformedXml) <==> doc.Malformed?
  {
    match doc
    case Malformed => Failure(MalformedXml)
    case Envelope(body) =>
      var f := ReadFields(body);
      if f.version == "" || f.renderType == "" then Failure(VersionRequired) else Success(f)
  }

  /** The body a client writes for `f`: one element per field, holding the field's text. */
  function BodyOf(f: RequestFields): (b: Body)
    ensures forall e: Element :: LocalName(e) in b && b[LocalName(e)] == FieldOf(f, e)
    ensures forall name | name in b :: ElementNamed(name).Some?
  {
    map[
      "Version" := f.version, "RenderType" := f.renderType, "PlaceId" := f.placeId,
      "MaxPlayers" := f.maxPlayers, "JobId" := f.jobId, "UniverseId" := f.universeId,
      "Matchmaking" := f.matchmaking, "CreatorId" := f.creatorId, "PlaceVersion" := f.placeVersion,
      "SiteURL" := f.siteUrl, "UDPPort" := f.udpPort, "PlaceFetchUrl" := f.placeFetchUrl]
  }

  lemma GetValueOfBody(f: RequestFields, extra: Body, e: Element)
    requires forall name | name in extra :: ElementNamed(name).None?
    ensures GetValue(Some(BodyOf(f) + extra), LocalName(e)) == FieldOf(f, e)
  {
    ElementNamedLocalName(e);
  }

  /** Two field tuples that agree on every element are equal. */
  lemma FieldsExtensional(f: RequestFields, g: RequestFields)
    requires forall e: Element :: FieldOf(f, e) == FieldOf(g, e)
    ensures f == g
  {
    assert FieldOf(f, Version) == FieldOf(g, Version);
    assert FieldOf(f, RenderType) == FieldOf(g, RenderType);
    assert FieldOf(f, PlaceId) == FieldOf(g, PlaceId);
    assert FieldOf(f, MaxPlayers) == FieldOf(g, MaxPlayers);
    assert FieldOf(f, JobId) == FieldOf(g, JobId);
    assert FieldOf(f, UniverseId) == FieldOf(g, UniverseId);
    assert FieldOf(f, Matchmaking) == FieldOf(g, Matchmaking);
    assert FieldOf(f, CreatorId) == FieldOf(g, CreatorId);
    assert FieldOf(f, PlaceVersion) == FieldOf(g, PlaceVersion);
    assert FieldOf(f, SiteUrl) == FieldOf(g, SiteUrl);
    assert FieldOf(f, UdpPort) == FieldOf(g, UdpPort);
    assert FieldOf(f, PlaceFetchUrl) == FieldOf(g, PlaceFetchUrl);
  }

  /** Round trip: parsing the body written for `f` gives `f` back, exactly when both required fields are non-empty. */
  lemma ParseBodyOf(f: RequestFields, extra: Body)
    requires forall name | name in extra :: ElementNamed(name).None?
    ensures ParseSoapRequest(Envelope(Some(BodyOf(f) + extra))) ==
      if f.version != "" && f.renderType != "" then Success(f) else Failure(VersionRequired)
  {
    var body := Some(BodyOf(f) + extra);
    forall e: Element ensures FieldOf(ReadFields(body), e) == FieldOf(f, e) {
      GetValueOfBody(f, extra, e);
    }
    FieldsExtensional(ReadFields(body), f);
  }

  /** Elements outside the twelve names never change the outcome. */
  lemma ParseIgnoresOtherElements(body: Body, extra: Body)
    requires forall name | name in extra :: ElementNamed(name).None?
    ensures ParseSoapRequest(Envelope(Some(body + extra))) == ParseSoapRequest(Envelope(Some(body)))
  {
    forall e: Element
      ensures GetValue(Some(body + extra), LocalName(e)) == GetValue(Some(body), LocalName(e))
    {
      ElementNamedLocalName(e);
    }
  }

  /** A request without a SOAP Body reads every field as "" and so fails as missing its Version. */
  lemma NoBodyIsRejected()
    ensures ParseSoapRequest(Envelope(None)) == Failure(VersionRequired)
  {
  }
}
