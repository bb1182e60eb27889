/**
 * The payload switch of `SendSoapRequest`: the script string handed to the
 * worker, built by string interpolation from one of three templates.
 *
 * A template is modelled as the interpolated string it is: a sequence of
 * literal pieces and holes. Integer holes are rendered in decimal; string
 * holes are spliced in verbatim, with no escaping.
 */
module Payload {
  import opened Wrappers
  import opened Decimal

  /** The typed job parameters the payload is built from (after `int.Parse`). */
  datatype JobSettings = JobSettings(
    placeId: int,
    jobId: string,
    universeId: int,
    matchmaking: int,
    maxPlayers: int,
    udpPort: int,
    creatorId: int,
    placeVersion: int,
    siteUrl: string,
    placeFetchUrl: string)

  datatype Field =
    | PlaceId | JobId | UniverseId | Matchmaking | MaxPlayers
    | UdpPort | CreatorId | PlaceVersion | SiteUrl | PlaceFetchUrl

  datatype Piece = Lit(text: string) | Hole(field: Field)

  /** What a hole turns into: integers as `int.ToString()`, strings as they are. */
  function FieldText(f: Field, job: JobSettings): string {
    match f
    case PlaceId => ShowInt(job.placeId)
    case JobId => job.jobId
    case UniverseId => ShowInt(job.universeId)
    case Matchmaking => ShowInt(job.matchmaking)
    case MaxPlayers => ShowInt(job.maxPlayers)
    case UdpPort => ShowInt(job.udpPort)
    case CreatorId => ShowInt(job.creatorId)
    case PlaceVersion => ShowInt(job.placeVersion)
    case SiteUrl => job.siteUrl
    case PlaceFetchUrl => job.placeFetchUrl
  }

  function PieceText(p: Piece, job: JobSettings): string {
    match p
    case Lit(text) => text
    case Hole(f) => FieldText(f, job)
  }

  /** String interpolation: the pieces' texts, left to right. */
  function Interpolate(t: seq<Piece>, job: JobSettings): string {
    if t == [] then "" else PieceText(t[0], job) + Interpolate(t[1..], job)
  }

  // The templates below are cut before every query parameter or JSON key, so
  // that each key is a piece of its own; their concatenated literal text is the
  // source's interpolated string.

  /** "2016": a Lua one-liner that loads the game-server script with the job's parameters in its query string. */
  const LuaTemplate2016: seq<Piece> := [
    Lit("pcall(function() loadfile('https://assetgame.limbo.com/Game/gameserver.ashx"),
    Lit("?id="), Hole(PlaceId),
    Lit("&gameid="), Hole(JobId),
    Lit("&universeid="), Hole(UniverseId),
    Lit("&matchmaking="), Hole(Matchmaking),
    Lit("&maxplayers="), Hole(MaxPlayers),
    Lit("&udp="), Hole(UdpPort),
    Lit("')() end)")]

  /** "2018": the game-server JSON settings. */
  const JsonTemplate2018: seq<Piece> := [
    Lit("{\"Mode\":\"GameServer\","),
    Lit("\"GameId\":\""), Hole(JobId), Lit("\",\"Settings\":{"),
    Lit("\"PlaceId\":"), Hole(PlaceId), Lit(","),
    Lit("\"GameId\":\""), Hole(JobId), Lit("\",\"GsmInterval\":5,"),
    Lit("\"MaxPlayers\":"), Hole(MaxPlayers), Lit(","),
    Lit("\"MaxGameInstances\":"), Hole(MaxPlayers),
    Lit(",\"MachineAddress\":\"127.0.0.1\",\"ApiKey\":\"21ee7df5-7d5b-4cef-83c9-36f92ea10aa5\","),
    Lit("\"PreferredPlayerCapacity\":"), Hole(MaxPlayers),
    Lit(",\"DataCenterId\":\"12345\",\"PlaceVisitAccessKey\":\"21ee7df5-7d5b-4cef-83c9-36f92ea10aa5\","),
    Lit("\"UniverseId\":"), Hole(UniverseId), Lit(","),
    Lit("\"MatchmakingContextId\":"), Hole(Matchmaking), Lit(","),
    Lit("\"CreatorId\":"), Hole(CreatorId), Lit(",\"CreatorType\":\"User\","),
    Lit("\"PlaceVersion\":"), Hole(PlaceVersion), Lit(","),
    Lit("\"BaseUrl\":\""), Hole(SiteUrl), Lit("\","),
    Lit("\"JobId\":\""), Hole(JobId), Lit("\","),
    Lit("\"PreferredPort\":"), Hole(UdpPort),
    Lit("},\"Arguments\":{}}")]

  /** "2020": the 2018 settings plus the place-fetch URL. */
  const JsonTemplate2020: seq<Piece> := [
    Lit("{\"Mode\":\"GameServer\","),
    Lit("\"GameId\":\""), Hole(JobId), Lit("\",\"Settings\":{"),
    Lit("\"PlaceId\":"), Hole(PlaceId), Lit(","),
    Lit("\"GameId\":\""), Hole(JobId), Lit("\",\"GsmInterval\":5,"),
    Lit("\"MaxPlayers\":"), Hole(MaxPlayers), Lit(","),
    Lit("\"MaxGameInstances\":"), Hole(MaxPlayers),
    Lit(",\"MachineAddress\":\"127.0.0.1\",\"ApiKey\":\"21ee7df5-7d5b-4cef-83c9-36f92ea10aa5\","),
    Lit("\"PreferredPlayerCapacity\":"), Hole(MaxPlayers),
    Lit(",\"DataCenterId\":\"12345\",\"PlaceVisitAccessKey\":\"21ee7df5-7d5b-4cef-83c9-36f92ea10aa5\","),
    Lit("\"UniverseId\":"), Hole(UniverseId), Lit(","),
    Lit("\"MatchmakingContextId\":"), Hole(Matchmaking), Lit(","),
    Lit("\"CreatorId\":"), Hole(CreatorId), Lit(",\"CreatorType\":\"User\","),
    Lit("\"PlaceVersion\":"), Hole(PlaceVersion), Lit(","),
    Lit("\"BaseUrl\":\""), Hole(SiteUrl), Lit("\","),
    Lit("\"JobId\":\""), Hole(JobId), Lit("\","),
    Lit("\"PreferredPort\":"), Hole(UdpPort), Lit(","),
    Lit("\"PlaceFetchUrl\":\""), Hole(PlaceFetchUrl), Lit("\""),
    Lit("},\"Arguments\":{}}")]

  datatype PayloadError = UnknownVersion(version: string) // ArgumentException "Unknown version"

  /** The versions that have a payload template; "Renderer" is not one of them. */
  predicate HasTemplate(version: string) {
    version == "2016" || version == "2018" || version == "2020"
  }

  function Template(version: string): (r: Option<seq<Piece>>)
    ensures r.Some? <==> HasTemplate(version)
  {
    if version == "2016" then Some(LuaTemplate2016)
    else if version == "2018" then Some(JsonTemplate2018)
    else if version == "2020" then Some(JsonTemplate2020)
    else None
  }

  function BuildPayload(version: string, job: JobSettings): (r: Result<string, PayloadError>)
    ensures r.Success? <==> HasTemplate(version)
    ensures r.Failure? ==> r.error == UnknownVersion(version)
  {
    match Template(version)
    case Some(t) => Success(Interpolate(t, job))
    case None => Failure(UnknownVersion(version))
  }

  // ----- Substrings -----

  predicate OccursAt(s: string, t: string, k: int) {
    0 <= k && k + |t| <= |s| && s[k..k + |t|] == t
  }

  /** `t` occurs somewhere in `s`. */
  predicate Contains(s: string, t: string) {
    exists k | 0 <= k <= |s| :: OccursAt(s, t, k)
  }

  lemma ContainsMiddle(a: string, t: string, b: string)
    ensures Contains(a + t + b, t)
  {
    assert (a + t + b)[|a|..|a| + |t|] == t;
    assert OccursAt(a + t + b, t, |a|);
  }

  lemma ContainsWindow(a: string, before: string, v: string, after: string, c: string)
    ensures Contains(a + before + v + after + c, before + v + after)
  {
    assert a + before + v + after + c == a + (before + v + after) + c;
    ContainsMiddle(a, before + v + after, c);
  }

  // ----- Interpolation -----

  lemma {:induction false} InterpolateAppend(t1: seq<Piece>, t2: seq<Piece>, job: JobSettings)
    ensures Interpolate(t1 + t2, job) == Interpolate(t1, job) + Interpolate(t2, job)
  {
    if t1 == [] {
      assert t1 + t2 == t2;
    } else {
      assert (t1 + t2)[1..] == t1[1..] + t2;
      InterpolateAppend(t1[1..], t2, job);
    }
  }

  /** Three consecutive pieces, with everything before and after them. */
  lemma InterpolateAround(t: seq<Piece>, i: nat, job: JobSettings)
    requires 1 <= i < |t| - 1
    ensures Interpolate(t, job) == Interpolate(t[..i - 1], job) + PieceText(t[i - 1], job) + PieceText(t[i], job)
      + PieceText(t[i + 1], job) + Interpolate(t[i + 2..], job)
  {
    var x, y, z := t[..i - 1], [t[i - 1], t[i], t[i + 1]], t[i + 2..];
    assert t == (x + y) + z;
    InterpolateAppend(x + y, z, job);
    InterpolateAppend(x, y, job);
    var u, v, w := PieceText(t[i - 1], job), PieceText(t[i], job), PieceText(t[i + 1], job);
    assert y[1..] == [t[i], t[i + 1]] && y[1..][1..] == [t[i + 1]] && y[1..][1..][1..] == [];
    assert Interpolate([t[i + 1]], job) == w + "" == w;
    assert Interpolate([t[i], t[i + 1]], job) == v + w;
    assert Interpolate(y, job) == u + (v + w);
  }

  /** A hole's value is spliced in unchanged, right between the literals around it. */
  lemma HoleInContext(t: seq<Piece>, i: nat, job: JobSettings, before: string, f: Field, after: string)
    requires 1 <= i < |t| - 1 && t[i - 1] == Lit(before) && t[i] == Hole(f) && t[i + 1] == Lit(after)
    ensures Contains(Interpolate(t, job), before + FieldText(f, job) + after)
  {
    var a, v, c := Interpolate(t[..i - 1], job), FieldText(f, job), Interpolate(t[i + 2..], job);
    InterpolateAround(t, i, job);
    ContainsWindow(a, before, v, after, c);
  }

  // ----- What each template promises -----

  /** A hole and the literal pieces on either side of it. */
  datatype Window = Window(index: nat, before: string, field: Field, after: string)

  /** Piece `w.index` is the hole for `w.field`, between the literal pieces `w.before` and `w.after`. */
  predicate HasWindow(t: seq<Piece>, w: Window) {
    1 <= w.index < |t| - 1 && t[w.index - 1] == Lit(w.before) && t[w.index] == Hole(w.field) && t[w.index + 1] == Lit(w.after)
  }

  /** Every listed window's field text appears between its literals in the output. */
  lemma WindowsInOutput(t: seq<Piece>, windows: seq<Window>, job: JobSettings)
    requires forall w | w in windows :: HasWindow(t, w)
    ensures forall w | w in windows :: Contains(Interpolate(t, job), w.before + FieldText(w.field, job) + w.after)
  {
    forall w | w in windows
      ensures Contains(Interpolate(t, job), w.before + FieldText(w.field, job) + w.after)
    {
      HoleInContext(t, w.index, job, w.before, w.field, w.after);
    }
  }

  /**
   * The members of the two JSON templates that are filled from the job, each
   * with the text around its value: `jobId` fills the top-level GameId and the
   * settings' GameId and JobId; `maxPlayers` fills MaxPlayers, MaxGameInstances
   * and PreferredPlayerCapacity; every other field fills one member.
   */
  const JsonIdWindows: seq<Window> := [
    Window(2, "\"GameId\":\"", JobId, "\",\"Settings\":{"),
    Window(5, "\"PlaceId\":", PlaceId, ","),
    Window(8, "\"GameId\":\"", JobId, "\",\"GsmInterval\":5,"),
    Window(11, "\"MaxPlayers\":", MaxPlayers, ",")]

  const JsonCapacityWindows: seq<Window> := [
    Window(14, "\"MaxGameInstances\":", MaxPlayers, ",\"MachineAddress\":\"127.0.0.1\",\"ApiKey\":\"21ee7df5-7d5b-4cef-83c9-36f92ea10aa5\","),
    Window(17, "\"PreferredPlayerCapacity\":", MaxPlayers, ",\"DataCenterId\":\"12345\",\"PlaceVisitAccessKey\":\"21ee7df5-7d5b-4cef-83c9-36f92ea10aa5\","),
    Window(20, "\"UniverseId\":", UniverseId, ","),
    Window(23, "\"MatchmakingContextId\":", Matchmaking, ",")]

  const JsonPlaceWindows: seq<Window> := [
    Window(26, "\"CreatorId\":", CreatorId, ",\"CreatorType\":\"User\","),
    Window(29, "\"PlaceVersion\":", PlaceVersion, ","),
    Window(32, "\"BaseUrl\":\"", SiteUrl, "\","),
    Window(35, "\"JobId\":\"", JobId, "\",")]

  const JsonWindows: seq<Window> := JsonIdWindows + JsonCapacityWindows + JsonPlaceWindows

  lemma JsonIdWindows2018()
    ensures forall w | w in JsonIdWindows :: HasWindow(JsonTemplate2018, w)
  {
  }

  lemma JsonCapacityWindows2018()
    ensures forall w | w in JsonCapacityWindows :: HasWindow(JsonTemplate2018, w)
  {
  }

  lemma JsonPlaceWindows2018()
    ensures forall w | w in JsonPlaceWindows :: HasWindow(JsonTemplate2018, w)
  {
  }

  /** A window that lies inside a prefix two templates share is a window of both. */
  lemma SharedPrefixWindows(t1: seq<Piece>, t2: seq<Piece>, n: nat, windows: seq<Window>)
    requires n <= |t1| && n <= |t2| && t1[..n] == t2[..n]
    requires forall w | w in windows :: HasWindow(t1, w) && w.index + 1 < n
    ensures forall w | w in windows :: HasWindow(t2, w)
  {
    forall w | w in windows
      ensures HasWindow(t2, w)
    {
      assert t1[w.index - 1] == t1[..n][w.index - 1] == t2[w.index - 1];
      assert t1[w.index] == t1[..n][w.index] == t2[w.index];
      assert t1[w.index + 1] == t1[..n][w.index + 1] == t2[w.index + 1];
    }
  }

  /** The 2020 template repeats the 2018 one up to its closing piece. */
  lemma Json2020SharesPrefix()
    ensures |JsonTemplate2018| == 40 && |JsonTemplate2020| == 44
    ensures JsonTemplate2020[..39] == JsonTemplate2018[..39]
  {
  }

  lemma JsonWindowsOfTemplates()
    ensures forall w | w in JsonWindows :: HasWindow(JsonTemplate2018, w)
    ensures forall w | w in JsonWindows :: HasWindow(JsonTemplate2020, w)
  {
    JsonIdWindows2018();
    JsonCapacityWindows2018();
    JsonPlaceWindows2018();
    assert forall w | w in JsonWindows :: w.index + 1 < 39;
    Json2020SharesPrefix();
    SharedPrefixWindows(JsonTemplate2018, JsonTemplate2020, 39, JsonWindows);
  }

  /** "2018" and "2020": each listed member carries its field, integers in decimal and strings verbatim between quotes. */
  lemma JsonMembers(version: string, job: JobSettings)
    requires version == "2018" || version == "2020"
    ensures forall w | w in JsonWindows ::
      Contains(BuildPayload(version, job).value, w.before + FieldText(w.field, job) + w.after)
  {
    JsonWindowsOfTemplates();
    WindowsInOutput(Template(version).value, JsonWindows, job);
  }

  /** The PreferredPort member, which holds `udpPort`, in each JSON template. */
  const PreferredPortWindow2018 := Window(38, "\"PreferredPort\":", UdpPort, JsonClosing)
  const PreferredPortWindow2020 := Window(38, "\"PreferredPort\":", UdpPort, ",")

  lemma PreferredPortWindows()
    ensures HasWindow(JsonTemplate2018, PreferredPortWindow2018)
    ensures HasWindow(JsonTemplate2020, PreferredPortWindow2020)
  {
  }

  /** The last settings member of "2018": `udpPort` fills PreferredPort, right before the closing text. */
  lemma Json2018PreferredPort(job: JobSettings)
    ensures Contains(BuildPayload("2018", job).value, "\"PreferredPort\":" + ShowInt(job.udpPort) + JsonClosing)
  {
    PreferredPortWindows();
    HoleInContext(JsonTemplate2018, 38, job, "\"PreferredPort\":", UdpPort, JsonClosing);
    assert FieldText(UdpPort, job) == ShowInt(job.udpPort);
    JsonPayloads(job);
  }

  /** In "2020", `udpPort` fills PreferredPort, which is followed by the PlaceFetchUrl member. */
  lemma Json2020PreferredPort(job: JobSettings)
    ensures Contains(BuildPayload("2020", job).value, "\"PreferredPort\":" + ShowInt(job.udpPort) + ",")
  {
    PreferredPortWindows();
    HoleInContext(JsonTemplate2020, 38, job, "\"PreferredPort\":", UdpPort, ",");
    assert FieldText(UdpPort, job) == ShowInt(job.udpPort);
    JsonPayloads(job);
  }

  /** The query-string parameters of the Lua template, each between its own name and the next one's. */
  const LuaWindows: seq<Window> := [
    Window(2, "?id=", PlaceId, "&gameid="),
    Window(4, "&gameid=", JobId, "&universeid="),
    Window(6, "&universeid=", UniverseId, "&matchmaking="),
    Window(8, "&matchmaking=", Matchmaking, "&maxplayers="),
    Window(10, "&maxplayers=", MaxPlayers, "&udp="),
    Window(12, "&udp=", UdpPort, "')() end)")]

  lemma LuaWindows2016()
    ensures forall w | w in LuaWindows :: HasWindow(LuaTemplate2016, w)
  {
  }

  /** "2016": the query string carries the place, job, universe, matchmaking, player-count and UDP-port values. */
  lemma LuaQueryString(job: JobSettings)
    ensures forall w | w in LuaWindows ::
      Contains(BuildPayload("2016", job).value, w.before + FieldText(w.field, job) + w.after)
  {
    LuaWindows2016();
    WindowsInOutput(LuaTemplate2016, LuaWindows, job);
  }

  /** The fields whose holes a template has; every other field's value is irrelevant to its output. */
  predicate HolesWithin(t: seq<Piece>, fields: set<Field>) {
    forall i | 0 <= i < |t| :: t[i].Lit? || t[i].field in fields
  }

  lemma {:induction false} InterpolateReadsOnlyFields(t: seq<Piece>, fields: set<Field>, job1: JobSettings, job2: JobSettings)
    requires HolesWithin(t, fields)
    requires forall f | f in fields :: FieldText(f, job1) == FieldText(f, job2)
    ensures Interpolate(t, job1) == Interpolate(t, job2)
  {
    if t != [] {
      assert HolesWithin(t[1..], fields) by {
        forall i | 0 <= i < |t[1..]| ensures t[1..][i].Lit? || t[1..][i].field in fields {
          assert t[1..][i] == t[i + 1];
        }
      }
      InterpolateReadsOnlyFields(t[1..], fields, job1, job2);
    }
  }

  const LuaFields := {PlaceId, JobId, UniverseId, Matchmaking, MaxPlayers, UdpPort}

  lemma LuaHoles()
    ensures HolesWithin(LuaTemplate2016, LuaFields)
  {
  }

  /** Two jobs that agree on the six query-string fields get the same "2016" payload. */
  lemma LuaReadsSixFields(job1: JobSettings, job2: JobSettings)
    requires job1.placeId == job2.placeId && job1.jobId == job2.jobId && job1.universeId == job2.universeId
    requires job1.matchmaking == job2.matchmaking && job1.maxPlayers == job2.maxPlayers && job1.udpPort == job2.udpPort
    ensures BuildPayload("2016", job1) == BuildPayload("2016", job2)
  {
    LuaHoles();
    InterpolateReadsOnlyFields(LuaTemplate2016, LuaFields, job1, job2);
  }

  const JsonClosing := "},\"Arguments\":{}}"

  /** The 2020 template is the 2018 one with the PlaceFetchUrl member inserted before the closing piece. */
  lemma Json2020Shape()
    ensures JsonTemplate2018 == JsonTemplate2018[..39] + [Lit(JsonClosing)]
    ensures JsonTemplate2020 == JsonTemplate2018[..39]
      + [Lit(","), Lit("\"PlaceFetchUrl\":\""), Hole(PlaceFetchUrl), Lit("\""), Lit(JsonClosing)]
  {
    Json2020SharesPrefix();
  }

  const JsonFields := {PlaceId, JobId, UniverseId, Matchmaking, MaxPlayers, UdpPort, CreatorId, PlaceVersion, SiteUrl}

  lemma Json2018Holes()
    ensures HolesWithin(JsonTemplate2018, JsonFields)
  {
  }

  /** The "2018" payload does not depend on the place-fetch URL. */
  lemma Json2018IgnoresPlaceFetchUrl(job: JobSettings, url: string)
    ensures BuildPayload("2018", job) == BuildPayload("2018", job.(placeFetchUrl := url))
  {
    Json2018Holes();
    InterpolateReadsOnlyFields(JsonTemplate2018, JsonFields, job, job.(placeFetchUrl := url));
  }

  lemma InterpolateCons(p: Piece, t: seq<Piece>, job: JobSettings)
    ensures Interpolate([p] + t, job) == PieceText(p, job) + Interpolate(t, job)
  {
    assert ([p] + t)[1..] == t;
  }

  /** Two literals, a hole and two more literals interpolate to their texts in order. */
  lemma InterpolateMember(a: string, b: string, f: Field, c: string, d: string, job: JobSettings)
    ensures Interpolate([Lit(a), Lit(b), Hole(f), Lit(c), Lit(d)], job) == a + (b + (FieldText(f, job) + (c + d)))
  {
    var v := FieldText(f, job);
    InterpolateCons(Lit(d), [], job);
    assert [Lit(d)] == [Lit(d)] + [];
    assert Interpolate([Lit(d)], job) == d;
    InterpolateCons(Lit(c), [Lit(d)], job);
    assert [Lit(c), Lit(d)] == [Lit(c)] + [Lit(d)];
    InterpolateCons(Hole(f), [Lit(c), Lit(d)], job);
    assert [Hole(f), Lit(c), Lit(d)] == [Hole(f)] + [Lit(c), Lit(d)];
    InterpolateCons(Lit(b), [Hole(f), Lit(c), Lit(d)], job);
    assert [Lit(b), Hole(f), Lit(c), Lit(d)] == [Lit(b)] + [Hole(f), Lit(c), Lit(d)];
    InterpolateCons(Lit(a), [Lit(b), Hole(f), Lit(c), Lit(d)], job);
    assert [Lit(a), Lit(b), Hole(f), Lit(c), Lit(d)] == [Lit(a)] + [Lit(b), Hole(f), Lit(c), Lit(d)];
  }

  /** Inserting a member before a template's closing literal inserts its text before the closing text. */
  lemma InsertBeforeClosing(t: seq<Piece>, u: seq<Piece>, head: seq<Piece>, a: string, b: string, f: Field, c: string, closing: string, job: JobSettings)
    requires t == head + [Lit(closing)]
    requires u == head + [Lit(a), Lit(b), Hole(f), Lit(c), Lit(closing)]
    ensures var p, q := Interpolate(t, job), Interpolate(u, job);
      var n := |p| - |closing|;
      && 0 <= n && p[n..] == closing
      && q == p[..n] + a + b + FieldText(f, job) + c + closing
  {
    var h, v := Interpolate(head, job), FieldText(f, job);
    InterpolateAppend(head, [Lit(closing)], job);
    InterpolateCons(Lit(closing), [], job);
    assert [Lit(closing)] == [Lit(closing)] + [];
    assert Interpolate(t, job) == h + closing;
    InterpolateAppend(head, [Lit(a), Lit(b), Hole(f), Lit(c), Lit(closing)], job);
    InterpolateMember(a, b, f, c, closing, job);
    assert Interpolate(u, job) == h + (a + (b + (v + (c + closing))));
    SplitBeforeClosing(h, a, b, v, c, closing);
  }

  lemma SplitBeforeClosing(h: string, a: string, b: string, v: string, c: string, closing: string)
    ensures var p := h + closing;
      var n := |p| - |closing|;
      && 0 <= n && p[n..] == closing
      && h + (a + (b + (v + (c + closing)))) == p[..n] + a + b + v + c + closing
  {
    var p := h + closing;
    assert p[..|h|] == h;
    assert p[|h|..] == closing;
    var x := c + closing;
    var y := v + x;
    var z := b + y;
    assert h + (a + z) == h + a + z;
    assert h + a + (b + y) == h + a + b + y;
    assert h + a + b + (v + x) == h + a + b + v + x;
    assert h + a + b + v + (c + closing) == h + a + b + v + c + closing;
  }

  lemma Json2020TemplateInsertsPlaceFetchUrl(job: JobSettings)
    ensures var p18, p20 := Interpolate(JsonTemplate2018, job), Interpolate(JsonTemplate2020, job);
      var n := |p18| - |JsonClosing|;
      && 0 <= n && p18[n..] == JsonClosing
      && p20 == p18[..n] + "," + "\"PlaceFetchUrl\":\"" + job.placeFetchUrl + "\"" + JsonClosing
  {
    Json2020Shape();
    InsertBeforeClosing(JsonTemplate2018, JsonTemplate2020, JsonTemplate2018[..39],
      ",", "\"PlaceFetchUrl\":\"", PlaceFetchUrl, "\"", JsonClosing, job);
  }

  /**
   * The "2020" payload is the "2018" payload with one more settings member,
   * PlaceFetchUrl, quoted, inserted right before the closing text.
   */
  lemma Json2020InsertsPlaceFetchUrl(job: JobSettings)
    ensures var p18, p20 := BuildPayload("2018", job).value, BuildPayload("2020", job).value;
      var n := |p18| - |JsonClosing|;
      && 0 <= n && p18[n..] == JsonClosing
      && p20 == p18[..n] + "," + "\"PlaceFetchUrl\":\"" + job.placeFetchUrl + "\"" + JsonClosing
  {
    JsonPayloads(job);
    Json2020TemplateInsertsPlaceFetchUrl(job);
  }

  lemma JsonPayloads(job: JobSettings)
    ensures BuildPayload("2018", job).value == Interpolate(JsonTemplate2018, job)
    ensures BuildPayload("2020", job).value == Interpolate(JsonTemplate2020, job)
  {
  }
}
