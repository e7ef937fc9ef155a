/** `buildTrackerConfig` of the tracker bridge: turns the four lists fetched from the
    backend (aircraft, airport configuration, alert settings, integrations) into the
    configuration document the tracker process reads. The fetches themselves are not
    modelled; their decoded results are the input. */
module ConfigAssembler {
  import opened Wrappers
  import opened JsText
  import Sorting

  // ---------------------------------------------------------------------------
  // What the backend returns. An absent or null JSON value is None.

  /** A JSON scalar that may arrive as a number or as text. */
  datatype JsScalar = JsNumber(n: real) | JsString(s: string)

  datatype RemoteAircraft = RemoteAircraft(tailNumber: string, icao24: Option<string>)

  datatype RemoteAirportConfig = RemoteAirportConfig(
    airportCode: Option<string>,
    latitude: Option<JsScalar>,
    longitude: Option<JsScalar>,
    fieldElevationFtMsl: Option<real>,
    detectionRadiusNm: Option<real>,
    ceilingFtAgl: Option<real>,
    pollingIntervalSeconds: Option<real>,
    quietHoursStart: Option<string>,
    quietHoursEnd: Option<string>)

  /** The airport configuration when the backend returns null (`airportConfig || {}`). */
  const NoAirportConfig := RemoteAirportConfig(None, None, None, None, None, None, None, None, None)

  datatype RemoteAlertSetting = RemoteAlertSetting(alertType: string, enabled: bool)

  datatype IntegrationSettings = IntegrationSettings(
    webhookUrl: Option<string>, botToken: Option<string>, channelId: Option<string>)

  datatype RemoteIntegration = RemoteIntegration(kind: string, enabled: bool, config: IntegrationSettings)

  /** The four fetched resources; a null list is the empty list (`list || []`). */
  datatype Fetched = Fetched(
    aircraft: seq<RemoteAircraft>,
    airport: RemoteAirportConfig,
    alerts: seq<RemoteAlertSetting>,
    integrations: seq<RemoteIntegration>)

  // ---------------------------------------------------------------------------
  // The assembled document

  datatype AircraftLists = AircraftLists(tailNumbers: seq<string>, icao24Codes: seq<string>)

  datatype Airspace = Airspace(
    name: string,
    centerLat: real,
    centerLon: real,
    radiusNm: real,
    fieldElevationFtMsl: real,
    floorFtAgl: real,
    ceilingFtAgl: real,
    floorFtMsl: real,
    ceilingFtMsl: real,
    queryRadiusNm: real,
    alertDistancesNm: seq<real>)

  /** The legacy `discord_bot` block. */
  datatype DiscordBot = DiscordBot(botToken: string, channelId: string, webhookUrl: string)

  /** One entry of `integrations`: `{enabled: false}` or `{enabled: true, webhook_url}`. */
  datatype ChannelConfig = Disabled | Enabled(webhookUrl: string)

  datatype Integrations = Integrations(discord: ChannelConfig, slack: ChannelConfig, teams: ChannelConfig)

  datatype QuietHours = QuietHours(enabled: bool, start: string, end: string)

  datatype TrackerConfig = TrackerConfig(
    apiSource: string,
    useAreaQuery: bool,
    useShortMessages: bool,
    verboseDebug: bool,
    aircraft: AircraftLists,
    airspace: Airspace,
    discordBot: DiscordBot,
    integrations: Integrations,
    pollIntervalSeconds: real,
    cooldownMinutes: real,
    quietHours: QuietHours)

  // ---------------------------------------------------------------------------
  // JavaScript's `x || fallback`

  /** A number JavaScript treats as true: present (not undefined, null or NaN) and
      not 0. */
  predicate NumberSet(x: Option<real>) {
    x.Some? && x.value != 0.0
  }

  /** A string JavaScript treats as true: present and not empty. */
  predicate TextSet(x: Option<string>) {
    x.Some? && x.value != ""
  }

  /** `x || d` for a number. */
  function OrNumber(x: Option<real>, d: real): real {
    if NumberSet(x) then x.value else d
  }

  /** `x || d` for a string. */
  function OrText(x: Option<string>, d: string): string {
    if TextSet(x) then x.value else d
  }

  /** `parseFloat(x)`, None standing for NaN: a number reads back as itself, text is
      parsed, and an absent value gives NaN. */
  function ParseFloatOf(x: Option<JsScalar>): Option<real> {
    match x
    case None => None
    case Some(JsNumber(n)) => Some(n)
    case Some(JsString(s)) => ParseFloat(s)
  }

  /** `parseFloat(x) || 0`, the airport's latitude or longitude. */
  function Coordinate(x: Option<JsScalar>): real {
    OrNumber(ParseFloatOf(x), 0.0)
  }

  // ---------------------------------------------------------------------------
  // Aircraft

  function TailNumbers(list: seq<RemoteAircraft>): seq<string> {
    seq(|list|, i requires 0 <= i < |list| => list[i].tailNumber)
  }

  function Icao24Codes(list: seq<RemoteAircraft>): seq<string> {
    seq(|list|, i requires 0 <= i < |list| => OrText(list[i].icao24, ""))
  }

  // ---------------------------------------------------------------------------
  // Alert distances

  /** The alert settings that name a distance: enabled, and not the landing alert. */
  predicate IsDistanceAlert(a: RemoteAlertSetting) {
    a.alertType != "landing" && a.enabled
  }

  /** `parseFloat(tag.replace('nm', ''))`, None for NaN. */
  function TagDistance(tag: string): Option<real> {
    ParseFloat(RemoveFirst(tag, "nm"))
  }

  /** The filter/map/filter chain before the sort: the parsed distance of every enabled
      non-landing alert whose tag parses as a number, in input order. */
  function Candidates(alerts: seq<RemoteAlertSetting>): (ds: seq<real>)
    ensures |ds| <= |alerts|
  {
    if alerts == [] then []
    else
      var rest := Candidates(alerts[1..]);
      if !IsDistanceAlert(alerts[0]) then rest
      else match TagDistance(alerts[0].alertType)
        case None => rest
        case Some(d) => [d] + rest
  }

  function Identity(x: real): real { x }

  const DefaultAlertDistances: seq<real> := [10.0, 5.0, 2.0]

  /** `alert_distances_nm`: the candidates sorted largest first, or the default list
      when no candidate survives. */
  function AlertDistances(alerts: seq<RemoteAlertSetting>): (ds: seq<real>)
    ensures Sorting.SortedDesc(ds, Identity)
    ensures |ds| > 0
  {
    var sorted := Sorting.SortDesc(Candidates(alerts), Identity);
    if |sorted| > 0 then sorted else DefaultAlertDistances
  }

  // ---------------------------------------------------------------------------
  // Integrations

  /** `integrations.find(i => i.type === kind && i.enabled)`, as the index found. */
  function FindEnabled(ints: seq<RemoteIntegration>, kind: string): (r: Option<nat>)
    ensures r.Some? ==> r.value < |ints| && ints[r.value].kind == kind && ints[r.value].enabled
    ensures r.Some? ==> forall j :: 0 <= j < r.value ==> !(ints[j].kind == kind && ints[j].enabled)
    ensures r.None? ==> forall j :: 0 <= j < |ints| ==> !(ints[j].kind == kind && ints[j].enabled)
  {
    if ints == [] then None
    else if ints[0].kind == kind && ints[0].enabled then Some(0)
    else
      match FindEnabled(ints[1..], kind)
      case None => None
      case Some(k) => Some(k + 1)
  }

  function ChannelFor(ints: seq<RemoteIntegration>, kind: string): ChannelConfig {
    match FindEnabled(ints, kind)
    case None => Disabled
    case Some(k) => Enabled(OrText(ints[k].config.webhookUrl, ""))
  }

  function DiscordBotFor(ints: seq<RemoteIntegration>): DiscordBot {
    match FindEnabled(ints, "discord")
    case None => DiscordBot("", "", "")
    case Some(k) =>
      var c := ints[k].config;
      DiscordBot(OrText(c.botToken, ""), OrText(c.channelId, ""), OrText(c.webhookUrl, ""))
  }

  // ---------------------------------------------------------------------------
  // The document

  function AirspaceName(code: Option<string>): string {
    if OrText(code, "") != "" then code.value + " Airspace" else "My Airport"
  }

  function AirspaceOf(ap: RemoteAirportConfig, alerts: seq<RemoteAlertSetting>): Airspace {
    var fieldElevation := OrNumber(ap.fieldElevationFtMsl, 0.0);
    var ceilingAgl := OrNumber(ap.ceilingFtAgl, 3000.0);
    Airspace(
      AirspaceName(ap.airportCode),
      Coordinate(ap.latitude),
      Coordinate(ap.longitude),
      OrNumber(ap.detectionRadiusNm, 5.0),
      fieldElevation,
      0.0,
      ceilingAgl,
      fieldElevation,
      fieldElevation + ceilingAgl,
      OrNumber(ap.detectionRadiusNm, 100.0),
      AlertDistances(alerts))
  }

  function QuietHoursOf(ap: RemoteAirportConfig): QuietHours {
    var start := OrText(ap.quietHoursStart, "23:00");
    var end := OrText(ap.quietHoursEnd, "06:00");
    QuietHours(start != "" && end != "", start, end)
  }

  /** `buildTrackerConfig`, once the four fetches have succeeded. */
  function BuildTrackerConfig(f: Fetched): (c: TrackerConfig)
    ensures |c.aircraft.tailNumbers| == |c.aircraft.icao24Codes| == |f.aircraft|
    ensures forall i :: 0 <= i < |f.aircraft| ==>
      c.aircraft.tailNumbers[i] == f.aircraft[i].tailNumber
      && c.aircraft.icao24Codes[i] == (if f.aircraft[i].icao24 == Some("") then "" else f.aircraft[i].icao24.GetOr(""))
    ensures c.airspace.floorFtAgl == 0.0
    ensures c.airspace.floorFtMsl == c.airspace.fieldElevationFtMsl
    ensures c.airspace.ceilingFtMsl == c.airspace.fieldElevationFtMsl + c.airspace.ceilingFtAgl
    ensures Sorting.SortedDesc(c.airspace.alertDistancesNm, Identity) && |c.airspace.alertDistancesNm| > 0
    ensures c.quietHours.enabled && c.quietHours.start != "" && c.quietHours.end != ""
    ensures c.discordBot.webhookUrl != "" ==> c.integrations.discord == Enabled(c.discordBot.webhookUrl)
  {
    TrackerConfig(
      "adsblol", true, false, false,
      AircraftLists(TailNumbers(f.aircraft), Icao24Codes(f.aircraft)),
      AirspaceOf(f.airport, f.alerts),
      DiscordBotFor(f.integrations),
      Integrations(
        ChannelFor(f.integrations, "discord"),
        ChannelFor(f.integrations, "slack"),
        ChannelFor(f.integrations, "teams")),
      OrNumber(f.airport.pollingIntervalSeconds, 10.0),
      1.0,
      QuietHoursOf(f.airport))
  }

  // ---------------------------------------------------------------------------
  // Properties

  /** A candidate distance is exactly the parsed tag of an enabled non-landing alert. */
  lemma {:induction false} CandidatesFrom(alerts: seq<RemoteAlertSetting>, x: real)
    ensures x in Candidates(alerts) <==>
      exists i :: 0 <= i < |alerts| && IsDistanceAlert(alerts[i]) && TagDistance(alerts[i].alertType) == Some(x)
  {
    if alerts != [] {
      CandidatesFrom(alerts[1..], x);
      if x in Candidates(alerts[1..]) {
        var i :| 0 <= i < |alerts[1..]| && IsDistanceAlert(alerts[1..][i])
          && TagDistance(alerts[1..][i].alertType) == Some(x);
        assert alerts[i + 1] == alerts[1..][i];
      }
      if exists i :: 0 <= i < |alerts| && IsDistanceAlert(alerts[i]) && TagDistance(alerts[i].alertType) == Some(x) {
        var i :| 0 <= i < |alerts| && IsDistanceAlert(alerts[i]) && TagDistance(alerts[i].alertType) == Some(x);
        if i > 0 {
          assert alerts[1..][i - 1] == alerts[i];
        }
      }
    }
  }

  /** `alert_distances_nm` holds, largest first, exactly the distances of the enabled
      non-landing alerts that parse, each as often as it occurs (nothing is
      de-duplicated); with no such alert it is [10.0, 5.0, 2.0]. */
  lemma AlertDistancesSpec(alerts: seq<RemoteAlertSetting>)
    ensures Candidates(alerts) != [] ==>
      multiset(AlertDistances(alerts)) == multiset(Candidates(alerts))
    ensures Candidates(alerts) == [] ==> AlertDistances(alerts) == [10.0, 5.0, 2.0]
    ensures forall x :: x in AlertDistances(alerts) ==>
      (exists i :: 0 <= i < |alerts| && IsDistanceAlert(alerts[i]) && TagDistance(alerts[i].alertType) == Some(x))
      || (Candidates(alerts) == [] && x in [10.0, 5.0, 2.0])
  {
    var c := Candidates(alerts);
    var sorted := Sorting.SortDesc(c, Identity);
    forall x | x in AlertDistances(alerts)
      ensures (exists i :: 0 <= i < |alerts| && IsDistanceAlert(alerts[i]) && TagDistance(alerts[i].alertType) == Some(x))
        || (c == [] && x in [10.0, 5.0, 2.0])
    {
      if c != [] {
        assert x in multiset(sorted);
        CandidatesFrom(alerts, x);
      }
    }
  }

  /** Duplicated alert distances stay duplicated: two copies of one enabled distance
      alert give that distance twice (there is no de-duplication). */
  lemma DuplicatesKept(a: RemoteAlertSetting)
    requires IsDistanceAlert(a) && TagDistance(a.alertType).Some?
    ensures var d := TagDistance(a.alertType).value; AlertDistances([a, a]) == [d, d]
  {
    var d := TagDistance(a.alertType).value;
    assert [a, a][1..] == [a];
    assert Candidates([a]) == [d] by {
      assert [a][1..] == [];
    }
    assert Candidates([a, a]) == [d, d];
    SortTwo(d, d);
  }

  /** No enabled non-landing alert: no candidate distance. */
  lemma {:induction false} NoCandidates(alerts: seq<RemoteAlertSetting>)
    requires forall i :: 0 <= i < |alerts| ==> !IsDistanceAlert(alerts[i])
    ensures Candidates(alerts) == []
  {
    if alerts != [] {
      NoCandidates(alerts[1..]);
    }
  }

  /** Disabled alerts and the landing alert are left out: one enabled distance alert
      followed only by disabled or landing alerts gives exactly its distance. */
  lemma SingleDistanceAlert(a: RemoteAlertSetting, rest: seq<RemoteAlertSetting>)
    requires IsDistanceAlert(a) && TagDistance(a.alertType).Some?
    requires forall i :: 0 <= i < |rest| ==> !IsDistanceAlert(rest[i])
    ensures AlertDistances([a] + rest) == [TagDistance(a.alertType).value]
  {
    NoCandidates(rest);
    assert ([a] + rest)[1..] == rest;
    var d := TagDistance(a.alertType).value;
    assert Sorting.SortDesc([d], Identity) == [d] by {
      assert [d][1..] == [];
    }
  }

  lemma TagOf(n: nat, tag: string)
    requires tag == NatText(n) + "nm"
    ensures TagDistance(tag) == Some(n as real)
  {
    AlertTagValue(n);
  }

  lemma SortTwo(x: real, y: real)
    requires x >= y
    ensures Sorting.SortDesc([x, y], Identity) == [x, y]
  {
    assert [x, y][1..] == [y];
    assert [y][1..] == [];
    assert Sorting.SortDesc([y], Identity) == [y];
  }

  /** Each channel takes the first enabled integration of its type; later ones, and
      disabled ones, are ignored. */
  lemma ChannelIsFirstEnabled(ints: seq<RemoteIntegration>, kind: string, i: nat)
    requires i < |ints| && ints[i].kind == kind && ints[i].enabled
    requires forall j :: 0 <= j < i ==> !(ints[j].kind == kind && ints[j].enabled)
    ensures ChannelFor(ints, kind) == Enabled(OrText(ints[i].config.webhookUrl, ""))
  {
    var k := FindEnabled(ints, kind);
    assert k.Some?;
    assert k.value == i;
  }

  /** With no enabled integration of a type, its channel is `{enabled: false}`; with no
      enabled Discord integration the legacy block is all empty strings. */
  lemma NoEnabledIntegration(ints: seq<RemoteIntegration>, kind: string)
    requires forall j :: 0 <= j < |ints| ==> !(ints[j].kind == kind && ints[j].enabled)
    ensures ChannelFor(ints, kind) == Disabled
    ensures kind == "discord" ==> DiscordBotFor(ints) == DiscordBot("", "", "")
  {
    assert FindEnabled(ints, kind).None?;
  }

  /** A Slack-only setup: Discord and Teams disabled, Slack carries its URL, and the
      legacy Discord block is empty. */
  lemma SlackOnlyExample(f: Fetched)
    requires f.integrations == [RemoteIntegration("slack", true,
      IntegrationSettings(Some("https://hooks.slack.com/x"), None, None))]
    ensures BuildTrackerConfig(f).integrations ==
      Integrations(Disabled, Enabled("https://hooks.slack.com/x"), Disabled)
    ensures BuildTrackerConfig(f).discordBot == DiscordBot("", "", "")
  {
    NoEnabledIntegration(f.integrations, "discord");
    NoEnabledIntegration(f.integrations, "teams");
    ChannelIsFirstEnabled(f.integrations, "slack", 0);
  }

  /** The defaults when the backend has no airport configuration. */
  lemma EmptyAirportDefaults(f: Fetched)
    requires f.airport == NoAirportConfig
    ensures var a := BuildTrackerConfig(f).airspace;
      a.name == "My Airport" && a.centerLat == 0.0 && a.centerLon == 0.0
      && a.radiusNm == 5.0 && a.queryRadiusNm == 100.0
      && a.fieldElevationFtMsl == 0.0 && a.ceilingFtAgl == 3000.0 && a.ceilingFtMsl == 3000.0
    ensures BuildTrackerConfig(f).pollIntervalSeconds == 10.0
    ensures BuildTrackerConfig(f).quietHours == QuietHours(true, "23:00", "06:00")
  {
  }

  /** Every field taken from the airport configuration falls back to its default when
      the backend leaves it out or sends 0 or the empty string, and is copied otherwise:
      radius 5 nm (the query radius 100 nm), field elevation 0, ceiling 3000 ft above the
      field, polling every 10 s, quiet hours 23:00 to 06:00, and a centre coordinate of 0
      when it does not parse or parses to 0. */
  lemma AirportFields(f: Fetched)
    ensures var c := BuildTrackerConfig(f); var ap := f.airport; var a := c.airspace;
      && (NumberSet(ap.detectionRadiusNm) ==> a.radiusNm == a.queryRadiusNm == ap.detectionRadiusNm.value)
      && (!NumberSet(ap.detectionRadiusNm) ==> a.radiusNm == 5.0 && a.queryRadiusNm == 100.0)
      && (NumberSet(ap.fieldElevationFtMsl) ==> a.fieldElevationFtMsl == ap.fieldElevationFtMsl.value)
      && (!NumberSet(ap.fieldElevationFtMsl) ==> a.fieldElevationFtMsl == 0.0)
      && (NumberSet(ap.ceilingFtAgl) ==> a.ceilingFtAgl == ap.ceilingFtAgl.value)
      && (!NumberSet(ap.ceilingFtAgl) ==> a.ceilingFtAgl == 3000.0)
      && a.floorFtAgl == 0.0 && a.floorFtMsl == a.fieldElevationFtMsl
      && a.ceilingFtMsl == a.fieldElevationFtMsl + a.ceilingFtAgl
      && (NumberSet(ParseFloatOf(ap.latitude)) ==> a.centerLat == ParseFloatOf(ap.latitude).value)
      && (!NumberSet(ParseFloatOf(ap.latitude)) ==> a.centerLat == 0.0)
      && (NumberSet(ParseFloatOf(ap.longitude)) ==> a.centerLon == ParseFloatOf(ap.longitude).value)
      && (!NumberSet(ParseFloatOf(ap.longitude)) ==> a.centerLon == 0.0)
      && (TextSet(ap.airportCode) ==> a.name == ap.airportCode.value + " Airspace")
      && (!TextSet(ap.airportCode) ==> a.name == "My Airport")
      && (NumberSet(ap.pollingIntervalSeconds) ==> c.pollIntervalSeconds == ap.pollingIntervalSeconds.value)
      && (!NumberSet(ap.pollingIntervalSeconds) ==> c.pollIntervalSeconds == 10.0)
      && (TextSet(ap.quietHoursStart) ==> c.quietHours.start == ap.quietHoursStart.value)
      && (!TextSet(ap.quietHoursStart) ==> c.quietHours.start == "23:00")
      && (TextSet(ap.quietHoursEnd) ==> c.quietHours.end == ap.quietHoursEnd.value)
      && (!TextSet(ap.quietHoursEnd) ==> c.quietHours.end == "06:00")
      && c.quietHours.enabled && c.cooldownMinutes == 1.0
  {
  }

  /** A coordinate sent as text is read up to the first character that cannot continue
      a number, so "40N" gives 40; a whole number 0 gives the fallback 0 as well. */
  lemma CoordinateText(n: nat, rest: string)
    requires rest == [] || !(IsDigit(rest[0]) || rest[0] == '.' || rest[0] == 'e' || rest[0] == 'E')
    ensures Coordinate(Some(JsString(NatText(n) + rest))) == n as real
  {
    ParseNatText(n, rest);
  }

  /** Text that does not start with a number, after white space, parses to NaN and gives
      the coordinate 0. */
  lemma CoordinateUnparsable(s: string)
    requires TrimStart(s) != [] && !IsDigit(TrimStart(s)[0])
    requires TrimStart(s)[0] != '.' && TrimStart(s)[0] != '+' && TrimStart(s)[0] != '-'
    ensures ParseFloatOf(Some(JsString(s))).None?
    ensures Coordinate(Some(JsString(s))) == 0.0
  {
    var t := TrimStart(s);
    assert DigitRun(t) == 0;
  }
}
