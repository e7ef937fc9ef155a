/** The configuration document as the Python tracker reads it after `json.load`:
    only the keys the tracker looks at, each `Option` where the tracker reads it with
    `.get(key, default)` and may find it absent. */
module PyConfig {
  import opened Wrappers

  /** A JSON number after `json.load`: digits without a fraction or exponent become an
      `int`, everything else a `float`. Python compares the two by value, but
      `f"{n}"` writes them differently (`10` and `10.0`). */
  datatype Num = Int(i: int) | Float(x: real)

  /** The value `==`, `<` and `max` compare. */
  function Value(n: Num): real {
    match n
    case Int(i) => i as real
    case Float(x) => x
  }

  /** `config['aircraft']`: the two parallel lists. */
  datatype AircraftSection = AircraftSection(icao24Codes: seq<string>, tailNumbers: seq<string>)

  /** `config['airspace']`. `radius_nm` and the centre are read with `[]`; the rest with
      `.get`. */
  datatype AirspaceSection = AirspaceSection(
    centerLat: real,
    centerLon: real,
    radiusNm: real,
    fieldElevationFtMsl: Option<real>,
    floorFtAgl: Option<real>,
    ceilingFtAgl: Option<real>,
    queryRadiusNm: Option<real>,
    alertDistancesNm: Option<seq<Num>>)

  /** One entry of `config['integrations']`: whether `.get('enabled')` is truthy and
      the `webhook_url` key. */
  datatype IntegrationEntry = IntegrationEntry(enabled: bool, webhookUrl: Option<string>)

  /** `config['integrations']` (an absent block reads as three absent entries) and the
      legacy `config['discord_bot']['webhook_url']`. */
  datatype WebhookSection = WebhookSection(
    discord: Option<IntegrationEntry>,
    slack: Option<IntegrationEntry>,
    teams: Option<IntegrationEntry>,
    legacyDiscordUrl: Option<string>)

  /** `config['notifications']['quiet_hours']`; an absent block reads as not enabled. */
  datatype QuietSection = QuietSection(enabled: bool, start: Option<string>, end: Option<string>)

  /** `config['notifications']`. */
  datatype NotificationSection = NotificationSection(cooldownMinutes: Option<real>, quietHours: QuietSection)

  datatype Document = Document(
    aircraft: AircraftSection,
    airspace: AirspaceSection,
    webhooks: WebhookSection,
    notifications: NotificationSection)
}
