/** The hand-off between the two processes: the document `buildTrackerConfig` writes with
    `JSON.stringify`, as the Python tracker reads it back with `json.load`. */
module Handoff {
  import opened Wrappers
  import opened PyConfig
  import ConfigAssembler
  import Sorting
  import Tracker
  import Webhooks
  import AircraftFeed

  /** How a JavaScript number written by `JSON.stringify` comes back from `json.load`: an
      integral value below 1e21 is written without a fraction and becomes an `int`;
      anything else keeps a fraction or an exponent and becomes a `float`. */
  function JsonNum(x: real): (n: Num)
    ensures Value(n) == x
    ensures n.Float? <==> (x != x.Floor as real || x >= 1_000_000_000_000_000_000_000.0
      || x <= -1_000_000_000_000_000_000_000.0)
  {
    if x == x.Floor as real && -1_000_000_000_000_000_000_000.0 < x < 1_000_000_000_000_000_000_000.0
    then Int(x.Floor)
    else Float(x)
  }

  function JsonNums(xs: seq<real>): (ns: seq<Num>)
    ensures |ns| == |xs| && forall i :: 0 <= i < |xs| ==> ns[i] == JsonNum(xs[i])
  {
    seq(|xs|, i requires 0 <= i < |xs| => JsonNum(xs[i]))
  }

  /** An `integrations` entry: `{enabled: false}` or `{enabled: true, webhook_url}`. */
  function EntryOf(ch: ConfigAssembler.ChannelConfig): IntegrationEntry {
    match ch
    case Disabled => IntegrationEntry(false, None)
    case Enabled(url) => IntegrationEntry(true, Some(url))
  }

  /** The URL a channel entry carries, `""` when it is disabled. */
  function ChannelUrl(ch: ConfigAssembler.ChannelConfig): string {
    match ch
    case Disabled => ""
    case Enabled(url) => url
  }

  /** The document the tracker reads from the file the bridge wrote. Every key the tracker
      looks at is present. */
  function FromBridge(c: ConfigAssembler.TrackerConfig): Document {
    var a := c.airspace;
    Document(
      AircraftSection(c.aircraft.icao24Codes, c.aircraft.tailNumbers),
      AirspaceSection(
        a.centerLat, a.centerLon, a.radiusNm,
        Some(a.fieldElevationFtMsl), Some(a.floorFtAgl), Some(a.ceilingFtAgl),
        Some(a.queryRadiusNm), Some(JsonNums(a.alertDistancesNm))),
      WebhookSection(
        Some(EntryOf(c.integrations.discord)),
        Some(EntryOf(c.integrations.slack)),
        Some(EntryOf(c.integrations.teams)),
        Some(c.discordBot.webhookUrl)),
      NotificationSection(
        Some(c.cooldownMinutes),
        QuietSection(c.quietHours.enabled, Some(c.quietHours.start), Some(c.quietHours.end))))
  }

  /** No alert distance the bridge writes reads back as the float `10.0`: `10` is an
      integral value and comes back as the `int` 10. */
  lemma NoFloatTen(c: ConfigAssembler.TrackerConfig)
    ensures Float(10.0) !in Tracker.AlertDistances(FromBridge(c))
  {
    var raw := JsonNums(c.airspace.alertDistancesNm);
    assert Float(10.0) !in multiset(raw);
  }

  /** With a configuration written by the bridge, the alert loop as written never sends the
      sequential landing message: its guard looks for the float keys that never occur. */
  lemma BridgeConfigNeverLands(c: ConfigAssembler.TrackerConfig, t: Tracker.Tables, ap: Tracker.Approach)
    requires Float(10.0) !in Tracker.SentOf(t, ap.aircraft)
    ensures var cfg := FromBridge(c); var r := Tracker.Sweep(Tracker.AsWritten, t, ap, Tracker.AlertDistances(cfg), cfg);
      |t.outbox| <= |r.outbox|
      && forall i :: |t.outbox| <= i < |r.outbox| ==> r.outbox[i].message != Tracker.SequentialLanding
  {
    NoFloatTen(c);
    Tracker.AsWrittenNeverLands(t, ap, Tracker.AlertDistances(FromBridge(c)), FromBridge(c));
  }

  /** The same for the whole of `check_and_notify` as the tracker runs it: with a
      configuration written by the bridge no sighting ever brings the sequential landing
      message, and the set never gains a float 10.0, so neither does the next sighting. */
  lemma BridgeCheckNeverLands(c: ConfigAssembler.TrackerConfig, t: Tracker.Tables, s: AircraftFeed.Sighting, distance: real, now: real)
    requires Float(10.0) !in Tracker.SentOf(t, s.icao24)
    ensures var r := Tracker.Check(Tracker.AsWritten, t, s, distance, now, FromBridge(c));
      && Float(10.0) !in Tracker.SentOf(r, s.icao24) && t.outbox <= r.outbox
      && forall i :: |t.outbox| <= i < |r.outbox| ==> r.outbox[i].message != Tracker.SequentialLanding
  {
    NoFloatTen(c);
    Tracker.AsWrittenCheckNeverLands(t, s, distance, now, FromBridge(c));
  }

  /** Without distance alerts on the server, the tracker works through the integer
      thresholds 10, 5 and 2, in that order. */
  lemma DefaultBridgeThresholds(f: ConfigAssembler.Fetched)
    requires ConfigAssembler.Candidates(f.alerts) == []
    ensures Tracker.AlertDistances(FromBridge(ConfigAssembler.BuildTrackerConfig(f))) == [Int(10), Int(5), Int(2)]
  {
    var c := ConfigAssembler.BuildTrackerConfig(f);
    assert c.airspace.alertDistancesNm == ConfigAssembler.DefaultAlertDistances;
    var ns := JsonNums(c.airspace.alertDistancesNm);
    assert ns == [Int(10), Int(5), Int(2)];
    Sorting.SortDescOfSorted(ns, Value);
  }

  /** With those thresholds, the by-value guard sends the landing message at 2 nm once 10
      and 5 have been sent, where the guard as written sends a plain distance message. */
  lemma BridgeLandsByValue(f: ConfigAssembler.Fetched, t: Tracker.Tables, ap: Tracker.Approach)
    requires ConfigAssembler.Candidates(f.alerts) == []
    requires Tracker.SentOf(t, ap.aircraft) == {Int(10), Int(5)}
    requires ap.prev > 2.0 && ap.distance <= 2.0 && ap.maxDistance > 2.0
    requires !Tracker.LandedIn(t, ap.aircraft)
    requires Tracker.NotifyKey(ap.aircraft, Tracker.Landing) !in t.lastNotifications
    requires Tracker.NotifyKey(ap.aircraft, Tracker.DistanceEvent(Int(2))) !in t.lastNotifications
    ensures var cfg := FromBridge(ConfigAssembler.BuildTrackerConfig(f)); var ds := Tracker.AlertDistances(cfg);
      && ds[|ds| - 1] == Int(2)
      && Tracker.ThresholdStep(Tracker.ByValue, t, ap, ds[|ds| - 1], cfg).outbox
         == t.outbox + [Tracker.Notice(ap.callsign, Tracker.SequentialLanding)]
      && Tracker.ThresholdStep(Tracker.AsWritten, t, ap, ds[|ds| - 1], cfg).outbox
         == t.outbox + [Tracker.Notice(ap.callsign, Tracker.DistanceOut(Int(2)))]
  {
    DefaultBridgeThresholds(f);
    Tracker.IntegerKeysAtTwoMiles(t, ap, FromBridge(ConfigAssembler.BuildTrackerConfig(f)));
  }

  /** The bridge always switches quiet hours on, with both ends present, and sets a one
      minute cooldown. */
  lemma BridgeNotificationSettings(f: ConfigAssembler.Fetched)
    ensures var cfg := FromBridge(ConfigAssembler.BuildTrackerConfig(f));
      && cfg.notifications.quietHours.enabled
      && cfg.notifications.quietHours.start.Some? && cfg.notifications.quietHours.start.value != ""
      && cfg.notifications.quietHours.end.Some? && cfg.notifications.quietHours.end.value != ""
      && Tracker.Cooldown(cfg) == 1.0
  {
  }

  /** The tracker posts to exactly the channels the bridge enabled, at the URLs it wrote;
      the legacy Discord URL never adds or changes one. */
  lemma BridgeWebhookUrls(f: ConfigAssembler.Fetched)
    ensures var c := ConfigAssembler.BuildTrackerConfig(f);
      Webhooks.SelectUrls(FromBridge(c).webhooks)
      == Webhooks.Urls(ChannelUrl(c.integrations.discord), ChannelUrl(c.integrations.slack), ChannelUrl(c.integrations.teams))
  {
    var c := ConfigAssembler.BuildTrackerConfig(f);
    match ConfigAssembler.FindEnabled(f.integrations, "discord")
    case None =>
    case Some(k) =>
  }
}
