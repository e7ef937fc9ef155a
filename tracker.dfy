/** The notification bookkeeping of `AviationTracker`: the cooldown table of
    `should_notify`, the per-aircraft state and alert sets that `check_and_notify`
    updates for each sighting, and the sweep in `run` over aircraft missing from a poll.

    Each method changes the tracker's four tables and is specified by a function from
    the tables before to the tables after; the properties the tracker promises are
    lemmas about those functions. A message handed to `send_notification` is recorded
    in `outbox`; whether it is then delivered is `QuietHours.IsQuietHours` and
    `Webhooks.WebhookSender.Send`. */
module Tracker {
  import opened Wrappers
  import opened PyConfig
  import Sorting
  import AircraftFeed
  import PyText

  /** `aircraft_state[id]`: each key is `None` until the tracker first writes it. */
  datatype AircraftState = AircraftState(
    inAirspace: Option<bool>,
    onGround: Option<bool>,
    lastDistance: Option<real>,
    maxDistance: Option<real>,
    landed: Option<bool>,
    leftAirspaceTime: Option<real>,
    lastUpdate: Option<real>,
    consecutiveMissing: Option<int>)

  /** The empty dict `{}`. */
  const Blank := AircraftState(None, None, None, None, None, None, None, None)

  /** The event named in a cooldown key. */
  datatype Event = Landing | DistanceEvent(threshold: Num)

  /** `f"{aircraft_id}_{event_type}"`. ICAO addresses hold no `_`, so distinct pairs give
      distinct keys. */
  datatype NotifyKey = NotifyKey(aircraft: string, event: Event)

  /** The message handed to `send_notification`. */
  datatype Message =
    | SequentialLanding        // LANDING within 2 nm after 10 nm and 5 nm
    | DistanceOut(threshold: Num)
    | Landed
    | LostInAirspace           // LANDED, signal lost in airspace
    | LostAfterLeaving         // LANDED, left airspace then signal lost

  datatype Notice = Notice(callsign: string, message: Message)

  /** The tables the tracker changes: `aircraft_state`, `last_notifications`,
      `distance_alerts_sent` (each `"{d}nm"` key held as the number `d`), and the
      messages sent so far. */
  datatype Tables = Tables(
    state: map<string, AircraftState>,
    lastNotifications: map<NotifyKey, real>,
    alertsSent: map<string, set<Num>>,
    outbox: seq<Notice>)

  // ---------------------------------------------------------------------------
  // Reading the configuration and the tables

  const DefaultAlertDistances: seq<Num> := [Float(10.0), Float(5.0), Float(2.0)]

  /** `notifications.get('cooldown_minutes', 2)`. */
  function Cooldown(cfg: Document): real {
    cfg.notifications.cooldownMinutes.GetOr(2.0)
  }

  /** `sorted(airspace.get('alert_distances_nm', [10.0, 5.0, 2.0]), reverse=True)`. */
  function AlertDistances(cfg: Document): seq<Num> {
    Sorting.SortDesc(cfg.airspace.alertDistancesNm.GetOr(DefaultAlertDistances), Value)
  }

  function FieldElevation(cfg: Document): real {
    cfg.airspace.fieldElevationFtMsl.GetOr(0.0)
  }

  function FloorAgl(cfg: Document): real {
    cfg.airspace.floorFtAgl.GetOr(0.0)
  }

  function CeilingAgl(cfg: Document): real {
    cfg.airspace.ceilingFtAgl.GetOr(3000.0)
  }

  /** `aircraft_state.get(aircraft_id, {})`. */
  function StateOf(state: map<string, AircraftState>, aid: string): AircraftState {
    if aid in state then state[aid] else Blank
  }

  /** `distance_alerts_sent[aircraft_id]`, empty when absent. */
  function SentOf(t: Tables, aid: string): set<Num> {
    if aid in t.alertsSent then t.alertsSent[aid] else {}
  }

  /** `aircraft_state.get(aircraft_id, {}).get('landed', False)`. */
  predicate LandedIn(t: Tables, aid: string) {
    StateOf(t.state, aid).landed.GetOr(false)
  }

  function Abs(x: real): real {
    if x < 0.0 then -x else x
  }

  // ---------------------------------------------------------------------------
  // Cooldown and sending

  /** A message for `key` went out less than `cooldown` minutes before `now`. */
  predicate CoolingDown(last: map<NotifyKey, real>, key: NotifyKey, now: real, cooldown: real) {
    key in last && (now - last[key]) / 60.0 < cooldown
  }

  /** What `should_notify` answers. */
  predicate Allowed(t: Tables, key: NotifyKey, now: real, cfg: Document) {
    !CoolingDown(t.lastNotifications, key, now, Cooldown(cfg))
  }

  /** The tables after `should_notify`: `now` is recorded for the key when it answers yes. */
  function Recorded(t: Tables, key: NotifyKey, now: real, cfg: Document): Tables {
    if Allowed(t, key, now, cfg) then t.(lastNotifications := t.lastNotifications[key := now]) else t
  }

  /** The tables after `send_notification`. */
  function Queued(t: Tables, n: Notice): Tables {
    t.(outbox := t.outbox + [n])
  }

  function SetLanded(t: Tables, aid: string, landed: bool): Tables {
    t.(state := t.state[aid := StateOf(t.state, aid).(landed := Some(landed))])
  }

  function AddSent(t: Tables, aid: string, d: Num): Tables {
    t.(alertsSent := t.alertsSent[aid := SentOf(t, aid) + {d}])
  }

  /** Once a key is recorded, `should_notify` refuses it until `cooldown` minutes have
      passed and allows it again from then on; other keys are not affected. */
  lemma CooldownWindow(t: Tables, key: NotifyKey, other: NotifyKey, now: real, later: real, cfg: Document)
    requires Allowed(t, key, now, cfg) && other != key
    ensures (later - now) / 60.0 < Cooldown(cfg) ==> !Allowed(Recorded(t, key, now, cfg), key, later, cfg)
    ensures (later - now) / 60.0 >= Cooldown(cfg) ==> Allowed(Recorded(t, key, now, cfg), key, later, cfg)
    ensures Allowed(Recorded(t, key, now, cfg), other, later, cfg) == Allowed(t, other, later, cfg)
  {
  }

  // ---------------------------------------------------------------------------
  // Distance alerts (one pass of the loop over the alert distances)

  /** The values the loop reads before it starts: `prev_distance`, and `max_distance`
      after it is raised to the current distance. */
  datatype Approach = Approach(aircraft: string, callsign: string, prev: real, distance: real, maxDistance: real, now: real)

  /** The alert for `d` is due: the aircraft crossed `d` inward since the last sighting,
      had been beyond it, and has not had it yet. */
  predicate Fires(t: Tables, c: Approach, d: Num) {
    c.prev > Value(d) && c.distance <= Value(d) && c.maxDistance > Value(d) && d !in SentOf(t, c.aircraft)
  }

  /** How the 2 nm step decides that the 10 nm and 5 nm alerts went out. */
  datatype Guard =
    | AsWritten   // the keys "10.0nm" and "5.0nm" are present, i.e. float thresholds
    | ByValue     // thresholds equal to 10 and to 5 were sent, whatever their type

  predicate LandingGuard(g: Guard, sent: set<Num>) {
    match g
    case AsWritten => Float(10.0) in sent && Float(5.0) in sent
    case ByValue => (exists k :: k in sent && Value(k) == 10.0) && (exists k :: k in sent && Value(k) == 5.0)
  }

  /** The two guards agree while every threshold sent is a float: they differ only on
      integer thresholds, such as those read from a file the bridge wrote. */
  lemma GuardsAgreeOnFloats(sent: set<Num>)
    requires forall k :: k in sent ==> k.Float?
    ensures LandingGuard(AsWritten, sent) <==> LandingGuard(ByValue, sent)
  {
    if LandingGuard(ByValue, sent) {
      var k10 :| k10 in sent && Value(k10) == 10.0;
      var k5 :| k5 in sent && Value(k5) == 5.0;
      assert k10 == Float(10.0) && k5 == Float(5.0);
    }
  }

  /** One iteration of the loop for threshold `d`. At 2 nm after 10 and 5, a landing
      message (once, while not landed, and subject to the `landing` cooldown); otherwise a
      distance message subject to that distance's cooldown. The key is added only when a
      message went out. */
  function ThresholdStep(g: Guard, t: Tables, c: Approach, d: Num, cfg: Document): Tables {
    var aid := c.aircraft;
    if !Fires(t, c, d) then t
    else if Value(d) == 2.0 && LandingGuard(g, SentOf(t, aid)) then
      var key := NotifyKey(aid, Landing);
      if !Allowed(t, key, c.now, cfg) then t
      else
        var t1 := Recorded(t, key, c.now, cfg);
        if LandedIn(t1, aid) then t1
        else AddSent(SetLanded(Queued(t1, Notice(c.callsign, SequentialLanding)), aid, true), aid, d)
    else
      var key := NotifyKey(aid, DistanceEvent(d));
      if !Allowed(t, key, c.now, cfg) then t
      else AddSent(Queued(Recorded(t, key, c.now, cfg), Notice(c.callsign, DistanceOut(d))), aid, d)
  }

  /** The loop over the sorted alert distances. */
  function Sweep(g: Guard, t: Tables, c: Approach, ds: seq<Num>, cfg: Document): Tables {
    if ds == [] then t else ThresholdStep(g, Sweep(g, t, c, ds[..|ds| - 1], cfg), c, ds[|ds| - 1], cfg)
  }

  /** `max_distance` after it is raised to the current distance. */
  function RunningMax(m: Option<real>, distance: real): real {
    if m.None? || distance > m.value then distance else m.value
  }

  /** The `if not on_ground` block: the alert loop when a previous distance exists, the
      reset of the alert set beyond 12 nm, and the new `last_distance` and `max_distance`.
      The `max_distance` written beyond 12 nm is overwritten by the running maximum at the
      end of the block. */
  function DistanceBlock(g: Guard, t: Tables, aid: string, callsign: string, distance: real, now: real, cfg: Document): Tables {
    var t1 := if aid in t.alertsSent then t else t.(alertsSent := t.alertsSent[aid := {}]);
    var st := StateOf(t.state, aid);
    var maxd := RunningMax(st.maxDistance, distance);
    var t2 := if st.lastDistance.Some? then
        Sweep(g, t1, Approach(aid, callsign, st.lastDistance.value, distance, maxd, now), AlertDistances(cfg), cfg)
      else t1;
    var t3 := if distance > 12.0 then
        t2.(alertsSent := t2.alertsSent[aid := {}],
            state := if aid in t2.state then t2.state[aid := t2.state[aid].(maxDistance := Some(distance))] else t2.state)
      else t2;
    t3.(state := t3.state[aid := StateOf(t3.state, aid).(lastDistance := Some(distance), maxDistance := Some(maxd))])
  }

  // ---------------------------------------------------------------------------
  // Airspace transitions

  /** `in_airspace`: within the radius, and between floor and ceiling above the field; with
      no altitude, the ground flag decides the vertical test. */
  predicate InAirspace(s: AircraftFeed.Sighting, distance: real, cfg: Document) {
    distance <= cfg.airspace.radiusNm
    && if s.baroAltitude.Some? then
         FloorAgl(cfg) <= s.baroAltitude.value - FieldElevation(cfg) <= CeilingAgl(cfg)
       else s.onGround
  }

  /** Leaving the airspace airborne: the first time (not landed, no departure time yet) the
      departure time is stored, and a low and slow departure is reported as a landing. */
  function Leaving(t: Tables, aid: string, callsign: string, altitudeMsl: real, velocity: real, now: real, cfg: Document): Tables {
    var st := StateOf(t.state, aid);
    var t1 := t.(state := t.state[aid := st]);
    if st.leftAirspaceTime.Some? || st.landed.GetOr(false) then t1
    else
      var st2 := st.(leftAirspaceTime := Some(now));
      var t2 := t1.(state := t1.state[aid := st2]);
      if !(Abs(altitudeMsl - FieldElevation(cfg)) < 200.0 && velocity < 60.0) then t2
      else
        var key := NotifyKey(aid, Landing);
        if !Allowed(t2, key, now, cfg) then t2
        else SetLanded(Queued(Recorded(t2, key, now, cfg), Notice(callsign, Landed)), aid, true)
  }

  /** Seen on the ground inside the airspace after being airborne: a landing, once. */
  function Grounded(t: Tables, aid: string, callsign: string, now: real, cfg: Document): Tables {
    var key := NotifyKey(aid, Landing);
    if LandedIn(t, aid) || !Allowed(t, key, now, cfg) then t
    else SetLanded(Queued(Recorded(t, key, now, cfg), Notice(callsign, Landed)), aid, true)
  }

  /** The state update at the end of `check_and_notify`, and the reset on takeoff (airborne
      in the airspace after being on the ground). */
  function Refreshed(t: Tables, aid: string, inAirspace: bool, onGround: bool, distance: real, wasOnGround: Option<bool>, now: real): Tables {
    var st := StateOf(t.state, aid).(inAirspace := Some(inAirspace), onGround := Some(onGround),
                                     lastUpdate := Some(now), consecutiveMissing := Some(0));
    if inAirspace && !onGround && wasOnGround == Some(true) then
      t.(alertsSent := if aid in t.alertsSent then t.alertsSent[aid := {}] else t.alertsSent,
         state := t.state[aid := st.(landed := Some(false), maxDistance := Some(distance), leftAirspaceTime := None)])
    else t.(state := t.state[aid := st])
  }

  /** `check_and_notify` for one sighting at `distance` nautical miles from the centre,
      with landing guard `g`: `AsWritten` is the program, `ByValue` the corrected one. */
  function Check(g: Guard, t: Tables, s: AircraftFeed.Sighting, distance: real, now: real, cfg: Document): Tables {
    if s.latitude.None? || s.longitude.None? then t
    else
      var aid := s.icao24;
      var inAirspace := InAirspace(s, distance, cfg);
      var wasIn := StateOf(t.state, aid).inAirspace.GetOr(false);
      var wasOnGround := StateOf(t.state, aid).onGround;
      var t1 := if !s.onGround then DistanceBlock(g, t, aid, s.callsign, distance, now, cfg) else t;
      var t2 :=
        if wasIn && wasOnGround != Some(true) && !inAirspace then
          Leaving(t1, aid, s.callsign, s.baroAltitude.GetOr(0.0), s.velocity.GetOr(0.0), now, cfg)
        else if inAirspace && s.onGround && wasOnGround == Some(false) then
          Grounded(t1, aid, s.callsign, now, cfg)
        else t1;
      Refreshed(t2, aid, inAirspace, s.onGround, distance, wasOnGround, now)
  }

  // ---------------------------------------------------------------------------
  // Aircraft missing from a poll

  /** In the airspace and airborne when last seen, and now missing a second time. */
  predicate LostInside(st: AircraftState) {
    st.inAirspace.GetOr(false) && !st.onGround.GetOr(false) && st.consecutiveMissing.GetOr(0) + 1 >= 2
  }

  /** Left the airspace less than 300 s ago, airborne, and now missing. */
  predicate LostOutside(st: AircraftState, now: real) {
    st.leftAirspaceTime.Some? && now - st.leftAirspaceTime.value < 300.0
    && !st.onGround.GetOr(false) && st.consecutiveMissing.GetOr(0) + 1 >= 1
  }

  /** The aircraft is forgotten (after a landing message, if one is due). */
  predicate Dropped(st: AircraftState, now: real) {
    LostInside(st) || LostOutside(st, now)
  }

  /** The state kept for a missing aircraft that is not dropped. */
  function CountedMissing(st: AircraftState): AircraftState {
    st.(consecutiveMissing := Some(st.consecutiveMissing.GetOr(0) + 1))
  }

  /** The tail number for the address, or the address in capitals. */
  function MissingCallsign(aid: string, cfg: Document): string {
    AircraftFeed.LookupTail(aid, cfg.aircraft).GetOr(PyText.Upper(aid))
  }

  /** One iteration of the sweep for an aircraft not seen in this poll. */
  function MissingStep(t: Tables, aid: string, now: real, cfg: Document): Tables {
    if aid !in t.state then t
    else
      var st := t.state[aid];
      if Dropped(st, now) then
        var key := NotifyKey(aid, Landing);
        var msg := if LostInside(st) then LostInAirspace else LostAfterLeaving;
        var t1 := if !st.landed.GetOr(false) && Allowed(t, key, now, cfg) then
            Queued(Recorded(t, key, now, cfg), Notice(MissingCallsign(aid, cfg), msg))
          else t;
        t1.(state := t1.state - {aid})
      else t.(state := t.state[aid := CountedMissing(st)])
  }

  /** The sweep over the aircraft in `order`, skipping those seen in this poll. */
  function MissingSweep(t: Tables, order: seq<string>, seen: set<string>, now: real, cfg: Document): Tables {
    if order == [] then t
    else
      var t1 := MissingSweep(t, order[..|order| - 1], seen, now, cfg);
      var aid := order[|order| - 1];
      if aid in seen then t1 else MissingStep(t1, aid, now, cfg)
  }

  predicate Distinct(order: seq<string>) {
    forall i, j :: 0 <= i < j < |order| ==> order[i] != order[j]
  }

  // ---------------------------------------------------------------------------
  // What the bookkeeping promises

  /** Going from `t` to `r` changed the state and alert set of no aircraft but `aid`, added
      no aircraft but `aid`, removed none, and only appended messages. */
  ghost predicate OnlyTouches(t: Tables, r: Tables, aid: string) {
    && (forall a :: a != aid ==> SentOf(r, a) == SentOf(t, a) && StateOf(r.state, a) == StateOf(t.state, a))
    && r.state.Keys <= t.state.Keys + {aid} && t.state.Keys <= r.state.Keys
    && t.alertsSent.Keys <= r.alertsSent.Keys
    && t.outbox <= r.outbox
  }

  lemma OnlyTouchesChain(t1: Tables, t2: Tables, t3: Tables, aid: string)
    requires OnlyTouches(t1, t2, aid) && OnlyTouches(t2, t3, aid)
    ensures OnlyTouches(t1, t3, aid)
  {
    assert t1.outbox == t3.outbox[..|t1.outbox|] by {
      assert t2.outbox[..|t1.outbox|] == t3.outbox[..|t1.outbox|];
    }
  }

  /** The frame of one step: only this aircraft's entries change, its state only in
      `landed`, which is never cleared. */
  lemma ThresholdStepFrame(g: Guard, t: Tables, c: Approach, d: Num, cfg: Document)
    ensures var r := ThresholdStep(g, t, c, d, cfg); var aid := c.aircraft;
      && OnlyTouches(t, r, aid)
      && StateOf(r.state, aid).(landed := None) == StateOf(t.state, aid).(landed := None)
      && (LandedIn(t, aid) ==> LandedIn(r, aid))
  {
    var aid := c.aircraft;
    if Fires(t, c, d) {
      if Value(d) == 2.0 && LandingGuard(g, SentOf(t, aid)) {
        var key := NotifyKey(aid, Landing);
        if Allowed(t, key, c.now, cfg) {
          var t1 := Recorded(t, key, c.now, cfg);
          assert OnlyTouches(t, t1, aid);
          if !LandedIn(t1, aid) {
            var t2 := Queued(t1, Notice(c.callsign, SequentialLanding));
            var t3 := SetLanded(t2, aid, true);
            assert OnlyTouches(t1, t3, aid);
            assert OnlyTouches(t3, AddSent(t3, aid, d), aid);
            OnlyTouchesChain(t1, t3, AddSent(t3, aid, d), aid);
            OnlyTouchesChain(t, t1, AddSent(t3, aid, d), aid);
          }
        }
      } else {
        var key := NotifyKey(aid, DistanceEvent(d));
        if Allowed(t, key, c.now, cfg) {
          var t1 := Queued(Recorded(t, key, c.now, cfg), Notice(c.callsign, DistanceOut(d)));
          assert OnlyTouches(t, t1, aid);
          assert OnlyTouches(t1, AddSent(t1, aid, d), aid);
          OnlyTouchesChain(t, t1, AddSent(t1, aid, d), aid);
        }
      }
    }
  }


  /** A threshold step changes nothing unless the alert is due; it touches no other
      aircraft; and it either leaves the alert set and the outbox alone, or adds the
      threshold to the set together with exactly one message: a distance message, or,
      at 2 nm behind the landing guard, a landing message for an aircraft that was not
      landed and now is. */
  lemma ThresholdStepSpec(g: Guard, t: Tables, c: Approach, d: Num, cfg: Document)
    ensures var r := ThresholdStep(g, t, c, d, cfg); var aid := c.aircraft;
      && (r != t ==> Fires(t, c, d))
      && OnlyTouches(t, r, aid)
      && ((SentOf(r, aid) == SentOf(t, aid) && r.outbox == t.outbox)
          || (SentOf(r, aid) == SentOf(t, aid) + {d} && r.outbox == t.outbox + [Notice(c.callsign, DistanceOut(d))])
          || (SentOf(r, aid) == SentOf(t, aid) + {d} && r.outbox == t.outbox + [Notice(c.callsign, SequentialLanding)]
              && Value(d) == 2.0 && LandingGuard(g, SentOf(t, aid)) && !LandedIn(t, aid) && LandedIn(r, aid)))
      && StateOf(r.state, aid).(landed := None) == StateOf(t.state, aid).(landed := None)
      && (LandedIn(t, aid) ==> LandedIn(r, aid))
  {
    ThresholdStepFrame(g, t, c, d, cfg);
  }

  /** An alert already in the set is never sent again: the step for it is a no-op until
      the set is reset. */
  lemma AlertAtMostOnce(g: Guard, t: Tables, c: Approach, d: Num, cfg: Document)
    requires d in SentOf(t, c.aircraft)
    ensures ThresholdStep(g, t, c, d, cfg) == t
  {
  }

  /** Over a whole pass of the loop: alert keys only accumulate, other aircraft are not
      touched, messages are only appended, each is a distance or landing message for this
      aircraft, and an aircraft already landed gets no landing message and stays landed. */
  lemma {:induction false} SweepSpec(g: Guard, t: Tables, c: Approach, ds: seq<Num>, cfg: Document)
    ensures var r := Sweep(g, t, c, ds, cfg); var aid := c.aircraft;
      && SentOf(t, aid) <= SentOf(r, aid)
      && OnlyTouches(t, r, aid)
      && (forall i :: |t.outbox| <= i < |r.outbox| ==>
            r.outbox[i].callsign == c.callsign
            && (r.outbox[i].message.DistanceOut? || r.outbox[i].message == SequentialLanding))
      && StateOf(r.state, aid).(landed := None) == StateOf(t.state, aid).(landed := None)
      && (LandedIn(t, aid) ==>
            LandedIn(r, aid) && forall i :: |t.outbox| <= i < |r.outbox| ==> r.outbox[i].message.DistanceOut?)
  {
    if ds != [] {
      var t1 := Sweep(g, t, c, ds[..|ds| - 1], cfg);
      SweepSpec(g, t, c, ds[..|ds| - 1], cfg);
      ThresholdStepSpec(g, t1, c, ds[|ds| - 1], cfg);
      OnlyTouchesChain(t, t1, Sweep(g, t, c, ds, cfg), c.aircraft);
    }
  }

  /** As written, the landing guard looks for the float threshold `10.0`: when no such
      threshold is configured and none is in the set, the loop never sends the landing
      message, and the set never gains one. */
  lemma {:induction false} AsWrittenNeverLands(t: Tables, c: Approach, ds: seq<Num>, cfg: Document)
    requires Float(10.0) !in SentOf(t, c.aircraft) && Float(10.0) !in ds
    ensures var r := Sweep(AsWritten, t, c, ds, cfg);
      && Float(10.0) !in SentOf(r, c.aircraft)
      && |t.outbox| <= |r.outbox|
      && forall i :: |t.outbox| <= i < |r.outbox| ==> r.outbox[i].message != SequentialLanding
  {
    if ds != [] {
      var init := ds[..|ds| - 1];
      assert forall x :: x in init ==> x in ds;
      AsWrittenNeverLands(t, c, init, cfg);
      var t1 := Sweep(AsWritten, t, c, init, cfg);
      ThresholdStepSpec(AsWritten, t1, c, ds[|ds| - 1], cfg);
    }
  }

  /** With the integer thresholds 10 and 5 already sent, crossing the integer threshold 2
      gives a plain "2nm out" message as written, and the landing message with the
      by-value guard. */
  lemma IntegerKeysAtTwoMiles(t: Tables, c: Approach, cfg: Document)
    requires SentOf(t, c.aircraft) == {Int(10), Int(5)}
    requires c.prev > 2.0 && c.distance <= 2.0 && c.maxDistance > 2.0
    requires !LandedIn(t, c.aircraft)
    requires NotifyKey(c.aircraft, Landing) !in t.lastNotifications
    requires NotifyKey(c.aircraft, DistanceEvent(Int(2))) !in t.lastNotifications
    ensures ThresholdStep(AsWritten, t, c, Int(2), cfg).outbox == t.outbox + [Notice(c.callsign, DistanceOut(Int(2)))]
    ensures ThresholdStep(ByValue, t, c, Int(2), cfg).outbox == t.outbox + [Notice(c.callsign, SequentialLanding)]
  {
    assert Int(10) in SentOf(t, c.aircraft) && Value(Int(10)) == 10.0;
    assert Int(5) in SentOf(t, c.aircraft) && Value(Int(5)) == 5.0;
  }

  /** The alert loop of the distance block, run on the tables after the set is created. */
  function BlockSweep(g: Guard, t: Tables, aid: string, callsign: string, distance: real, now: real, cfg: Document): Tables {
    var t1 := if aid in t.alertsSent then t else t.(alertsSent := t.alertsSent[aid := {}]);
    var st := StateOf(t.state, aid);
    if st.lastDistance.Some? then
      Sweep(g, t1, Approach(aid, callsign, st.lastDistance.value, distance, RunningMax(st.maxDistance, distance), now), AlertDistances(cfg), cfg)
    else t1
  }

  lemma BlockSweepSpec(g: Guard, t: Tables, aid: string, callsign: string, distance: real, now: real, cfg: Document)
    ensures var r := BlockSweep(g, t, aid, callsign, distance, now, cfg);
      && aid in r.alertsSent && SentOf(t, aid) <= SentOf(r, aid) && OnlyTouches(t, r, aid)
      && (LandedIn(t, aid) ==> forall i :: |t.outbox| <= i < |r.outbox| ==> r.outbox[i].message.DistanceOut?)
  {
    var t1 := if aid in t.alertsSent then t else t.(alertsSent := t.alertsSent[aid := {}]);
    assert OnlyTouches(t, t1, aid) && LandedIn(t1, aid) == LandedIn(t, aid);
    var st := StateOf(t.state, aid);
    if st.lastDistance.Some? {
      var c := Approach(aid, callsign, st.lastDistance.value, distance, RunningMax(st.maxDistance, distance), now);
      SweepSpec(g, t1, c, AlertDistances(cfg), cfg);
      OnlyTouchesChain(t, t1, Sweep(g, t1, c, AlertDistances(cfg), cfg), aid);
    }
  }

  /** After the distance block the aircraft has a state whose `last_distance` is the
      current distance and whose `max_distance` is the running maximum, never below it; the
      alert set is emptied beyond 12 nm and otherwise only grows. */
  lemma DistanceBlockSpec(g: Guard, t: Tables, aid: string, callsign: string, distance: real, now: real, cfg: Document)
    ensures var r := DistanceBlock(g, t, aid, callsign, distance, now, cfg);
      var m := StateOf(t.state, aid).maxDistance;
      && aid in r.state && aid in r.alertsSent
      && r.state[aid].lastDistance == Some(distance)
      && r.state[aid].maxDistance == Some(RunningMax(m, distance))
      && r.state[aid].maxDistance.value >= distance
      && (m.Some? ==> r.state[aid].maxDistance.value >= m.value)
      && (distance > 12.0 ==> SentOf(r, aid) == {})
      && (distance <= 12.0 ==> SentOf(t, aid) <= SentOf(r, aid))
      && OnlyTouches(t, r, aid)
  {
    var t2 := BlockSweep(g, t, aid, callsign, distance, now, cfg);
    BlockSweepSpec(g, t, aid, callsign, distance, now, cfg);
    var t3 := if distance > 12.0 then
        t2.(alertsSent := t2.alertsSent[aid := {}],
            state := if aid in t2.state then t2.state[aid := t2.state[aid].(maxDistance := Some(distance))] else t2.state)
      else t2;
    assert OnlyTouches(t2, t3, aid);
    OnlyTouchesChain(t, t2, t3, aid);
    var r := DistanceBlock(g, t, aid, callsign, distance, now, cfg);
    assert OnlyTouches(t3, r, aid);
    OnlyTouchesChain(t, t3, r, aid);
  }

  /** Leaving the airspace touches only this aircraft, never an alert set, and sends at
      most the plain landing message. */
  lemma LeavingFrame(t: Tables, aid: string, callsign: string, altitudeMsl: real, velocity: real, now: real, cfg: Document)
    ensures var r := Leaving(t, aid, callsign, altitudeMsl, velocity, now, cfg);
      && OnlyTouches(t, r, aid) && r.alertsSent == t.alertsSent
      && (r.outbox == t.outbox || r.outbox == t.outbox + [Notice(callsign, Landed)])
  {
  }

  /** The ground branch likewise, and it is a no-op once the aircraft is landed. */
  lemma GroundedFrame(t: Tables, aid: string, callsign: string, now: real, cfg: Document)
    ensures var r := Grounded(t, aid, callsign, now, cfg);
      && OnlyTouches(t, r, aid) && r.alertsSent == t.alertsSent
      && (r.outbox == t.outbox || r.outbox == t.outbox + [Notice(callsign, Landed)])
    ensures LandedIn(t, aid) ==> Grounded(t, aid, callsign, now, cfg) == t
  {
  }

  /** The state update records where the aircraft is and that it was seen; on takeoff the
      alert set is emptied, `landed` is cleared, `max_distance` restarts from the current
      distance and the departure time is dropped. */
  lemma RefreshedSpec(t: Tables, aid: string, inAirspace: bool, onGround: bool, distance: real, wasOnGround: Option<bool>, now: real)
    ensures var r := Refreshed(t, aid, inAirspace, onGround, distance, wasOnGround, now);
      && aid in r.state && OnlyTouches(t, r, aid) && r.outbox == t.outbox
      && r.state[aid].inAirspace == Some(inAirspace) && r.state[aid].onGround == Some(onGround)
      && r.state[aid].lastUpdate == Some(now) && r.state[aid].consecutiveMissing == Some(0)
      && (inAirspace && !onGround && wasOnGround == Some(true) ==>
            SentOf(r, aid) == {} && r.state[aid].landed == Some(false)
            && r.state[aid].maxDistance == Some(distance) && r.state[aid].leftAirspaceTime.None?)
      && (!(inAirspace && !onGround && wasOnGround == Some(true)) ==> SentOf(r, aid) == SentOf(t, aid))
  {
  }

  /** The tables after the distance block and the transition branches of `Check`. */
  function Transitions(g: Guard, t: Tables, s: AircraftFeed.Sighting, distance: real, now: real, cfg: Document): Tables {
    var aid := s.icao24;
    var inAirspace := InAirspace(s, distance, cfg);
    var wasIn := StateOf(t.state, aid).inAirspace.GetOr(false);
    var wasOnGround := StateOf(t.state, aid).onGround;
    var t1 := if !s.onGround then DistanceBlock(g, t, aid, s.callsign, distance, now, cfg) else t;
    if wasIn && wasOnGround != Some(true) && !inAirspace then
      Leaving(t1, aid, s.callsign, s.baroAltitude.GetOr(0.0), s.velocity.GetOr(0.0), now, cfg)
    else if inAirspace && s.onGround && wasOnGround == Some(false) then
      Grounded(t1, aid, s.callsign, now, cfg)
    else t1
  }

  lemma TransitionsFrame(g: Guard, t: Tables, s: AircraftFeed.Sighting, distance: real, now: real, cfg: Document)
    ensures OnlyTouches(t, Transitions(g, t, s, distance, now, cfg), s.icao24)
  {
    var aid := s.icao24;
    var t1 := if !s.onGround then DistanceBlock(g, t, aid, s.callsign, distance, now, cfg) else t;
    if !s.onGround {
      DistanceBlockSpec(g, t, aid, s.callsign, distance, now, cfg);
    }
    LeavingFrame(t1, aid, s.callsign, s.baroAltitude.GetOr(0.0), s.velocity.GetOr(0.0), now, cfg);
    GroundedFrame(t1, aid, s.callsign, now, cfg);
    OnlyTouchesChain(t, t1, Transitions(g, t, s, distance, now, cfg), aid);
  }

  /** After the distance block, the transition branches leave the alert sets alone and
      send at most the plain landing message. */
  lemma TransitionsAfterBlock(g: Guard, t: Tables, s: AircraftFeed.Sighting, distance: real, now: real, cfg: Document)
    ensures var t1 := if !s.onGround then DistanceBlock(g, t, s.icao24, s.callsign, distance, now, cfg) else t;
      var r := Transitions(g, t, s, distance, now, cfg);
      && r.alertsSent == t1.alertsSent
      && (r.outbox == t1.outbox || r.outbox == t1.outbox + [Notice(s.callsign, Landed)])
  {
    var aid := s.icao24;
    var t1 := if !s.onGround then DistanceBlock(g, t, aid, s.callsign, distance, now, cfg) else t;
    LeavingFrame(t1, aid, s.callsign, s.baroAltitude.GetOr(0.0), s.velocity.GetOr(0.0), now, cfg);
    GroundedFrame(t1, aid, s.callsign, now, cfg);
  }

  /** A sighting without a position changes nothing. Otherwise the aircraft afterwards has
      a state recording this sighting, no other aircraft is touched, and messages are only
      appended. */
  lemma CheckSpec(g: Guard, t: Tables, s: AircraftFeed.Sighting, distance: real, now: real, cfg: Document)
    ensures var r := Check(g, t, s, distance, now, cfg); var aid := s.icao24;
      && (s.latitude.None? || s.longitude.None? ==> r == t)
      && (s.latitude.Some? && s.longitude.Some? ==>
            && r.state.Keys == t.state.Keys + {aid}
            && r.state[aid].inAirspace == Some(InAirspace(s, distance, cfg))
            && r.state[aid].onGround == Some(s.onGround)
            && r.state[aid].lastUpdate == Some(now)
            && r.state[aid].consecutiveMissing == Some(0)
            && OnlyTouches(t, r, aid))
  {
    if s.latitude.Some? && s.longitude.Some? {
      var aid := s.icao24;
      var t2 := Transitions(g, t, s, distance, now, cfg);
      TransitionsFrame(g, t, s, distance, now, cfg);
      var r := Refreshed(t2, aid, InAirspace(s, distance, cfg), s.onGround, distance, StateOf(t.state, aid).onGround, now);
      assert r == Check(g, t, s, distance, now, cfg);
      RefreshedSpec(t2, aid, InAirspace(s, distance, cfg), s.onGround, distance, StateOf(t.state, aid).onGround, now);
      OnlyTouchesChain(t, t2, r, aid);
    }
  }

  /** An aircraft already marked landed stays marked through the distance block, and
      the block sends it only distance messages. */
  lemma DistanceBlockLanded(g: Guard, t: Tables, aid: string, callsign: string, distance: real, now: real, cfg: Document)
    requires LandedIn(t, aid)
    ensures var r := DistanceBlock(g, t, aid, callsign, distance, now, cfg);
      LandedIn(r, aid) && t.outbox <= r.outbox
      && forall i :: |t.outbox| <= i < |r.outbox| ==> r.outbox[i].message.DistanceOut?
  {
    var t1 := if aid in t.alertsSent then t else t.(alertsSent := t.alertsSent[aid := {}]);
    var st := StateOf(t.state, aid);
    assert LandedIn(t1, aid);
    if st.lastDistance.Some? {
      SweepSpec(g, t1, Approach(aid, callsign, st.lastDistance.value, distance, RunningMax(st.maxDistance, distance), now), AlertDistances(cfg), cfg);
    }
  }

  /** An aircraft already marked landed gets no second landing message from a sighting:
      only distance messages can follow until a takeoff clears the mark. */
  lemma NoRepeatLanding(g: Guard, t: Tables, s: AircraftFeed.Sighting, distance: real, now: real, cfg: Document)
    requires LandedIn(t, s.icao24)
    ensures var r := Check(g, t, s, distance, now, cfg);
      t.outbox <= r.outbox && forall i :: |t.outbox| <= i < |r.outbox| ==> r.outbox[i].message.DistanceOut?
  {
    var aid := s.icao24;
    if s.latitude.Some? && s.longitude.Some? {
      var t1 := if !s.onGround then DistanceBlock(g, t, aid, s.callsign, distance, now, cfg) else t;
      if !s.onGround {
        DistanceBlockLanded(g, t, aid, s.callsign, distance, now, cfg);
      }
      var t2 := Transitions(g, t, s, distance, now, cfg);
      assert t2.outbox == t1.outbox;
      var r := Refreshed(t2, aid, InAirspace(s, distance, cfg), s.onGround, distance, StateOf(t.state, aid).onGround, now);
      assert r == Check(g, t, s, distance, now, cfg);
      assert r.outbox == t2.outbox;
    }
  }

  /** As written, the distance block sends no landing message while no float 10.0 is
      configured or sent, and it adds none to the set. */
  lemma AsWrittenBlockNeverLands(t: Tables, aid: string, callsign: string, distance: real, now: real, cfg: Document)
    requires Float(10.0) !in SentOf(t, aid) && Float(10.0) !in AlertDistances(cfg)
    ensures var r := DistanceBlock(AsWritten, t, aid, callsign, distance, now, cfg);
      && Float(10.0) !in SentOf(r, aid) && t.outbox <= r.outbox
      && forall i :: |t.outbox| <= i < |r.outbox| ==> r.outbox[i].message != SequentialLanding
  {
    var t1 := if aid in t.alertsSent then t else t.(alertsSent := t.alertsSent[aid := {}]);
    assert SentOf(t1, aid) == SentOf(t, aid);
    var st := StateOf(t.state, aid);
    if st.lastDistance.Some? {
      var c := Approach(aid, callsign, st.lastDistance.value, distance, RunningMax(st.maxDistance, distance), now);
      AsWrittenNeverLands(t1, c, AlertDistances(cfg), cfg);
      SweepSpec(AsWritten, t1, c, AlertDistances(cfg), cfg);
    }
  }

  /** The whole of `check_and_notify` as written never sends the sequential landing
      message while no float 10.0 is configured or sent, and it keeps it that way, so no
      run of sightings on such a configuration ever sends it: only the ground and
      leaving branches report a landing. */
  lemma AsWrittenCheckNeverLands(t: Tables, s: AircraftFeed.Sighting, distance: real, now: real, cfg: Document)
    requires Float(10.0) !in SentOf(t, s.icao24) && Float(10.0) !in AlertDistances(cfg)
    ensures var r := Check(AsWritten, t, s, distance, now, cfg);
      && Float(10.0) !in SentOf(r, s.icao24) && t.outbox <= r.outbox
      && forall i :: |t.outbox| <= i < |r.outbox| ==> r.outbox[i].message != SequentialLanding
  {
    var aid := s.icao24;
    if s.latitude.Some? && s.longitude.Some? {
      var t1 := if !s.onGround then DistanceBlock(AsWritten, t, aid, s.callsign, distance, now, cfg) else t;
      if !s.onGround {
        AsWrittenBlockNeverLands(t, aid, s.callsign, distance, now, cfg);
      }
      TransitionsAfterBlock(AsWritten, t, s, distance, now, cfg);
      var t2 := Transitions(AsWritten, t, s, distance, now, cfg);
      var r := Refreshed(t2, aid, InAirspace(s, distance, cfg), s.onGround, distance, StateOf(t.state, aid).onGround, now);
      assert r == Check(AsWritten, t, s, distance, now, cfg);
      assert r.outbox == t2.outbox;
    }
  }

  /** One step of the sweep changes only the entry of `aid`: it is dropped when the
      aircraft counts as lost, and its missing count goes up otherwise; only loss messages
      are appended. */
  lemma MissingStepSpec(t: Tables, aid: string, now: real, cfg: Document)
    ensures var r := MissingStep(t, aid, now, cfg);
      && (forall a :: a != aid ==> (a in r.state <==> a in t.state) && (a in r.state ==> r.state[a] == t.state[a]))
      && (aid !in t.state ==> r == t)
      && (aid in t.state ==>
            (aid in r.state <==> !Dropped(t.state[aid], now))
            && (aid in r.state ==> r.state[aid] == CountedMissing(t.state[aid])))
      && r.alertsSent == t.alertsSent
      && t.outbox <= r.outbox
      && (forall i :: |t.outbox| <= i < |r.outbox| ==>
            r.outbox[i].message == LostInAirspace || r.outbox[i].message == LostAfterLeaving)
  {
  }

  /** For each aircraft missing from a poll exactly one thing happens: it is dropped when
      it was lost in the airspace or soon after leaving it, and otherwise its miss count
      goes up by one. Aircraft seen in the poll keep their state, no aircraft is added,
      alert sets are untouched, and the only messages are landing-after-loss messages. */
  lemma {:induction false} MissingSweepSpec(t: Tables, order: seq<string>, seen: set<string>, now: real, cfg: Document)
    requires Distinct(order)
    ensures var r := MissingSweep(t, order, seen, now, cfg);
      && r.state.Keys <= t.state.Keys
      && (forall a :: a in t.state && (a in seen || a !in order) ==> a in r.state && r.state[a] == t.state[a])
      && (forall a :: a in t.state && a !in seen && a in order ==>
            (a in r.state <==> !Dropped(t.state[a], now))
            && (a in r.state ==> r.state[a] == CountedMissing(t.state[a])))
      && r.alertsSent == t.alertsSent
      && t.outbox <= r.outbox
      && (forall i :: |t.outbox| <= i < |r.outbox| ==>
            r.outbox[i].message == LostInAirspace || r.outbox[i].message == LostAfterLeaving)
  {
    if order != [] {
      var init := order[..|order| - 1];
      var x := order[|order| - 1];
      assert Distinct(init);
      assert x !in init;
      assert forall a :: a in order <==> a in init || a == x;
      MissingSweepSpec(t, init, seen, now, cfg);
      MissingStepSpec(MissingSweep(t, init, seen, now, cfg), x, now, cfg);
    }
  }

  // ---------------------------------------------------------------------------
  // The tracker

  class AviationTracker {
    const config: Document
    var aircraftState: map<string, AircraftState>
    var lastNotifications: map<NotifyKey, real>
    var distanceAlertsSent: map<string, set<Num>>
    var outbox: seq<Notice>

    ghost function Snapshot(): Tables
      reads this
    {
      Tables(aircraftState, lastNotifications, distanceAlertsSent, outbox)
    }

    constructor(config: Document)
      ensures this.config == config
      ensures Snapshot() == Tables(map[], map[], map[], [])
    {
      this.config := config;
      aircraftState, lastNotifications, distanceAlertsSent, outbox := map[], map[], map[], [];
    }

    /** `should_notify(event, aircraft_id)` at time `now`. */
    method ShouldNotify(event: Event, aid: string, now: real) returns (ok: bool)
      modifies this
      ensures ok == Allowed(old(Snapshot()), NotifyKey(aid, event), now, config)
      ensures Snapshot() == Recorded(old(Snapshot()), NotifyKey(aid, event), now, config)
    {
      var key := NotifyKey(aid, event);
      var cooldown := Cooldown(config);
      if key in lastNotifications {
        var sinceLast := (now - lastNotifications[key]) / 60.0;
        if sinceLast < cooldown {
          return false;
        }
      }
      lastNotifications := lastNotifications[key := now];
      return true;
    }

    /** `send_notification(message)`. */
    method SendNotification(n: Notice)
      modifies this
      ensures Snapshot() == Queued(old(Snapshot()), n)
    {
      outbox := outbox + [n];
    }

    /** One iteration of the loop over the alert distances, with the landing guard as
        written: the keys "10.0nm" and "5.0nm", which only the float thresholds 10.0 and
        5.0 produce. The code has two identical branches for a distance message (the 2 nm
        threshold without the landing guard, and the other thresholds); they are one
        branch here. */
    method CheckThreshold(c: Approach, d: Num)
      requires c.aircraft in distanceAlertsSent
      modifies this
      ensures Snapshot() == ThresholdStep(AsWritten, old(Snapshot()), c, d, config)
      ensures c.aircraft in distanceAlertsSent
    {
      var aid := c.aircraft;
      var sent := distanceAlertsSent[aid];
      var crossed := c.prev > Value(d) && c.distance <= Value(d);
      var wasBeyond := c.maxDistance > Value(d);
      if crossed && wasBeyond && d !in sent {
        if Value(d) == 2.0 && Float(10.0) in sent && Float(5.0) in sent {
          var ok := ShouldNotify(Landing, aid, c.now);
          if ok {
            var landed := StateOf(aircraftState, aid).landed.GetOr(false);
            if !landed {
              SendNotification(Notice(c.callsign, SequentialLanding));
              aircraftState := aircraftState[aid := StateOf(aircraftState, aid).(landed := Some(true))];
              distanceAlertsSent := distanceAlertsSent[aid := distanceAlertsSent[aid] + {d}];
            }
          }
        } else {
          var ok := ShouldNotify(DistanceEvent(d), aid, c.now);
          if ok {
            SendNotification(Notice(c.callsign, DistanceOut(d)));
            distanceAlertsSent := distanceAlertsSent[aid := distanceAlertsSent[aid] + {d}];
          }
        }
      }
    }

    /** `for alert_distance in alert_distances`. */
    method AlertLoop(c: Approach, ds: seq<Num>)
      requires c.aircraft in distanceAlertsSent
      modifies this
      ensures Snapshot() == Sweep(AsWritten, old(Snapshot()), c, ds, config)
      ensures c.aircraft in distanceAlertsSent
    {
      ghost var t0 := Snapshot();
      for i := 0 to |ds|
        invariant c.aircraft in distanceAlertsSent
        invariant Snapshot() == Sweep(AsWritten, t0, c, ds[..i], config)
      {
        CheckThreshold(c, ds[i]);
        assert ds[..i + 1][..i] == ds[..i];
      }
      assert ds[..|ds|] == ds;
    }

    /** The `if not on_ground` block of `check_and_notify`. */
    method DistanceAlerts(aid: string, callsign: string, distance: real, now: real)
      modifies this
      ensures Snapshot() == DistanceBlock(AsWritten, old(Snapshot()), aid, callsign, distance, now, config)
    {
      var ds := AlertDistances(config);
      if aid !in distanceAlertsSent {
        distanceAlertsSent := distanceAlertsSent[aid := {}];
      }
      var st := StateOf(aircraftState, aid);
      var maxd := RunningMax(st.maxDistance, distance);
      if st.lastDistance.Some? {
        AlertLoop(Approach(aid, callsign, st.lastDistance.value, distance, maxd, now), ds);
      }
      if distance > 12.0 {
        distanceAlertsSent := distanceAlertsSent[aid := {}];
        if aid in aircraftState {
          aircraftState := aircraftState[aid := aircraftState[aid].(maxDistance := Some(distance))];
        }
      }
      aircraftState := aircraftState[aid := StateOf(aircraftState, aid).(lastDistance := Some(distance), maxDistance := Some(maxd))];
    }

    /** The "leaving airspace" branch of `check_and_notify`. */
    method LeaveAirspace(aid: string, callsign: string, altitudeMsl: real, velocity: real, now: real)
      modifies this
      ensures Snapshot() == Leaving(old(Snapshot()), aid, callsign, altitudeMsl, velocity, now, config)
    {
      if aid !in aircraftState {
        aircraftState := aircraftState[aid := Blank];
      }
      var landed := aircraftState[aid].landed.GetOr(false);
      if aircraftState[aid].leftAirspaceTime.None? && !landed {
        aircraftState := aircraftState[aid := aircraftState[aid].(leftAirspaceTime := Some(now))];
        var groundLevel := Abs(altitudeMsl - FieldElevation(config)) < 200.0;
        var slow := velocity < 60.0;
        if groundLevel && slow {
          var ok := ShouldNotify(Landing, aid, now);
          if ok {
            SendNotification(Notice(callsign, Landed));
            aircraftState := aircraftState[aid := aircraftState[aid].(landed := Some(true))];
          }
        }
      }
    }

    /** The "direct ground detection" branch of `check_and_notify`. */
    method DetectGround(aid: string, callsign: string, now: real)
      modifies this
      ensures Snapshot() == Grounded(old(Snapshot()), aid, callsign, now, config)
    {
      var landed := StateOf(aircraftState, aid).landed.GetOr(false);
      if !landed {
        var ok := ShouldNotify(Landing, aid, now);
        if ok {
          SendNotification(Notice(callsign, Landed));
          aircraftState := aircraftState[aid := StateOf(aircraftState, aid).(landed := Some(true))];
        }
      }
    }

    /** The state update and the takeoff reset at the end of `check_and_notify`. */
    method UpdateState(aid: string, inAirspace: bool, onGround: bool, distance: real, wasOnGround: Option<bool>, now: real)
      modifies this
      ensures Snapshot() == Refreshed(old(Snapshot()), aid, inAirspace, onGround, distance, wasOnGround, now)
    {
      aircraftState := aircraftState[aid := StateOf(aircraftState, aid).(inAirspace := Some(inAirspace),
        onGround := Some(onGround), lastUpdate := Some(now), consecutiveMissing := Some(0))];
      if inAirspace && !onGround && wasOnGround == Some(true) {
        if aid in distanceAlertsSent {
          distanceAlertsSent := distanceAlertsSent[aid := {}];
        }
        aircraftState := aircraftState[aid := aircraftState[aid].(landed := Some(false),
          maxDistance := Some(distance), leftAirspaceTime := None)];
      }
    }

    /** `check_and_notify(aircraft_data)`; `distance` is the great-circle distance from the
        airspace centre in nautical miles. */
    method CheckAndNotify(s: AircraftFeed.Sighting, distance: real, now: real)
      modifies this
      ensures Snapshot() == Check(AsWritten, old(Snapshot()), s, distance, now, config)
    {
      if s.latitude.None? || s.longitude.None? {
        return;
      }
      var aid := s.icao24;
      var inHorizontal := distance <= config.airspace.radiusNm;
      var altitudeMsl: real;
      var inVertical: bool;
      if s.baroAltitude.Some? {
        altitudeMsl := s.baroAltitude.value;
        var altitudeAgl := altitudeMsl - FieldElevation(config);
        inVertical := FloorAgl(config) <= altitudeAgl <= CeilingAgl(config);
      } else {
        altitudeMsl := 0.0;
        inVertical := s.onGround;
      }
      var inAirspace := inHorizontal && inVertical;
      var wasIn := StateOf(aircraftState, aid).inAirspace.GetOr(false);
      var wasOnGround := StateOf(aircraftState, aid).onGround;
      if !s.onGround {
        DistanceAlerts(aid, s.callsign, distance, now);
      }
      if wasIn && wasOnGround != Some(true) && !inAirspace {
        LeaveAirspace(aid, s.callsign, altitudeMsl, s.velocity.GetOr(0.0), now);
      } else if inAirspace && s.onGround && wasOnGround == Some(false) {
        DetectGround(aid, s.callsign, now);
      }
      UpdateState(aid, inAirspace, s.onGround, distance, wasOnGround, now);
    }

    /** The sweep of `run` over one aircraft missing from this poll. */
    method CountMissing(aid: string, now: real)
      requires aid in aircraftState
      modifies this
      ensures Snapshot() == MissingStep(old(Snapshot()), aid, now, config)
    {
      var st := aircraftState[aid];
      var wasIn := st.inAirspace.GetOr(false);
      var wasOnGround := st.onGround.GetOr(false);
      var missing := st.consecutiveMissing.GetOr(0) + 1;
      var recentlyLeft := st.leftAirspaceTime.Some? && now - st.leftAirspaceTime.value < 300.0;
      if (wasIn && !wasOnGround && missing >= 2) || (recentlyLeft && !wasOnGround && missing >= 1) {
        var msg := if wasIn && !wasOnGround && missing >= 2 then LostInAirspace else LostAfterLeaving;
        if !st.landed.GetOr(false) {
          var ok := ShouldNotify(Landing, aid, now);
          if ok {
            SendNotification(Notice(MissingCallsign(aid, config), msg));
          }
        }
        aircraftState := aircraftState - {aid};
      } else {
        aircraftState := aircraftState[aid := st.(consecutiveMissing := Some(missing))];
      }
    }

    /** The loop of `run` over `list(aircraft_state.items())`, whose order `order` is. */
    method SweepMissing(seen: set<string>, order: seq<string>, now: real)
      requires Distinct(order)
      requires forall aid :: aid in order <==> aid in aircraftState
      modifies this
      ensures Snapshot() == MissingSweep(old(Snapshot()), order, seen, now, config)
    {
      ghost var t0 := Snapshot();
      for i := 0 to |order|
        invariant forall j :: i <= j < |order| ==> order[j] in aircraftState
        invariant Snapshot() == MissingSweep(t0, order[..i], seen, now, config)
      {
        assert order[..i + 1][..i] == order[..i];
        if order[i] !in seen {
          CountMissing(order[i], now);
        }
      }
      assert order[..|order|] == order;
    }
  }
}
