/** `AviationTracker.get_aircraft_data`: the area query's radius, and the filter that keeps
    the aircraft whose ICAO address is tracked and describes each one with its tail
    number, callsign, position, altitude, ground flag and speed. The HTTP request is
    outside the model: its outcome is an input. */
module AircraftFeed {
  import opened Wrappers
  import opened PyText
  import opened PyConfig

  /** `alt_baro` as adsb.lol reports it: absent, the text `"ground"`, or feet. */
  datatype AltBaro = NoAltBaro | Ground | Feet(ft: real)

  /** One element of the response's `ac` list, with the keys the tracker reads. */
  datatype AdsbRecord = AdsbRecord(
    hex: Option<string>,
    flight: Option<string>,
    lat: Option<real>,
    lon: Option<real>,
    altBaro: AltBaro,
    gs: Option<real>)

  /** The outcome of the area query: a failed request, or a decoded body whose `ac` list
      may be absent. */
  datatype Response = RequestFailed | Body(ac: Option<seq<AdsbRecord>>)

  /** The dict built for each tracked aircraft. Altitude is kept in feet and speed in
      knots (see the README on unit conversions). */
  datatype Sighting = Sighting(
    icao24: string,
    callsign: string,
    latitude: Option<real>,
    longitude: Option<real>,
    baroAltitude: Option<real>,
    onGround: bool,
    velocity: Option<real>)

  // ---------------------------------------------------------------------------
  // Query radius

  /** `max(xs)` compared by value. */
  function MaxValue(xs: seq<Num>): real
    requires xs != []
  {
    if |xs| == 1 then Value(xs[0])
    else
      var m := MaxValue(xs[1..]);
      if Value(xs[0]) >= m then Value(xs[0]) else m
  }

  lemma {:induction false} MaxValueSpec(xs: seq<Num>)
    requires xs != []
    ensures forall x :: x in xs ==> Value(x) <= MaxValue(xs)
    ensures exists x :: x in xs && Value(x) == MaxValue(xs)
  {
    if |xs| == 1 {
      assert xs[0] in xs;
    } else {
      MaxValueSpec(xs[1..]);
      assert xs == [xs[0]] + xs[1..];
      if Value(xs[0]) >= MaxValue(xs[1..]) {
        assert xs[0] in xs;
      } else {
        var y :| y in xs[1..] && Value(y) == MaxValue(xs[1..]);
        assert y in xs;
      }
    }
  }

  /** `query_radius_nm` when present, else five miles past the largest alert distance
      (`[10.0]` when the list is absent). `None` is the `ValueError` that `max` raises on
      an empty list, which makes the fetch return no aircraft. */
  function QueryRadius(s: AirspaceSection): Option<real> {
    if s.queryRadiusNm.Some? then s.queryRadiusNm
    else
      var ds := s.alertDistancesNm.GetOr([Float(10.0)]);
      if ds == [] then None else Some(MaxValue(ds) + 5.0)
  }

  /** Without `query_radius_nm`, the query reaches five miles past every alert distance. */
  lemma QueryRadiusCoversAlerts(s: AirspaceSection)
    requires s.queryRadiusNm.None?
    ensures QueryRadius(s).None? <==> s.alertDistancesNm == Some([])
    ensures QueryRadius(s).Some? ==>
      (forall d :: d in s.alertDistancesNm.GetOr([Float(10.0)]) ==> Value(d) + 5.0 <= QueryRadius(s).value)
      && exists d :: d in s.alertDistancesNm.GetOr([Float(10.0)]) && Value(d) + 5.0 == QueryRadius(s).value
  {
    var ds := s.alertDistancesNm.GetOr([Float(10.0)]);
    if ds != [] {
      MaxValueSpec(ds);
    }
  }

  // ---------------------------------------------------------------------------
  // Tail-number lookup

  /** `[x.lower() for x in icao24_codes]`. */
  function LowerAll(codes: seq<string>): (r: seq<string>)
    ensures |r| == |codes|
  {
    seq(|codes|, i requires 0 <= i < |codes| => Lower(codes[i]))
  }

  /** `xs.index(x)`, with `None` for the `ValueError` of a missing element. */
  function IndexOf(xs: seq<string>, x: string): Option<nat> {
    if xs == [] then None
    else if xs[0] == x then Some(0)
    else match IndexOf(xs[1..], x)
      case None => None
      case Some(i) => Some(i + 1)
  }

  lemma {:induction false} IndexOfSpec(xs: seq<string>, x: string)
    ensures match IndexOf(xs, x)
      case Some(i) => i < |xs| && xs[i] == x && x !in xs[..i]
      case None => x !in xs
  {
    if xs != [] && xs[0] != x {
      IndexOfSpec(xs[1..], x);
      assert xs == [xs[0]] + xs[1..];
      match IndexOf(xs[1..], x)
      case Some(i) =>
        assert xs[..i + 1] == [xs[0]] + xs[1..][..i];
      case None =>
    }
  }

  /** `i` is the first position whose lower-cased code is `icao`. */
  predicate FirstMatch(codes: seq<string>, icao: string, i: int) {
    0 <= i < |codes| && Lower(codes[i]) == icao && forall j :: 0 <= j < i ==> Lower(codes[j]) != icao
  }

  /** The tail number at the position of the first matching code; `None` stands for the
      `ValueError` (no code matches) and `IndexError` (the tail list is shorter) that
      the caller turns into a fallback. */
  function LookupTail(icao: string, a: AircraftSection): Option<string> {
    match IndexOf(LowerAll(a.icao24Codes), icao)
    case None => None
    case Some(i) => if i < |a.tailNumbers| then Some(a.tailNumbers[i]) else None
  }

  /** A tail number is found exactly when the first aircraft with a matching code has one,
      and it is that aircraft's tail number. */
  lemma LookupTailSpec(icao: string, a: AircraftSection)
    ensures LookupTail(icao, a).Some? ==>
      exists i :: FirstMatch(a.icao24Codes, icao, i) && i < |a.tailNumbers| && LookupTail(icao, a).value == a.tailNumbers[i]
    ensures LookupTail(icao, a).None? ==>
      forall i :: FirstMatch(a.icao24Codes, icao, i) ==> i >= |a.tailNumbers|
  {
    var low := LowerAll(a.icao24Codes);
    IndexOfSpec(low, icao);
    match IndexOf(low, icao)
    case Some(i) =>
      forall j | 0 <= j < i
        ensures Lower(a.icao24Codes[j]) != icao
      {
        assert low[j] in low[..i];
      }
      assert FirstMatch(a.icao24Codes, icao, i);
      forall k | FirstMatch(a.icao24Codes, icao, k)
        ensures k == i
      {
        assert low[i] == Lower(a.icao24Codes[i]);
      }
    case None =>
      forall k | 0 <= k < |a.icao24Codes|
        ensures Lower(a.icao24Codes[k]) != icao
      {
        assert low[k] in low;
      }
  }

  // ---------------------------------------------------------------------------
  // Filtering the response

  /** The lower-cased `hex` of a record (`''` when absent) is one of the tracked codes. */
  predicate IsTracked(r: AdsbRecord, a: AircraftSection) {
    Lower(r.hex.GetOr("")) in LowerAll(a.icao24Codes)
  }

  /** The dict appended for a tracked record. The callsign is the stripped `flight`, or the
      tail number when that is absent or blank; `alt_baro` of 0 and a ground speed of 0
      count as missing because Python tests them for truth. */
  function Describe(r: AdsbRecord, a: AircraftSection): Sighting {
    var icao := Lower(r.hex.GetOr(""));
    var tail := LookupTail(icao, a).GetOr(icao);
    var flight := Strip(r.flight.GetOr(tail));
    Sighting(
      icao,
      if flight != "" then flight else tail,
      r.lat,
      r.lon,
      if r.altBaro.Feet? && r.altBaro.ft != 0.0 then Some(r.altBaro.ft) else None,
      r.altBaro.Ground? || r.gs.GetOr(0.0) < 30.0,
      if r.gs.Some? && r.gs.value != 0.0 then Some(r.gs.value) else None)
  }

  /** The list the loop builds: the tracked records, described, in response order. */
  function Sightings(ac: seq<AdsbRecord>, a: AircraftSection): seq<Sighting> {
    if ac == [] then []
    else
      var last := ac[|ac| - 1];
      Sightings(ac[..|ac| - 1], a) + if IsTracked(last, a) then [Describe(last, a)] else []
  }

  /** The loop over `data['ac']`. */
  method CollectTracked(ac: seq<AdsbRecord>, a: AircraftSection) returns (list: seq<Sighting>)
    ensures list == Sightings(ac, a)
  {
    var tracked := set i | 0 <= i < |a.icao24Codes| :: Lower(a.icao24Codes[i]);
    list := [];
    for k := 0 to |ac|
      invariant list == Sightings(ac[..k], a)
    {
      var icao := Lower(ac[k].hex.GetOr(""));
      assert icao in tracked <==> IsTracked(ac[k], a) by {
        if icao in tracked {
          var i :| 0 <= i < |a.icao24Codes| && Lower(a.icao24Codes[i]) == icao;
          assert LowerAll(a.icao24Codes)[i] == icao;
        }
      }
      if icao in tracked {
        list := list + [Describe(ac[k], a)];
      }
      assert ac[..k + 1][..k] == ac[..k];
    }
    assert ac[..|ac|] == ac;
  }

  /** `get_aircraft_data`: no aircraft when the radius cannot be computed, the request
      fails, or the body has no `ac` list; otherwise the tracked ones. */
  method GetAircraftData(s: AirspaceSection, a: AircraftSection, response: Response) returns (list: seq<Sighting>)
    ensures QueryRadius(s).None? || response.RequestFailed? || response.ac.None? ==> list == []
    ensures QueryRadius(s).Some? && response.Body? && response.ac.Some? ==> list == Sightings(response.ac.value, a)
  {
    var radius := QueryRadius(s);
    if radius.None? {
      return [];
    }
    list := [];
    if response.Body? && response.ac.Some? && response.ac.value != [] {
      list := CollectTracked(response.ac.value, a);
    }
  }

  /** Exactly the tracked records come out, each once and in response order, so every
      sighting carries a tracked address. */
  lemma {:induction false} SightingsSpec(ac: seq<AdsbRecord>, a: AircraftSection)
    ensures |Sightings(ac, a)| <= |ac|
    ensures forall s :: s in Sightings(ac, a) ==> s.icao24 in LowerAll(a.icao24Codes)
    ensures forall r :: r in ac && IsTracked(r, a) ==> Describe(r, a) in Sightings(ac, a)
    ensures (forall r :: r in ac ==> IsTracked(r, a)) ==> |Sightings(ac, a)| == |ac|
  {
    if ac != [] {
      var init := ac[..|ac| - 1];
      SightingsSpec(init, a);
      assert ac == init + [ac[|ac| - 1]];
      forall r | r in ac && IsTracked(r, a)
        ensures Describe(r, a) in Sightings(ac, a)
      {
        if r != ac[|ac| - 1] {
          assert r in init;
        }
      }
      if forall r :: r in ac ==> IsTracked(r, a) {
        assert forall r :: r in init ==> r in ac;
      }
    }
  }

  /** The positions in `ac` of the tracked records, in increasing order. */
  function TrackedPositions(ac: seq<AdsbRecord>, a: AircraftSection): seq<nat> {
    if ac == [] then []
    else TrackedPositions(ac[..|ac| - 1], a) + if IsTracked(ac[|ac| - 1], a) then [|ac| - 1] else []
  }

  /** The positions picked are in range and tracked. */
  lemma {:induction false} PositionsTracked(ac: seq<AdsbRecord>, a: AircraftSection)
    ensures forall j :: 0 <= j < |TrackedPositions(ac, a)| ==>
      TrackedPositions(ac, a)[j] < |ac| && IsTracked(ac[TrackedPositions(ac, a)[j]], a)
  {
    if ac != [] {
      var init := ac[..|ac| - 1];
      PositionsTracked(init, a);
      var ps0 := TrackedPositions(init, a);
      assert forall j :: 0 <= j < |ps0| ==> ps0[j] < |init| && IsTracked(init[ps0[j]], a);
      assert forall j :: 0 <= j < |ps0| ==> ac[ps0[j]] == init[ps0[j]];
    }
  }

  /** The positions picked increase. */
  lemma {:induction false} PositionsIncrease(ac: seq<AdsbRecord>, a: AircraftSection)
    ensures forall j, k :: 0 <= j < k < |TrackedPositions(ac, a)| ==> TrackedPositions(ac, a)[j] < TrackedPositions(ac, a)[k]
  {
    if ac != [] {
      var init := ac[..|ac| - 1];
      PositionsIncrease(init, a);
      PositionsTracked(init, a);
    }
  }

  /** Every tracked position is picked. */
  lemma {:induction false} PositionsComplete(ac: seq<AdsbRecord>, a: AircraftSection)
    ensures forall i :: 0 <= i < |ac| && IsTracked(ac[i], a) ==> i in TrackedPositions(ac, a)
  {
    if ac != [] {
      var init := ac[..|ac| - 1];
      PositionsComplete(init, a);
      forall i | 0 <= i < |ac| && IsTracked(ac[i], a)
        ensures i in TrackedPositions(ac, a)
      {
        if i < |ac| - 1 {
          assert init[i] == ac[i];
        }
      }
    }
  }

  /** The `j`-th sighting describes the record at the `j`-th picked position. */
  lemma {:induction false} PositionsDescribed(ac: seq<AdsbRecord>, a: AircraftSection)
    ensures var ps := TrackedPositions(ac, a); var out := Sightings(ac, a);
      && |ps| == |out|
      && forall j :: 0 <= j < |ps| ==> ps[j] < |ac| && out[j] == Describe(ac[ps[j]], a)
  {
    if ac != [] {
      var init := ac[..|ac| - 1];
      PositionsDescribed(init, a);
      var ps0 := TrackedPositions(init, a);
      forall j | 0 <= j < |ps0|
        ensures ps0[j] < |init| && ac[ps0[j]] == init[ps0[j]]
      {
      }
    }
  }

  /** The filter keeps order and multiplicity: the `j`-th sighting describes the `j`-th
      tracked record, the positions picked increase, and every tracked position is
      picked. So each tracked record comes out once, in response order, and nothing
      else comes out. */
  lemma SightingsPositions(ac: seq<AdsbRecord>, a: AircraftSection)
    ensures var ps := TrackedPositions(ac, a); var out := Sightings(ac, a);
      && |ps| == |out|
      && (forall j :: 0 <= j < |ps| ==> ps[j] < |ac| && IsTracked(ac[ps[j]], a) && out[j] == Describe(ac[ps[j]], a))
      && (forall j, k :: 0 <= j < k < |ps| ==> ps[j] < ps[k])
      && (forall i :: 0 <= i < |ac| && IsTracked(ac[i], a) ==> i in ps)
    ensures forall s :: s in Sightings(ac, a) ==> exists r :: r in ac && IsTracked(r, a) && s == Describe(r, a)
  {
    PositionsTracked(ac, a);
    PositionsIncrease(ac, a);
    PositionsComplete(ac, a);
    PositionsDescribed(ac, a);
    var ps := TrackedPositions(ac, a);
    forall s | s in Sightings(ac, a)
      ensures exists r :: r in ac && IsTracked(r, a) && s == Describe(r, a)
    {
      var j :| 0 <= j < |Sightings(ac, a)| && Sightings(ac, a)[j] == s;
      assert ac[ps[j]] in ac;
    }
  }

  /** The callsign is the stripped `flight` when that is not blank, and otherwise the
      tail number found for the address, or the address itself when none is found. */
  lemma CallsignChoice(r: AdsbRecord, a: AircraftSection)
    ensures var icao := Lower(r.hex.GetOr(""));
      var tail := LookupTail(icao, a).GetOr(icao);
      && (r.flight.Some? && Strip(r.flight.value) != "" ==> Describe(r, a).callsign == Strip(r.flight.value))
      && (r.flight.Some? && Strip(r.flight.value) == "" ==> Describe(r, a).callsign == tail)
      && (r.flight.None? && Strip(tail) != "" ==> Describe(r, a).callsign == Strip(tail))
      && (Describe(r, a).callsign == "" ==> tail == "")
  {
  }

  /** A record without `hex` is taken for the first tracked aircraft whose code is empty,
      the form a missing `icao24` takes in the bridge's configuration. */
  lemma MissingHexMatchesMissingCode(r: AdsbRecord, a: AircraftSection, i: nat)
    requires r.hex.None? && i < |a.icao24Codes| && i < |a.tailNumbers|
    requires a.icao24Codes[i] == "" && forall j :: 0 <= j < i ==> a.icao24Codes[j] != ""
    ensures IsTracked(r, a) && Describe(r, a).icao24 == ""
    ensures LookupTail("", a) == Some(a.tailNumbers[i])
  {
    assert LowerAll(a.icao24Codes)[i] == "";
    LookupTailSpec("", a);
    assert FirstMatch(a.icao24Codes, "", i);
    if LookupTail("", a).None? {
      assert false;
    }
  }
}
