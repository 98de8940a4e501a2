/**
  The deterministic parts of the threat-responsive routing model: the
  throttled reroute test, the rerouting wrapper around the planner, and the
  assembly of a planned route from the search's parent pointers. The search
  itself, the distance formula and the safety predictor are inputs here: the
  planner is a function `plan` of the two end locations, "near a threat" is a
  predicate `near` on a waypoint location, and the predicted safety score is
  a function `score` of a grid point.
 */
module ThreatModel {
  import opened Json

  /** `self.threat_threshold` */
  const ThreatThreshold: real := 75.0
  /** `self.threat_check_interval`, in seconds */
  const ThreatCheckInterval: real := 5.0
  /** The score a waypoint without `safety_score` counts with. */
  const DefaultSafetyScore: Value := Int(100)
  const RerouteReason: string := "New threats detected"

  /** `{'lat': waypoint['lat'], 'lng': waypoint['lng']}` */
  datatype Location = Location(lat: Value, lng: Value)

  /** A point of the search grid (floats in the source). */
  datatype Point = Point(lat: real, lng: real)

  // ---------------------------------------------------------------------------
  // The reroute test

  /** Iterating `current_route.get('waypoints', [])`; an empty dict or string iterates as empty. */
  function WaypointsOf(route: Record): (r: Result<seq<Value>>)
    ensures var v := Get(route, "waypoints", Arr([]));
            (r.Ok? <==> v.Arr? || v == Obj(map[]) || v == Str(""))
            && (v.Arr? ==> r == Ok(v.items))
            && (v == Obj(map[]) || v == Str("") ==> r == Ok([]))
            && (r.Err? ==> r.error == Uncaught(TypeFault))
  {
    match Get(route, "waypoints", Arr([]))
    case Arr(items) => Ok(items)
    case Obj(m) => if m == map[] then Ok([]) else Err(Uncaught(TypeFault))
    case Str(s) => if s == "" then Ok([]) else Err(Uncaught(TypeFault))
    case _ => Err(Uncaught(TypeFault))
  }

  /** The location of a waypoint, read with `waypoint['lat']` and `waypoint['lng']`. */
  function LocationOf(w: Value): (r: Result<Location>)
    ensures r.Ok? <==> w.Obj? && "lat" in w.fields && "lng" in w.fields
    ensures r.Ok? ==> r.value == Location(w.fields["lat"], w.fields["lng"])
  {
    match w
    case Obj(m) =>
      if "lat" !in m then Err(Uncaught(KeyFault("lat")))
      else if "lng" !in m then Err(Uncaught(KeyFault("lng")))
      else Ok(Location(m["lat"], m["lng"]))
    case _ => Err(Uncaught(TypeFault))
  }

  /** The first `k` waypoints are readable and none of them is near a threat: the scan gets past them. */
  predicate ClearBefore(wps: seq<Value>, near: Location -> bool, k: nat)
    requires k <= |wps|
  {
    forall j :: 0 <= j < k ==> LocationOf(wps[j]).Ok? && !near(LocationOf(wps[j]).value)
  }

  /** Getting past waypoint `k + 1` of `wps` is getting past waypoint 0 and then past waypoint `k` of the rest. */
  lemma ClearBeforeTail(wps: seq<Value>, near: Location -> bool)
    requires wps != []
    ensures forall k: nat :: k < |wps| ==>
              (ClearBefore(wps, near, k + 1)
               <==> LocationOf(wps[0]).Ok? && !near(LocationOf(wps[0]).value) && ClearBefore(wps[1..], near, k))
  {
    forall k: nat | k < |wps|
      ensures ClearBefore(wps, near, k + 1)
              <==> LocationOf(wps[0]).Ok? && !near(LocationOf(wps[0]).value) && ClearBefore(wps[1..], near, k)
    {
      assert forall j :: 1 <= j < k + 1 ==> wps[j] == wps[1..][j - 1];
      if LocationOf(wps[0]).Ok? && !near(LocationOf(wps[0]).value) && ClearBefore(wps[1..], near, k) {
        forall j | 0 <= j < k + 1
          ensures LocationOf(wps[j]).Ok? && !near(LocationOf(wps[j]).value)
        {
          if j > 0 {
            assert wps[j] == wps[1..][j - 1];
          }
        }
      }
    }
  }

  /**
    The first loop of `_should_reroute`: it stops at the first waypoint that
    is unreadable (the lookup's error) or near a threat (True).
   */
  function NearScan(wps: seq<Value>, near: Location -> bool): (r: Result<bool>)
    ensures r == Ok(false) <==> ClearBefore(wps, near, |wps|)
    ensures r == Ok(true) <==>
              exists k :: 0 <= k < |wps| && ClearBefore(wps, near, k)
                          && LocationOf(wps[k]).Ok? && near(LocationOf(wps[k]).value)
    ensures r.Err? <==> exists k :: 0 <= k < |wps| && ClearBefore(wps, near, k) && LocationOf(wps[k]).Err?
    ensures forall k :: 0 <= k < |wps| && ClearBefore(wps, near, k) && LocationOf(wps[k]).Err? ==>
              r == Err(LocationOf(wps[k]).error)
    decreases |wps|
  {
    if wps == [] then Ok(false)
    else
      var r := match LocationOf(wps[0])
        case Err(e) => Err(e)
        case Ok(loc) => if near(loc) then Ok(true) else NearScan(wps[1..], near);
      ClearBeforeTail(wps, near);
      assert forall k :: 1 <= k < |wps| ==> wps[k] == wps[1..][k - 1];
      r
  }

  /** `waypoint.get('safety_score', 100)` as a number, or None when `min` and `<` would reject it. */
  function SafetyScore(w: Value): Option<real>
    requires w.Obj?
  {
    NumVal(Get(w.fields, "safety_score", DefaultSafetyScore))
  }

  /**
    `[waypoint.get('safety_score', 100) for waypoint in waypoints]`, as numbers
    `min` and `<` accept. The comprehension runs to the end before `min` looks
    at a score, so a waypoint that is not a dict (AttributeError on `.get`)
    wins over a score that is not a number (TypeError in `min` or `<`).
   */
  function ScoresOf(wps: seq<Value>): (r: Result<seq<real>>)
    ensures r.Ok? <==> forall k :: 0 <= k < |wps| ==> wps[k].Obj? && SafetyScore(wps[k]).Some?
    ensures r.Ok? ==> |r.value| == |wps|
                      && forall k :: 0 <= k < |wps| ==> Some(r.value[k]) == SafetyScore(wps[k])
    ensures (exists k :: 0 <= k < |wps| && !wps[k].Obj?) ==> r == Err(Uncaught(AttributeFault))
    ensures (forall k :: 0 <= k < |wps| ==> wps[k].Obj?)
            && (exists k :: 0 <= k < |wps| && wps[k].Obj? && SafetyScore(wps[k]).None?) ==>
              r == Err(Uncaught(TypeFault))
  {
    if wps == [] then Ok([])
    else if !wps[0].Obj? then Err(Uncaught(AttributeFault))
    else
      assert forall k :: 1 <= k < |wps| ==> wps[k] == wps[1..][k - 1];
      match ScoresOf(wps[1..])
      case Err(e) => Err(e)
      case Ok(rest) =>
        match SafetyScore(wps[0])
        case None => Err(Uncaught(TypeFault))
        case Some(s) => Ok([s] + rest)
  }

  /** `min(scores)` */
  function MinScore(scores: seq<real>): (m: real)
    requires scores != []
    ensures forall k :: 0 <= k < |scores| ==> m <= scores[k]
    ensures exists k :: 0 <= k < |scores| && scores[k] == m
  {
    if |scores| == 1 then scores[0]
    else
      var rest := MinScore(scores[1..]);
      if scores[0] <= rest then scores[0] else rest
  }

  /** What `_should_reroute` answers once the check interval has passed. */
  function RerouteDecision(route: Record, near: Location -> bool): (r: Result<bool>)
    ensures WaypointsOf(route).Err? ==> r == Err(WaypointsOf(route).error)
    ensures WaypointsOf(route) == Ok([]) ==> r == Ok(false)
    ensures WaypointsOf(route).Ok? ==>
              var wps := WaypointsOf(route).value;
              forall k :: 0 <= k < |wps| && ClearBefore(wps, near, k) && LocationOf(wps[k]).Err? ==>
                r == Err(LocationOf(wps[k]).error)
    ensures WaypointsOf(route).Ok? ==>
              var wps := WaypointsOf(route).value;
              ClearBefore(wps, near, |wps|)
              && (exists k :: 0 <= k < |wps| && wps[k].Obj? && SafetyScore(wps[k]).None?) ==>
                r == Err(Uncaught(TypeFault))
    ensures WaypointsOf(route).Ok? ==>
              var wps := WaypointsOf(route).value;
              forall k :: 0 <= k < |wps| && ClearBefore(wps, near, k) && LocationOf(wps[k]).Ok? ==>
                near(LocationOf(wps[k]).value) ==> r == Ok(true)
    ensures r == Ok(false) ==>
              forall k :: 0 <= k < |WaypointsOf(route).value| ==>
                LocationOf(WaypointsOf(route).value[k]).Ok? && !near(LocationOf(WaypointsOf(route).value[k]).value)
  {
    match WaypointsOf(route)
    case Err(e) => Err(e)
    case Ok(wps) =>
      match NearScan(wps, near)
      case Err(e) => Err(e)
      case Ok(true) => Ok(true)
      case Ok(false) =>
        match ScoresOf(wps)
        case Err(e) => Err(e)
        case Ok(scores) => Ok(scores != [] && MinScore(scores) < ThreatThreshold)
  }

  /** A waypoint the reroute test reads without failing. */
  predicate WellFormedWaypoint(w: Value)
  {
    w.Obj? && "lat" in w.fields && "lng" in w.fields
    && SafetyScore(w).Some?
  }

  function WaypointLocation(w: Value): Location
    requires WellFormedWaypoint(w)
  {
    Location(w.fields["lat"], w.fields["lng"])
  }

  function WaypointScore(w: Value): real
    requires WellFormedWaypoint(w)
  {
    SafetyScore(w).value
  }

  lemma {:induction false} NearScanFinds(wps: seq<Value>, near: Location -> bool)
    requires forall k :: 0 <= k < |wps| ==> WellFormedWaypoint(wps[k])
    ensures NearScan(wps, near) == Ok(exists k :: 0 <= k < |wps| && near(WaypointLocation(wps[k])))
  {
    if wps != [] {
      NearScanFinds(wps[1..], near);
      assert forall k :: 1 <= k < |wps| ==> wps[k] == wps[1..][k - 1];
    }
  }

  /**
    On well-formed waypoints the reroute test is the plain disjunction: some
    waypoint is near a threat, or some waypoint scores below the threshold
    (the minimum does exactly when one does). No waypoints means no reroute.
   */
  lemma RerouteDecisionMeaning(route: Record, near: Location -> bool)
    requires Get(route, "waypoints", Arr([])).Arr?
    requires var wps := Get(route, "waypoints", Arr([])).items;
             forall k :: 0 <= k < |wps| ==> WellFormedWaypoint(wps[k])
    ensures var wps := Get(route, "waypoints", Arr([])).items;
            RerouteDecision(route, near)
            == Ok((exists k :: 0 <= k < |wps| && near(WaypointLocation(wps[k])))
                  || (exists k :: 0 <= k < |wps| && WaypointScore(wps[k]) < ThreatThreshold))
  {
    var wps := Get(route, "waypoints", Arr([])).items;
    NearScanFinds(wps, near);
    var scores := ScoresOf(wps).value;
    if scores != [] {
      var m := MinScore(scores);
      if exists k :: 0 <= k < |wps| && WaypointScore(wps[k]) < ThreatThreshold {
        var k :| 0 <= k < |wps| && WaypointScore(wps[k]) < ThreatThreshold;
        assert m <= scores[k];
      }
    }
  }

  /** `_should_reroute` waits `ThreatCheckInterval` seconds between two checks. */
  predicate Throttled(lastThreatCheck: real, now: real)
    ensures now <= lastThreatCheck ==> Throttled(lastThreatCheck, now)
    ensures lastThreatCheck + ThreatCheckInterval <= now ==> !Throttled(lastThreatCheck, now)
  {
    now - lastThreatCheck < ThreatCheckInterval
  }

  /** `new_route` with the metadata `check_and_reroute` adds to a fresh plan. */
  function Rerouted(planned: Record, current: Record): (r: Record)
    ensures r.Keys == planned.Keys + {"rerouted", "reroute_reason", "previous_route_id"}
    ensures r["rerouted"] == Bool(true) && Truthy(r["rerouted"])
    ensures r["reroute_reason"] == Str(RerouteReason)
    ensures r["previous_route_id"] == Get(current, "id", Null)
    ensures forall key :: key in planned && key !in {"rerouted", "reroute_reason", "previous_route_id"} ==>
              r[key] == planned[key]
  {
    planned["rerouted" := Bool(true)]["reroute_reason" := Str(RerouteReason)]
      ["previous_route_id" := Get(current, "id", Null)]
  }

  /** `current_route.get('start_location', {})` and `current_route.get('end_location', {})` */
  function StartOf(route: Record): Value { Get(route, "start_location", Obj(map[])) }
  function EndOf(route: Record): Value { Get(route, "end_location", Obj(map[])) }

  /** What `check_and_reroute` returns, given the model's last check time. */
  function RerouteOutcome(lastThreatCheck: real, now: real, current: Record,
                          near: Location -> bool, plan: (Value, Value) -> Record): (r: Result<Record>)
    ensures Throttled(lastThreatCheck, now) ==> r == Ok(current)
    ensures !Throttled(lastThreatCheck, now) && RerouteDecision(current, near).Err? ==>
              r == Err(RerouteDecision(current, near).error)
    ensures !Throttled(lastThreatCheck, now) && RerouteDecision(current, near) == Ok(false) ==> r == Ok(current)
    ensures !Throttled(lastThreatCheck, now) && RerouteDecision(current, near) == Ok(true) ==>
              r == Ok(Rerouted(plan(StartOf(current), EndOf(current)), current))
              && Get(r.value, "rerouted", Null) == Bool(true)
              && Get(r.value, "previous_route_id", Null) == Get(current, "id", Null)
  {
    if Throttled(lastThreatCheck, now) then Ok(current)
    else match RerouteDecision(current, near)
      case Err(e) => Err(e)
      case Ok(false) => Ok(current)
      case Ok(true) => Ok(Rerouted(plan(StartOf(current), EndOf(current)), current))
  }

  /** The model object; its only state that changes is the time of the last threat check. */
  class RoutingModel {
    var lastThreatCheck: real

    /** `__init__`: the first check is due `ThreatCheckInterval` seconds after creation. */
    constructor (now: real)
      ensures lastThreatCheck == now
    {
      lastThreatCheck := now;
    }

    /** `_should_reroute` */
    method ShouldReroute(route: Record, now: real, near: Location -> bool) returns (r: Result<bool>)
      modifies this
      ensures Throttled(old(lastThreatCheck), now) ==>
                r == Ok(false) && lastThreatCheck == old(lastThreatCheck)
      ensures !Throttled(old(lastThreatCheck), now) ==>
                r == RerouteDecision(route, near) && lastThreatCheck == now
    {
      if Throttled(lastThreatCheck, now) {
        return Ok(false);
      }
      lastThreatCheck := now;
      var waypoints := WaypointsOf(route);
      if waypoints.Err? {
        return Err(waypoints.error);
      }
      var wps := waypoints.value;
      var i := 0;
      while i < |wps|
        invariant 0 <= i <= |wps|
        invariant NearScan(wps, near) == NearScan(wps[i..], near)
      {
        assert wps[i..][1..] == wps[i + 1..];
        var location := LocationOf(wps[i]);
        if location.Err? {
          return Err(location.error);
        }
        if near(location.value) {
          return Ok(true);
        }
        i := i + 1;
      }
      var scores := ScoresOf(wps);
      if scores.Err? {
        return Err(scores.error);
      }
      return Ok(scores.value != [] && MinScore(scores.value) < ThreatThreshold);
    }

    /** `check_and_reroute` */
    method CheckAndReroute(current: Record, now: real, near: Location -> bool,
                           plan: (Value, Value) -> Record) returns (r: Result<Record>)
      modifies this
      ensures r == RerouteOutcome(old(lastThreatCheck), now, current, near, plan)
      ensures lastThreatCheck == if Throttled(old(lastThreatCheck), now) then old(lastThreatCheck) else now
    {
      var should := ShouldReroute(current, now, near);
      if should.Err? {
        return Err(should.error);
      }
      if !should.value {
        return Ok(current);
      }
      var planned := plan(StartOf(current), EndOf(current));
      return Ok(Rerouted(planned, current));
    }
  }

  /** Right after a check, a second check within the interval returns the route it is given. */
  lemma RecheckWithinIntervalKeepsRoute(checkedAt: real, now: real, route: Record,
                                        near: Location -> bool, plan: (Value, Value) -> Record)
    requires checkedAt <= now < checkedAt + ThreatCheckInterval
    ensures RerouteOutcome(checkedAt, now, route, near, plan) == Ok(route)
  {
  }

  // ---------------------------------------------------------------------------
  // Assembling a planned route

  /** `k` parent steps lead from `p` to `s`. */
  predicate LeadsTo(cameFrom: map<Point, Point>, p: Point, s: Point, k: nat)
    decreases k
  {
    if k == 0 then p == s else p in cameFrom && LeadsTo(cameFrom, cameFrom[p], s, k - 1)
  }

  function Reversed(s: seq<Point>): (r: seq<Point>)
    ensures |r| == |s|
    ensures forall i :: 0 <= i < |s| ==> r[i] == s[|s| - 1 - i]
  {
    if s == [] then [] else Reversed(s[1..]) + [s[0]]
  }

  /**
    The path reconstruction of `find_optimal_route`: follow parent pointers
    from `end` while there is one, append `start`, reverse. The search never
    gives `start` a parent, and every point it reaches has a parent chain
    back to `start`.
   */
  method ReconstructPath(cameFrom: map<Point, Point>, start: Point, end: Point) returns (path: seq<Point>)
    requires start !in cameFrom
    requires exists k :: LeadsTo(cameFrom, end, start, k)
    ensures |path| >= 1 && path[0] == start && path[|path| - 1] == end
    ensures forall i :: 0 < i < |path| ==> path[i] in cameFrom && cameFrom[path[i]] == path[i - 1]
    ensures LeadsTo(cameFrom, end, start, |path| - 1)
    ensures start == end ==> path == [start]
  {
    ghost var k: nat :| LeadsTo(cameFrom, end, start, k);
    var trail: seq<Point> := [];
    var current := end;
    while current in cameFrom
      invariant |trail| <= k
      invariant LeadsTo(cameFrom, current, start, k - |trail|)
      invariant trail == [] ==> current == end
      invariant trail != [] ==> trail[0] == end && trail[|trail| - 1] in cameFrom
                                && cameFrom[trail[|trail| - 1]] == current
      invariant forall i :: 0 <= i < |trail| - 1 ==> trail[i] in cameFrom && cameFrom[trail[i]] == trail[i + 1]
      decreases k - |trail|
    {
      trail := trail + [current];
      current := cameFrom[current];
    }
    assert current == start && |trail| == k;
    var full := trail + [start];
    path := Reversed(full);
    assert forall j :: 0 <= j < |full| - 1 ==> full[j] in cameFrom && cameFrom[full[j]] == full[j + 1];
    forall i | 0 < i < |path|
      ensures path[i] in cameFrom && cameFrom[path[i]] == path[i - 1]
    {
      assert path[i] == full[|full| - 1 - i] && path[i - 1] == full[|full| - 1 - i + 1];
    }
  }

  function DigitChar(d: nat): char
    requires d < 10
  {
    ('0' as int + d) as char
  }

  /** `str(n)` for a natural number. */
  function Decimal(n: nat): (s: string)
    ensures |s| >= 1
    ensures forall i :: 0 <= i < |s| ==> '0' <= s[i] <= '9'
    ensures n == 0 ==> s == "0"
    ensures n > 0 ==> s[0] != '0'
  {
    if n < 10 then [DigitChar(n)] else Decimal(n / 10) + [DigitChar(n % 10)]
  }

  /** The number a string of digits denotes. */
  function DecimalValue(s: string): nat
    requires forall i :: 0 <= i < |s| ==> '0' <= s[i] <= '9'
  {
    if s == [] then 0 else DecimalValue(s[..|s| - 1]) * 10 + (s[|s| - 1] as int - '0' as int)
  }

  lemma {:induction false} DecimalRoundTrip(n: nat)
    ensures DecimalValue(Decimal(n)) == n
  {
    if n >= 10 {
      DecimalRoundTrip(n / 10);
      var s := Decimal(n);
      assert s[..|s| - 1] == Decimal(n / 10);
    }
  }

  /** The `address` of waypoint `i` on a path of `n` points. */
  function WaypointLabel(i: nat, n: nat): string
    requires i < n
  {
    if i == 0 then "Starting Point"
    else if i == n - 1 then "Destination"
    else "Waypoint " + Decimal(i + 1)
  }

  /**
    The first point is the starting point even on a one-point path, the last
    one is the destination, and a point in between is named by its 1-based
    position.
   */
  lemma WaypointLabelShape(i: nat, n: nat)
    requires i < n
    ensures i == 0 ==> WaypointLabel(i, n) == "Starting Point"
    ensures 0 < i && i == n - 1 ==> WaypointLabel(i, n) == "Destination"
    ensures 0 < i < n - 1 ==>
              var name := WaypointLabel(i, n);
              |name| > 9 && name[..9] == "Waypoint "
              && (forall c :: 9 <= c < |name| ==> '0' <= name[c] <= '9')
              && DecimalValue(name[9..]) == i + 1
  {
    if 0 < i < n - 1 {
      var name := WaypointLabel(i, n);
      assert name[9..] == Decimal(i + 1);
      DecimalRoundTrip(i + 1);
    }
  }

  /** No two waypoints of one path share an address. */
  lemma LabelsDistinct(n: nat, i: nat, j: nat)
    requires i < n && j < n && i != j
    ensures WaypointLabel(i, n) != WaypointLabel(j, n)
  {
    WaypointLabelShape(i, n);
    WaypointLabelShape(j, n);
    var a, b := WaypointLabel(i, n), WaypointLabel(j, n);
    if 0 < i < n - 1 && 0 < j < n - 1 {
    } else if 0 < i < n - 1 {
      assert a[0] == 'W' && b[0] != 'W';
    } else if 0 < j < n - 1 {
      assert b[0] == 'W' && a[0] != 'W';
    } else {
      assert a[0] != b[0];
    }
  }

  /** One waypoint dict of a planned route. */
  function WaypointValue(p: Point, address: string, elevation: Value, score: real): Value
  {
    Obj(map["lat" := Real(p.lat), "lng" := Real(p.lng), "address" := Str(address),
            "elevation" := elevation, "safety_score" := Real(score)])
  }

  /** A waypoint dict carries its point, address, elevation and score, and the reroute test can read it. */
  lemma WaypointValueShape(p: Point, address: string, elevation: Value, score: real)
    ensures var w := WaypointValue(p, address, elevation, score);
            WellFormedWaypoint(w)
            && WaypointLocation(w) == Location(Real(p.lat), Real(p.lng)) && WaypointScore(w) == score
            && w.fields.Keys == {"lat", "lng", "address", "elevation", "safety_score"}
            && w.fields["address"] == Str(address) && w.fields["elevation"] == elevation
  {
  }

  /** `map_data.get('elevation', {}).get(point, 0)` */
  function ElevationAt(elevation: map<Point, Value>, p: Point): Value
  {
    if p in elevation then elevation[p] else Int(0)
  }

  /** Waypoint `i` of the route planned along `path`. */
  function PlannedWaypoint(path: seq<Point>, elevation: map<Point, Value>, score: Point -> real, i: nat): Value
    requires i < |path|
  {
    WaypointValue(path[i], WaypointLabel(i, |path|), ElevationAt(elevation, path[i]), score(path[i]))
  }

  /** The first `n` waypoints of the route planned along `path`, in path order. */
  function PlannedPrefix(path: seq<Point>, elevation: map<Point, Value>, score: Point -> real, n: nat): (r: seq<Value>)
    requires n <= |path|
    ensures |r| == n
    ensures forall i :: 0 <= i < n ==> r[i] == PlannedWaypoint(path, elevation, score, i)
  {
    if n == 0 then [] else PlannedPrefix(path, elevation, score, n - 1) + [PlannedWaypoint(path, elevation, score, n - 1)]
  }

  /** The waypoint loop of `find_optimal_route` (distances and the average score are left out). */
  method BuildWaypoints(path: seq<Point>, elevation: map<Point, Value>, score: Point -> real)
    returns (waypoints: seq<Value>)
    ensures |waypoints| == |path|
    ensures forall i :: 0 <= i < |path| ==> waypoints[i] == PlannedWaypoint(path, elevation, score, i)
  {
    waypoints := [];
    var i := 0;
    while i < |path|
      invariant 0 <= i <= |path|
      invariant waypoints == PlannedPrefix(path, elevation, score, i)
    {
      waypoints := waypoints + [PlannedWaypoint(path, elevation, score, i)];
      i := i + 1;
    }
  }

  /**
    For a route whose waypoints were built from a planned path, the reroute test
    never fails, and asks exactly whether some path point is near a threat or
    has a predicted score below the threshold.
   */
  lemma PlannedRouteDecision(route: Record, path: seq<Point>, elevation: map<Point, Value>,
                             score: Point -> real, near: Location -> bool)
    requires "waypoints" in route && route["waypoints"].Arr?
    requires var wps := route["waypoints"].items;
             |wps| == |path| && forall i :: 0 <= i < |path| ==> wps[i] == PlannedWaypoint(path, elevation, score, i)
    ensures RerouteDecision(route, near)
            == Ok((exists i :: 0 <= i < |path| && near(Location(Real(path[i].lat), Real(path[i].lng))))
                  || (exists i :: 0 <= i < |path| && score(path[i]) < ThreatThreshold))
  {
    var wps := route["waypoints"].items;
    forall i | 0 <= i < |path|
      ensures WellFormedWaypoint(wps[i])
      ensures WaypointLocation(wps[i]) == Location(Real(path[i].lat), Real(path[i].lng))
      ensures WaypointScore(wps[i]) == score(path[i])
    {
      WaypointValueShape(path[i], WaypointLabel(i, |path|), ElevationAt(elevation, path[i]), score(path[i]));
    }
    RerouteDecisionMeaning(route, near);
    if exists i :: 0 <= i < |path| && near(Location(Real(path[i].lat), Real(path[i].lng))) {
      var i :| 0 <= i < |path| && near(Location(Real(path[i].lat), Real(path[i].lng)));
      assert near(WaypointLocation(wps[i]));
    }
    if exists i :: 0 <= i < |path| && score(path[i]) < ThreatThreshold {
      var i :| 0 <= i < |path| && score(path[i]) < ThreatThreshold;
      assert WaypointScore(wps[i]) < ThreatThreshold;
    }
  }

  /** The route `find_optimal_route` returns when the search runs out of points. */
  function NoPathResult(startLocation: Value, endLocation: Value, now: real): (r: Record)
    ensures r.Keys == {"start_location", "end_location", "waypoints", "total_distance", "estimated_time",
                       "safety_score", "threat_responsive", "error", "last_updated"}
    ensures r["waypoints"] == Arr([]) && r["error"] == Str("No path found")
    ensures r["total_distance"] == Int(0) && r["estimated_time"] == Int(0) && r["safety_score"] == Int(0)
    ensures r["start_location"] == startLocation && r["end_location"] == endLocation
    ensures r["threat_responsive"] == Bool(true) && r["last_updated"] == Real(now)
  {
    map[
      "start_location" := startLocation,
      "end_location" := endLocation,
      "waypoints" := Arr([]),
      "total_distance" := Int(0),
      "estimated_time" := Int(0),
      "safety_score" := Int(0),
      "threat_responsive" := Bool(true),
      "error" := Str("No path found"),
      "last_updated" := Real(now)
    ]
  }

  /** A no-path result has nothing to check, so on its own it never triggers a reroute. */
  lemma NoPathNeverReroutes(startLocation: Value, endLocation: Value, now: real, near: Location -> bool)
    ensures RerouteDecision(NoPathResult(startLocation, endLocation, now), near) == Ok(false)
  {
  }
}
