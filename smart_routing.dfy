/**
  The smart-routing API router: the stored list of planned routes, the
  threat list it appends to, the background pass that re-checks recent
  routes, and the request validation of its endpoints. The stored files are
  fields of `SmartRoutingApi`; what a load returned is a `Stored` value.
 */
module SmartRouting {
  import opened Json
  import opened ThreatModel
  import Records

  /**
    What loading a store file gave: a list of dicts, or some other document
    (`{}` when the file is missing or unreadable) of which only its `len`
    is ever used.
   */
  datatype Stored = List(items: seq<Record>) | Dict(size: nat)

  /** The list a handler works on: stored content that is not a list counts as `[]`. */
  function Items(s: Stored): seq<Record>
  {
    if s.List? then s.items else []
  }

  /** `len(...)` of the loaded document, list or not. */
  function RawLen(s: Stored): nat
  {
    match s
    case List(items) => |items|
    case Dict(size) => size
  }

  const MissingRouteEnds: string := "Missing required parameters: start_location and end_location"
  const MissingLocation: string := "Missing required parameter: location"
  const MissingFeedbackFields: string := "Missing required parameters: route_id and rating"
  const RouteNotFound: string := "Route not found"
  const ModelVersion: string := "1.0.0"
  const ThreatAdded: string := "Threat added and route recalculation triggered"
  /** Routes whose `last_updated` is further back than this many seconds are not re-checked. */
  const MaxRouteAge: real := 3600.0

  // ---------------------------------------------------------------------------
  // Finding and replacing a stored route

  /** `route.get('id') == route_id` */
  predicate Matches(route: Record, id: Value)
    ensures "id" !in route ==> (Matches(route, id) <==> id == Null)
    ensures "id" in route && route["id"].Int? && id.Int? ==> (Matches(route, id) <==> route["id"].i == id.i)
  {
    PyEquals(Get(route, "id", Null), id)
  }

  /** The index of the first route whose id equals `id`. */
  function FirstMatch(routes: seq<Record>, id: Value): (k: Option<nat>)
    ensures k.Some? ==> k.value < |routes| && Matches(routes[k.value], id)
    ensures k.Some? ==> forall j :: 0 <= j < k.value ==> !Matches(routes[j], id)
    ensures k.None? <==> forall j :: 0 <= j < |routes| ==> !Matches(routes[j], id)
  {
    if routes == [] then None
    else if Matches(routes[0], id) then Some(0)
    else match FirstMatch(routes[1..], id)
      case None => None
      case Some(k) => Some(k + 1)
  }

  /** The list `update_route_data` writes back. */
  function ReplaceFirst(routes: seq<Record>, id: Value, updated: Record): (r: seq<Record>)
    ensures |r| == |routes|
    ensures forall j :: 0 <= j < |routes| ==>
              r[j] == if FirstMatch(routes, id) == Some(j) then updated else routes[j]
    ensures (forall j :: 0 <= j < |routes| ==> !Matches(routes[j], id)) ==> r == routes
  {
    match FirstMatch(routes, id)
    case None => routes
    case Some(k) => routes[k := updated]
  }

  /**
    Replacing a route by one carrying the same id leaves it the first match:
    a later lookup of that id finds the replacement.
   */
  lemma ReplaceFirstThenFind(routes: seq<Record>, id: Value, updated: Record)
    requires Matches(updated, id)
    ensures FirstMatch(ReplaceFirst(routes, id, updated), id) == FirstMatch(routes, id)
    ensures FirstMatch(routes, id).Some? ==>
              ReplaceFirst(routes, id, updated)[FirstMatch(routes, id).value] == updated
  {
    var r := ReplaceFirst(routes, id, updated);
    match FirstMatch(routes, id)
    case None =>
    case Some(k) =>
      assert r == routes[k := updated];
      assert forall j :: 0 <= j < k ==> !Matches(r[j], id);
      assert Matches(r[k], id);
      var k' := FirstMatch(r, id);
      assert k'.Some?;
      assert !(k'.value < k) && !(k < k'.value);
  }

  /** Writing the same route under its own id twice is writing it once. */
  lemma ReplaceFirstIdempotent(routes: seq<Record>, id: Value, updated: Record)
    requires Matches(updated, id)
    ensures ReplaceFirst(ReplaceFirst(routes, id, updated), id, updated) == ReplaceFirst(routes, id, updated)
  {
    ReplaceFirstThenFind(routes, id, updated);
  }

  /**
    Every route of `after` is the one at the same place in `before`, or a
    rerouted route stored under an id equal, in Python's sense, to the old one.
   */
  predicate KeepsIds(before: seq<Record>, after: seq<Record>)
  {
    |after| == |before|
    && forall k :: 0 <= k < |before| ==>
         after[k] == before[k]
         || (Truthy(Get(after[k], "rerouted", Bool(false)))
             && PyEquals(Get(after[k], "id", Null), Get(before[k], "id", Null)))
  }

  /** Storing a rerouted route under the id it is looked up by keeps `KeepsIds`. */
  lemma ReplaceFirstKeepsIds(before: seq<Record>, current: seq<Record>, id: Value, updated: Record)
    requires KeepsIds(before, current)
    requires Get(updated, "id", Null) == id && Truthy(Get(updated, "rerouted", Bool(false)))
    ensures KeepsIds(before, ReplaceFirst(current, id, updated))
  {
    var r := ReplaceFirst(current, id, updated);
    forall k | 0 <= k < |before|
      ensures r[k] == before[k]
              || (Truthy(Get(r[k], "rerouted", Bool(false)))
                  && PyEquals(Get(r[k], "id", Null), Get(before[k], "id", Null)))
    {
      if r[k] != current[k] {
        assert r[k] == updated && Matches(current[k], id);
        PyEqualsIsEquivalence(Get(updated, "id", Null), Get(current[k], "id", Null), Get(before[k], "id", Null));
        PyEqualsIsEquivalence(Get(current[k], "id", Null), id, Null);
      }
    }
  }

  /**
    Whether the background pass skips a route as stale: its `last_updated`,
    0 when absent, is more than an hour before `now`. A value that cannot be
    subtracted from a number raises.
   */
  function Stale(route: Record, now: real): (r: Result<bool>)
    ensures r.Err? <==> NumVal(Get(route, "last_updated", Int(0))).None?
    ensures r.Err? ==> r.error == Uncaught(TypeFault)
    ensures r.Ok? ==> (r.value <==> now - NumVal(Get(route, "last_updated", Int(0))).value > MaxRouteAge)
  {
    match NumVal(Get(route, "last_updated", Int(0)))
    case None => Err(Uncaught(TypeFault))
    case Some(t) => Ok(now - t > MaxRouteAge)
  }

  /** A route that never recorded `last_updated` is stale once the clock is past the first hour. */
  lemma NeverUpdatedIsStale(route: Record, now: real)
    requires "last_updated" !in route && now > MaxRouteAge
    ensures Stale(route, now) == Ok(true)
  {
  }

  // ---------------------------------------------------------------------------
  // The background pass

  /** What a pass ends with: its outcome, the stored route list, and the model's last check time. */
  datatype PassResult = PassResult(outcome: Result<()>, stored: seq<Record>, checkedAt: real)

  /**
    The loop of `monitor_threats_and_reroute` over the routes `todo` still to
    visit, starting from the stored list `stored` and the model's last check
    time `checkedAt`: skip a stale route, otherwise run `check_and_reroute`
    and store a result marked rerouted under the visited route's id.
   */
  function Pass(todo: seq<Record>, stored: seq<Record>, checkedAt: real, now: real,
                near: Location -> bool, plan: (Value, Value) -> Record): (r: PassResult)
    ensures |r.stored| == |stored|
    ensures r.checkedAt == checkedAt || r.checkedAt == now
    decreases |todo|
  {
    if todo == [] then PassResult(Ok(()), stored, checkedAt)
    else
      var route := todo[0];
      match Stale(route, now)
      case Err(e) => PassResult(Err(e), stored, checkedAt)
      case Ok(true) => Pass(todo[1..], stored, checkedAt, now, near, plan)
      case Ok(false) =>
        var checked := if Throttled(checkedAt, now) then checkedAt else now;
        match RerouteOutcome(checkedAt, now, route, near, plan)
        case Err(e) => PassResult(Err(e), stored, checked)
        case Ok(newRoute) =>
          if Truthy(Get(newRoute, "rerouted", Bool(false))) then
            var id := Get(route, "id", Null);
            Pass(todo[1..], ReplaceFirst(stored, id, newRoute["id" := id]), checked, now, near, plan)
          else Pass(todo[1..], stored, checked, now, near, plan)
  }

  /** A pass stores rerouted routes only under ids equal to the ones they replace. */
  lemma {:induction false} PassKeepsIds(before: seq<Record>, todo: seq<Record>, stored: seq<Record>, checkedAt: real,
                                        now: real, near: Location -> bool, plan: (Value, Value) -> Record)
    requires KeepsIds(before, stored)
    ensures KeepsIds(before, Pass(todo, stored, checkedAt, now, near, plan).stored)
    decreases |todo|
  {
    if todo != [] {
      var route := todo[0];
      if Stale(route, now) == Ok(true) {
        PassKeepsIds(before, todo[1..], stored, checkedAt, now, near, plan);
      } else if Stale(route, now) == Ok(false) {
        var checked := if Throttled(checkedAt, now) then checkedAt else now;
        var outcome := RerouteOutcome(checkedAt, now, route, near, plan);
        if outcome.Ok? {
          if Truthy(Get(outcome.value, "rerouted", Bool(false))) {
            var id := Get(route, "id", Null);
            var w := outcome.value["id" := id];
            assert Get(w, "rerouted", Bool(false)) == Get(outcome.value, "rerouted", Bool(false));
            ReplaceFirstKeepsIds(before, stored, id, w);
            PassKeepsIds(before, todo[1..], ReplaceFirst(stored, id, w), checked, now, near, plan);
          } else {
            PassKeepsIds(before, todo[1..], stored, checked, now, near, plan);
          }
        }
      }
    }
  }

  /** A pass over routes that are all stale changes nothing. */
  lemma {:induction false} PassAllStale(todo: seq<Record>, stored: seq<Record>, checkedAt: real,
                                        now: real, near: Location -> bool, plan: (Value, Value) -> Record)
    requires forall k :: 0 <= k < |todo| ==> Stale(todo[k], now) == Ok(true)
    ensures Pass(todo, stored, checkedAt, now, near, plan) == PassResult(Ok(()), stored, checkedAt)
    decreases |todo|
  {
    if todo != [] {
      assert forall k :: 0 <= k < |todo[1..]| ==> todo[1..][k] == todo[k + 1];
      PassAllStale(todo[1..], stored, checkedAt, now, near, plan);
    }
  }

  /**
    With one clock value for the pass, once a check has got past the throttle
    every later check is throttled: the rest of the pass consults neither the
    threat test nor the planner, and the last check time stays `now`.
   */
  lemma {:induction false} PassAfterCheck(todo: seq<Record>, stored: seq<Record>, now: real,
                                          near: Location -> bool, near': Location -> bool,
                                          plan: (Value, Value) -> Record, plan': (Value, Value) -> Record)
    ensures Pass(todo, stored, now, now, near, plan) == Pass(todo, stored, now, now, near', plan')
    ensures Pass(todo, stored, now, now, near, plan).checkedAt == now
    decreases |todo|
  {
    if todo != [] {
      var route := todo[0];
      assert RerouteOutcome(now, now, route, near, plan) == Ok(route) == RerouteOutcome(now, now, route, near', plan');
      if Stale(route, now) == Ok(true) {
        PassAfterCheck(todo[1..], stored, now, near, near', plan, plan');
      } else if Stale(route, now) == Ok(false) {
        if Truthy(Get(route, "rerouted", Bool(false))) {
          var id := Get(route, "id", Null);
          PassAfterCheck(todo[1..], ReplaceFirst(stored, id, route["id" := id]), now, near, near', plan, plan');
        } else {
          PassAfterCheck(todo[1..], stored, now, near, near', plan, plan');
        }
      }
    }
  }

  /**
    A recent route whose check is due and finds a threat is re-planned
    between its own end points, and the new plan is stored under its id.
   */
  lemma FreshDueRouteIsReplanned(route: Record, rest: seq<Record>, stored: seq<Record>, checkedAt: real,
                                 now: real, near: Location -> bool, plan: (Value, Value) -> Record)
    requires Stale(route, now) == Ok(false) && !Throttled(checkedAt, now)
    requires RerouteDecision(route, near) == Ok(true)
    ensures var id := Get(route, "id", Null);
            var w := Rerouted(plan(StartOf(route), EndOf(route)), route)["id" := id];
            Pass([route] + rest, stored, checkedAt, now, near, plan)
            == Pass(rest, ReplaceFirst(stored, id, w), now, now, near, plan)
            && Get(w, "id", Null) == id && Truthy(Get(w, "rerouted", Bool(false)))
  {
    assert ([route] + rest)[1..] == rest;
  }

  // ---------------------------------------------------------------------------
  // Records the endpoints build

  /** The route `calculate_smart_route` stores and answers with. */
  function NewSmartRoute(planned: Record, id: int, stamp: string, terrain: Value): (r: Record)
    ensures r.Keys == planned.Keys + {"id", "created_at", "model_version", "terrain_type"}
    ensures r["id"] == Int(id) && r["created_at"] == Str(stamp)
    ensures r["model_version"] == Str(ModelVersion) && r["terrain_type"] == terrain
    ensures forall key :: key in planned && key !in {"id", "created_at", "model_version", "terrain_type"} ==>
              r[key] == planned[key]
  {
    planned["id" := Int(id)]["created_at" := Str(stamp)]["model_version" := Str(ModelVersion)]
      ["terrain_type" := terrain]
  }

  /** The threat `add_threat` stores: the payload with an id, a creation time and a severity. */
  function NewThreat(threat: Record, id: int, stamp: string): (r: Record)
    ensures r.Keys == threat.Keys + {"id", "created_at", "severity"}
    ensures r["id"] == Int(id) && r["created_at"] == Str(stamp)
    ensures "severity" in threat ==> r["severity"] == threat["severity"]
    ensures "severity" !in threat ==> r["severity"] == Str("high")
    ensures forall key :: key in threat && key !in {"id", "created_at"} ==> r[key] == threat[key]
  {
    threat["id" := Int(id)]["created_at" := Str(stamp)]["severity" := Get(threat, "severity", Str("high"))]
  }

  function ThreatAck(id: int): (r: Record)
    ensures r.Keys == {"success", "message", "threat_id"}
    ensures Truthy(r["success"]) && PyEquals(r["threat_id"], Int(id))
  {
    map["success" := Bool(true), "message" := Str(ThreatAdded), "threat_id" := Int(id)]
  }

  // ---------------------------------------------------------------------------
  // The router and its stored files

  class SmartRoutingApi {
    /** The content of `smart_routes.json`. */
    var smartRoutes: Stored
    /** The content of `threats.json`. */
    var threats: Stored
    /** The module-level model instance the handlers share. */
    const model: RoutingModel

    constructor (smartRoutes: Stored, threats: Stored, model: RoutingModel)
      ensures this.smartRoutes == smartRoutes && this.threats == threats && this.model == model
    {
      this.smartRoutes := smartRoutes;
      this.threats := threats;
      this.model := model;
    }

    /** `save_route_data`: append one route to the stored list. */
    method SaveRouteData(route: Record)
      modifies this
      ensures smartRoutes == List(Items(old(smartRoutes)) + [route])
      ensures threats == old(threats)
    {
      var routes := Items(smartRoutes);
      smartRoutes := List(routes + [route]);
    }

    /** `update_route_data`: replace the first route whose id equals `id`. */
    method UpdateRouteData(id: Value, updated: Record)
      modifies this
      ensures smartRoutes == List(ReplaceFirst(Items(old(smartRoutes)), id, updated))
      ensures threats == old(threats)
    {
      var routes := Items(smartRoutes);
      ghost var loaded := routes;
      var i := 0;
      while i < |routes|
        invariant 0 <= i <= |routes|
        invariant routes == loaded
        invariant forall j :: 0 <= j < i ==> !Matches(loaded[j], id)
      {
        if Matches(routes[i], id) {
          routes := routes[i := updated];
          break;
        }
        i := i + 1;
      }
      smartRoutes := List(routes);
    }

    /**
      `monitor_threats_and_reroute`, run as one call at time `now`: every
      route updated within the last hour is re-checked, and a rerouted result
      is stored under the id of the route it replaces.
     */
    method MonitorThreatsAndReroute(now: real, near: Location -> bool, plan: (Value, Value) -> Record)
      returns (r: Result<()>)
      modifies this, model
      ensures threats == old(threats)
      ensures !old(smartRoutes).List? || old(smartRoutes).items == [] ==>
                r == Ok(()) && smartRoutes == old(smartRoutes)
                && model.lastThreatCheck == old(model.lastThreatCheck)
      ensures old(smartRoutes).List? && old(smartRoutes).items != [] ==>
                var pass := Pass(old(smartRoutes).items, old(smartRoutes).items, old(model.lastThreatCheck), now, near, plan);
                r == pass.outcome && smartRoutes == List(pass.stored) && model.lastThreatCheck == pass.checkedAt
    {
      if !smartRoutes.List? || smartRoutes.items == [] {
        return Ok(());
      }
      var routes := smartRoutes.items;
      ghost var pass := Pass(routes, routes, model.lastThreatCheck, now, near, plan);
      var i := 0;
      while i < |routes|
        invariant 0 <= i <= |routes|
        invariant threats == old(threats)
        invariant smartRoutes.List?
        invariant Pass(routes[i..], smartRoutes.items, model.lastThreatCheck, now, near, plan) == pass
      {
        assert routes[i..][1..] == routes[i + 1..];
        ghost var stored, checkedAt := smartRoutes.items, model.lastThreatCheck;
        var route := routes[i];
        var stale := Stale(route, now);
        if stale.Err? {
          return Err(stale.error);
        }
        if !stale.value {
          var newRoute := model.CheckAndReroute(route, now, near, plan);
          assert Pass(routes[i..], stored, checkedAt, now, near, plan) == pass;
          if newRoute.Err? {
            return Err(newRoute.error);
          }
          if Truthy(Get(newRoute.value, "rerouted", Bool(false))) {
            var id := Get(route, "id", Null);
            UpdateRouteData(id, newRoute.value["id" := id]);
            assert Pass(routes[i + 1..], smartRoutes.items, model.lastThreatCheck, now, near, plan) == pass;
          }
        }
        i := i + 1;
      }
      assert routes[i..] == [];
      return Ok(());
    }

    /**
      `calculate_smart_route`: plan between the two given locations, number
      the route one past the length of the stored document, and store it.
     */
    method CalculateSmartRoute(data: Record, stamp: string, plan: (Value, Value) -> Record)
      returns (r: Result<Record>)
      modifies this
      ensures threats == old(threats)
      ensures "start_location" !in data || "end_location" !in data ==>
                r == Err(BadRequest(MissingRouteEnds)) && smartRoutes == old(smartRoutes)
      ensures "start_location" in data && "end_location" in data ==>
                r == Ok(NewSmartRoute(plan(data["start_location"], data["end_location"]),
                                      RawLen(old(smartRoutes)) + 1, stamp, Get(data, "terrain_type", Str("urban"))))
                && smartRoutes == List(Items(old(smartRoutes)) + [r.value])
    {
      if "start_location" !in data || "end_location" !in data {
        return Err(BadRequest(MissingRouteEnds));
      }
      var planned := plan(data["start_location"], data["end_location"]);
      var route := NewSmartRoute(planned, RawLen(smartRoutes) + 1, stamp, Get(data, "terrain_type", Str("urban")));
      SaveRouteData(route);
      return Ok(route);
    }

    /**
      `get_smart_route`: the first stored route with the requested id, after
      a reroute check; a rerouted result is stored and answered under that id.
     */
    method GetSmartRoute(routeId: int, now: real, near: Location -> bool, plan: (Value, Value) -> Record)
      returns (r: Result<Record>)
      modifies this, model
      ensures threats == old(threats)
      ensures FirstMatch(Items(old(smartRoutes)), Int(routeId)).None? ==>
                r == Err(NotFound(RouteNotFound)) && smartRoutes == old(smartRoutes)
                && model.lastThreatCheck == old(model.lastThreatCheck)
      ensures FirstMatch(Items(old(smartRoutes)), Int(routeId)).Some? ==>
                var route := Items(old(smartRoutes))[FirstMatch(Items(old(smartRoutes)), Int(routeId)).value];
                var outcome := RerouteOutcome(old(model.lastThreatCheck), now, route, near, plan);
                && model.lastThreatCheck
                   == (if Throttled(old(model.lastThreatCheck), now) then old(model.lastThreatCheck) else now)
                && (outcome.Err? ==> r == Err(outcome.error) && smartRoutes == old(smartRoutes))
                && (outcome.Ok? && Truthy(Get(outcome.value, "rerouted", Bool(false))) ==>
                      r == Ok(outcome.value["id" := Int(routeId)])
                      && smartRoutes == List(ReplaceFirst(Items(old(smartRoutes)), Int(routeId), r.value)))
                && (outcome.Ok? && !Truthy(Get(outcome.value, "rerouted", Bool(false))) ==>
                      r == Ok(route) && smartRoutes == old(smartRoutes))
    {
      var routes := Items(smartRoutes);
      var i := 0;
      while i < |routes|
        invariant 0 <= i <= |routes|
        invariant forall j :: 0 <= j < i ==> !Matches(routes[j], Int(routeId))
      {
        var route := routes[i];
        if Matches(route, Int(routeId)) {
          var newRoute := model.CheckAndReroute(route, now, near, plan);
          if newRoute.Err? {
            return Err(newRoute.error);
          }
          if Truthy(Get(newRoute.value, "rerouted", Bool(false))) {
            var stored := newRoute.value["id" := Int(routeId)];
            UpdateRouteData(Int(routeId), stored);
            return Ok(stored);
          }
          return Ok(route);
        }
        i := i + 1;
      }
      return Err(NotFound(RouteNotFound));
    }

    /**
      `add_threat`: number the threat one past the length of the stored list,
      default its severity, and append it.
     */
    method AddThreat(threat: Record, stamp: string) returns (r: Result<Record>)
      modifies this
      ensures smartRoutes == old(smartRoutes)
      ensures "location" !in threat ==> r == Err(BadRequest(MissingLocation)) && threats == old(threats)
      ensures "location" in threat ==>
                r == Ok(ThreatAck(|Items(old(threats))| + 1))
                && threats == List(Items(old(threats)) + [NewThreat(threat, |Items(old(threats))| + 1, stamp)])
    {
      if "location" !in threat {
        return Err(BadRequest(MissingLocation));
      }
      var stored := Items(threats);
      var newId := |stored| + 1;
      threats := List(stored + [NewThreat(threat, newId, stamp)]);
      return Ok(ThreatAck(newId));
    }
  }

  // ---------------------------------------------------------------------------
  // Route feedback

  /** The answer to `provide_route_feedback`; its message text is not modelled. */
  datatype FeedbackReply = FeedbackReply(success: bool, willUpdateModel: bool)

  /** `provide_route_feedback`: only ratings below 3 are meant to retrain the model. */
  function ProvideRouteFeedback(data: Record): (r: Result<FeedbackReply>)
    ensures r == Err(BadRequest(MissingFeedbackFields)) <==> "route_id" !in data || "rating" !in data
    ensures r == Err(Uncaught(TypeFault)) <==>
              "route_id" in data && "rating" in data && NumVal(data["rating"]).None?
    ensures r.Ok? ==> r.value.success
    ensures r.Ok? ==> "rating" in data && NumVal(data["rating"]).Some?
                      && (r.value.willUpdateModel <==> NumVal(data["rating"]).value < 3.0)
  {
    if "route_id" !in data || "rating" !in data then Err(BadRequest(MissingFeedbackFields))
    else match NumVal(data["rating"])
      case None => Err(Uncaught(TypeFault))
      case Some(rating) => Ok(FeedbackReply(true, rating < 3.0))
  }

  /** For a whole-number rating, exactly ratings of 2 or less ask for retraining. */
  lemma FeedbackOnWholeStars(data: Record, stars: int)
    requires "route_id" in data && "rating" in data && data["rating"] == Int(stars)
    ensures ProvideRouteFeedback(data).Ok?
    ensures ProvideRouteFeedback(data).value.willUpdateModel <==> stars <= 2
  {
  }

  // ---------------------------------------------------------------------------
  // Length-based ids against the maximum-based ids of the record tables

  /** Ids 1, 2, ..., n in order: a table only ever appended to. */
  predicate NumberedFromOne(rows: seq<Record>)
  {
    forall k :: 0 <= k < |rows| ==> rows[k].Keys >= {"id"} && rows[k]["id"] == Int(k + 1)
  }

  /** On a table only ever appended to, `len + 1` is the same id the record tables assign. */
  lemma LengthIdAgreesWithNextId(rows: seq<Record>)
    requires NumberedFromOne(rows)
    ensures Records.AllHaveIntIds(rows)
    ensures |rows| + 1 == Records.NextId(rows)
  {
    assert forall k :: 0 <= k < |rows| ==> Records.IdOf(rows[k]) == k + 1;
    if rows != [] {
      assert Records.IdOf(rows[|rows| - 1]) == |rows|;
    }
  }

  /**
    Once the record tables delete threat 1 from threats numbered 1..n, the
    next `add_threat` id, `len + 1`, is the id the last threat already has,
    while the tables' own next id is still fresh.
   */
  lemma LengthIdCollidesAfterDelete(rows: seq<Record>)
    requires NumberedFromOne(rows) && |rows| >= 2
    ensures Records.AllHaveIntIds(rows) && Records.FirstIndex(rows, 1) == Some(0)
    ensures Records.AllHaveIntIds(Records.WithoutIndex(rows, 0))
    ensures var rest := Records.WithoutIndex(rows, 0);
            |Items(List(rest))| + 1 == |rows|
            && rest[|rest| - 1]["id"] == Int(|Items(List(rest))| + 1)
            && Records.NextId(rest) == |rows| + 1
  {
    assert Records.AllHaveIntIds(rows);
    assert Records.IdOf(rows[0]) == 1;
    var rest := Records.WithoutIndex(rows, 0);
    assert forall k :: 0 <= k < |rest| ==> rest[k] == rows[k + 1];
    assert forall k :: 0 <= k < |rest| ==> Records.IdOf(rest[k]) == k + 2;
    assert Records.IdOf(rest[|rest| - 1]) == |rows|;
  }
}
