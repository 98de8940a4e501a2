# Fortify Vision backend: record tables, smart-route store and reroute gate

A Dafny model of the deterministic bookkeeping in the Fortify Vision
backend (the AR-Nav repository). It covers three parts.

- **Record tables** (`main.py`). The routes, alerts and threats handlers each
  do four things: create with id = largest id + 1; get, update and delete the
  first row with a matching id, or fail with 404. The module also has the
  alert filter, the `limit` prefixes of locations and recommendations, the
  per-route recommendation filter, the location log and the voice-command
  classifier.
- **Smart-route router** (`routers/threat_responsive_routing.py`). It covers:
  - the stored route list, with append and replace-first-match;
  - the background pass that re-checks routes updated within the last hour;
  - `calculate_smart_route`, `get_smart_route`, `add_threat` and
    `provide_route_feedback`, with their 400 and 404 answers.

  The router numbers new routes and threats `len + 1`, not largest id + 1.
- **Routing model** (`ml_models/threat_responsive_routing.py`). It covers:
  - the reroute gate: a five-second throttle on `last_threat_check`, then
    "some waypoint near a threat, or the lowest safety score below 75";
  - the metadata `check_and_reroute` adds to a fresh plan;
  - path reconstruction from A* parent pointers;
  - waypoint labels and dicts;
  - the no-path result.

JSON documents are the `Json.Value` datatype. The Python semantics the
handlers rely on are modelled explicitly:

- `dict.get`;
- `==` across bool, int and float;
- truthiness;
- the exceptions that escape a handler. A `KeyError`, `TypeError` or
  `AttributeError` becomes `Uncaught` (status 500). An `HTTPException`
  becomes `BadRequest` (400) or `NotFound` (404).

State the source changes in place is a class field: `Records.Table.rows`,
`Records.LocationLog.rows`, `ThreatModel.RoutingModel.lastThreatCheck`, and
`SmartRouting.SmartRoutingApi.smartRoutes` / `threats`. The clock is a
parameter (`now`, `stamp`). So are the A* planner (`plan`), the
"near a threat" distance test (`near`) and the neural safety score (`score`).

Files: `json.dfy` (module `Json`), `records.dfy` (`Records`), `voice.dfy`
(`Voice`), `threat_model.dfy` (`ThreatModel`), `smart_routing.dfy`
(`SmartRouting`).

## Model

| member | source | states |
|---|---|---|
| Json.Status | ar-camera-app/merged/backend/app/main.py:53 | 400, 404 and 500 answer exactly the bad-request, not-found and uncaught-exception outcomes |
| Json.Get | ar-camera-app/merged/backend/app/main.py:178 | `dict.get`: the value stored under the key when the key is present, the default otherwise; it never raises |
| Json.PyEquals | ar-camera-app/merged/backend/app/routers/threat_responsive_routing.py:58 | Python `==`: every value equals itself; True equals 1 and False equals 0; an int equals a float of the same value; None, a string, a list or a dict equals only an identical value |
| Json.Truthy | ar-camera-app/merged/backend/app/routers/threat_responsive_routing.py:101 | false exactly for None, False, 0, 0.0, "", [] and {}; every other value is true |
| Json.PyEqualsIsEquivalence | ar-camera-app/merged/backend/app/routers/threat_responsive_routing.py:58 | the Python `==` used to compare ids is reflexive, symmetric and transitive |
| Json.PyEqualsInt | ar-camera-app/merged/backend/app/routers/threat_responsive_routing.py:181 | a value equals the int `n` in Python's sense exactly when it is a bool, int or float with numeric value `n` |
| Records.MaxId | ar-camera-app/merged/backend/app/main.py:59 | `max(ids, default=0)`: 0 for an empty table, otherwise an upper bound of every id that some row attains |
| Records.NextId | ar-camera-app/merged/backend/app/main.py:59 | the id a create assigns: 1 on an empty table, strictly above every existing id, and one past an existing id otherwise |
| Records.FirstIndex | ar-camera-app/merged/backend/app/main.py:70-71 | the index of the first row whose id matches, and None exactly when no row matches |
| Records.Created | ar-camera-app/merged/backend/app/main.py:59-62 | a created row is the payload with the new id and `created_at` set (and `updated_at` for routes), and every other key kept |
| Records.Replacement | ar-camera-app/merged/backend/app/main.py:72-74 | an updated row is the payload with the requested id and the old row's `created_at`; routes get a new `updated_at`, while alerts and threats keep the payload's `updated_at` when it sends one; every other key is kept |
| Records.WithoutIndex | ar-camera-app/merged/backend/app/main.py:85 | `del rows[i]`: one row shorter, the rows before `i` in place, the rows after it shifted down by one, and exactly row `i` gone from the multiset |
| Records.Table.constructor | ar-camera-app/merged/backend/app/main.py:11-19 | a table starts as the loaded rows |
| Records.Table.IndexOf | ar-camera-app/merged/backend/app/main.py:70-71 | the search loop finds the first row with the id, or reports none |
| Records.Table.Get | ar-camera-app/merged/backend/app/main.py:47-53 | 404 "… not found" exactly when no row has the id; otherwise the first row with the id (same for alerts at :98-104 and threats at :207-213) |
| Records.Table.Create | ar-camera-app/merged/backend/app/main.py:55-65 | exactly one row is appended after the unchanged existing rows, and its id is larger than every existing id (same for :106-115 and :215-224) |
| Records.Table.Update | ar-camera-app/merged/backend/app/main.py:67-78 | no match: 404 and the table is untouched; a matched row without `created_at`: KeyError and untouched; otherwise only the first matching row is replaced, in place (same for :117-127 and :226-236) |
| Records.Table.Delete | ar-camera-app/merged/backend/app/main.py:80-88 | no match: 404 and the table is untouched; otherwise exactly the first matching row is removed and the others keep their order (same for :129-137 and :238-246) |
| Records.UpdateThenFind | ar-camera-app/merged/backend/app/main.py:67-78 | after an update, a lookup of the same id finds the new row at the same index |
| Records.AppendThenFind | ar-camera-app/merged/backend/app/main.py:63 | a row appended under an id no earlier row has is the first match for that id, at the end of the table |
| Records.CreateThenFind | ar-camera-app/merged/backend/app/main.py:55-65 | a created row is what a lookup of its new id finds, at the end of the table |
| Records.Filter | ar-camera-app/merged/backend/app/main.py:95 | a comprehension keeps exactly the rows that satisfy its condition and never grows the list |
| Records.FilterConcat | ar-camera-app/merged/backend/app/main.py:95 | filtering distributes over concatenation, so kept rows stay in their original order |
| Records.FilterKeepsAll | ar-camera-app/merged/backend/app/main.py:95 | a filter that every row passes returns the list unchanged |
| Records.GetAlerts | ar-camera-app/merged/backend/app/main.py:91-96 | with no `is_read`, all alerts; with one, a KeyError if any alert lacks the key, otherwise exactly the alerts whose flag equals it, in order |
| Records.Head | ar-camera-app/merged/backend/app/main.py:164-167 | `rows[:limit]` is the prefix of length min(limit, n) |
| Records.RouteRecommendations | ar-camera-app/merged/backend/app/main.py:169-173 | exactly the recommendations whose `related_route_id` is numerically equal to the route id, in their original order |
| Records.RelatedToByValue | ar-camera-app/merged/backend/app/main.py:172 | `r.get("related_route_id") == route_id` holds exactly when the key is present with that numeric value |
| Records.LocationRecord | ar-camera-app/merged/backend/app/main.py:150-158 | a location row has exactly the seven keys, user "default_user", and the given or default location, speed, heading and accuracy |
| Records.LocationLog.constructor | ar-camera-app/merged/backend/app/main.py:11-19 | the log starts as the loaded rows |
| Records.LocationLog.UpdateLocation | ar-camera-app/merged/backend/app/main.py:145-161 | exactly one location row is appended, with an id above every existing id |
| Records.LocationLog.GetLocations | ar-camera-app/merged/backend/app/main.py:140-143 | the first min(limit, n) locations |
| Voice.Lower | ar-camera-app/merged/backend/app/main.py:180 | `lower()` keeps the length and lower-cases each character |
| Voice.Contains | ar-camera-app/merged/backend/app/main.py:180 | `sub in s` holds exactly when `sub` occurs as a contiguous slice of `s` at some index |
| Voice.Classify | ar-camera-app/merged/backend/app/main.py:180-197 | "navigation" exactly when the lower-cased command contains "navigate"; otherwise "alert" exactly when it contains "alert" or "warning"; otherwise "unknown" |
| Voice.ActionName | ar-camera-app/merged/backend/app/main.py:182-196 | the reply's `action` string: "navigation", "alert" or "unknown", one per action and no two actions alike |
| Voice.ProcessVoiceCommand | ar-camera-app/merged/backend/app/main.py:176-197 | a string command always succeeds with its classified action, whose `action` string is "navigation" exactly when the lower-cased command contains "navigate"; the message is that action's fixed prefix followed by the command exactly; a non-string command raises AttributeError |
| Voice.LowerIdempotent | ar-camera-app/merged/backend/app/main.py:180 | lower-casing twice is lower-casing once |
| Voice.ClassifyIgnoresCase | ar-camera-app/merged/backend/app/main.py:180-186 | a command and its lower-cased form are classified alike |
| Voice.ContainsExtendRight | ar-camera-app/merged/backend/app/main.py:180 | a substring stays a substring when text is appended |
| Voice.ContainsExtendLeft | ar-camera-app/merged/backend/app/main.py:180 | a substring stays a substring when text is prepended |
| Voice.LowerConcat | ar-camera-app/merged/backend/app/main.py:180 | lower-casing distributes over concatenation |
| Voice.ContainsInContext | ar-camera-app/merged/backend/app/main.py:180 | a substring stays a substring inside any surrounding text |
| Voice.NavigationSurvivesContext | ar-camera-app/merged/backend/app/main.py:180-185 | words around a navigation command never change it to another action |
| ThreatModel.WaypointsOf | ar-camera-app/merged/backend/app/ml_models/threat_responsive_routing.py:261 | iterating `waypoints` works for a list (its items), an empty dict or an empty string (no waypoints), and raises TypeError otherwise |
| ThreatModel.LocationOf | ar-camera-app/merged/backend/app/ml_models/threat_responsive_routing.py:262 | a waypoint's location is read exactly when it is a dict with `lat` and `lng` |
| ThreatModel.NearScan | ar-camera-app/merged/backend/app/ml_models/threat_responsive_routing.py:261-264 | the scan stops at the first waypoint that is unreadable or near a threat: True exactly when that first stop is a near waypoint, that waypoint's lookup error exactly when it is an unreadable one, and False exactly when every waypoint is readable and none is near |
| ThreatModel.MinScore | ar-camera-app/merged/backend/app/ml_models/threat_responsive_routing.py:268 | `min` is a lower bound of the scores that one of them attains |
| ThreatModel.NearScanFinds | ar-camera-app/merged/backend/app/ml_models/threat_responsive_routing.py:261-264 | on well-formed waypoints the first loop answers whether some waypoint is near a threat |
| ThreatModel.RerouteDecision | ar-camera-app/merged/backend/app/ml_models/threat_responsive_routing.py:260-271 | unreadable `waypoints` fail with that error; no waypoints means no reroute; the first waypoint the scan stops at decides: its lookup error if it is unreadable, a reroute if it is near a threat; when the scan finds nothing, a non-numeric `safety_score` raises TypeError; "no reroute" implies every waypoint was read and none is near |
| ThreatModel.ScoresOf | ar-camera-app/merged/backend/app/ml_models/threat_responsive_routing.py:267-268 | the score list exists exactly when every waypoint is a dict whose `safety_score` (100 when missing) is a number, and then holds one score per waypoint, in order; otherwise AttributeError if some waypoint is not a dict, else TypeError |
| ThreatModel.RerouteDecisionMeaning | ar-camera-app/merged/backend/app/ml_models/threat_responsive_routing.py:260-271 | for well-formed waypoints (dicts with `lat`, `lng` and a numeric or missing `safety_score`), once the interval has passed: reroute exactly when some waypoint is near a threat or scores below 75; no waypoints means no reroute |
| ThreatModel.Throttled | ar-camera-app/merged/backend/app/ml_models/threat_responsive_routing.py:255 | a clock that has not moved past the last check is throttled, and one at least 5 seconds past it never is |
| ThreatModel.Rerouted | ar-camera-app/merged/backend/app/ml_models/threat_responsive_routing.py:430-432 | a rerouted plan carries `rerouted` True, the reason "New threats detected", and the current route's id as `previous_route_id`, with all other keys of the plan kept |
| ThreatModel.RerouteOutcome | ar-camera-app/merged/backend/app/ml_models/threat_responsive_routing.py:406-434 | throttled: the route unchanged; otherwise the reroute decision's error, the route unchanged when the decision is no, or exactly the plan between the route's own start and end locations with the reroute metadata, whose `rerouted` is True and whose `previous_route_id` is the route's id |
| ThreatModel.RoutingModel.constructor | ar-camera-app/merged/backend/app/ml_models/threat_responsive_routing.py:54 | the last check time starts at the creation time |
| ThreatModel.RoutingModel.ShouldReroute | ar-camera-app/merged/backend/app/ml_models/threat_responsive_routing.py:242-271 | inside the 5-second interval: False and `last_threat_check` unchanged; otherwise `last_threat_check := now` and the reroute decision |
| ThreatModel.RoutingModel.CheckAndReroute | ar-camera-app/merged/backend/app/ml_models/threat_responsive_routing.py:406-434 | the result is the reroute outcome for the check time held before the call; the throttle advances exactly when the interval has passed |
| ThreatModel.RecheckWithinIntervalKeepsRoute | ar-camera-app/merged/backend/app/ml_models/threat_responsive_routing.py:254-256 | within five seconds after a check, `check_and_reroute` returns the route it was given |
| ThreatModel.Reversed | ar-camera-app/merged/backend/app/ml_models/threat_responsive_routing.py:313 | `reverse()` keeps the length and mirrors the positions |
| ThreatModel.ReconstructPath | ar-camera-app/merged/backend/app/ml_models/threat_responsive_routing.py:306-313 | the path starts at start and ends at end, each later point's parent is the point before it, and start == end gives [start] |
| ThreatModel.Decimal | ar-camera-app/merged/backend/app/ml_models/threat_responsive_routing.py:333 | the decimal digits of a number, as an f-string prints them: at least one digit, "0" for zero and no leading zero otherwise |
| ThreatModel.DecimalRoundTrip | ar-camera-app/merged/backend/app/ml_models/threat_responsive_routing.py:333 | reading back the printed digits gives the number |
| ThreatModel.WaypointLabel | ar-camera-app/merged/backend/app/ml_models/threat_responsive_routing.py:333-337 | the f-string address, overridden for the first and last index; its contract is stated by `WaypointLabelShape` |
| ThreatModel.WaypointLabelShape | ar-camera-app/merged/backend/app/ml_models/threat_responsive_routing.py:333-337 | index 0 is "Starting Point", the last index "Destination", and any other index i is "Waypoint " followed by the digits of i+1 |
| ThreatModel.LabelsDistinct | ar-camera-app/merged/backend/app/ml_models/threat_responsive_routing.py:333-337 | no two waypoints of one path get the same address |
| ThreatModel.WaypointValue | ar-camera-app/merged/backend/app/ml_models/threat_responsive_routing.py:339-345 | the waypoint dict; its contract is stated by `WaypointValueShape` |
| ThreatModel.WaypointValueShape | ar-camera-app/merged/backend/app/ml_models/threat_responsive_routing.py:339-345 | a waypoint dict has exactly the five keys, the point's coordinates, its address, elevation and score, and the reroute test can read it |
| ThreatModel.ElevationAt | ar-camera-app/merged/backend/app/ml_models/threat_responsive_routing.py:343 | `elevation.get(point, 0)`: the map's value for the point, 0 when it has none |
| ThreatModel.PlannedPrefix | ar-camera-app/merged/backend/app/ml_models/threat_responsive_routing.py:320-346 | the first n waypoints of a planned route: n of them, the i-th built from the i-th path point |
| ThreatModel.BuildWaypoints | ar-camera-app/merged/backend/app/ml_models/threat_responsive_routing.py:320-346 | one waypoint per path point, in path order, each labelled, located and scored from its own point |
| ThreatModel.PlannedRouteDecision | ar-camera-app/merged/backend/app/ml_models/threat_responsive_routing.py:261-271 | on a planned route, with threats the distance test can read, the reroute test never fails, and asks exactly whether some path point is near a threat or predicted below 75 |
| ThreatModel.NoPathResult | ar-camera-app/merged/backend/app/ml_models/threat_responsive_routing.py:394-404 | the no-path route has no waypoints, zero distance, time and safety score, and the error "No path found" |
| ThreatModel.NoPathNeverReroutes | ar-camera-app/merged/backend/app/ml_models/threat_responsive_routing.py:394-404 | a no-path route never triggers a reroute |
| SmartRouting.FirstMatch | ar-camera-app/merged/backend/app/routers/threat_responsive_routing.py:57-58 | the index of the first route whose `id` equals the key in Python's sense, and None exactly when there is none |
| SmartRouting.Matches | ar-camera-app/merged/backend/app/routers/threat_responsive_routing.py:58 | a route without `id` matches only None; integer ids match exactly when equal |
| SmartRouting.ReplaceFirst | ar-camera-app/merged/backend/app/routers/threat_responsive_routing.py:52-60 | same length; only the first matching route is replaced; an id no route has leaves the list unchanged |
| SmartRouting.ReplaceFirstThenFind | ar-camera-app/merged/backend/app/routers/threat_responsive_routing.py:196-199 | after a route is stored under its id, looking that id up again finds the stored route at the same index |
| SmartRouting.ReplaceFirstIdempotent | ar-camera-app/merged/backend/app/routers/threat_responsive_routing.py:52-60 | storing the same route under its id twice is the same as storing it once |
| SmartRouting.ReplaceFirstKeepsIds | ar-camera-app/merged/backend/app/routers/threat_responsive_routing.py:101-103 | storing a rerouted result under the id it was looked up by keeps every stored route's id equal to its original id |
| SmartRouting.Stale | ar-camera-app/merged/backend/app/routers/threat_responsive_routing.py:93-95 | a route is skipped exactly when `last_updated` (0 when missing) is more than 3600 s before now; a non-number raises TypeError |
| SmartRouting.NeverUpdatedIsStale | ar-camera-app/merged/backend/app/routers/threat_responsive_routing.py:93-95 | a route without `last_updated` is always skipped once now is past 3600 s |
| SmartRouting.Pass | ar-camera-app/merged/backend/app/routers/threat_responsive_routing.py:91-103 | the loop over the loaded routes: stale routes skipped, each other route checked, a rerouted result stored under the visited route's id; the stored list keeps its length and the last check time is either unchanged or now |
| SmartRouting.PassKeepsIds | ar-camera-app/merged/backend/app/routers/threat_responsive_routing.py:101-103 | every route a pass stores is either the route that was there or a rerouted result with an equal id |
| SmartRouting.PassAllStale | ar-camera-app/merged/backend/app/routers/threat_responsive_routing.py:93-95 | a pass over routes all older than an hour returns success and changes neither the store nor the last check time |
| SmartRouting.PassAfterCheck | ar-camera-app/merged/backend/app/routers/threat_responsive_routing.py:97-98 | with one clock value for the pass, at most one check gets past the throttle: after it, the rest of the pass consults neither the threat test nor the planner and the last check time stays now |
| SmartRouting.FreshDueRouteIsReplanned | ar-camera-app/merged/backend/app/routers/threat_responsive_routing.py:91-103 | a recent route whose check is due and finds a threat is re-planned between its own end points, and the new plan is stored under its id marked rerouted |
| SmartRouting.NewSmartRoute | ar-camera-app/merged/backend/app/routers/threat_responsive_routing.py:139-142 | the stored route is the plan with id, `created_at`, model version "1.0.0" and terrain type added, and the plan's other keys kept |
| SmartRouting.NewThreat | ar-camera-app/merged/backend/app/routers/threat_responsive_routing.py:229-232 | the stored threat is the payload with the new id and `created_at`; `severity` is "high" only when absent, and the given value otherwise |
| SmartRouting.ThreatAck | ar-camera-app/merged/backend/app/routers/threat_responsive_routing.py:249-253 | the `add_threat` answer has exactly the keys `success`, `message` and `threat_id`, with success true and the new id |
| SmartRouting.SmartRoutingApi.constructor | ar-camera-app/merged/backend/app/routers/threat_responsive_routing.py:21 | the router starts from the stored contents and the shared model |
| SmartRouting.SmartRoutingApi.SaveRouteData | ar-camera-app/merged/backend/app/routers/threat_responsive_routing.py:35-39 | exactly one route is appended, and stored content that is not a list is treated as empty |
| SmartRouting.SmartRoutingApi.UpdateRouteData | ar-camera-app/merged/backend/app/routers/threat_responsive_routing.py:52-60 | the stored list becomes the first-match replacement of what was stored, with non-list content treated as empty |
| SmartRouting.SmartRoutingApi.MonitorThreatsAndReroute | ar-camera-app/merged/backend/app/routers/threat_responsive_routing.py:73-103 | non-list or empty store: nothing happens; otherwise the result, the stored list and the model's last check time are exactly those of `Pass` over the loaded routes; threats are untouched |
| SmartRouting.SmartRoutingApi.CalculateSmartRoute | ar-camera-app/merged/backend/app/routers/threat_responsive_routing.py:105-150 | a missing start or end location gives 400 with nothing stored; otherwise the planned route gets id = (length of the stored document) + 1 and is appended |
| SmartRouting.SmartRoutingApi.GetSmartRoute | ar-camera-app/merged/backend/app/routers/threat_responsive_routing.py:165-206 | no match gives 404 with nothing changed. Otherwise the last check time advances exactly when the throttle allows; a rerouted result is stored and returned under the requested id; any other result returns the stored route unchanged |
| SmartRouting.SmartRoutingApi.AddThreat | ar-camera-app/merged/backend/app/routers/threat_responsive_routing.py:208-253 | no `location` gives 400 before any change; otherwise exactly one threat is appended, with id = (number of stored threats) + 1, and that id is acknowledged |
| SmartRouting.ProvideRouteFeedback | ar-camera-app/merged/backend/app/routers/threat_responsive_routing.py:255-276 | a missing `route_id` or `rating` gives 400; a non-numeric rating raises TypeError; otherwise success, and `will_update_model` exactly when rating < 3 |
| SmartRouting.FeedbackOnWholeStars | ar-camera-app/merged/backend/app/routers/threat_responsive_routing.py:275 | a whole-number rating asks for retraining exactly when it is 2 or less |
| SmartRouting.LengthIdAgreesWithNextId | ar-camera-app/merged/backend/app/routers/threat_responsive_routing.py:229 | on threats numbered 1..n, `len + 1` is the id the record tables would assign |
| SmartRouting.LengthIdCollidesAfterDelete | ar-camera-app/merged/backend/app/routers/threat_responsive_routing.py:229 | after the record tables delete threat 1 from threats numbered 1..n (n ≥ 2), `add_threat`'s next id is the id the last threat already has, while the tables' own next id is n + 1 |

## Left out

- File loading and saving, and the messages printed on failure, are not
  modelled. A table is its loaded content. A `main.py` table whose load
  failed is the empty table. A router store whose load failed is
  `Dict(0)`, an empty dict.
- Write failures are not modelled: `add_threat`'s 500 on a failed save, and
  the `False` that save and update return.
- FastAPI routing, the framework's exception-to-response mapping, CORS and
  server start-up are not modelled. Errors are result values.
- Background task scheduling is not modelled. The monitor is one
  sequential call, and no other request runs during a handler.
- The A* search, the haversine distance, `_is_near_threat`'s distance test,
  the random and neural safety predictor, and weight training and
  persistence are inputs, not models: `plan`, `near` and `score`.
- ThreatModel.NearScan: `near` is a total test, so two exceptions of
  `_is_near_threat` are not modelled: the AttributeError at
  ml_models/threat_responsive_routing.py:230 when a stored threat's
  `location` is not a dict (`add_threat` only checks that the key exists),
  and the TypeError from `_heuristic` (called at :234) when a coordinate is
  not a number. The model answers where the source fails in both cases.
- Planner failures are not modelled. An example is the KeyError when a
  route without `start_location` is re-planned.
- The planner receives only the two end locations. The map data
  (terrain type, empty elevation) and the threat list passed alongside
  them are not modelled.
- Total distance, estimated time, the average safety score and their
  rounding are float outputs and are not modelled, nor are the
  safe-route, sniper, health and model-info endpoints.
- `datetime.now()` is a parameter `stamp`, and `time.time()` is a
  parameter `now`.
- Records.Created: one `stamp` serves both `created_at` and `updated_at` of
  a new route, where main.py:61-62 reads the clock twice and the two stamps
  can differ.
- SmartRoutingApi.MonitorThreatsAndReroute: one `now` serves the whole
  pass, where the source reads the clock once per route and once per
  model check.
- Rows of the `main.py` tables are assumed to carry an integer `id`
  (`Records.Table.Valid`). The source raises KeyError on a row without one,
  and also compares float or bool ids.
- Router stores that are lists hold only dicts. Other top-level documents
  are reduced to their `len`. A top-level number, bool or null document has
  no `len`, so `calculate_smart_route` raises TypeError at
  routers/threat_responsive_routing.py:139; `Dict(size)` cannot express such
  a document, so that path is not modelled.
- Voice.Lower: lower-cases ASCII letters only, not the full Unicode case
  mapping of `str.lower()`.
- Json.PyEquals: compares numbers across types only at the top level of a
  value. Nested inside lists or dicts, values compare structurally.
- SmartRouting.ProvideRouteFeedback: does not model the message text,
  whose rendering of the id and rating is Python's `str()` of the values.
- Python slicing with a negative `limit` is not modelled. The limit is a
  `nat`.
