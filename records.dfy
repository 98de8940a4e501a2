/**
  The record tables behind the REST handlers of `main.py`: routes, alerts,
  threats, locations and recommendations. Each table is the list of JSON
  objects a handler loads, changes in place and saves back; here the loaded
  list is the state of an object and the file round trip is left out.
 */
module Records {
  import opened Json

  /** The three tables that offer create, get, update and delete. */
  datatype Kind = Routes | Alerts | Threats

  function NotFoundDetail(kind: Kind): string
  {
    match kind
    case Routes => "Route not found"
    case Alerts => "Alert not found"
    case Threats => "Threat not found"
  }

  function DeletedMessage(kind: Kind): string
  {
    match kind
    case Routes => "Route deleted successfully"
    case Alerts => "Alert deleted successfully"
    case Threats => "Threat deleted successfully"
  }

  predicate HasIntId(r: Record)
  {
    "id" in r && r["id"].Int?
  }

  /** Every stored row carries an integer `id`; the handlers index `r["id"]` unguarded. */
  predicate AllHaveIntIds(rows: seq<Record>)
  {
    forall k :: 0 <= k < |rows| ==> HasIntId(rows[k])
  }

  function IdOf(r: Record): int
    requires HasIntId(r)
  {
    r["id"].i
  }

  /** `max([r["id"] for r in rows], default=0)` */
  function MaxId(rows: seq<Record>): (m: int)
    requires AllHaveIntIds(rows)
    ensures rows == [] ==> m == 0
    ensures forall k :: 0 <= k < |rows| ==> IdOf(rows[k]) <= m
    ensures rows != [] ==> exists k :: 0 <= k < |rows| && IdOf(rows[k]) == m
  {
    if rows == [] then 0
    else if |rows| == 1 then IdOf(rows[0])
    else
      var m := MaxId(rows[..|rows| - 1]);
      var last := IdOf(rows[|rows| - 1]);
      if last > m then last else m
  }

  /** The id a create handler gives a new row: one past the largest id, 1 for an empty table. */
  function NextId(rows: seq<Record>): (n: int)
    requires AllHaveIntIds(rows)
    ensures rows == [] ==> n == 1
    ensures forall k :: 0 <= k < |rows| ==> IdOf(rows[k]) < n
    ensures rows != [] ==> exists k :: 0 <= k < |rows| && IdOf(rows[k]) == n - 1
  {
    MaxId(rows) + 1
  }

  /** The index of the first row whose id is `id`, which is the row every lookup loop stops at. */
  function FirstIndex(rows: seq<Record>, id: int): (k: Option<nat>)
    requires AllHaveIntIds(rows)
    ensures k.Some? ==> k.value < |rows| && IdOf(rows[k.value]) == id
    ensures k.Some? ==> forall j :: 0 <= j < k.value ==> IdOf(rows[j]) != id
    ensures k.None? <==> forall j :: 0 <= j < |rows| ==> IdOf(rows[j]) != id
  {
    if rows == [] then None
    else if IdOf(rows[0]) == id then Some(0)
    else match FirstIndex(rows[1..], id)
      case None => None
      case Some(j) => Some(j + 1)
  }

  /** The row a create handler appends: the payload with `id` and the timestamps overwritten. */
  function Created(kind: Kind, payload: Record, id: int, stamp: string): (r: Record)
    ensures HasIntId(r) && IdOf(r) == id
    ensures "created_at" in r && r["created_at"] == Str(stamp)
    ensures kind == Routes ==> "updated_at" in r && r["updated_at"] == Str(stamp)
    ensures r.Keys == payload.Keys + {"id", "created_at"} + (if kind == Routes then {"updated_at"} else {})
    ensures forall key :: key in payload && key !in {"id", "created_at", "updated_at"} ==> r[key] == payload[key]
    ensures kind != Routes && "updated_at" in payload ==> r["updated_at"] == payload["updated_at"]
  {
    var r := payload["id" := Int(id)]["created_at" := Str(stamp)];
    if kind == Routes then r["updated_at" := Str(stamp)] else r
  }

  /** The row an update handler stores: the payload with the requested id and the old creation time. */
  function Replacement(kind: Kind, payload: Record, id: int, createdAt: Value, stamp: string): (r: Record)
    ensures HasIntId(r) && IdOf(r) == id
    ensures "created_at" in r && r["created_at"] == createdAt
    ensures kind == Routes ==> "updated_at" in r && r["updated_at"] == Str(stamp)
    ensures r.Keys == payload.Keys + {"id", "created_at"} + (if kind == Routes then {"updated_at"} else {})
    ensures forall key :: key in payload && key !in {"id", "created_at", "updated_at"} ==> r[key] == payload[key]
    ensures kind != Routes && "updated_at" in payload ==> r["updated_at"] == payload["updated_at"]
  {
    var r := payload["id" := Int(id)]["created_at" := createdAt];
    if kind == Routes then r["updated_at" := Str(stamp)] else r
  }

  /** The list left by `del rows[i]`. */
  function WithoutIndex(rows: seq<Record>, i: nat): (r: seq<Record>)
    requires i < |rows|
    ensures |r| == |rows| - 1
    ensures forall j :: 0 <= j < i ==> r[j] == rows[j]
    ensures forall j :: i <= j < |r| ==> r[j] == rows[j + 1]
    ensures multiset(r) + multiset{rows[i]} == multiset(rows)
  {
    assert rows == rows[..i] + [rows[i]] + rows[i + 1..];
    rows[..i] + rows[i + 1..]
  }

  /** A table with create, get, update and delete, as the routes, alerts and threats handlers have. */
  class Table {
    const kind: Kind
    var rows: seq<Record>

    ghost predicate Valid()
      reads this
    {
      AllHaveIntIds(rows)
    }

    /** A table as loaded from its file; a file that failed to load gives the empty table. */
    constructor (kind: Kind, loaded: seq<Record>)
      requires AllHaveIntIds(loaded)
      ensures Valid() && this.kind == kind && rows == loaded
    {
      this.kind := kind;
      rows := loaded;
    }

    /** The `for i, r in enumerate(rows): if r["id"] == id` search every handler runs. */
    method IndexOf(id: int) returns (k: Option<nat>)
      requires Valid()
      ensures k == FirstIndex(rows, id)
    {
      var i := 0;
      while i < |rows|
        invariant 0 <= i <= |rows|
        invariant forall j :: 0 <= j < i ==> IdOf(rows[j]) != id
      {
        if IdOf(rows[i]) == id {
          return Some(i);
        }
        i := i + 1;
      }
      return None;
    }

    /** `get_route`, `get_alert`, `get_threat` */
    method Get(id: int) returns (r: Result<Record>)
      requires Valid()
      ensures r.Err? <==> forall j :: 0 <= j < |rows| ==> IdOf(rows[j]) != id
      ensures r.Err? ==> r.error == NotFound(NotFoundDetail(kind))
      ensures r.Ok? ==> (exists k :: 0 <= k < |rows| && rows[k] == r.value && IdOf(rows[k]) == id
                                     && forall j :: 0 <= j < k ==> IdOf(rows[j]) != id)
    {
      var k := IndexOf(id);
      if k.None? {
        return Err(NotFound(NotFoundDetail(kind)));
      }
      return Ok(rows[k.value]);
    }

    /** `create_route`, `create_alert`, `create_threat` */
    method Create(payload: Record, stamp: string) returns (created: Record)
      requires Valid()
      modifies this
      ensures Valid()
      ensures created == Created(kind, payload, NextId(old(rows)), stamp)
      ensures rows == old(rows) + [created]
      ensures forall k :: 0 <= k < |old(rows)| ==> IdOf(old(rows)[k]) < IdOf(created)
    {
      created := Created(kind, payload, NextId(rows), stamp);
      rows := rows + [created];
    }

    /** `update_route`, `update_alert`, `update_threat` */
    method Update(id: int, payload: Record, stamp: string) returns (r: Result<Record>)
      requires Valid()
      modifies this
      ensures Valid()
      ensures FirstIndex(old(rows), id).None? ==>
                r == Err(NotFound(NotFoundDetail(kind))) && rows == old(rows)
      ensures FirstIndex(old(rows), id).Some? ==>
                var i := FirstIndex(old(rows), id).value;
                if "created_at" !in old(rows)[i] then
                  r == Err(Uncaught(KeyFault("created_at"))) && rows == old(rows)
                else
                  r == Ok(Replacement(kind, payload, id, old(rows)[i]["created_at"], stamp))
                  && rows == old(rows)[i := r.value]
    {
      var k := IndexOf(id);
      if k.None? {
        return Err(NotFound(NotFoundDetail(kind)));
      }
      var old_row := rows[k.value];
      if "created_at" !in old_row {
        return Err(Uncaught(KeyFault("created_at")));
      }
      var row := Replacement(kind, payload, id, old_row["created_at"], stamp);
      rows := rows[k.value := row];
      return Ok(row);
    }

    /** `delete_route`, `delete_alert`, `delete_threat` */
    method Delete(id: int) returns (r: Result<string>)
      requires Valid()
      modifies this
      ensures Valid()
      ensures FirstIndex(old(rows), id).None? ==>
                r == Err(NotFound(NotFoundDetail(kind))) && rows == old(rows)
      ensures FirstIndex(old(rows), id).Some? ==>
                r == Ok(DeletedMessage(kind))
                && rows == WithoutIndex(old(rows), FirstIndex(old(rows), id).value)
    {
      var k := IndexOf(id);
      if k.None? {
        return Err(NotFound(NotFoundDetail(kind)));
      }
      rows := WithoutIndex(rows, k.value);
      return Ok(DeletedMessage(kind));
    }
  }

  /** After an update, a lookup of the same id finds the new row at the same place. */
  lemma UpdateThenFind(rows: seq<Record>, id: int, row: Record)
    requires AllHaveIntIds(rows) && FirstIndex(rows, id).Some?
    requires HasIntId(row) && IdOf(row) == id
    ensures AllHaveIntIds(rows[FirstIndex(rows, id).value := row])
    ensures FirstIndex(rows[FirstIndex(rows, id).value := row], id) == FirstIndex(rows, id)
  {
    var i := FirstIndex(rows, id).value;
    var rows' := rows[i := row];
    assert IdOf(rows'[i]) == id;
  }

  /** A row appended under an id no earlier row has is what a lookup of that id finds. */
  lemma AppendThenFind(rows: seq<Record>, row: Record)
    requires AllHaveIntIds(rows) && HasIntId(row)
    requires forall j :: 0 <= j < |rows| ==> IdOf(rows[j]) != IdOf(row)
    ensures AllHaveIntIds(rows + [row])
    ensures FirstIndex(rows + [row], IdOf(row)) == Some(|rows|)
  {
    var rows' := rows + [row];
    assert forall j :: 0 <= j < |rows| ==> rows'[j] == rows[j];
    assert IdOf(rows'[|rows|]) == IdOf(row);
  }

  /** A row created after any number of others is found again under its new id. */
  lemma CreateThenFind(kind: Kind, rows: seq<Record>, payload: Record, stamp: string)
    requires AllHaveIntIds(rows)
    ensures AllHaveIntIds(rows + [Created(kind, payload, NextId(rows), stamp)])
    ensures FirstIndex(rows + [Created(kind, payload, NextId(rows), stamp)], NextId(rows)) == Some(|rows|)
  {
    var n := NextId(rows);
    var c := Created(kind, payload, n, stamp);
    assert HasIntId(c) && IdOf(c) == n;
    AppendThenFind(rows, c);
  }

  /** A list comprehension with a condition: the rows that satisfy `p`, in their original order. */
  function Filter(xs: seq<Record>, p: Record -> bool): (r: seq<Record>)
    ensures |r| <= |xs|
    ensures forall x :: x in r <==> x in xs && p(x)
  {
    if xs == [] then []
    else if p(xs[0]) then [xs[0]] + Filter(xs[1..], p)
    else Filter(xs[1..], p)
  }

  /** Filtering a concatenation filters each part: the relative order of kept elements is the original one. */
  lemma {:induction false} FilterConcat(xs: seq<Record>, ys: seq<Record>, p: Record -> bool)
    ensures Filter(xs + ys, p) == Filter(xs, p) + Filter(ys, p)
  {
    if xs == [] {
      assert xs + ys == ys;
    } else {
      assert (xs + ys)[1..] == xs[1..] + ys;
      FilterConcat(xs[1..], ys, p);
    }
  }

  /** Filtering keeps a list whose every element passes unchanged. */
  lemma {:induction false} FilterKeepsAll(xs: seq<Record>, p: Record -> bool)
    requires forall k :: 0 <= k < |xs| ==> p(xs[k])
    ensures Filter(xs, p) == xs
  {
    if xs != [] {
      FilterKeepsAll(xs[1..], p);
    }
  }

  /** `a["is_read"] == is_read`, defined on rows that have the key. */
  function IsReadIs(flag: bool): Record -> bool
  {
    a => "is_read" in a && PyEquals(a["is_read"], Bool(flag))
  }

  /** `get_alerts(is_read)`: the comprehension reads `a["is_read"]` of every alert. */
  function GetAlerts(alerts: seq<Record>, isRead: Option<bool>): (r: Result<seq<Record>>)
    ensures isRead.None? ==> r == Ok(alerts)
    ensures isRead.Some? && (exists k :: 0 <= k < |alerts| && "is_read" !in alerts[k]) ==>
              r == Err(Uncaught(KeyFault("is_read")))
    ensures isRead.Some? && (forall k :: 0 <= k < |alerts| ==> "is_read" in alerts[k]) ==>
              r.Ok? && r.value == Filter(alerts, IsReadIs(isRead.value))
              && forall a :: a in r.value <==> a in alerts && PyEquals(a["is_read"], Bool(isRead.value))
  {
    if isRead.None? then Ok(alerts)
    else if exists k :: 0 <= k < |alerts| && "is_read" !in alerts[k] then Err(Uncaught(KeyFault("is_read")))
    else Ok(Filter(alerts, IsReadIs(isRead.value)))
  }

  /** `rows[:limit]` for a non-negative limit, as `get_locations` and `get_recommendations` return. */
  function Head(rows: seq<Record>, limit: nat): (r: seq<Record>)
    ensures |r| == if limit < |rows| then limit else |rows|
    ensures r <= rows
  {
    if limit < |rows| then rows[..limit] else rows
  }

  /** `r.get("related_route_id") == route_id` */
  function RelatedTo(routeId: int): Record -> bool
  {
    r => PyEquals(Get(r, "related_route_id", Null), Int(routeId))
  }

  /** `get_route_recommendations(route_id)` */
  function RouteRecommendations(recommendations: seq<Record>, routeId: int): (r: seq<Record>)
    ensures forall x :: x in r <==> x in recommendations && "related_route_id" in x
                                    && NumVal(x["related_route_id"]) == Some(routeId as real)
    ensures r == Filter(recommendations, RelatedTo(routeId))
  {
    RelatedToByValue(routeId);
    Filter(recommendations, RelatedTo(routeId))
  }

  lemma RelatedToByValue(routeId: int)
    ensures forall x :: RelatedTo(routeId)(x) <==> "related_route_id" in x && NumVal(x["related_route_id"]) == Some(routeId as real)
  {
    forall x ensures RelatedTo(routeId)(x) <==> "related_route_id" in x && NumVal(x["related_route_id"]) == Some(routeId as real) {
      PyEqualsInt(Get(x, "related_route_id", Null), routeId);
    }
  }

  /** `location_data.get("location", {"lat": 0, "lng": 0, "address": ""})` */
  const DefaultLocation: Value := Obj(map["lat" := Int(0), "lng" := Int(0), "address" := Str("")])

  /** The row `update_location` builds from a request body. */
  function LocationRecord(data: Record, id: int, stamp: string): (r: Record)
    ensures r.Keys == {"id", "user_id", "location", "speed", "heading", "accuracy", "timestamp"}
    ensures HasIntId(r) && IdOf(r) == id && r["user_id"] == Str("default_user") && r["timestamp"] == Str(stamp)
    ensures r["location"] == if "location" in data then data["location"] else DefaultLocation
    ensures forall key :: key in {"speed", "heading", "accuracy"} ==>
              r[key] == if key in data then data[key] else Int(0)
  {
    map[
      "id" := Int(id),
      "user_id" := Str("default_user"),
      "location" := Get(data, "location", DefaultLocation),
      "speed" := Get(data, "speed", Int(0)),
      "heading" := Get(data, "heading", Int(0)),
      "accuracy" := Get(data, "accuracy", Int(0)),
      "timestamp" := Str(stamp)
    ]
  }

  /** The locations table: it is only ever appended to and read by prefix. */
  class LocationLog {
    var rows: seq<Record>

    ghost predicate Valid()
      reads this
    {
      AllHaveIntIds(rows)
    }

    constructor (loaded: seq<Record>)
      requires AllHaveIntIds(loaded)
      ensures Valid() && rows == loaded
    {
      rows := loaded;
    }

    /** `update_location`: appends one row with a fresh id. */
    method UpdateLocation(data: Record, stamp: string) returns (location: Record)
      requires Valid()
      modifies this
      ensures Valid()
      ensures location == LocationRecord(data, NextId(old(rows)), stamp)
      ensures rows == old(rows) + [location]
      ensures forall k :: 0 <= k < |old(rows)| ==> IdOf(old(rows)[k]) < IdOf(location)
    {
      location := LocationRecord(data, NextId(rows), stamp);
      rows := rows + [location];
    }

    /** `get_locations(limit)` */
    function GetLocations(limit: nat): (r: seq<Record>)
      reads this
      ensures |r| == if limit < |rows| then limit else |rows|
      ensures forall k :: 0 <= k < |r| ==> r[k] == rows[k]
    {
      Head(rows, limit)
    }
  }
}
