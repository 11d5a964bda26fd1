/** The data reshaping of the cached weather dashboard: choosing an icon,
    flattening the area hierarchy, building forecast rows, the keyed tables
    they are stored in, grouping the area list by forecast center, and
    picking the forecast a tab shows. The HTTP requests and the SQLite
    connection are not modelled; a table is a map from its primary key. */
module Weather {
  import opened Wrappers

  // ---------------------------------------------------------------------
  // Icons

  datatype Icon = AcUnit | Umbrella | WbSunny | Cloud

  /** `weather_icon`: snow outranks rain, rain outranks sun, and anything
      else is cloud. */
  function WeatherIcon(text: string): (icon: Icon)
    ensures icon == AcUnit <==> '雪' in text
    ensures icon == Umbrella <==> '雪' !in text && '雨' in text
    ensures icon == WbSunny <==> '雪' !in text && '雨' !in text && '晴' in text
    ensures icon == Cloud <==> '雪' !in text && '雨' !in text && '晴' !in text
  {
    if '雪' in text then AcUnit
    else if '雨' in text then Umbrella
    else if '晴' in text then WbSunny
    else Cloud
  }

  /** The priority of an icon: the higher one wins. */
  function Rank(icon: Icon): nat
  {
    match icon
    case AcUnit => 3
    case Umbrella => 2
    case WbSunny => 1
    case Cloud => 0
  }

  // ---------------------------------------------------------------------
  // The area hierarchy

  /** A forecast center of `area.json`: its name and its office codes. */
  datatype CenterInfo = CenterInfo(name: string, children: Option<seq<string>>)

  /** An office of `area.json`. */
  datatype OfficeInfo = OfficeInfo(name: string)

  /** The parts of `area.json` that are read; a missing key is `None`.
      The centers keep the order of the JSON object. */
  datatype AreaJson = AreaJson(
    centers: Option<seq<(string, CenterInfo)>>,
    offices: Option<map<string, OfficeInfo>>
  )

  /** A row of the `areas` table: `(code, name, center_name)`. */
  datatype AreaRow = AreaRow(code: string, name: string, centerName: string)

  /** The rows one center contributes for the office codes `codes`: one per
      code that is a known office, in the order of `codes`. */
  function ChildRows(center: CenterInfo, codes: seq<string>, offices: map<string, OfficeInfo>): seq<AreaRow>
  {
    if codes == [] then []
    else
      var code := codes[|codes| - 1];
      ChildRows(center, codes[..|codes| - 1], offices)
        + (if code in offices then [AreaRow(code, offices[code].name, center.name)] else [])
  }

  /** The rows of all `centers`, center by center. */
  function CenterRows(centers: seq<(string, CenterInfo)>, offices: map<string, OfficeInfo>): seq<AreaRow>
  {
    if centers == [] then []
    else
      var center := centers[|centers| - 1].1;
      CenterRows(centers[..|centers| - 1], offices) + ChildRows(center, center.children.GetOr([]), offices)
  }

  /** The `area_list` that `save_areas_to_db` builds with its nested loops. */
  method AreaList(areaData: AreaJson) returns (areaList: seq<AreaRow>)
    ensures areaList == CenterRows(areaData.centers.GetOr([]), areaData.offices.GetOr(map[]))
  {
    var centers := areaData.centers.GetOr([]);
    var offices := areaData.offices.GetOr(map[]);
    areaList := [];
    for i := 0 to |centers|
      invariant areaList == CenterRows(centers[..i], offices)
    {
      var center := centers[i].1;
      var codes := center.children.GetOr([]);
      ghost var before := areaList;
      for j := 0 to |codes|
        invariant areaList == before + ChildRows(center, codes[..j], offices)
      {
        var code := codes[j];
        assert codes[..j + 1][..j] == codes[..j];
        if code in offices {
          areaList := areaList + [AreaRow(code, offices[code].name, center.name)];
        }
      }
      assert codes[..|codes|] == codes;
      assert centers[..i + 1][..i] == centers[..i];
    }
    assert centers[..|centers|] == centers;
  }

  // ---------------------------------------------------------------------
  // Forecast rows

  /** `t[:10]`: the date part of an ISO time stamp. */
  function DatePart(t: string): (d: string)
    ensures |d| == if |t| < 10 then |t| else 10
    ensures d <= t
  {
    if |t| <= 10 then t else t[..10]
  }

  function Min(a: nat, b: nat): nat
  {
    if a < b then a else b
  }

  /** The `forecast_data` rows of `save_forecast_to_db`, each as its primary
      key `(area_code, date)` and its `weather_text`: times and weathers
      zipped, the surplus of the longer list dropped. */
  function ForecastRows(areaCode: string, times: seq<string>, weathers: seq<string>): (rows: seq<((string, string), string)>)
    ensures |rows| == Min(|times|, |weathers|)
    ensures forall i :: 0 <= i < |rows| ==> rows[i] == ((areaCode, DatePart(times[i])), weathers[i])
  {
    if times == [] || weathers == [] then []
    else [((areaCode, DatePart(times[0])), weathers[0])] + ForecastRows(areaCode, times[1..], weathers[1..])
  }

  // ---------------------------------------------------------------------
  // Keyed tables

  /** `INSERT OR REPLACE` of `rows`, one after another, into a table keyed
      by its primary key. */
  function Upsert<K, V>(table: map<K, V>, rows: seq<(K, V)>): map<K, V>
  {
    if rows == [] then table
    else
      var row := rows[|rows| - 1];
      Upsert(table, rows[..|rows| - 1])[row.0 := row.1]
  }

  /** An area row keyed by its code. */
  function AreaEntries(rows: seq<AreaRow>): (entries: seq<(string, (string, string))>)
    ensures |entries| == |rows|
    ensures forall i :: 0 <= i < |rows| ==> entries[i] == (rows[i].code, (rows[i].name, rows[i].centerName))
  {
    if rows == [] then []
    else [(rows[0].code, (rows[0].name, rows[0].centerName))] + AreaEntries(rows[1..])
  }

  /** The local cache: the `areas` and `weather_forecasts` tables. */
  class Database {
    var areas: map<string, (string, string)>
    var forecasts: map<(string, string), string>

    /** `init_db` on a fresh database file. */
    constructor ()
      ensures areas == map[] && forecasts == map[]
    {
      areas := map[];
      forecasts := map[];
    }

    /** `save_areas_to_db`. */
    method SaveAreasToDb(areaData: AreaJson)
      modifies this
      ensures areas == Upsert(old(areas), AreaEntries(CenterRows(areaData.centers.GetOr([]), areaData.offices.GetOr(map[]))))
      ensures forecasts == old(forecasts)
    {
      var areaList := AreaList(areaData);
      var entries := AreaEntries(areaList);
      for i := 0 to |entries|
        invariant areas == Upsert(old(areas), entries[..i])
        invariant forecasts == old(forecasts)
      {
        assert entries[..i + 1][..i] == entries[..i];
        areas := areas[entries[i].0 := entries[i].1];
      }
      assert entries[..|entries|] == entries;
    }

    /** `save_forecast_to_db`. */
    method SaveForecastToDb(areaCode: string, times: seq<string>, weathers: seq<string>)
      modifies this
      ensures forecasts == Upsert(old(forecasts), ForecastRows(areaCode, times, weathers))
      ensures areas == old(areas)
    {
      var rows := ForecastRows(areaCode, times, weathers);
      for i := 0 to |rows|
        invariant forecasts == Upsert(old(forecasts), rows[..i])
        invariant areas == old(areas)
      {
        assert rows[..i + 1][..i] == rows[..i];
        forecasts := forecasts[rows[i].0 := rows[i].1];
      }
      assert rows[..|rows|] == rows;
    }
  }

  /** The dates and texts `get_forecast_from_db` selects for one area. */
  function ForecastFor(forecasts: map<(string, string), string>, areaCode: string): (dated: map<string, string>)
    ensures forall date :: date in dated <==> (areaCode, date) in forecasts
    ensures forall date :: date in dated ==> dated[date] == forecasts[(areaCode, date)]
  {
    map key | key in forecasts && key.0 == areaCode :: key.1 := forecasts[key]
  }

  // ---------------------------------------------------------------------
  // Grouping the area list by center

  /** An expansion tile of the left column: a center and its areas. */
  datatype Group = Group(centerName: string, members: seq<AreaRow>)

  /** The rows of the groups, group after group. */
  function Members(groups: seq<Group>): seq<AreaRow>
  {
    if groups == [] then [] else Members(groups[..|groups| - 1]) + groups[|groups| - 1].members
  }

  /** Every group is non-empty, its rows carry its center name, and two
      neighbouring groups have different names. */
  ghost predicate WellGrouped(groups: seq<Group>)
  {
    && (forall k :: 0 <= k < |groups| ==> groups[k].members != [])
    && (forall k, r :: 0 <= k < |groups| && r in groups[k].members ==> r.centerName == groups[k].centerName)
    && (forall k :: 0 < k < |groups| ==> groups[k - 1].centerName != groups[k].centerName)
  }

  /** The loop of `main` that fills the left column. A new group starts
      exactly when a row's center differs from the previous row's; the
      first row opens a group unless its center name is empty, in which case
      the source appends to a container that does not exist yet and fails
      (`None`). */
  method GroupByCenter(rows: seq<AreaRow>) returns (groups: Option<seq<Group>>)
    ensures groups.None? <==> rows != [] && rows[0].centerName == ""
    ensures groups.Some? ==> Members(groups.value) == rows && WellGrouped(groups.value)
    ensures groups.Some? ==> |groups.value| == Changes(rows)
  {
    var currentCenter := "";
    var gs: seq<Group> := [];
    for i := 0 to |rows|
      invariant i == 0 ==> gs == [] && currentCenter == ""
      invariant 0 < i ==> rows[0].centerName != ""
      invariant 0 < i ==> gs != [] && currentCenter == gs[|gs| - 1].centerName
      invariant 0 < i ==> currentCenter == rows[i - 1].centerName
      invariant Members(gs) == rows[..i]
      invariant WellGrouped(gs)
      invariant |gs| == Changes(rows[..i])
    {
      var row := rows[i];
      assert rows[..i + 1] == rows[..i] + [row];
      ChangesSnoc(rows[..i], row);
      if row.centerName != currentCenter {
        // a new tile, which receives the row at once
        currentCenter := row.centerName;
        OpenGroupKeepsGrouping(gs, row);
        gs := gs + [Group(currentCenter, [row])];
      } else if gs == [] {
        return None;
      } else {
        JoinLastKeepsGrouping(gs, row);
        gs := JoinLast(gs, row);
      }
    }
    assert rows[..|rows|] == rows;
    groups := Some(gs);
  }

  /** The groups with `row` added to the last one. */
  function JoinLast(groups: seq<Group>, row: AreaRow): seq<Group>
    requires groups != []
  {
    var last := groups[|groups| - 1];
    groups[..|groups| - 1] + [last.(members := last.members + [row])]
  }

  lemma {:induction false} OpenGroupKeepsGrouping(groups: seq<Group>, row: AreaRow)
    requires WellGrouped(groups)
    requires groups == [] || groups[|groups| - 1].centerName != row.centerName
    ensures Members(groups + [Group(row.centerName, [row])]) == Members(groups) + [row]
    ensures WellGrouped(groups + [Group(row.centerName, [row])])
  {
    assert (groups + [Group(row.centerName, [row])])[..|groups|] == groups;
  }

  lemma {:induction false} JoinLastKeepsGrouping(groups: seq<Group>, row: AreaRow)
    requires WellGrouped(groups) && groups != []
    requires groups[|groups| - 1].centerName == row.centerName
    ensures Members(JoinLast(groups, row)) == Members(groups) + [row]
    ensures WellGrouped(JoinLast(groups, row))
    ensures |JoinLast(groups, row)| == |groups|
    ensures JoinLast(groups, row)[|groups| - 1].centerName == row.centerName
  {
    var joined := JoinLast(groups, row);
    assert joined[..|joined| - 1] == groups[..|groups| - 1];
  }

  /** The number of rows whose center differs from the previous row's, the
      first row counting against an empty name. */
  function Changes(rows: seq<AreaRow>): nat
  {
    if rows == [] then 0
    else
      var previous := if |rows| == 1 then "" else rows[|rows| - 2].centerName;
      Changes(rows[..|rows| - 1]) + (if rows[|rows| - 1].centerName != previous then 1 else 0)
  }

  lemma {:induction false} ChangesSnoc(rows: seq<AreaRow>, row: AreaRow)
    ensures Changes(rows + [row]) ==
      Changes(rows) + (if row.centerName != (if rows == [] then "" else rows[|rows| - 1].centerName) then 1 else 0)
  {
    assert (rows + [row])[..|rows|] == rows;
  }

  // ---------------------------------------------------------------------
  // The forecast tabs

  /** A forecast card: icon, title and subtitle. */
  datatype Card = Card(icon: Icon, title: string, subtitle: string)

  /** `current_weather` as `show_weather` fills it from the selected rows. */
  function CurrentWeather(dbRows: seq<(string, string)>): (current: (seq<string>, seq<string>))
    ensures |current.0| == |dbRows| && |current.1| == |dbRows|
    ensures forall i :: 0 <= i < |dbRows| ==> current.0[i] == dbRows[i].0 && current.1[i] == dbRows[i].1
  {
    if dbRows == [] then ([], [])
    else
      var rest := CurrentWeather(dbRows[1..]);
      ([dbRows[0].0] + rest.0, [dbRows[0].1] + rest.1)
  }

  /** `update_weather_by_tab`: the card a tab shows, if any. */
  function TabCard(times: seq<string>, weathers: seq<string>, tabIndex: nat): (card: Option<Card>)
    requires |times| == |weathers|
    ensures card.Some? <==> tabIndex < |times|
    ensures card.Some? ==> card.value == Card(WeatherIcon(weathers[tabIndex]), times[tabIndex] + " の天気", weathers[tabIndex])
  {
    if tabIndex < |times| then
      Some(Card(WeatherIcon(weathers[tabIndex]), times[tabIndex] + " の天気", weathers[tabIndex]))
    else None
  }
}
