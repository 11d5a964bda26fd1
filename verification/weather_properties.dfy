/** Properties of the weather dashboard's data reshaping. */
module WeatherProperties {
  import opened Wrappers
  import opened Weather

  // ---------------------------------------------------------------------
  // Icons

  function Max(a: nat, b: nat): nat
  {
    if a < b then b else a
  }

  /** The icon of two texts run together is the higher-ranked of their
      icons: a keyword decides whatever else the text contains and wherever
      it stands. */
  lemma {:induction false} IconOfJoinedText(t: string, u: string)
    ensures Rank(WeatherIcon(t + u)) == Max(Rank(WeatherIcon(t)), Rank(WeatherIcon(u)))
    ensures WeatherIcon(t + u) == WeatherIcon(u + t)
  {
    forall c: char
      ensures c in t + u <==> c in t || c in u
      ensures c in u + t <==> c in t || c in u
    {
      if c in t + u {
        var i :| 0 <= i < |t + u| && (t + u)[i] == c;
        if i < |t| { assert t[i] == c; } else { assert u[i - |t|] == c; }
      }
      if c in u + t {
        var i :| 0 <= i < |u + t| && (u + t)[i] == c;
        if i < |u| { assert u[i] == c; } else { assert t[i - |u|] == c; }
      }
      if c in t {
        var i :| 0 <= i < |t| && t[i] == c;
        assert (t + u)[i] == c && (u + t)[|u| + i] == c;
      }
      if c in u {
        var i :| 0 <= i < |u| && u[i] == c;
        assert (t + u)[|t| + i] == c && (u + t)[i] == c;
      }
    }
  }

  // ---------------------------------------------------------------------
  // The area list

  lemma {:induction false} ChildRowsSound(center: CenterInfo, codes: seq<string>, offices: map<string, OfficeInfo>, r: AreaRow)
    requires r in ChildRows(center, codes, offices)
    ensures r.code in offices && r.name == offices[r.code].name
    ensures r.centerName == center.name && r.code in codes
    decreases |codes|
  {
    var n := |codes|;
    if r !in ChildRows(center, codes[..n - 1], offices) {
      assert r == AreaRow(codes[n - 1], offices[codes[n - 1]].name, center.name);
    } else {
      ChildRowsSound(center, codes[..n - 1], offices, r);
      assert r.code in codes[..n - 1];
    }
  }

  /** Every row of the area list names a known office with its own name,
      under a center that lists that office among its children. */
  lemma {:induction false} AreaRowsSound(centers: seq<(string, CenterInfo)>, offices: map<string, OfficeInfo>, r: AreaRow)
    requires r in CenterRows(centers, offices)
    ensures r.code in offices && r.name == offices[r.code].name
    ensures exists i :: 0 <= i < |centers| && r.centerName == centers[i].1.name && r.code in centers[i].1.children.GetOr([])
    decreases |centers|
  {
    var n := |centers|;
    var center := centers[n - 1].1;
    if r in ChildRows(center, center.children.GetOr([]), offices) {
      ChildRowsSound(center, center.children.GetOr([]), offices, r);
    } else {
      AreaRowsSound(centers[..n - 1], offices, r);
      var i :| 0 <= i < n - 1 && r.centerName == centers[..n - 1][i].1.name && r.code in centers[..n - 1][i].1.children.GetOr([]);
      assert centers[..n - 1][i] == centers[i];
    }
  }

  lemma {:induction false} ChildRowsComplete(center: CenterInfo, codes: seq<string>, offices: map<string, OfficeInfo>, j: nat)
    requires j < |codes| && codes[j] in offices
    ensures AreaRow(codes[j], offices[codes[j]].name, center.name) in ChildRows(center, codes, offices)
    decreases |codes|
  {
    var n := |codes|;
    if j < n - 1 {
      ChildRowsComplete(center, codes[..n - 1], offices, j);
    }
  }

  /** Every child code of every center that is a known office has its row. */
  lemma {:induction false} AreaRowsComplete(centers: seq<(string, CenterInfo)>, offices: map<string, OfficeInfo>, i: nat, j: nat)
    requires i < |centers|
    requires j < |centers[i].1.children.GetOr([])|
    requires centers[i].1.children.GetOr([])[j] in offices
    ensures var code := centers[i].1.children.GetOr([])[j];
      AreaRow(code, offices[code].name, centers[i].1.name) in CenterRows(centers, offices)
    decreases |centers|
  {
    var n := |centers|;
    if i == n - 1 {
      ChildRowsComplete(centers[i].1, centers[i].1.children.GetOr([]), offices, j);
    } else {
      assert centers[..n - 1][i] == centers[i];
      AreaRowsComplete(centers[..n - 1], offices, i, j);
    }
  }

  /** The rows of a list of centers are the rows of its first part followed by
      those of the rest: rows come center by center, in center order. */
  lemma {:induction false} AreaRowsInCenterOrder(a: seq<(string, CenterInfo)>, b: seq<(string, CenterInfo)>, offices: map<string, OfficeInfo>)
    ensures CenterRows(a + b, offices) == CenterRows(a, offices) + CenterRows(b, offices)
    decreases |b|
  {
    if b == [] {
      assert a + b == a;
    } else {
      var n := |b|;
      assert (a + b)[..|a + b| - 1] == a + b[..n - 1];
      assert (a + b)[|a + b| - 1] == b[n - 1];
      AreaRowsInCenterOrder(a, b[..n - 1], offices);
    }
  }

  /** Within a center, rows follow the order of its children. */
  lemma {:induction false} ChildRowsInChildOrder(center: CenterInfo, a: seq<string>, b: seq<string>, offices: map<string, OfficeInfo>)
    ensures ChildRows(center, a + b, offices) == ChildRows(center, a, offices) + ChildRows(center, b, offices)
    decreases |b|
  {
    if b == [] {
      assert a + b == a;
    } else {
      var n := |b|;
      assert (a + b)[..|a + b| - 1] == a + b[..n - 1];
      assert (a + b)[|a + b| - 1] == b[n - 1];
      ChildRowsInChildOrder(center, a, b[..n - 1], offices);
    }
  }

  /** A child code that is not a known office contributes no row. */
  lemma {:induction false} UnknownOfficeSkipped(center: CenterInfo, code: string, offices: map<string, OfficeInfo>)
    requires code !in offices
    ensures ChildRows(center, [code], offices) == []
  {
    assert [code][..0] == [];
  }

  // ---------------------------------------------------------------------
  // Keyed tables

  /** A key is in the table after the upserts exactly when it was before or
      some row carries it. */
  lemma {:induction false} UpsertKeys<K, V>(table: map<K, V>, rows: seq<(K, V)>, k: K)
    ensures k in Upsert(table, rows) <==> k in table || exists i :: 0 <= i < |rows| && rows[i].0 == k
    decreases |rows|
  {
    if rows != [] {
      var n := |rows|;
      var front := rows[..n - 1];
      UpsertKeys(table, front, k);
      if exists i :: 0 <= i < n - 1 && front[i].0 == k {
        var i :| 0 <= i < n - 1 && front[i].0 == k;
        assert rows[i].0 == k;
      }
      if exists i :: 0 <= i < n && rows[i].0 == k {
        var i :| 0 <= i < n && rows[i].0 == k;
        if i < n - 1 { assert front[i].0 == k; }
      }
    }
  }

  /** The last row with a given key decides its value: an insert of an
      existing key replaces it. */
  lemma {:induction false} UpsertLastWins<K, V>(table: map<K, V>, rows: seq<(K, V)>, i: nat)
    requires i < |rows|
    requires forall j :: i < j < |rows| ==> rows[j].0 != rows[i].0
    ensures rows[i].0 in Upsert(table, rows) && Upsert(table, rows)[rows[i].0] == rows[i].1
    decreases |rows|
  {
    var n := |rows|;
    var front := rows[..n - 1];
    if i < n - 1 {
      forall j | i < j < n - 1 ensures front[j].0 != front[i].0 {
        assert front[j] == rows[j];
      }
      UpsertLastWins(table, front, i);
      assert front[i] == rows[i];
    }
  }

  /** A key that no row carries keeps its entry, or its absence. */
  lemma {:induction false} UpsertLeavesOthers<K, V>(table: map<K, V>, rows: seq<(K, V)>, k: K)
    requires forall i :: 0 <= i < |rows| ==> rows[i].0 != k
    ensures k in Upsert(table, rows) <==> k in table
    ensures k in table ==> Upsert(table, rows)[k] == table[k]
    decreases |rows|
  {
    if rows != [] {
      var n := |rows|;
      var front := rows[..n - 1];
      forall i | 0 <= i < n - 1 ensures front[i].0 != k {
        assert front[i] == rows[i];
      }
      UpsertLeavesOthers(table, front, k);
    }
  }

  /** After saving a forecast, the area's entry for the date of row `i` is
      the weather of that row when no later row falls on the same date. */
  lemma {:induction false} SavedForecastReadsBack(forecasts: map<(string, string), string>, areaCode: string,
                               times: seq<string>, weathers: seq<string>, i: nat)
    requires i < |times| && i < |weathers|
    requires forall j :: i < j < |times| && j < |weathers| ==> DatePart(times[j]) != DatePart(times[i])
    ensures var saved := ForecastFor(Upsert(forecasts, ForecastRows(areaCode, times, weathers)), areaCode);
      DatePart(times[i]) in saved && saved[DatePart(times[i])] == weathers[i]
  {
    var rows := ForecastRows(areaCode, times, weathers);
    forall j | i < j < |rows| ensures rows[j].0 != rows[i].0 {
    }
    UpsertLastWins(forecasts, rows, i);
  }

  /** Saving one area's forecast leaves every other area's forecast as it
      was. */
  lemma {:induction false} SavingForecastKeepsOtherAreas(forecasts: map<(string, string), string>, areaCode: string,
                                      times: seq<string>, weathers: seq<string>, other: string)
    requires other != areaCode
    ensures ForecastFor(Upsert(forecasts, ForecastRows(areaCode, times, weathers)), other) == ForecastFor(forecasts, other)
  {
    var rows := ForecastRows(areaCode, times, weathers);
    var before := ForecastFor(forecasts, other);
    var after := ForecastFor(Upsert(forecasts, rows), other);
    forall date
      ensures date in after <==> date in before
      ensures date in after ==> after[date] == before[date]
    {
      UpsertLeavesOthers(forecasts, rows, (other, date));
    }
  }

  /** Saving the area list keys each area by its code, the last row for a
      code deciding its name and center. */
  lemma {:induction false} SavedAreaReadsBack(areas: map<string, (string, string)>, rows: seq<AreaRow>, i: nat)
    requires i < |rows|
    requires forall j :: i < j < |rows| ==> rows[j].code != rows[i].code
    ensures rows[i].code in Upsert(areas, AreaEntries(rows))
    ensures Upsert(areas, AreaEntries(rows))[rows[i].code] == (rows[i].name, rows[i].centerName)
  {
    UpsertLastWins(areas, AreaEntries(rows), i);
  }

  // ---------------------------------------------------------------------
  // Grouping

  /** Rows of one center stand together, as `ORDER BY center_name` leaves
      them. */
  ghost predicate Clustered(rows: seq<AreaRow>)
  {
    forall i, j, k :: 0 <= i < j < k < |rows| && rows[i].centerName == rows[k].centerName ==>
      rows[j].centerName == rows[i].centerName
  }

  /** Where group `a`'s rows begin among all members. */
  function Offset(groups: seq<Group>, a: nat): nat
    requires a <= |groups|
  {
    |Members(groups[..a])|
  }

  lemma {:induction false} MemberAt(groups: seq<Group>, a: nat, m: nat)
    requires a < |groups| && m < |groups[a].members|
    ensures Offset(groups, a) + m < |Members(groups)|
    ensures Members(groups)[Offset(groups, a) + m] == groups[a].members[m]
    decreases |groups|
  {
    var n := |groups|;
    var front := groups[..n - 1];
    if a < n - 1 {
      assert front[a] == groups[a];
      assert front[..a] == groups[..a];
      MemberAt(front, a, m);
    } else {
      assert groups[..a] == front;
    }
  }

  lemma {:induction false} OffsetGrows(groups: seq<Group>, a: nat, b: nat)
    requires a < b <= |groups|
    ensures Offset(groups, a) + |groups[a].members| <= Offset(groups, b)
    decreases b - a
  {
    assert groups[..a + 1][..a] == groups[..a];
    assert Offset(groups, a + 1) == Offset(groups, a) + |groups[a].members|;
    if a + 1 < b {
      OffsetGrows(groups, a + 1, b);
    }
  }

  lemma {:induction false} GroupsApartDiffer(rows: seq<AreaRow>, groups: seq<Group>, a: nat, b: nat)
    requires Members(groups) == rows && WellGrouped(groups) && Clustered(rows)
    requires a + 1 < b < |groups|
    ensures groups[a].centerName != groups[b].centerName
  {
    var p, q, r := Offset(groups, a), Offset(groups, a + 1), Offset(groups, b);
    assert groups[a].members != [] && groups[a + 1].members != [] && groups[b].members != [];
    MemberAt(groups, a, 0);
    MemberAt(groups, a + 1, 0);
    MemberAt(groups, b, 0);
    OffsetGrows(groups, a, a + 1);
    OffsetGrows(groups, a + 1, b);
    assert groups[a].members[0] in groups[a].members;
    assert groups[a + 1].members[0] in groups[a + 1].members;
    assert groups[b].members[0] in groups[b].members;
    assert rows[p].centerName == groups[a].centerName;
    assert rows[q].centerName == groups[a + 1].centerName;
    assert rows[r].centerName == groups[b].centerName;
    assert groups[a].centerName != groups[a + 1].centerName;
    assert p < q < r < |rows|;
  }

  /** Grouping clustered rows gives each center exactly one group. */
  lemma {:induction false} ClusteredGroupsAreDistinct(rows: seq<AreaRow>, groups: seq<Group>)
    requires Members(groups) == rows && WellGrouped(groups) && Clustered(rows)
    ensures forall a, b :: 0 <= a < b < |groups| ==> groups[a].centerName != groups[b].centerName
  {
    forall a, b | 0 <= a < b < |groups|
      ensures groups[a].centerName != groups[b].centerName
    {
      if b > a + 1 {
        GroupsApartDiffer(rows, groups, a, b);
      }
    }
  }

  // ---------------------------------------------------------------------
  // Tabs

  /** After `show_weather`, tab `k` shows the `k`-th selected row, and a tab
      past the last row shows nothing. */
  lemma {:induction false} TabShowsSelectedRow(dbRows: seq<(string, string)>, k: nat)
    ensures var current := CurrentWeather(dbRows);
      TabCard(current.0, current.1, k) ==
        if k < |dbRows| then Some(Card(WeatherIcon(dbRows[k].1), dbRows[k].0 + " の天気", dbRows[k].1))
        else None
  {
  }
}
