/** HatGuzergahController: the list of bus route numbers and the ordered stops of one
    route. */
module Routes {
  import opened Wrappers
  import opened GeoJson
  import opened Store
  import opened Http

  predicate StrictlyAscending(xs: seq<int>)
  {
    forall i, j :: 0 <= i < j < |xs| ==> xs[i] < xs[j]
  }

  /** `xs` with `x` inserted at its place, unless it is already there. */
  function InsertDistinct(xs: seq<int>, x: int): (r: seq<int>)
    requires StrictlyAscending(xs)
    ensures StrictlyAscending(r)
    ensures forall n :: n in r <==> n in xs || n == x
  {
    if xs == [] then [x]
    else if x < xs[0] then [x] + xs
    else if x == xs[0] then xs
    else
      var rest := InsertDistinct(xs[1..], x);
      assert forall n :: n in rest ==> xs[0] < n by {
        forall n | n in rest ensures xs[0] < n {
          if n in xs[1..] {
            var j :| 0 <= j < |xs[1..]| && xs[1..][j] == n;
            assert xs[j + 1] == n;
          }
        }
      }
      assert forall j :: 0 <= j < |rest| ==> rest[j] in rest;
      [xs[0]] + rest
  }

  /** The route numbers the table holds. */
  function RouteNumbers(rows: seq<HatRow>): set<int>
  {
    set h | h in rows :: h.hatNo
  }

  /** `Select(h => h.hat_no).Distinct().OrderBy(h => h)`. */
  function DistinctRouteNumbers(rows: seq<HatRow>): (r: seq<int>)
    ensures StrictlyAscending(r)
    ensures forall n :: n in r <==> n in RouteNumbers(rows)
  {
    if rows == [] then []
    else
      var init := rows[..|rows| - 1];
      var last := rows[|rows| - 1];
      assert rows == init + [last];
      assert RouteNumbers(rows) == RouteNumbers(init) + {last.hatNo};
      InsertDistinct(DistinctRouteNumbers(init), last.hatNo)
  }

  lemma FirstIsLeast(a: seq<int>, x: int)
    requires StrictlyAscending(a) && x in a
    ensures a[0] <= x
  {
  }

  /** A strictly ascending list is fixed by its elements: the listing is the only
      ascending, duplicate-free arrangement of the table's route numbers. */
  lemma {:induction false} AscendingUnique(a: seq<int>, b: seq<int>)
    requires StrictlyAscending(a) && StrictlyAscending(b)
    requires forall n :: n in a <==> n in b
    ensures a == b
  {
    assert a != [] ==> a[0] in a && a[0] in b;
    assert b != [] ==> b[0] in b && b[0] in a;
    if a != [] && b != [] {
      FirstIsLeast(a, b[0]);
      FirstIsLeast(b, a[0]);
      forall n ensures n in a[1..] <==> n in b[1..] {
        if n in a[1..] {
          var j :| 1 <= j < |a| && a[j] == n;
          assert n in a;
          var k :| 0 <= k < |b| && b[k] == n;
          assert k != 0 && b[1..][k - 1] == n;
        }
        if n in b[1..] {
          var j :| 1 <= j < |b| && b[j] == n;
          assert n in b;
          var k :| 0 <= k < |a| && a[k] == n;
          assert k != 0 && a[1..][k - 1] == n;
        }
      }
      AscendingUnique(a[1..], b[1..]);
      assert a == [a[0]] + a[1..] && b == [b[0]] + b[1..];
    }
  }

  const RouteListFailed := "Hat numaraları alınırken bir hata oluştu"
  const StopsFailed := "Güzergah bilgileri alınırken bir hata oluştu"

  /** `GetHatlar`; `table` is the read of the route table (`Failure` for a database error). */
  function GetHatlar(table: Result<seq<HatRow>, string>): (r: Response<seq<int>>)
    ensures r.Ok? <==> table.Success?
    ensures r.Ok? ==> StrictlyAscending(r.body)
    ensures r.Ok? ==> forall n :: n in r.body <==> n in RouteNumbers(table.value)
    ensures !r.Ok? ==> r == ServerError(RouteListFailed)
  {
    match table
    case Failure(_) => ServerError(RouteListFailed)
    case Success(rows) => Ok(DistinctRouteNumbers(rows))
  }

  /** A stop as returned: `{ id, hatNo, geometry: { type: "Point", coordinates: [X, Y] } }`. */
  datatype Stop = Stop(id: int, hatNo: int, geometry: Geometry)

  predicate SortedById(rows: seq<HatRow>)
  {
    forall i, j :: 0 <= i < j < |rows| ==> rows[i].id <= rows[j].id
  }

  /** `row` placed after every row whose id does not exceed its own. */
  function InsertById(sorted: seq<HatRow>, row: HatRow): (r: seq<HatRow>)
    requires SortedById(sorted)
    ensures SortedById(r)
    ensures multiset(r) == multiset(sorted) + multiset{row}
    ensures |r| == |sorted| + 1 && (r[0] == row || (sorted != [] && r[0] == sorted[0]))
  {
    if sorted == [] then [row]
    else if row.id < sorted[0].id then [row] + sorted
    else
      var rest := InsertById(sorted[1..], row);
      assert sorted == [sorted[0]] + sorted[1..];
      assert sorted[0].id <= rest[0].id;
      PrependSorted(sorted[0], rest);
      [sorted[0]] + rest
  }

  lemma PrependSorted(first: HatRow, rest: seq<HatRow>)
    requires SortedById(rest) && rest != [] && first.id <= rest[0].id
    ensures SortedById([first] + rest)
  {
    var r := [first] + rest;
    forall i, j | 0 <= i < j < |r|
      ensures r[i].id <= r[j].id
    {
      if i == 0 {
        assert r[j] == rest[j - 1];
      } else {
        assert r[i] == rest[i - 1] && r[j] == rest[j - 1];
      }
    }
  }

  /** `OrderBy(h => h.id)`: a sort by id. Ids are the table's key, so no two rows tie and the
      order is fully determined. */
  function SortById(rows: seq<HatRow>): (r: seq<HatRow>)
    ensures SortedById(r)
    ensures multiset(r) == multiset(rows)
  {
    if rows == [] then []
    else
      assert rows == rows[..|rows| - 1] + [rows[|rows| - 1]];
      InsertById(SortById(rows[..|rows| - 1]), rows[|rows| - 1])
  }

  /** `Where(h => h.hat_no == hatNo)`. */
  function OnRoute(rows: seq<HatRow>, hatNo: int): (r: seq<HatRow>)
    ensures forall h :: multiset(r)[h] == if h.hatNo == hatNo then multiset(rows)[h] else 0
  {
    if rows == [] then []
    else
      var init := rows[..|rows| - 1];
      var last := rows[|rows| - 1];
      assert rows == init + [last];
      if last.hatNo == hatNo then OnRoute(init, hatNo) + [last] else OnRoute(init, hatNo)
  }

  function ToStop(h: HatRow): Stop
  {
    Stop(h.id, h.hatNo, Point([h.geometry.x, h.geometry.y]))
  }

  /** The route has rows exactly when the sorted selection is non-empty. */
  lemma RouteSelectionEmpty(rows: seq<HatRow>, hatNo: int)
    ensures |SortById(OnRoute(rows, hatNo))| == |OnRoute(rows, hatNo)|
    ensures SortById(OnRoute(rows, hatNo)) == [] <==> forall i :: 0 <= i < |rows| ==> rows[i].hatNo != hatNo
  {
    var selected := OnRoute(rows, hatNo);
    var sorted := SortById(selected);
    assert |sorted| == |multiset(sorted)| == |multiset(selected)| == |selected|;
    if sorted == [] {
      forall i | 0 <= i < |rows| ensures rows[i].hatNo != hatNo {
        assert rows[i] in multiset(rows);
        assert rows[i].hatNo == hatNo ==> multiset(sorted)[rows[i]] > 0;
      }
    } else {
      assert sorted[0] in multiset(selected);
      assert sorted[0] in multiset(rows);
      var i :| 0 <= i < |rows| && rows[i] == sorted[0];
    }
  }

  /** The stops returned for the selected rows, in their order. */
  function StopsOf(rows: seq<HatRow>): (r: seq<Stop>)
    ensures |r| == |rows| && forall i :: 0 <= i < |rows| ==> r[i] == ToStop(rows[i])
  {
    seq(|rows|, i requires 0 <= i < |rows| => ToStop(rows[i]))
  }

  /** `GetGuzergah(hatNo)`: the route's stops ordered by id; NotFound when it has none. */
  function GetGuzergah(table: Result<seq<HatRow>, string>, hatNo: int): (r: Response<seq<Stop>>)
    ensures table.Failure? ==> r == ServerError(StopsFailed)
    ensures table.Success? ==> (r.NotFound? <==> forall i :: 0 <= i < |table.value| ==> table.value[i].hatNo != hatNo)
    ensures table.Success? && !r.NotFound? ==> r == Ok(StopsOf(SortById(OnRoute(table.value, hatNo))))
  {
    match table
    case Failure(_) => ServerError(StopsFailed)
    case Success(rows) =>
      var sorted := SortById(OnRoute(rows, hatNo));
      RouteSelectionEmpty(rows, hatNo);
      if sorted == [] then NotFound("Hat " + IntToString(hatNo) + " için güzergah bulunamadı")
      else Ok(StopsOf(sorted))
  }

  /** The stops of a route: each on that route, ascending by id, and every row of the route
      present, as many stops as the route has rows. */
  lemma StopsOfRoute(table: seq<HatRow>, hatNo: int)
    requires GetGuzergah(Success(table), hatNo).Ok?
    ensures var stops := GetGuzergah(Success(table), hatNo).body;
            (forall i :: 0 <= i < |stops| ==> stops[i].hatNo == hatNo) &&
            (forall i, j :: 0 <= i < j < |stops| ==> stops[i].id <= stops[j].id) &&
            (forall h :: h in table && h.hatNo == hatNo ==> ToStop(h) in stops) &&
            |stops| == |OnRoute(table, hatNo)|
  {
    RouteSelectionEmpty(table, hatNo);
    StopsOnRoute(SortById(OnRoute(table, hatNo)), table, hatNo);
    StopsCoverRoute(SortById(OnRoute(table, hatNo)), table, hatNo);
  }

  lemma StopsOnRoute(sorted: seq<HatRow>, table: seq<HatRow>, hatNo: int)
    requires multiset(sorted) == multiset(OnRoute(table, hatNo))
    ensures forall i :: 0 <= i < |sorted| ==> StopsOf(sorted)[i].hatNo == hatNo
  {
    forall i | 0 <= i < |sorted| ensures StopsOf(sorted)[i].hatNo == hatNo {
      assert sorted[i] in multiset(OnRoute(table, hatNo));
    }
  }

  lemma StopsCoverRoute(sorted: seq<HatRow>, table: seq<HatRow>, hatNo: int)
    requires multiset(sorted) == multiset(OnRoute(table, hatNo))
    ensures forall h :: h in table && h.hatNo == hatNo ==> ToStop(h) in StopsOf(sorted)
  {
    forall h | h in table && h.hatNo == hatNo ensures ToStop(h) in StopsOf(sorted) {
      assert h in multiset(table);
      assert h in multiset(sorted);
      var i :| 0 <= i < |sorted| && sorted[i] == h;
      assert StopsOf(sorted)[i] == ToStop(h);
    }
  }

  /** Decimal text of an integer, as interpolated into the not-found message. */
  function IntToString(n: int): string
  {
    if n < 0 then "-" + NatToString(-n) else NatToString(n)
  }

  function NatToString(n: nat): string
    decreases n
  {
    if n < 10 then [('0' as int + n) as char] else NatToString(n / 10) + [('0' as int + n % 10) as char]
  }
}
