/**
 * The collection-route page: the greedy nearest-neighbour tour over the
 * selected sellers, the seller filter and the selection toggle. The
 * great-circle distance is the parameter `dist`.
 */
module Routes {
  import opened Optional
  import Strings
  import Seqs
  import Reports

  type Coord = Reports.Coord
  type Seller = Reports.Seller
  type Dist = (Coord, Coord) -> real

  /** What the tour needs of a distance: never negative, and zero from a point to itself. */
  ghost predicate IsDistance(dist: Dist) {
    forall p, q :: dist(p, q) >= 0.0 && dist(p, p) == 0.0
  }

  /** True iff `s[k]` is the first of the sellers nearest to `cur`. */
  predicate IsFirstNearest(cur: Coord, s: seq<Seller>, dist: Dist, k: int) {
    && 0 <= k < |s|
    && (forall j :: 0 <= j < |s| ==> dist(cur, s[k].location) <= dist(cur, s[j].location))
    && (forall j :: 0 <= j < k ==> dist(cur, s[j].location) > dist(cur, s[k].location))
  }

  /**
   * The index the inner scan settles on: it starts at 0 and moves only on a strictly
   * smaller distance, so ties go to the earliest seller.
   */
  function Nearest(cur: Coord, s: seq<Seller>, dist: Dist): (k: nat)
    requires |s| > 0
    ensures IsFirstNearest(cur, s, dist, k)
  {
    if |s| == 1 then 0
    else
      var k := Nearest(cur, s[..|s| - 1], dist);
      if dist(cur, s[|s| - 1].location) < dist(cur, s[k].location) then |s| - 1 else k
  }

  /** At most one index is the first nearest, so the scan's answer is the only one. */
  lemma FirstNearestUnique(cur: Coord, s: seq<Seller>, dist: Dist, k: int)
    requires IsFirstNearest(cur, s, dist, k)
    ensures k == Nearest(cur, s, dist)
  {
    var n := Nearest(cur, s, dist);
  }

  /** `splice(k, 1)`: the list without its `k`-th element. */
  function Remove<T>(s: seq<T>, k: nat): (r: seq<T>)
    requires k < |s|
    ensures |r| == |s| - 1
    ensures multiset(r) + multiset{s[k]} == multiset(s)
  {
    assert s == s[..k] + [s[k]] + s[k + 1..];
    s[..k] + s[k + 1..]
  }

  /** The sellers in the order the loop visits them, starting from `cur`. */
  function Tour(cur: Coord, rem: seq<Seller>, dist: Dist): (t: seq<Seller>)
    ensures |t| == |rem|
    decreases |rem|
  {
    if rem == [] then []
    else
      var k := Nearest(cur, rem, dist);
      [rem[k]] + Tour(rem[k].location, Remove(rem, k), dist)
  }

  /** The tour visits every selected seller exactly once. */
  lemma {:induction false} TourIsPermutation(cur: Coord, rem: seq<Seller>, dist: Dist)
    ensures multiset(Tour(cur, rem, dist)) == multiset(rem)
    decreases |rem|
  {
    if rem != [] {
      var k := Nearest(cur, rem, dist);
      TourIsPermutation(rem[k].location, Remove(rem, k), dist);
    }
  }

  /** Every stop is at least as near to the previous one as any stop still to come. */
  predicate IsGreedy(cur: Coord, t: seq<Seller>, dist: Dist)
    decreases |t|
  {
    t == [] ||
    ((forall j :: 0 <= j < |t| ==> dist(cur, t[0].location) <= dist(cur, t[j].location))
     && IsGreedy(t[0].location, t[1..], dist))
  }

  /** Every stop of the tour is one of the sellers it started with. */
  lemma TourFrom(cur: Coord, rem: seq<Seller>, dist: Dist, j: int)
    requires 0 <= j < |Tour(cur, rem, dist)|
    ensures Tour(cur, rem, dist)[j] in rem
  {
    TourIsPermutation(cur, rem, dist);
    assert Tour(cur, rem, dist)[j] in multiset(rem);
  }

  lemma {:induction false} TourIsGreedy(cur: Coord, rem: seq<Seller>, dist: Dist)
    ensures IsGreedy(cur, Tour(cur, rem, dist), dist)
    decreases |rem|
  {
    if rem != [] {
      var k := Nearest(cur, rem, dist);
      var rest := Tour(rem[k].location, Remove(rem, k), dist);
      var t := [rem[k]] + rest;
      assert t[1..] == rest;
      TourIsGreedy(rem[k].location, Remove(rem, k), dist);
      forall j | 0 <= j < |t|
        ensures dist(cur, t[0].location) <= dist(cur, t[j].location)
      {
        if j > 0 {
          TourFrom(rem[k].location, Remove(rem, k), dist, j - 1);
          RemoveFrom(rem, k, t[j]);
          NearestBeatsMember(cur, rem, dist, t[j]);
        }
      }
    }
  }

  /** An element left after `splice` was there before. */
  lemma RemoveFrom<T>(s: seq<T>, k: nat, x: T)
    requires k < |s| && x in Remove(s, k)
    ensures x in s
  {
    assert x in multiset(Remove(s, k));
  }

  /** The nearest seller is at least as near as any other. */
  lemma NearestBeatsMember(cur: Coord, rem: seq<Seller>, dist: Dist, x: Seller)
    requires x in rem
    ensures dist(cur, rem[Nearest(cur, rem, dist)].location) <= dist(cur, x.location)
  {
    var i :| 0 <= i < |rem| && rem[i] == x;
  }

  function Locations(s: seq<Seller>): (r: seq<Coord>)
    ensures |r| == |s|
    ensures forall i :: 0 <= i < |s| ==> r[i] == s[i].location
  {
    if s == [] then [] else [s[0].location] + Locations(s[1..])
  }

  lemma {:induction false} LocationsAppend(s: seq<Seller>, t: seq<Seller>)
    ensures Locations(s + t) == Locations(s) + Locations(t)
  {
  }

  /** The length of the path through `route`: the sum of `dist` over consecutive points. */
  function PathLength(route: seq<Coord>, dist: Dist): real {
    if |route| < 2 then 0.0
    else PathLength(route[..|route| - 1], dist) + dist(route[|route| - 2], route[|route| - 1])
  }

  /** With a distance, a path is never negative. */
  lemma {:induction false} PathLengthNonNegative(route: seq<Coord>, dist: Dist)
    requires IsDistance(dist)
    ensures PathLength(route, dist) >= 0.0
  {
    if |route| >= 2 {
      PathLengthNonNegative(route[..|route| - 1], dist);
    }
  }

  /** One extension of a path adds the leg from its last point. */
  lemma PathLengthSnoc(route: seq<Coord>, x: Coord, dist: Dist)
    requires |route| >= 1
    ensures PathLength(route + [x], dist) == PathLength(route, dist) + dist(route[|route| - 1], x)
  {
    assert (route + [x])[..|route|] == route;
  }

  /** The "find nearest seller" scan: the first remaining seller at the least distance from `current`. */
  method FindNearest(current: Coord, remaining: seq<Seller>, dist: Dist) returns (nearestIndex: nat, minDistance: real)
    requires |remaining| > 0
    ensures nearestIndex == Nearest(current, remaining, dist)
    ensures IsFirstNearest(current, remaining, dist, nearestIndex)
    ensures minDistance == dist(current, remaining[nearestIndex].location)
  {
    nearestIndex := 0;
    minDistance := dist(current, remaining[0].location);
    for i := 1 to |remaining|
      invariant nearestIndex == Nearest(current, remaining[..i], dist)
      invariant minDistance == dist(current, remaining[nearestIndex].location)
    {
      assert remaining[..i + 1][..i] == remaining[..i];
      var d := dist(current, remaining[i].location);
      if d < minDistance {
        minDistance := d;
        nearestIndex := i;
      }
    }
    assert remaining[..|remaining|] == remaining;
  }

  /** One step of the tour: the first nearest seller, then the tour of the rest from there. */
  lemma TourStep(cur: Coord, rem: seq<Seller>, dist: Dist)
    requires |rem| > 0
    ensures var k := Nearest(cur, rem, dist);
      Tour(cur, rem, dist) == [rem[k]] + Tour(rem[k].location, Remove(rem, k), dist)
  {
  }

  /**
   * The outward part of `calculateOptimalRoute`: from `home`, visit the remaining
   * sellers one nearest at a time, collecting their locations and the distance so far.
   */
  method VisitAll(home: Coord, selected: seq<Seller>, dist: Dist) returns (route: seq<Coord>, distance: real)
    ensures route == [home] + Locations(Tour(home, selected, dist))
    ensures distance == PathLength(route, dist)
  {
    route := [home];
    var remaining := selected;
    var current := home;
    distance := 0.0;
    ghost var visited: seq<Seller> := [];
    while |remaining| > 0
      invariant Tour(home, selected, dist) == visited + Tour(current, remaining, dist)
      invariant route == [home] + Locations(visited)
      invariant current == route[|route| - 1]
      invariant distance == PathLength(route, dist)
      decreases |remaining|
    {
      var nearestIndex, minDistance := FindNearest(current, remaining, dist);
      var next := remaining[nearestIndex];
      TourAdvance(home, selected, dist, visited, current, remaining);
      RouteAdvance(home, visited, next);
      PathLengthSnoc(route, next.location, dist);
      route := route + [next.location];
      distance := distance + minDistance;
      current := next.location;
      visited := visited + [next];
      remaining := Remove(remaining, nearestIndex);
    }
    assert visited == Tour(home, selected, dist);
  }

  /** One turn of the visiting loop moves the nearest seller from the tour still to come to the visited part. */
  lemma TourAdvance(home: Coord, selected: seq<Seller>, dist: Dist, visited: seq<Seller>, current: Coord, remaining: seq<Seller>)
    requires |remaining| > 0
    requires Tour(home, selected, dist) == visited + Tour(current, remaining, dist)
    ensures var k := Nearest(current, remaining, dist);
      Tour(home, selected, dist) == (visited + [remaining[k]]) + Tour(remaining[k].location, Remove(remaining, k), dist)
  {
    var k := Nearest(current, remaining, dist);
    TourStep(current, remaining, dist);
    AppendAssoc(visited, [remaining[k]], Tour(remaining[k].location, Remove(remaining, k), dist));
  }

  /** Visiting one more seller adds its location to the route. */
  lemma RouteAdvance(home: Coord, visited: seq<Seller>, next: Seller)
    ensures [home] + Locations(visited + [next]) == ([home] + Locations(visited)) + [next.location]
  {
    LocationsSnoc(visited, next);
  }

  lemma AppendAssoc<T>(a: seq<T>, b: seq<T>, c: seq<T>)
    ensures a + (b + c) == (a + b) + c
  {
  }

  lemma LocationsSnoc(s: seq<Seller>, x: Seller)
    ensures Locations(s + [x]) == Locations(s) + [x.location]
  {
    LocationsAppend(s, [x]);
  }

  /**
   * `calculateOptimalRoute`. With no user location or no selected seller the route is
   * empty and the distance and cost are zero. Otherwise the route starts and ends at
   * the user's location and visits the selected sellers' locations in between in greedy
   * order, each seller once; the distance is the length of that path and the cost 150 per unit.
   */
  method CalculateOptimalRoute(origin: Option<Coord>, selected: seq<Seller>, dist: Dist)
    returns (route: seq<Coord>, distance: real, cost: real)
    ensures origin.None? || selected == [] ==> route == [] && distance == 0.0 && cost == 0.0
    ensures origin.Some? && selected != [] ==>
      && route == Route(origin.value, selected, dist)
      && |route| == |selected| + 2
      && route[0] == origin.value && route[|route| - 1] == origin.value
      && route[1..|route| - 1] == Locations(Tour(origin.value, selected, dist))
      && multiset(Tour(origin.value, selected, dist)) == multiset(selected)
      && distance == PathLength(route, dist)
    ensures cost == distance * 150.0
  {
    if origin.None? || |selected| < 1 {
      return [], 0.0, 0.0;
    }
    var home := origin.value;
    var outward, out := VisitAll(home, selected, dist);
    PathLengthSnoc(outward, home, dist);
    distance := out + dist(outward[|outward| - 1], home);
    route := outward + [home];
    RouteShape(home, selected, dist);
    cost := distance * 150.0;
    TourIsPermutation(home, selected, dist);
  }

  /** The shape of a route: the user's location, the tour's locations, the user's location. */
  lemma RouteShape(home: Coord, selected: seq<Seller>, dist: Dist)
    ensures var route := Route(home, selected, dist);
      && |route| == |selected| + 2
      && route[0] == home && route[|route| - 1] == home
      && route[1..|route| - 1] == Locations(Tour(home, selected, dist))
  {
    var route := Route(home, selected, dist);
    assert route[1..|route| - 1] == Locations(Tour(home, selected, dist));
  }

  /** The route the page draws for a user location and a non-empty selection. */
  function Route(home: Coord, selected: seq<Seller>, dist: Dist): seq<Coord> {
    [home] + Locations(Tour(home, selected, dist)) + [home]
  }

  /** The name listed for a stop: the seller's name, or "Unknown Seller" for none or an empty name. */
  function Label(s: Option<Seller>): string {
    if s.Some? && s.value.name != "" then s.value.name else "Unknown Seller"
  }

  /**
   * The "Optimal Route" list as the page renders it: one entry per interior point of
   * the route, labelled with the seller at the same index of the selection.
   */
  function StopLabelsAsWritten(route: seq<Coord>, selected: seq<Seller>): (r: seq<string>)
    ensures |r| == if |route| >= 2 then |route| - 2 else 0
  {
    var n := if |route| >= 2 then |route| - 2 else 0;
    seq(n, i requires 0 <= i < n => Label(if i < |selected| then Some(selected[i]) else None))
  }

  /** The list as intended: each interior point of the route labelled with the seller visited there, in tour order. */
  function StopLabels(home: Coord, selected: seq<Seller>, dist: Dist): (r: seq<string>)
    ensures |r| == |selected|
    ensures forall i :: 0 <= i < |r| ==> r[i] == Label(Some(Tour(home, selected, dist)[i]))
  {
    var t := Tour(home, selected, dist);
    seq(|t|, i requires 0 <= i < |t| => Label(Some(t[i])))
  }

  /** The `i`-th label of the intended list names a selected seller whose location is the route's point `i + 1`. */
  lemma StopLabelNamesStop(home: Coord, selected: seq<Seller>, dist: Dist, i: int) returns (j: int)
    requires 0 <= i < |selected|
    ensures 0 <= j < |selected| && selected[j].location == Route(home, selected, dist)[i + 1]
    ensures StopLabels(home, selected, dist)[i] == Label(Some(selected[j]))
  {
    j := StopAt(home, selected, dist, i);
  }

  /** The seller visited at the `i`-th stop is one of the selection, standing at the route's point `i + 1`. */
  lemma StopAt(home: Coord, selected: seq<Seller>, dist: Dist, i: int) returns (j: int)
    requires 0 <= i < |selected|
    ensures 0 <= j < |selected| && selected[j] == Tour(home, selected, dist)[i]
    ensures Route(home, selected, dist)[i + 1] == selected[j].location
  {
    TourFrom(home, selected, dist, i);
    j :| 0 <= j < |selected| && selected[j] == Tour(home, selected, dist)[i];
  }

  function Abs(x: real): real {
    if x < 0.0 then -x else x
  }

  /** A distance along the east-west axis, for the example below. */
  function EastWest(p: Coord, q: Coord): real {
    Abs(q.lng - p.lng)
  }

  const Far: Seller := Reports.Seller(1, "A", "", 0.0, 5.0, "", "", [], None, "Low", Reports.Coord(0.0, 5.0))
  const Near: Seller := Reports.Seller(2, "B", "", 0.0, 1.0, "", "", [], None, "Low", Reports.Coord(0.0, 1.0))

  /** From (0, 0), the greedy tour of [Far, Near] visits Near first. */
  lemma NearFirst()
    ensures Tour(Reports.Coord(0.0, 0.0), [Far, Near], EastWest) == [Near, Far]
  {
    var home := Reports.Coord(0.0, 0.0);
    var sel := [Far, Near];
    assert sel[..1] == [Far];
    assert EastWest(home, Far.location) == 5.0 && EastWest(home, Near.location) == 1.0;
    assert Nearest(home, [Far], EastWest) == 0;
    assert Nearest(home, sel, EastWest) == 1;
    assert Remove(sel, 1) == [Far];
    assert Tour(Near.location, [Far], EastWest) == [Far];
  }

  /**
   * Two sellers, the far one selected first: the greedy route visits the near
   * one first, yet the rendered list names the far one for the first stop, and
   * no seller of that name stands there.
   */
  lemma StopLabelsAsWrittenMislabel()
    ensures
      var home := Reports.Coord(0.0, 0.0);
      var route := Route(home, [Far, Near], EastWest);
      && StopLabelsAsWritten(route, [Far, Near])[0] == "A"
      && route[1] == Near.location && Far.location != Near.location
      && StopLabels(home, [Far, Near], EastWest) == ["B", "A"]
  {
    NearFirst();
  }

  /** The Material and Volume selectors: "all", or a case-insensitive match. */
  predicate Matches(s: Seller, material: string, volume: string) {
    && (material == "all" || exists i :: 0 <= i < |s.items| && Strings.ToLower(s.items[i]) == Strings.ToLower(material))
    && (volume == "all" || Strings.ToLower(s.volume) == Strings.ToLower(volume))
  }

  /** `filteredSellers`: the sellers that match both selectors, in their original order. */
  function FilteredSellers(sellers: seq<Seller>, material: string, volume: string): (r: seq<Seller>)
    ensures Seqs.IsSubseq(r, sellers)
    ensures forall s :: s in r <==> s in sellers && Matches(s, material, volume)
  {
    Seqs.FilterIsSubseq(sellers, s => Matches(s, material, volume));
    Seqs.Filter(sellers, s => Matches(s, material, volume))
  }

  /** With both selectors at "all" every seller is shown. */
  lemma FilteredSellersAll(sellers: seq<Seller>)
    ensures FilteredSellers(sellers, "all", "all") == sellers
  {
    Seqs.FilterAll(sellers, s => Matches(s, "all", "all"));
  }

  predicate Selected(sel: seq<Seller>, id: nat) {
    exists i :: 0 <= i < |sel| && sel[i].id == id
  }

  /** `toggleSellerSelection`: drop every entry with the seller's id if there is one, else append the seller. */
  function Toggle(sel: seq<Seller>, seller: Seller): (r: seq<Seller>)
    ensures Selected(r, seller.id) <==> !Selected(sel, seller.id)
    ensures Selected(sel, seller.id) ==>
      forall s :: s in r <==> s in sel && s.id != seller.id
    ensures Selected(sel, seller.id) ==> Seqs.IsSubseq(r, sel)
    ensures Selected(sel, seller.id) ==>
      forall s: Seller :: s.id != seller.id ==> multiset(r)[s] == multiset(sel)[s]
    ensures !Selected(sel, seller.id) ==> r == sel + [seller]
  {
    if Selected(sel, seller.id) then
      var p := (s: Seller) => s.id != seller.id;
      var r := Seqs.Filter(sel, p);
      assert forall i :: 0 <= i < |r| ==> r[i] in r;
      Seqs.FilterIsSubseq(sel, p);
      forall s: Seller | s.id != seller.id
        ensures multiset(r)[s] == multiset(sel)[s]
      {
        Seqs.FilterCounts(sel, p, s);
      }
      r
    else
      var r := sel + [seller];
      assert r[|sel|].id == seller.id;
      r
  }

  /** Toggling a seller that was not selected twice restores the selection. */
  lemma ToggleTwice(sel: seq<Seller>, seller: Seller)
    requires !Selected(sel, seller.id)
    ensures Toggle(Toggle(sel, seller), seller) == sel
  {
    var once := sel + [seller];
    assert Toggle(sel, seller) == once;
    assert Selected(once, seller.id) by { assert once[|sel|].id == seller.id; }
    var p := (s: Seller) => s.id != seller.id;
    Seqs.FilterAppend(sel, [seller], p);
    assert forall s :: s in sel ==> p(s) by {
      forall s | s in sel ensures p(s) {
        var i :| 0 <= i < |sel| && sel[i] == s;
      }
    }
    Seqs.FilterAll(sel, p);
    assert Seqs.Filter([seller], p) == [];
  }
}
