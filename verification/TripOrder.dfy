/** Which of several open trips is the driver's current one. */
module TripOrder {
  import opened Base
  import opened Trips

  /** What a trip is ordered by. */
  datatype Progress = Progress(trip: TripId, status: Status, createdAt: Time)

  function Rank(status: Status): nat {
    match status
    case Loaded => 5
    case OnSite => 4
    case OnWay => 3
    case Accepted => 2
    case Assigned => 1
    case Delivered => 0
  }

  /** a comes no later than b: further along, or as far and not younger. */
  predicate Before(a: Progress, b: Progress) {
    Rank(a.status) > Rank(b.status) || (Rank(a.status) == Rank(b.status) && a.createdAt <= b.createdAt)
  }

  /** Loaded leads, then on site, on the way, accepted, assigned; delivered comes last. Of two level trips the older leads. */
  lemma FurtherAlongLeads(a: Progress, b: Progress)
    ensures a.status == b.status ==> (Before(a, b) <==> a.createdAt <= b.createdAt)
    ensures a.status != b.status ==>
      (Before(a, b) <==>
        || a.status.Loaded?
        || (a.status.OnSite? && !b.status.Loaded?)
        || (a.status.OnWay? && !b.status.Loaded? && !b.status.OnSite?)
        || (a.status.Accepted? && (b.status.Assigned? || b.status.Delivered?))
        || (a.status.Assigned? && b.status.Delivered?))
  {
  }

  ghost predicate InOrder(trips: seq<Progress>) {
    forall i, j :: 0 <= i < j < |trips| ==> Before(trips[i], trips[j])
  }

  /** Puts x after everything that may stay before it, as a stable sort does with a later element. */
  function Insert(x: Progress, trips: seq<Progress>): (r: seq<Progress>)
    requires InOrder(trips)
    ensures InOrder(r) && multiset(r) == multiset(trips) + multiset{x}
  {
    if trips == [] then [x] else
    var init, last := trips[..|trips| - 1], trips[|trips| - 1];
    assert trips == init + [last];
    if Before(last, x) then trips + [x]
    else
      var r := Insert(x, init);
      InsertedBefore(x, init, last, r);
      r + [last]
  }

  lemma InsertedBefore(x: Progress, init: seq<Progress>, last: Progress, r: seq<Progress>)
    requires InOrder(r) && multiset(r) == multiset(init) + multiset{x}
    requires InOrder(init + [last]) && !Before(last, x)
    ensures InOrder(r + [last])
  {
    forall i | 0 <= i < |r| ensures Before(r[i], last) {
      assert r[i] in multiset(r);
      if r[i] != x {
        assert r[i] in init;
        var k :| 0 <= k < |init| && init[k] == r[i];
        assert (init + [last])[k] == r[i] && (init + [last])[|init|] == last;
      }
    }
  }

  function SortByProgress(trips: seq<Progress>): (r: seq<Progress>)
    ensures InOrder(r) && multiset(r) == multiset(trips)
  {
    if trips == [] then [] else
    assert trips == trips[..|trips| - 1] + [trips[|trips| - 1]];
    Insert(trips[|trips| - 1], SortByProgress(trips[..|trips| - 1]))
  }

  /** A truck's list keeps its current trip only. */
  function WithCurrentTripOnly(trips: seq<Progress>): seq<Progress> {
    var sorted := SortByProgress(trips);
    if sorted == [] then [] else sorted[..1]
  }

  lemma HeadLeads(a: seq<Progress>, b: seq<Progress>)
    requires InOrder(a) && a != [] && multiset(a) == multiset(b)
    ensures forall x :: x in b ==> x == a[0] || Before(a[0], x)
    ensures a[0] in b
  {
    forall x | x in b ensures x == a[0] || Before(a[0], x) {
      assert x in multiset(a);
    }
    assert a[0] in multiset(b);
  }

  lemma TailsMatch(a: seq<Progress>, b: seq<Progress>)
    requires a != [] && b != [] && a[0] == b[0] && multiset(a) == multiset(b)
    ensures multiset(a[1..]) == multiset(b[1..])
  {
    assert a == [a[0]] + a[1..] && b == [b[0]] + b[1..];
    assert multiset(a[1..]) == multiset(a) - multiset{a[0]};
    assert multiset(b[1..]) == multiset(b) - multiset{b[0]};
  }

  /** When no two trips are level, the order is the only one there is. */
  lemma {:induction false} OrderIsUnique(a: seq<Progress>, b: seq<Progress>)
    requires InOrder(a) && InOrder(b) && multiset(a) == multiset(b)
    requires forall x, y :: x in a && y in a && Before(x, y) && Before(y, x) ==> x == y
    ensures a == b
  {
    assert |a| == |multiset(a)| == |multiset(b)| == |b|;
    if a != [] {
      HeadLeads(a, b);
      HeadLeads(b, a);
      TailsMatch(a, b);
      OrderIsUnique(a[1..], b[1..]);
    }
  }

  /** The current trip is one that no other trip is ahead of; no open trip is hidden when there is one. */
  lemma CurrentLeads(trips: seq<Progress>)
    ensures WithCurrentTripOnly(trips) == [] <==> trips == []
    ensures trips != [] ==>
      && |WithCurrentTripOnly(trips)| == 1 && WithCurrentTripOnly(trips)[0] in trips
      && forall x :: x in trips ==> x == WithCurrentTripOnly(trips)[0] || Before(WithCurrentTripOnly(trips)[0], x)
  {
    var sorted := SortByProgress(trips);
    assert |sorted| == |multiset(sorted)| == |multiset(trips)| == |trips|;
    if trips != [] {
      assert sorted[0] in multiset(trips);
      forall x | x in trips ensures x == sorted[0] || Before(sorted[0], x) {
        assert x in multiset(sorted);
      }
    }
  }
}
