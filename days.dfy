/**
 * Instants and calendar days. An instant counts seconds from a local midnight that
 * fell on a Sunday, so the day number of an instant is its floor quotient by the day
 * length and the weekday of day 0 is Sunday (getDay numbering: 0 = Sunday ... 6 = Saturday).
 */
module Days {

  type Instant = int

  const SecondsPerDay: int := 86400

  const Sunday: int := 0
  const Thursday: int := 4
  const Friday: int := 5
  const Saturday: int := 6

  /** The calendar day an instant falls on. */
  function DayOf(t: Instant): int {
    t / SecondsPerDay
  }

  /** Local midnight of a day number. */
  function DayStart(d: int): (t: Instant)
    ensures DayOf(t) == d
  {
    d * SecondsPerDay
  }

  /** startOfDay: the midnight that opens the day of `t`. */
  function StartOfDay(t: Instant): (s: Instant)
    ensures s <= t < s + SecondsPerDay
    ensures s == DayStart(DayOf(t))
  {
    t - t % SecondsPerDay
  }

  /** getDay of an instant. */
  function Weekday(t: Instant): (w: int)
    ensures 0 <= w < 7
  {
    DayOf(t) % 7
  }

  /** Two instants normalise to the same midnight exactly when they fall on the same day. */
  lemma SameStartIffSameDay(t1: Instant, t2: Instant)
    ensures StartOfDay(t1) == StartOfDay(t2) <==> DayOf(t1) == DayOf(t2)
  {
    var s1, s2 := StartOfDay(t1), StartOfDay(t2);
    if s1 == s2 {
      assert DayOf(t1) == DayOf(s1) == DayOf(s2) == DayOf(t2);
    }
  }

  /** Normalising a normalised instant changes nothing. */
  lemma StartOfDayIdempotent(t: Instant)
    ensures StartOfDay(StartOfDay(t)) == StartOfDay(t)
  {
  }

  /** Strictly increasing: sorted ascending with no instant twice. */
  ghost predicate Increasing(s: seq<Instant>) {
    forall i, j :: 0 <= i < j < |s| ==> s[i] < s[j]
  }

  /** A non-empty set has an element. */
  lemma HasElement(s: set<Instant>)
    requires s != {}
    ensures exists x :: x in s
  {
    if forall x :: x !in s {
      assert false;
    }
  }

  /** Every non-empty finite set of instants has a least element. */
  lemma {:induction false} HasMin(s: set<Instant>)
    requires s != {}
    ensures exists m :: m in s && forall t :: t in s ==> m <= t
    decreases |s|
  {
    HasElement(s);
    var x :| x in s;
    if s != {x} {
      HasMin(s - {x});
      var m :| m in s - {x} && forall t :: t in s - {x} ==> m <= t;
      var least := if x < m then x else m;
      forall t | t in s
        ensures least <= t
      {
        if t != x {
          assert t in s - {x};
        }
      }
      assert least in s;
    } else {
      assert forall t :: t in s ==> x <= t;
    }
  }

  /** The smallest element of a non-empty finite set. */
  function Min(s: set<Instant>): (m: Instant)
    requires s != {}
    ensures m in s
    ensures forall t :: t in s ==> m <= t
  {
    HasMin(s);
    var m :| m in s && forall t :: t in s ==> m <= t;
    m
  }

  /** The elements of a finite set of instants in ascending order: the `sort({date: 1})` of a query. */
  function Ascending(s: set<Instant>): (r: seq<Instant>)
    ensures Increasing(r)
    ensures forall t :: t in r <==> t in s
    ensures |r| == |s|
    decreases |s|
  {
    if s == {} then []
    else
      var m := Min(s);
      var rest := Ascending(s - {m});
      assert forall t :: t in rest ==> m < t;
      [m] + rest
  }
}
