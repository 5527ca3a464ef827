/**
 * The range query both date-keyed stores answer: `find({date: {$gte: start, $lte: end}})`
 * followed by `sort({date: 1})`, over records keyed by their date.
 */
module DateRange {
  import opened Days

  /** The stored dates within `[start, end]`, ascending. */
  function DatesInRange<V>(records: map<Instant, V>, start: Instant, end: Instant): (r: seq<Instant>)
    ensures Increasing(r)
    ensures forall t :: t in r <==> t in records && start <= t <= end
  {
    Ascending(set t | t in records && start <= t <= end)
  }

  /** An empty range (`end` before `start`) matches nothing. */
  lemma EmptyRange<V>(records: map<Instant, V>, start: Instant, end: Instant)
    requires end < start
    ensures DatesInRange(records, start, end) == []
  {
  }

  /** Widening the range never loses a date. */
  lemma RangeMonotone<V>(records: map<Instant, V>, start: Instant, end: Instant, start': Instant, end': Instant)
    requires start' <= start && end <= end'
    ensures forall t :: t in DatesInRange(records, start, end) ==> t in DatesInRange(records, start', end')
  {
  }

  /** The position of an element in a sequence. */
  function IndexOf(s: seq<Instant>, t: Instant): (i: nat)
    requires t in s
    ensures i < |s| && s[i] == t
  {
    if s[0] == t then 0 else 1 + IndexOf(s[1..], t)
  }
}
