/**
 * The schedule endpoint (src/app/api/schedule/route.ts) over an in-memory store of
 * OnCallSchedule records. The store holds one record per date, keyed by that date; every
 * key is a start of day because POST normalises the date before writing.
 */
module ScheduleApi {
  import opened Wrappers
  import opened Days
  import opened ScheduleSchema
  import opened DateRange

  /** The records of the store, keyed by their (unique) date. */
  type Records = map<Instant, Shifts>

  /** Every stored date is a start of day. */
  ghost predicate Normalised(records: Records) {
    forall t :: t in records ==> StartOfDay(t) == t
  }

  /** The records at the given dates, in that order. */
  function DocsAt(records: Records, dates: seq<Instant>): (r: seq<ScheduleDoc>)
    requires forall i :: 0 <= i < |dates| ==> dates[i] in records
    ensures |r| == |dates|
    ensures forall i :: 0 <= i < |r| ==> r[i] == ScheduleDoc(dates[i], records[dates[i]])
  {
    seq(|dates|, i requires 0 <= i < |dates| => ScheduleDoc(dates[i], records[dates[i]]))
  }

  /**
   * GET: a missing (or empty) `start` or `end` is a 400 error; otherwise exactly the records
   * with `start <= date <= end`, by ascending date.
   */
  function Query(records: Records, start: Option<Instant>, end: Option<Instant>): (r: Result<seq<ScheduleDoc>, ApiError>)
    ensures start.None? || end.None? ==> r == Failure(MissingRange)
    ensures start.Some? && end.Some? ==>
              && r.Success?
              && (forall i, j :: 0 <= i < j < |r.value| ==> r.value[i].date < r.value[j].date)
              && (forall i :: 0 <= i < |r.value| ==>
                    && r.value[i].date in records
                    && start.value <= r.value[i].date <= end.value
                    && r.value[i].shifts == records[r.value[i].date])
              && (forall t :: t in records && start.value <= t <= end.value ==>
                    exists i :: 0 <= i < |r.value| && r.value[i].date == t)
  {
    if start.None? || end.None? then Failure(MissingRange)
    else
      var dates := DatesInRange(records, start.value, end.value);
      var docs := DocsAt(records, dates);
      assert forall t :: t in records && start.value <= t <= end.value ==> docs[IndexOf(dates, t)].date == t;
      Success(docs)
  }

  /** POST: the record of the normalised date is created or has its `shifts` replaced wholesale. */
  function Upserted(records: Records, date: Instant, shifts: Shifts): (r: Records)
    ensures r.Keys == records.Keys + {StartOfDay(date)}
    ensures r[StartOfDay(date)] == shifts
    ensures forall t :: t in records && t != StartOfDay(date) ==> r[t] == records[t]
  {
    records[StartOfDay(date) := shifts]
  }

  /** Writing keeps every stored date a start of day, so the store stays one record per day. */
  lemma UpsertKeepsNormalised(records: Records, date: Instant, shifts: Shifts)
    requires Normalised(records)
    ensures Normalised(Upserted(records, date, shifts))
  {
    StartOfDayIdempotent(date);
  }

  /** Two posts for instants of the same calendar day write the same record. */
  lemma SameDaySameRecord(records: Records, d1: Instant, d2: Instant, shifts: Shifts)
    requires DayOf(d1) == DayOf(d2)
    ensures Upserted(records, d1, shifts) == Upserted(records, d2, shifts)
  {
    SameStartIffSameDay(d1, d2);
  }

  /** Posting the same payload twice is the same as posting it once. */
  lemma UpsertIdempotent(records: Records, date: Instant, shifts: Shifts)
    ensures Upserted(Upserted(records, date, shifts), date, shifts) == Upserted(records, date, shifts)
  {
  }

  /** A later post for the day replaces an earlier one entirely. */
  lemma LastPostWins(records: Records, date: Instant, first: Shifts, second: Shifts)
    ensures Upserted(Upserted(records, date, first), date, second) == Upserted(records, date, second)
  {
  }

  /** After a post, a query covering that day returns exactly one record for it, carrying the posted shifts. */
  lemma PostedRecordIsQueried(records: Records, date: Instant, shifts: Shifts, start: Instant, end: Instant)
    requires start <= StartOfDay(date) <= end
    ensures var r := Query(Upserted(records, date, shifts), Some(start), Some(end));
            && r.Success?
            && (exists i :: 0 <= i < |r.value| && r.value[i] == ScheduleDoc(StartOfDay(date), shifts))
            && (forall i, j :: 0 <= i < |r.value| && 0 <= j < |r.value| && r.value[i].date == StartOfDay(date) && r.value[j].date == StartOfDay(date) ==> i == j)
  {
    var r := Query(Upserted(records, date, shifts), Some(start), Some(end));
    var i :| 0 <= i < |r.value| && r.value[i].date == StartOfDay(date);
    assert r.value[i] == ScheduleDoc(StartOfDay(date), shifts);
  }

  /** The schedule collection. */
  class ScheduleStore {
    var records: Records

    ghost predicate Valid()
      reads this
    {
      Normalised(records)
    }

    constructor()
      ensures Valid() && records == map[]
    {
      records := map[];
    }

    /** GET /api/schedule?start=&end= */
    function Get(start: Option<Instant>, end: Option<Instant>): (r: Result<seq<ScheduleDoc>, ApiError>)
      reads this
      ensures r == Query(records, start, end)
    {
      Query(records, start, end)
    }

    /** POST /api/schedule: upsert by start of day; returns the saved record. */
    method Post(date: Instant, shifts: Shifts) returns (saved: ScheduleDoc)
      requires Valid()
      modifies this
      ensures Valid()
      ensures records == Upserted(old(records), date, shifts)
      ensures saved == ScheduleDoc(StartOfDay(date), shifts)
    {
      var normalizedDate := StartOfDay(date);
      UpsertKeepsNormalised(records, date, shifts);
      records := records[normalizedDate := shifts];
      saved := ScheduleDoc(normalizedDate, shifts);
    }
  }
}
