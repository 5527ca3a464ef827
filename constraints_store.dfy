/**
 * The constraints endpoint (src/app/api/constraints/route.ts) over an in-memory store of
 * Constraints records, one per start of day, each mapping person names to their flags.
 */
module ConstraintsApi {
  import opened Wrappers
  import opened Days
  import opened ConstraintsSchema
  import opened DateRange

  /** The records of the store, keyed by their (unique) date. */
  type Records = map<Instant, Option<PersonFlags>>

  /** Every stored date is a start of day. */
  ghost predicate Normalised(records: Records) {
    forall t :: t in records ==> StartOfDay(t) == t
  }

  /** The records at the given dates, in that order. */
  function DocsAt(records: Records, dates: seq<Instant>): (r: seq<ConstraintDoc>)
    requires forall i :: 0 <= i < |dates| ==> dates[i] in records
    ensures |r| == |dates|
    ensures forall i :: 0 <= i < |r| ==> r[i] == ConstraintDoc(dates[i], records[dates[i]])
  {
    seq(|dates|, i requires 0 <= i < |dates| => ConstraintDoc(dates[i], records[dates[i]]))
  }

  /**
   * GET: a missing (or empty) `start` or `end` is a 400 error; otherwise exactly the records
   * with `start <= date <= end`, by ascending date.
   */
  function Query(records: Records, start: Option<Instant>, end: Option<Instant>): (r: Result<seq<ConstraintDoc>, ApiError>)
    ensures start.None? || end.None? ==> r == Failure(MissingRange)
    ensures start.Some? && end.Some? ==>
              && r.Success?
              && (forall i, j :: 0 <= i < j < |r.value| ==> r.value[i].date < r.value[j].date)
              && (forall i :: 0 <= i < |r.value| ==>
                    && r.value[i].date in records
                    && start.value <= r.value[i].date <= end.value
                    && r.value[i].constraints == records[r.value[i].date])
              && (forall t :: t in records && start.value <= t <= end.value ==>
                    exists i :: 0 <= i < |r.value| && r.value[i].date == t)
  {
    if start.None? || end.None? then Failure(MissingRange)
    else
      var dates := DatesInRange(records, start.value, end.value);
      var docs := DocsAt(records, dates);
      assert forall t :: t in records && start.value <= t <= end.value ==> docs[IndexOf(dates, t)].date == t;
      Success(docs)
  }

  /**
   * POST: the record of the normalised date gets `name` set to the posted flags. An existing
   * record keeps its other entries (a record without a map starts from an empty one); a new
   * record holds that one entry.
   */
  function Merged(records: Records, date: Instant, name: string, flags: Flags): (r: Records)
    ensures r.Keys == records.Keys + {StartOfDay(date)}
    ensures StartOfDay(date) in records && records[StartOfDay(date)].Some? ==>
              r[StartOfDay(date)] == Some(records[StartOfDay(date)].value[name := flags])
    ensures StartOfDay(date) !in records || records[StartOfDay(date)].None? ==>
              r[StartOfDay(date)] == Some(map[name := flags])
    ensures forall t :: t in records && t != StartOfDay(date) ==> r[t] == records[t]
  {
    var key := StartOfDay(date);
    var before := if key in records && records[key].Some? then records[key].value else DefaultConstraints;
    records[key := Some(before[name := flags])]
  }

  /** The entries stored for a date, None when there is no record. */
  function RecordAt(records: Records, t: Instant): Option<PersonFlags> {
    if t in records then records[t] else None
  }

  /** After a post the person's entry is exactly the posted flags, whatever it was before. */
  lemma PostOverwritesEntry(records: Records, date: Instant, name: string, flags: Flags)
    ensures EntryOf(RecordAt(Merged(records, date, name, flags), StartOfDay(date)), name) == flags
  {
  }

  /** Every other person's entry on that date, and every other date, is unchanged. */
  lemma PostKeepsOthers(records: Records, date: Instant, name: string, flags: Flags)
    ensures forall p :: p != name ==>
              EntryOf(RecordAt(Merged(records, date, name, flags), StartOfDay(date)), p) ==
              EntryOf(RecordAt(records, StartOfDay(date)), p)
    ensures forall t :: t != StartOfDay(date) ==> RecordAt(Merged(records, date, name, flags), t) == RecordAt(records, t)
  {
  }

  /** A post for a date with no record creates one whose map holds just that person. */
  lemma NewDateHasOneEntry(records: Records, date: Instant, name: string, flags: Flags)
    requires StartOfDay(date) !in records
    ensures RecordAt(Merged(records, date, name, flags), StartOfDay(date)).value.Keys == {name}
  {
  }

  /** Writing keeps every stored date a start of day, so the store stays one record per day. */
  lemma MergeKeepsNormalised(records: Records, date: Instant, name: string, flags: Flags)
    ensures Normalised(records) ==> Normalised(Merged(records, date, name, flags))
  {
    StartOfDayIdempotent(date);
  }

  /** Posts for different people on the same day commute. */
  lemma PostsForDifferentPeopleCommute(records: Records, date: Instant, a: string, fa: Flags, b: string, fb: Flags)
    requires a != b
    ensures Merged(Merged(records, date, a, fa), date, b, fb) == Merged(Merged(records, date, b, fb), date, a, fa)
  {
    var key := StartOfDay(date);
    var m1 := Merged(Merged(records, date, a, fa), date, b, fb);
    var m2 := Merged(Merged(records, date, b, fb), date, a, fa);
    var before: PersonFlags := if key in records && records[key].Some? then records[key].value else map[];
    assert m1[key] == Some(before[a := fa][b := fb]);
    assert m2[key] == Some(before[b := fb][a := fa]);
    assert before[a := fa][b := fb] == before[b := fb][a := fa];
  }

  /** One POST /api/constraints request body: `{date, name, constraints}`. */
  datatype ConstraintPost = ConstraintPost(date: Instant, name: string, flags: Flags)

  /** The store after a sequence of posts, applied in order. */
  function ApplyPosts(records: Records, posts: seq<ConstraintPost>): (r: Records)
    ensures records.Keys <= r.Keys
    ensures Normalised(records) ==> Normalised(r)
    decreases |posts|
  {
    if posts == [] then records
    else
      var last := posts[|posts| - 1];
      var before := ApplyPosts(records, posts[..|posts| - 1]);
      MergeKeepsNormalised(before, last.date, last.name, last.flags);
      Merged(before, last.date, last.name, last.flags)
  }

  /** The flags of the last post for person `p` on the day starting at `t`, if any. */
  function LastPosted(posts: seq<ConstraintPost>, t: Instant, p: string): (r: Option<Flags>)
    ensures r.Some? ==> exists i :: 0 <= i < |posts| && StartOfDay(posts[i].date) == t && posts[i].name == p
    decreases |posts|
  {
    if posts == [] then None
    else
      var last := posts[|posts| - 1];
      if StartOfDay(last.date) == t && last.name == p then Some(last.flags)
      else
        var init := posts[..|posts| - 1];
        var r := LastPosted(init, t, p);
        assert forall i :: 0 <= i < |init| ==> init[i] == posts[i];
        r
  }

  /** After a sequence of posts, each entry holds its last posted flags, or what it held before. */
  lemma {:induction false} ApplyPostsEntry(records: Records, posts: seq<ConstraintPost>, t: Instant, p: string)
    ensures EntryOf(RecordAt(ApplyPosts(records, posts), t), p) ==
            if LastPosted(posts, t, p).Some? then LastPosted(posts, t, p).value else EntryOf(RecordAt(records, t), p)
    decreases |posts|
  {
    if posts != [] {
      var init := posts[..|posts| - 1];
      var last := posts[|posts| - 1];
      ApplyPostsEntry(records, init, t, p);
      PostOverwritesEntry(ApplyPosts(records, init), last.date, last.name, last.flags);
      PostKeepsOthers(ApplyPosts(records, init), last.date, last.name, last.flags);
    }
  }

  /** A post that no later post overrides is the one that holds. */
  lemma {:induction false} LastPostedUnique(posts: seq<ConstraintPost>, k: nat)
    requires k < |posts|
    requires forall i :: k < i < |posts| ==> StartOfDay(posts[i].date) != StartOfDay(posts[k].date) || posts[i].name != posts[k].name
    ensures LastPosted(posts, StartOfDay(posts[k].date), posts[k].name) == Some(posts[k].flags)
    decreases |posts|
  {
    if k < |posts| - 1 {
      var init := posts[..|posts| - 1];
      assert init[k] == posts[k];
      LastPostedUnique(init, k);
    }
  }

  /** The constraints collection. */
  class ConstraintStore {
    var records: Records

    ghost predicate Valid()
      reads this
    {
      Normalised(records)
    }

    constructor()
      ensures Valid() && records == map[]
    {
      records := map[];
    }

    /** GET /api/constraints?start=&end= */
    function Get(start: Option<Instant>, end: Option<Instant>): (r: Result<seq<ConstraintDoc>, ApiError>)
      reads this
      ensures r == Query(records, start, end)
    {
      Query(records, start, end)
    }

    /** POST /api/constraints: find or create the day's record and set one person's entry. */
    method Post(date: Instant, name: string, flags: Flags) returns (saved: ConstraintDoc)
      requires Valid()
      modifies this
      ensures Valid()
      ensures records == Merged(old(records), date, name, flags)
      ensures saved == ConstraintDoc(StartOfDay(date), records[StartOfDay(date)])
    {
      var normalizedDate := StartOfDay(date);
      MergeKeepsNormalised(records, date, name, flags);
      if normalizedDate in records {
        var existing := records[normalizedDate];
        var constraints := if existing.None? then map[] else existing.value;
        constraints := constraints[name := flags];
        records := records[normalizedDate := Some(constraints)];
        saved := ConstraintDoc(normalizedDate, Some(constraints));
      } else {
        var constraints := map[name := flags];
        records := records[normalizedDate := Some(constraints)];
        saved := ConstraintDoc(normalizedDate, Some(constraints));
      }
    }
  }
}
