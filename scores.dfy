/**
 * The fairness scorer (src/app/api/scores/route.ts). Every active regular member starts at
 * zero; every stored day record is walked, and on it only the `day` and `night` slots; each
 * (regular person, slot in offices or kirya mode) occurrence earns the points of the first
 * matching rule (holiday, Friday, Saturday, Thursday, otherwise) and one shift in that rule's
 * category. Members are returned sorted by score, highest first.
 */
module Scores {
  import opened Days
  import opened Slots
  import opened ScheduleSchema
  import opened Wrappers
  import opened TeamMemberSchema
  import TeamMembersApi

  datatype Category = Weekend | Partial | Midweek

  /** The points one shift of a category is worth. */
  function Weight(c: Category): real {
    match c
    case Weekend => 2.0
    case Partial => 1.5
    case Midweek => 1.0
  }

  /** Shift counts per category (`breakdown`). */
  datatype Breakdown = Breakdown(weekend: nat, partial: nat, midweek: nat)

  const NoShifts: Breakdown := Breakdown(0, 0, 0)

  function Plus(a: Breakdown, b: Breakdown): Breakdown {
    Breakdown(a.weekend + b.weekend, a.partial + b.partial, a.midweek + b.midweek)
  }

  /** `n` shifts, all of category `c`. */
  function Times(c: Category, n: nat): Breakdown {
    match c
    case Weekend => Breakdown(n, 0, 0)
    case Partial => Breakdown(0, n, 0)
    case Midweek => Breakdown(0, 0, n)
  }

  /** The score a breakdown is worth: 2 * weekend + 1.5 * partial + 1 * midweek. */
  function Points(b: Breakdown): real {
    2.0 * b.weekend as real + 1.5 * b.partial as real + 1.0 * b.midweek as real
  }

  function ShiftCount(b: Breakdown): nat {
    b.weekend + b.partial + b.midweek
  }

  datatype Score = Score(score: real, breakdown: Breakdown)

  const Zero: Score := Score(0.0, NoShifts)

  /** Only offices and kirya assignments count; phone (and anything else) earns nothing. */
  predicate CountsForScore(mode: string) {
    mode == "offices" || mode == "kirya"
  }

  /** The `(points, category)` if-chain of processShift; `kind` is the `'day' | 'night'` argument. */
  function Classify(isHoliday: bool, dayOfWeek: int, kind: SlotKind): (r: (real, Category))
    requires kind != Secondary
    ensures r.0 == Weight(r.1)
  {
    if isHoliday then (2.0, Weekend)
    else if dayOfWeek == Friday then (2.0, Weekend)
    else if dayOfWeek == Saturday then
      (if kind == Primary then (2.0, Weekend) else (1.5, Partial))
    else if dayOfWeek == Thursday then
      (if kind == Night then (1.5, Partial) else (1.0, Midweek))
    else (1.0, Midweek)
  }

  /** A holiday slot scores 2 in weekend on any weekday, for either kind. */
  lemma HolidayIsWeekend(dayOfWeek: int, kind: SlotKind)
    requires kind != Secondary
    ensures Classify(true, dayOfWeek, kind) == (2.0, Weekend)
  {
  }

  /** The non-holiday table by weekday and kind. */
  lemma WeekdayTable(dayOfWeek: int, kind: SlotKind)
    requires kind != Secondary && 0 <= dayOfWeek < 7
    ensures dayOfWeek == Friday ==> Classify(false, dayOfWeek, kind) == (2.0, Weekend)
    ensures dayOfWeek == Saturday && kind == Primary ==> Classify(false, dayOfWeek, kind) == (2.0, Weekend)
    ensures dayOfWeek == Saturday && kind == Night ==> Classify(false, dayOfWeek, kind) == (1.5, Partial)
    ensures dayOfWeek == Thursday && kind == Night ==> Classify(false, dayOfWeek, kind) == (1.5, Partial)
    ensures dayOfWeek == Thursday && kind == Primary ==> Classify(false, dayOfWeek, kind) == (1.0, Midweek)
    ensures dayOfWeek < Thursday ==> Classify(false, dayOfWeek, kind) == (1.0, Midweek)
  {
  }

  // ---------------------------------------------------------------------------------------
  // The accumulation, as a specification: a left fold over records, slots and names.

  /** Every name of the roster has an entry. */
  ghost predicate Covers(scores: map<string, Score>, regular: seq<string>) {
    forall n :: n in regular ==> n in scores
  }

  /** `score += points; breakdown[category]++` */
  function Credit(s: Score, points: real, c: Category): Score {
    Score(s.score + points, Plus(s.breakdown, Times(c, 1)))
  }

  /** The body of `shift.names.forEach` for one name. */
  function CreditName(scores: map<string, Score>, regular: seq<string>, person: string,
                      mode: string, isHoliday: bool, dayOfWeek: int, kind: SlotKind): (r: map<string, Score>)
    requires kind != Secondary && Covers(scores, regular)
    ensures r.Keys == scores.Keys
  {
    if person !in regular then scores
    else if !CountsForScore(mode) then scores
    else
      var pc := Classify(isHoliday, dayOfWeek, kind);
      scores[person := Credit(scores[person], pc.0, pc.1)]
  }

  /** `shift.names.forEach(...)`, names taken left to right. */
  function CreditNames(scores: map<string, Score>, regular: seq<string>, names: seq<string>,
                       mode: string, isHoliday: bool, dayOfWeek: int, kind: SlotKind): (r: map<string, Score>)
    requires kind != Secondary && Covers(scores, regular)
    ensures r.Keys == scores.Keys
    decreases |names|
  {
    if names == [] then scores
    else
      var before := CreditNames(scores, regular, names[..|names| - 1], mode, isHoliday, dayOfWeek, kind);
      CreditName(before, regular, names[|names| - 1], mode, isHoliday, dayOfWeek, kind)
  }

  /** processShift: a missing slot, or one whose `names` is missing or not an array, is skipped. */
  function CreditShift(scores: map<string, Score>, regular: seq<string>, shift: RawShift,
                       dayOfWeek: int, kind: SlotKind): (r: map<string, Score>)
    requires kind != Secondary && Covers(scores, regular)
    ensures r.Keys == scores.Keys
  {
    if shift.Slot? && shift.names.NameList? then
      CreditNames(scores, regular, shift.names.items, shift.mode, shift.isHoliday, dayOfWeek, kind)
    else scores
  }

  /** One record: its `day` slot, then its `night` slot. The `second` slot is never read. */
  function CreditDoc(scores: map<string, Score>, regular: seq<string>, doc: ScheduleDoc): (r: map<string, Score>)
    requires Covers(scores, regular)
    ensures r.Keys == scores.Keys
  {
    var dayOfWeek := Weekday(doc.date);
    var afterDay := CreditShift(scores, regular, SlotOf(doc.shifts, "day"), dayOfWeek, Primary);
    CreditShift(afterDay, regular, SlotOf(doc.shifts, "night"), dayOfWeek, Night)
  }

  /** `schedules.forEach(...)` */
  function CreditDocs(scores: map<string, Score>, regular: seq<string>, docs: seq<ScheduleDoc>): (r: map<string, Score>)
    requires Covers(scores, regular)
    ensures r.Keys == scores.Keys
    decreases |docs|
  {
    if docs == [] then scores
    else CreditDoc(CreditDocs(scores, regular, docs[..|docs| - 1]), regular, docs[|docs| - 1])
  }

  /** `regularMemberNames.forEach(name => scores[name] = zero)` */
  function InitScores(names: seq<string>): (r: map<string, Score>)
    ensures forall n :: n in r <==> n in names
    ensures forall n :: n in r ==> r[n] == Zero
  {
    if names == [] then map[]
    else InitScores(names[..|names| - 1])[names[|names| - 1] := Zero]
  }

  /** The `scores` record after the walk. */
  function ScoreTable(regular: seq<string>, docs: seq<ScheduleDoc>): (r: map<string, Score>)
    ensures forall n :: n in r <==> n in regular
  {
    CreditDocs(InitScores(regular), regular, docs)
  }

  // ---------------------------------------------------------------------------------------
  // An independent, per-person reference: count what one person earned, record by record.

  function Occurrences(names: seq<string>, p: string): nat {
    if names == [] then 0
    else Occurrences(names[..|names| - 1], p) + (if names[|names| - 1] == p then 1 else 0)
  }

  /** The shifts person `p` earns from one slot: one per listing of `p`, if the slot counts at all. */
  function SlotTally(p: string, shift: RawShift, dayOfWeek: int, kind: SlotKind): Breakdown
    requires kind != Secondary
  {
    if shift.Slot? && shift.names.NameList? && CountsForScore(shift.mode) then
      Times(Classify(shift.isHoliday, dayOfWeek, kind).1, Occurrences(shift.names.items, p))
    else NoShifts
  }

  function DocTally(p: string, doc: ScheduleDoc): Breakdown {
    Plus(SlotTally(p, SlotOf(doc.shifts, "day"), Weekday(doc.date), Primary),
         SlotTally(p, SlotOf(doc.shifts, "night"), Weekday(doc.date), Night))
  }

  function Tally(p: string, docs: seq<ScheduleDoc>): Breakdown {
    if docs == [] then NoShifts
    else Plus(Tally(p, docs[..|docs| - 1]), DocTally(p, docs[|docs| - 1]))
  }

  /** A score plus what a breakdown is worth. */
  function Add(s: Score, b: Breakdown): Score {
    Score(s.score + Points(b), Plus(s.breakdown, b))
  }

  lemma AddTwice(s: Score, a: Breakdown, b: Breakdown)
    ensures Add(Add(s, a), b) == Add(s, Plus(a, b))
  {
  }

  lemma {:induction false} CreditNamesAt(scores: map<string, Score>, regular: seq<string>, names: seq<string>,
                                         mode: string, isHoliday: bool, dayOfWeek: int, kind: SlotKind, p: string)
    requires kind != Secondary && Covers(scores, regular) && p in regular
    ensures CreditNames(scores, regular, names, mode, isHoliday, dayOfWeek, kind)[p]
         == Add(scores[p], if CountsForScore(mode)
                           then Times(Classify(isHoliday, dayOfWeek, kind).1, Occurrences(names, p))
                           else NoShifts)
  {
    var c := Classify(isHoliday, dayOfWeek, kind).1;
    if names == [] {
      assert Add(scores[p], Times(c, 0)) == scores[p];
    } else {
      var init := names[..|names| - 1];
      var last := names[|names| - 1];
      CreditNamesAt(scores, regular, init, mode, isHoliday, dayOfWeek, kind, p);
      var before := CreditNames(scores, regular, init, mode, isHoliday, dayOfWeek, kind);
      if CountsForScore(mode) && last == p {
        AddTwice(scores[p], Times(c, Occurrences(init, p)), Times(c, 1));
        assert Plus(Times(c, Occurrences(init, p)), Times(c, 1)) == Times(c, Occurrences(names, p));
      }
    }
  }

  lemma CreditShiftAt(scores: map<string, Score>, regular: seq<string>, shift: RawShift,
                      dayOfWeek: int, kind: SlotKind, p: string)
    requires kind != Secondary && Covers(scores, regular) && p in regular
    ensures CreditShift(scores, regular, shift, dayOfWeek, kind)[p] == Add(scores[p], SlotTally(p, shift, dayOfWeek, kind))
  {
    if shift.Slot? && shift.names.NameList? {
      CreditNamesAt(scores, regular, shift.names.items, shift.mode, shift.isHoliday, dayOfWeek, kind, p);
    } else {
      assert Add(scores[p], NoShifts) == scores[p];
    }
  }

  lemma CreditDocAt(scores: map<string, Score>, regular: seq<string>, doc: ScheduleDoc, p: string)
    requires Covers(scores, regular) && p in regular
    ensures CreditDoc(scores, regular, doc)[p] == Add(scores[p], DocTally(p, doc))
  {
    var dayOfWeek := Weekday(doc.date);
    var afterDay := CreditShift(scores, regular, SlotOf(doc.shifts, "day"), dayOfWeek, Primary);
    CreditShiftAt(scores, regular, SlotOf(doc.shifts, "day"), dayOfWeek, Primary, p);
    CreditShiftAt(afterDay, regular, SlotOf(doc.shifts, "night"), dayOfWeek, Night, p);
    AddTwice(scores[p], SlotTally(p, SlotOf(doc.shifts, "day"), dayOfWeek, Primary),
             SlotTally(p, SlotOf(doc.shifts, "night"), dayOfWeek, Night));
  }

  lemma {:induction false} CreditDocsAt(scores: map<string, Score>, regular: seq<string>, docs: seq<ScheduleDoc>, p: string)
    requires Covers(scores, regular) && p in regular
    ensures CreditDocs(scores, regular, docs)[p] == Add(scores[p], Tally(p, docs))
  {
    if docs == [] {
      assert Add(scores[p], NoShifts) == scores[p];
    } else {
      var init := docs[..|docs| - 1];
      CreditDocsAt(scores, regular, init, p);
      CreditDocAt(CreditDocs(scores, regular, init), regular, docs[|docs| - 1], p);
      AddTwice(scores[p], Tally(p, init), DocTally(p, docs[|docs| - 1]));
    }
  }

  /**
   * The accumulation agrees with the per-person reference: a regular member's entry is
   * exactly the shifts counted for them, and the score is what that breakdown is worth.
   */
  lemma ScoreTableIsTally(regular: seq<string>, docs: seq<ScheduleDoc>, p: string)
    requires p in regular
    ensures p in ScoreTable(regular, docs)
    ensures ScoreTable(regular, docs)[p] == Score(Points(Tally(p, docs)), Tally(p, docs))
  {
    CreditDocsAt(InitScores(regular), regular, docs, p);
  }

  /** The invariant `score == 2 * weekend + 1.5 * partial + 1 * midweek` holds for every member. */
  lemma ScoreMatchesBreakdown(regular: seq<string>, docs: seq<ScheduleDoc>, p: string)
    requires p in regular
    ensures ScoreTable(regular, docs)[p].score == Points(ScoreTable(regular, docs)[p].breakdown)
  {
    ScoreTableIsTally(regular, docs, p);
  }

  /** A slot whose mode is not offices or kirya, or whose names are not an array, earns nothing. */
  lemma NonCountingSlotEarnsNothing(p: string, shift: RawShift, dayOfWeek: int, kind: SlotKind)
    requires kind != Secondary
    requires shift.Absent? || !shift.names.NameList? || !CountsForScore(shift.mode)
    ensures SlotTally(p, shift, dayOfWeek, kind) == NoShifts
  {
  }

  /** Whatever the `second` slot (or any key but `day` and `night`) holds, it earns nothing. */
  lemma OtherSlotsNeverCount(p: string, doc: ScheduleDoc, key: string, v: RawShift)
    requires key != "day" && key != "night"
    ensures DocTally(p, ScheduleDoc(doc.date, doc.shifts[key := v])) == DocTally(p, doc)
  {
    assert SlotOf(doc.shifts[key := v], "day") == SlotOf(doc.shifts, "day");
    assert SlotOf(doc.shifts[key := v], "night") == SlotOf(doc.shifts, "night");
  }

  /** A person earns one shift per listing on a counting slot; a name listed twice counts twice. */
  lemma OneShiftPerListing(p: string, shift: RawShift, dayOfWeek: int, kind: SlotKind)
    requires kind != Secondary && shift.Slot? && shift.names.NameList? && CountsForScore(shift.mode)
    ensures ShiftCount(SlotTally(p, shift, dayOfWeek, kind)) == Occurrences(shift.names.items, p)
    ensures Points(SlotTally(p, shift, dayOfWeek, kind))
         == Weight(Classify(shift.isHoliday, dayOfWeek, kind).1) * Occurrences(shift.names.items, p) as real
  {
  }

  // ---------------------------------------------------------------------------------------
  // The ranking: `Object.entries(scores)` (first-insertion order) sorted by score, descending,
  // by a stable sort.

  datatype ScoreEntry = ScoreEntry(name: string, score: real, breakdown: Breakdown)

  /** The names without repeats, in first-occurrence order. */
  function Dedup(names: seq<string>): (r: seq<string>)
    ensures forall n :: multiset(r)[n] == if n in names then 1 else 0
  {
    if names == [] then []
    else
      var init := names[..|names| - 1];
      var last := names[|names| - 1];
      assert forall n :: n in names <==> n in init || n == last;
      if last in init then Dedup(init) else Dedup(init) + [last]
  }

  /** Appending a name keeps the earlier order and adds the name only at its first occurrence. */
  lemma DedupSnoc(a: seq<string>, x: string)
    ensures Dedup(a + [x]) == if x in a then Dedup(a) else Dedup(a) + [x]
  {
    assert (a + [x])[..|a|] == a;
  }

  /** Names without repeats are left exactly as they are. */
  lemma {:induction false} DedupOfDistinct(names: seq<string>)
    requires forall i, j :: 0 <= i < j < |names| ==> names[i] != names[j]
    ensures Dedup(names) == names
    decreases |names|
  {
    if names != [] {
      var init := names[..|names| - 1];
      var last := names[|names| - 1];
      DedupOfDistinct(init);
      assert names == init + [last];
      assert last !in init by {
        forall k | 0 <= k < |init|
          ensures init[k] != last
        {
          assert init[k] == names[k];
        }
      }
      DedupSnoc(init, last);
    }
  }

  function ToEntry(name: string, s: Score): ScoreEntry {
    ScoreEntry(name, s.score, s.breakdown)
  }

  function Entries(names: seq<string>, table: map<string, Score>): (r: seq<ScoreEntry>)
    requires forall n :: n in names ==> n in table
    ensures |r| == |names|
    ensures forall i :: 0 <= i < |names| ==> r[i] == ToEntry(names[i], table[names[i]])
  {
    seq(|names|, i requires 0 <= i < |names| => ToEntry(names[i], table[names[i]]))
  }

  function EntryNames(s: seq<ScoreEntry>): (r: seq<string>)
    ensures |r| == |s| && forall i :: 0 <= i < |s| ==> r[i] == s[i].name
  {
    seq(|s|, i requires 0 <= i < |s| => s[i].name)
  }

  ghost predicate NonIncreasing(s: seq<ScoreEntry>) {
    forall i, j :: 0 <= i < j < |s| ==> s[i].score >= s[j].score
  }

  /** The entries with score `v`, in order. */
  function WithScore(s: seq<ScoreEntry>, v: real): seq<ScoreEntry> {
    if s == [] then []
    else WithScore(s[..|s| - 1], v) + (if s[|s| - 1].score == v then [s[|s| - 1]] else [])
  }

  lemma {:induction false} WithScoreAppend(a: seq<ScoreEntry>, b: seq<ScoreEntry>, v: real)
    ensures WithScore(a + b, v) == WithScore(a, v) + WithScore(b, v)
    decreases |b|
  {
    if b != [] {
      var bInit := b[..|b| - 1];
      assert (a + b)[..|a + b| - 1] == a + bInit;
      WithScoreAppend(a, bInit, v);
    } else {
      assert a + b == a;
    }
  }

  /** Place `e` after every entry whose score is at least its own. */
  function Insert(sorted: seq<ScoreEntry>, e: ScoreEntry): (r: seq<ScoreEntry>)
    ensures multiset(r) == multiset(sorted) + multiset{e}
    ensures multiset(EntryNames(r)) == multiset(EntryNames(sorted)) + multiset{e.name}
    decreases |sorted|
  {
    if sorted == [] then [e]
    else
      var init := sorted[..|sorted| - 1];
      var last := sorted[|sorted| - 1];
      assert sorted == init + [last];
      assert EntryNames(sorted) == EntryNames(init) + [last.name];
      if last.score >= e.score then
        assert EntryNames(sorted + [e]) == EntryNames(sorted) + [e.name];
        sorted + [e]
      else
        var r := Insert(init, e) + [last];
        assert EntryNames(r) == EntryNames(Insert(init, e)) + [last.name];
        r
  }

  /** Appending an entry no higher than any before it keeps the listing sorted. */
  lemma AppendLowest(front: seq<ScoreEntry>, last: ScoreEntry)
    requires NonIncreasing(front)
    requires forall x :: x in front ==> x.score >= last.score
    ensures NonIncreasing(front + [last])
  {
    var r := front + [last];
    forall i, j | 0 <= i < j < |r|
      ensures r[i].score >= r[j].score
    {
      if j == |r| - 1 {
        assert r[i] in front;
      }
    }
  }

  /** Insertion adds no entry below a bound that all the entries and the new one meet. */
  lemma InsertBound(s: seq<ScoreEntry>, e: ScoreEntry, b: real)
    requires forall x :: x in s ==> x.score >= b
    requires e.score >= b
    ensures forall x :: x in Insert(s, e) ==> x.score >= b
  {
    forall x | x in Insert(s, e)
      ensures x.score >= b
    {
      assert x in multiset(Insert(s, e));
      assert x in multiset(s) || x == e;
    }
  }

  lemma {:induction false} InsertSorted(sorted: seq<ScoreEntry>, e: ScoreEntry)
    requires NonIncreasing(sorted)
    ensures NonIncreasing(Insert(sorted, e))
    decreases |sorted|
  {
    if sorted != [] {
      var init := sorted[..|sorted| - 1];
      var last := sorted[|sorted| - 1];
      if last.score < e.score {
        assert Insert(sorted, e) == Insert(init, e) + [last];
        assert forall x :: x in init ==> x.score >= last.score by {
          forall x | x in init
            ensures x.score >= last.score
          {
            var k :| 0 <= k < |init| && init[k] == x;
            assert sorted[k] == x;
          }
        }
        InsertSorted(init, e);
        InsertBound(init, e, last.score);
        AppendLowest(Insert(init, e), last);
      } else {
        AppendLowest(sorted, e);
      }
    }
  }

  lemma WithScoreSingleton(x: ScoreEntry, v: real)
    ensures WithScore([x], v) == OfScore(x, v)
  {
    assert [x][..0] == [];
  }

  /** The entries with score `v` among `[x]`. */
  function OfScore(x: ScoreEntry, v: real): seq<ScoreEntry> {
    if x.score == v then [x] else []
  }

  /** Insertion at the end, behind an entry scoring at least as much. */
  lemma InsertStableAtEnd(sorted: seq<ScoreEntry>, e: ScoreEntry, v: real)
    requires sorted != [] && sorted[|sorted| - 1].score >= e.score
    ensures WithScore(Insert(sorted, e), v) == WithScore(sorted, v) + OfScore(e, v)
  {
    assert Insert(sorted, e) == sorted + [e];
    WithScoreAppend(sorted, [e], v);
    WithScoreSingleton(e, v);
  }

  /** Selecting by score over a sequence with one entry appended. */
  lemma WithScoreSnoc(s: seq<ScoreEntry>, x: ScoreEntry, v: real)
    ensures WithScore(s + [x], v) == WithScore(s, v) + OfScore(x, v)
  {
    assert (s + [x])[..|s|] == s;
  }

  /** An entry placed behind a higher one, given stability for the rest. */
  lemma StableBehindHigher(init: seq<ScoreEntry>, front: seq<ScoreEntry>, last: ScoreEntry, e: ScoreEntry, v: real)
    requires last.score < e.score
    requires WithScore(front, v) == WithScore(init, v) + OfScore(e, v)
    ensures WithScore(front + [last], v) == WithScore(init + [last], v) + OfScore(e, v)
  {
    WithScoreSnoc(init, last, v);
    WithScoreSnoc(front, last, v);
    var w, f := WithScore(init, v), WithScore(front, v);
    if e.score == v {
      assert OfScore(last, v) == [];
      assert f + [] == f && w + [] == w;
    } else {
      assert OfScore(e, v) == [];
      assert f == w + [] == w;
      assert w + OfScore(last, v) + [] == w + OfScore(last, v);
    }
  }

  /** Inserting keeps, among the entries of any one score, the order of arrival. */
  lemma {:induction false} InsertStable(sorted: seq<ScoreEntry>, e: ScoreEntry, v: real)
    ensures WithScore(Insert(sorted, e), v) == WithScore(sorted, v) + OfScore(e, v)
    decreases |sorted|
  {
    if sorted == [] {
      WithScoreSingleton(e, v);
    } else if sorted[|sorted| - 1].score >= e.score {
      InsertStableAtEnd(sorted, e, v);
    } else {
      var init := sorted[..|sorted| - 1];
      var last := sorted[|sorted| - 1];
      assert sorted == init + [last];
      assert Insert(sorted, e) == Insert(init, e) + [last];
      InsertStable(init, e, v);
      StableBehindHigher(init, Insert(init, e), last, e, v);
    }
  }

  /** A stable insertion sort by score, highest first. */
  function SortByScore(s: seq<ScoreEntry>): (r: seq<ScoreEntry>)
    ensures multiset(r) == multiset(s)
    ensures multiset(EntryNames(r)) == multiset(EntryNames(s))
  {
    if s == [] then []
    else
      var init := s[..|s| - 1];
      assert s == init + [s[|s| - 1]];
      assert EntryNames(s) == EntryNames(init) + [s[|s| - 1].name];
      Insert(SortByScore(init), s[|s| - 1])
  }

  lemma {:induction false} SortByScoreSorted(s: seq<ScoreEntry>)
    ensures NonIncreasing(SortByScore(s))
  {
    if s != [] {
      SortByScoreSorted(s[..|s| - 1]);
      InsertSorted(SortByScore(s[..|s| - 1]), s[|s| - 1]);
    }
  }

  /** Ties keep their input order: restricted to any one score, sorting changes nothing. */
  lemma {:induction false} SortByScoreStable(s: seq<ScoreEntry>, v: real)
    ensures WithScore(SortByScore(s), v) == WithScore(s, v)
  {
    if s != [] {
      var init := s[..|s| - 1];
      SortByScoreStable(init, v);
      InsertStable(SortByScore(init), s[|s| - 1], v);
    }
  }

  /** The response: one entry per distinct roster name, sorted by score, highest first. */
  function Ranking(regular: seq<string>, table: map<string, Score>): (r: seq<ScoreEntry>)
    requires forall n :: n in regular ==> n in table
    ensures forall n :: multiset(EntryNames(r))[n] == if n in regular then 1 else 0
  {
    DedupInTable(regular, table);
    var entries := Entries(Dedup(regular), table);
    assert EntryNames(entries) == Dedup(regular);
    SortByScore(entries)
  }

  /** Every distinct roster name has a score in a table that covers the roster. */
  lemma DedupInTable(regular: seq<string>, table: map<string, Score>)
    requires forall n :: n in regular ==> n in table
    ensures forall n :: n in Dedup(regular) ==> n in table
  {
    forall n | n in Dedup(regular) ensures n in table {
      assert multiset(Dedup(regular))[n] > 0;
    }
  }

  /** The ranking is sorted by score, highest first. */
  lemma RankingSorted(regular: seq<string>, table: map<string, Score>)
    requires forall n :: n in regular ==> n in table
    ensures NonIncreasing(Ranking(regular, table))
  {
    DedupInTable(regular, table);
    SortByScoreSorted(Entries(Dedup(regular), table));
  }

  /** The entry built for a roster name carries exactly what that member earned. */
  lemma EntryEarned(regular: seq<string>, docs: seq<ScheduleDoc>, n: string)
    requires n in regular
    ensures n in ScoreTable(regular, docs)
    ensures var e := ToEntry(n, ScoreTable(regular, docs)[n]);
            e.breakdown == Tally(n, docs) && e.score == Points(Tally(n, docs))
  {
    ScoreTableIsTally(regular, docs, n);
  }

  /** Each ranked entry is the entry of a roster name, built from that name's score. */
  lemma RankingEntriesFromTable(regular: seq<string>, table: map<string, Score>)
    requires forall n :: n in regular ==> n in table
    ensures forall e :: e in Ranking(regular, table) ==>
              e.name in regular && e == ToEntry(e.name, table[e.name])
  {
    var names := Dedup(regular);
    DedupInTable(regular, table);
    var entries := Entries(names, table);
    var sorted := SortByScore(entries);
    assert Ranking(regular, table) == sorted;
    forall e | e in sorted
      ensures e.name in regular && e == ToEntry(e.name, table[e.name])
    {
      assert multiset(sorted) == multiset(entries);
      assert e in multiset(sorted);
      assert e in multiset(entries);
      var i :| 0 <= i < |entries| && entries[i] == e;
      assert multiset(names)[names[i]] > 0;
    }
  }

  /** Each ranked entry carries exactly what that roster member earned. */
  lemma RankingEntriesEarned(regular: seq<string>, docs: seq<ScheduleDoc>)
    ensures forall e :: e in Ranking(regular, ScoreTable(regular, docs)) ==>
              (e.name in regular && e.breakdown == Tally(e.name, docs)
               && e.score == Points(Tally(e.name, docs)))
  {
    var table := ScoreTable(regular, docs);
    RankingEntriesFromTable(regular, table);
    forall e | e in Ranking(regular, table)
      ensures e.name in regular && e.breakdown == Tally(e.name, docs) && e.score == Points(Tally(e.name, docs))
    {
      EntryEarned(regular, docs, e.name);
    }
  }

  /**
   * What the scorer returns: sorted by score, highest first; every active regular member
   * exactly once, even with a zero score, and nobody else; and each member's score and
   * breakdown are exactly what that member earned shift by shift.
   */
  lemma RankingIsFair(regular: seq<string>, docs: seq<ScheduleDoc>)
    ensures var ranked := Ranking(regular, ScoreTable(regular, docs));
            && NonIncreasing(ranked)
            && (forall n :: multiset(EntryNames(ranked))[n] == if n in regular then 1 else 0)
            && (forall e :: e in ranked ==>
                  (e.name in regular && e.breakdown == Tally(e.name, docs)
                   && e.score == Points(Tally(e.name, docs))))
  {
    RankingSorted(regular, ScoreTable(regular, docs));
    RankingEntriesEarned(regular, docs);
  }

  /** Members with equal scores appear in roster order. */
  lemma RankingKeepsRosterOrderOnTies(regular: seq<string>, table: map<string, Score>, v: real)
    requires forall n :: n in regular ==> n in table
    ensures WithScore(Ranking(regular, table), v) == WithScore(Entries(Dedup(regular), table), v)
  {
    DedupInTable(regular, table);
    SortByScoreStable(Entries(Dedup(regular), table), v);
  }

  // ---------------------------------------------------------------------------------------
  // The route handler's loops.

  /** processShift over one slot, as the nested `forEach` runs it. */
  method ProcessShift(scores: map<string, Score>, regular: seq<string>, shift: RawShift,
                      dayOfWeek: int, kind: SlotKind) returns (out: map<string, Score>)
    requires kind != Secondary && Covers(scores, regular)
    ensures out == CreditShift(scores, regular, shift, dayOfWeek, kind)
  {
    out := scores;
    if !(shift.Slot? && shift.names.NameList?) {
      return;
    }
    var names := shift.names.items;
    var i := 0;
    while i < |names|
      invariant 0 <= i <= |names|
      invariant out == CreditNames(scores, regular, names[..i], shift.mode, shift.isHoliday, dayOfWeek, kind)
    {
      var person := names[i];
      assert names[..i + 1][..i] == names[..i];
      if person in regular && CountsForScore(shift.mode) {
        var points, category := 1.0, Midweek;
        if shift.isHoliday {
          points, category := 2.0, Weekend;
        } else if dayOfWeek == Friday {
          points, category := 2.0, Weekend;
        } else if dayOfWeek == Saturday {
          if kind == Primary {
            points, category := 2.0, Weekend;
          } else if kind == Night {
            points, category := 1.5, Partial;
          }
        } else if dayOfWeek == Thursday {
          if kind == Night {
            points, category := 1.5, Partial;
          } else {
            category := Midweek;
          }
        } else {
          category := Midweek;
        }
        var entry := out[person];
        out := out[person := Score(entry.score + points, Plus(entry.breakdown, Times(category, 1)))];
      }
      i := i + 1;
    }
    assert names[..|names|] == names;
  }

  /** GET /api/scores over the regular roster names and every stored record. */
  method ComputeScores(regular: seq<string>, docs: seq<ScheduleDoc>) returns (ranked: seq<ScoreEntry>)
    ensures ranked == Ranking(regular, ScoreTable(regular, docs))
  {
    var scores: map<string, Score> := map[];
    var i := 0;
    while i < |regular|
      invariant 0 <= i <= |regular|
      invariant scores == InitScores(regular[..i])
    {
      assert regular[..i + 1][..i] == regular[..i];
      scores := scores[regular[i] := Zero];
      i := i + 1;
    }
    assert regular[..|regular|] == regular;
    var d := 0;
    while d < |docs|
      invariant 0 <= d <= |docs|
      invariant scores == CreditDocs(InitScores(regular), regular, docs[..d])
    {
      var doc := docs[d];
      assert docs[..d + 1][..d] == docs[..d];
      var dayOfWeek := Weekday(doc.date);
      scores := ProcessShift(scores, regular, SlotOf(doc.shifts, "day"), dayOfWeek, Primary);
      scores := ProcessShift(scores, regular, SlotOf(doc.shifts, "night"), dayOfWeek, Night);
      d := d + 1;
    }
    assert docs[..|docs|] == docs;
    ranked := Ranking(regular, scores);
  }

  /** The names of the active regular members, in the roster's listing order (order, then name). */
  function ScoredNames(members: seq<TeamMember>): (r: seq<string>)
    ensures forall n :: n in r <==> exists m :: m in members && m.active && m.memberType == Regular && m.name == n
  {
    RegularNames(TeamMembersApi.ListActive(members))
  }

  /**
   * When the scored names are distinct, members with equal scores come out in the roster's
   * listing order: order, then name.
   */
  lemma RankingTiesFollowListing(members: seq<TeamMember>, docs: seq<ScheduleDoc>, v: real)
    requires forall i, j :: 0 <= i < j < |ScoredNames(members)| ==> ScoredNames(members)[i] != ScoredNames(members)[j]
    ensures var names := ScoredNames(members);
            var table := ScoreTable(names, docs);
            WithScore(Ranking(names, table), v) == WithScore(Entries(names, table), v)
  {
    var names := ScoredNames(members);
    DedupOfDistinct(names);
    RankingKeepsRosterOrderOnTies(names, ScoreTable(names, docs), v);
  }

  /** GET /api/scores against the roster and the stored records. */
  method Get(members: seq<TeamMember>, docs: seq<ScheduleDoc>) returns (ranked: seq<ScoreEntry>)
    ensures ranked == Ranking(ScoredNames(members), ScoreTable(ScoredNames(members), docs))
  {
    ranked := ComputeScores(ScoredNames(members), docs);
  }
}
