/**
 * normalizeShift (src/components/OnCallTable.tsx:109-122, repeated verbatim in
 * src/components/OnCallTableReadOnly.tsx:82-92): the read-time adapter that turns an
 * absent slot, a legacy `{name}` slot or a current `{names}` slot into canonical
 * `{names, mode, isHoliday}`; and the per-day, per-week views both tables build from it.
 */
module ShiftNormalizer {
  import opened Wrappers
  import opened Days
  import opened Slots
  import opened ScheduleSchema

  /** `mode || 'phone'` */
  function OrPhone(mode: string): (m: string)
    ensures m != ""
    ensures mode != "" ==> m == mode
  {
    if mode != "" then mode else "phone"
  }

  function NormalizeShift(val: RawShift): (d: ShiftDetails)
    ensures d.mode != ""
    ensures val.Slot? ==> d.isHoliday == val.isHoliday
  {
    match val
    case Absent => ShiftDetails([], "phone", false)
    case Slot(name, names, mode, isHoliday) =>
      if name.Some? then
        ShiftDetails(if name.value != "" then [name.value] else [], OrPhone(mode), isHoliday)
      else if !names.NoNames? then
        ShiftDetails(if names.NameList? then names.items else [], OrPhone(mode), isHoliday)
      else
        ShiftDetails([], "phone", isHoliday)
  }

  /** A falsy slot normalises to the schema default slot. */
  lemma NormalizeAbsent()
    ensures NormalizeShift(Absent) == DefaultShift()
  {
  }

  /** A legacy slot wraps its name; `name` is looked at before `names`, so it wins. */
  lemma NormalizeLegacy(name: string, names: RawNames, mode: string, isHoliday: bool)
    ensures NormalizeShift(Slot(Some(name), names, mode, isHoliday))
         == ShiftDetails(if name != "" then [name] else [], if mode != "" then mode else "phone", isHoliday)
  {
  }

  /** A `names` value that is not an array normalises to no names. */
  lemma NormalizeNotAnArray(mode: string, isHoliday: bool)
    ensures NormalizeShift(Slot(None, NotAnArray, mode, isHoliday)).names == []
  {
  }

  /** A slot with neither field is empty and in phone mode, whatever mode it carries. */
  lemma NormalizeNeither(mode: string, isHoliday: bool)
    ensures NormalizeShift(Slot(None, NoNames, mode, isHoliday)) == ShiftDetails([], "phone", isHoliday)
  {
  }

  /** Round trip: a canonical slot written in the current shape reads back unchanged. */
  lemma NormalizeToRaw(d: ShiftDetails)
    requires d.mode != ""
    ensures NormalizeShift(ToRaw(d)) == d
  {
  }

  /** Normalising is idempotent through the store. */
  lemma NormalizeIdempotent(val: RawShift)
    ensures NormalizeShift(ToRaw(NormalizeShift(val))) == NormalizeShift(val)
  {
    NormalizeToRaw(NormalizeShift(val));
  }

  /** A real slot never normalises to an undefined mode, so the schema default wins over `''`. */
  lemma NormalizeDefaultsUseSchema(val: RawShift)
    requires val.Absent? || (val.Slot? && val.mode == "")
    ensures ParseMode(NormalizeShift(val).mode) == Some(DefaultMode)
  {
  }

  /** The three normalised slots of one day. */
  datatype DayShifts = DayShifts(secondary: ShiftDetails, primary: ShiftDetails, night: ShiftDetails) {
    function Get(k: SlotKind): ShiftDetails {
      match k
      case Secondary => secondary
      case Primary => primary
      case Night => night
    }

    /** The day with slot `k` replaced and the other two kept. */
    function With(k: SlotKind, d: ShiftDetails): (r: DayShifts)
      ensures r.Get(k) == d
      ensures forall other :: other != k ==> r.Get(other) == Get(other)
    {
      match k
      case Secondary => DayShifts(d, primary, night)
      case Primary => DayShifts(secondary, d, night)
      case Night => DayShifts(secondary, primary, d)
    }
  }

  /** `{morning/second: normalizeShift(...), ...}` under a component's keys. */
  function NormalizeDay(shifts: Shifts, layout: Layout): (r: DayShifts)
    ensures forall k :: r.Get(k) == NormalizeShift(SlotOf(shifts, Key(layout, k)))
  {
    DayShifts(
      NormalizeShift(SlotOf(shifts, Key(layout, Secondary))),
      NormalizeShift(SlotOf(shifts, Key(layout, Primary))),
      NormalizeShift(SlotOf(shifts, Key(layout, Night))))
  }

  /** The holiday keys `date-role` one normalised day contributes. */
  function DayHolidays(day: int, shifts: DayShifts): (h: set<(int, SlotKind)>)
    ensures forall d, k :: (d, k) in h <==> d == day && shifts.Get(k).isHoliday
  {
    (if shifts.secondary.isHoliday then {(day, Secondary)} else {})
    + (if shifts.primary.isHoliday then {(day, Primary)} else {})
    + (if shifts.night.isHoliday then {(day, Night)} else {})
  }

  /** The three `if (normalized.<role>.isHoliday) holidaySet.add(...)` steps of a fetch. */
  method AddDayHolidays(holidaySet: set<(int, SlotKind)>, dateKey: int, normalized: DayShifts)
    returns (r: set<(int, SlotKind)>)
    ensures r == holidaySet + DayHolidays(dateKey, normalized)
  {
    r := holidaySet;
    if normalized.secondary.isHoliday {
      r := r + {(dateKey, Secondary)};
    }
    if normalized.primary.isHoliday {
      r := r + {(dateKey, Primary)};
    }
    if normalized.night.isHoliday {
      r := r + {(dateKey, Night)};
    }
  }

  /** The map a fetch builds: date key -> normalised day; a later record for the same day wins. */
  function WeekMap(docs: seq<ScheduleDoc>, layout: Layout): (m: map<int, DayShifts>)
    ensures forall d :: d in m <==> exists i :: 0 <= i < |docs| && DayOf(docs[i].date) == d
  {
    if docs == [] then map[]
    else
      var last := docs[|docs| - 1];
      var init := WeekMap(docs[..|docs| - 1], layout);
      assert forall i :: 0 <= i < |docs| - 1 ==> docs[..|docs| - 1][i] == docs[i];
      init[DayOf(last.date) := NormalizeDay(last.shifts, layout)]
  }

  /** The holiday set a fetch builds: every normalised slot of every record that is a holiday. */
  function WeekHolidays(docs: seq<ScheduleDoc>, layout: Layout): (h: set<(int, SlotKind)>)
    ensures forall p :: p in h ==> exists i :: 0 <= i < |docs| && DayOf(docs[i].date) == p.0
  {
    if docs == [] then {}
    else
      var last := docs[|docs| - 1];
      WeekHolidays(docs[..|docs| - 1], layout) + DayHolidays(DayOf(last.date), NormalizeDay(last.shifts, layout))
  }

  /**
   * The `data.forEach` loop of a week fetch: each record's normalised day goes into the map under
   * its date key and its holiday slots into the set.
   */
  method FoldWeek(docs: seq<ScheduleDoc>, layout: Layout)
    returns (m: map<int, DayShifts>, holidaySet: set<(int, SlotKind)>)
    ensures m == WeekMap(docs, layout)
    ensures holidaySet == WeekHolidays(docs, layout)
  {
    m := map[];
    holidaySet := {};
    var i := 0;
    while i < |docs|
      invariant 0 <= i <= |docs|
      invariant m == WeekMap(docs[..i], layout)
      invariant holidaySet == WeekHolidays(docs[..i], layout)
    {
      var item := docs[i];
      var dateKey := DayOf(item.date);
      var normalized := NormalizeDay(item.shifts, layout);
      WeekStep(docs, i, layout);
      m := m[dateKey := normalized];
      holidaySet := AddDayHolidays(holidaySet, dateKey, normalized);
      i := i + 1;
    }
    assert docs[..|docs|] == docs;
  }

  /** Record `doc` flags slot `k` of day `d` as a holiday once normalised. */
  predicate FlagsHoliday(doc: ScheduleDoc, layout: Layout, d: int, k: SlotKind) {
    DayOf(doc.date) == d && NormalizeShift(SlotOf(doc.shifts, Key(layout, k))).isHoliday
  }

  /** One more record adds exactly the slots it flags. */
  lemma WeekHolidaysStep(docs: seq<ScheduleDoc>, layout: Layout, d: int, k: SlotKind)
    requires docs != []
    ensures (d, k) in WeekHolidays(docs, layout)
        <==> (d, k) in WeekHolidays(docs[..|docs| - 1], layout) || FlagsHoliday(docs[|docs| - 1], layout, d, k)
  {
  }

  /** A key in the holiday set was put there by some fetched record. */
  lemma {:induction false} WeekHolidaysWitness(docs: seq<ScheduleDoc>, layout: Layout, d: int, k: SlotKind)
    returns (i: nat)
    requires (d, k) in WeekHolidays(docs, layout)
    ensures i < |docs| && FlagsHoliday(docs[i], layout, d, k)
  {
    WeekHolidaysStep(docs, layout, d, k);
    var init := docs[..|docs| - 1];
    if FlagsHoliday(docs[|docs| - 1], layout, d, k) {
      i := |docs| - 1;
    } else {
      i := WeekHolidaysWitness(init, layout, d, k);
      assert init[i] == docs[i];
    }
  }

  /** The holiday set holds every fetched record's own holiday keys. */
  lemma {:induction false} WeekHolidaysHoldDay(docs: seq<ScheduleDoc>, layout: Layout, i: nat)
    requires i < |docs|
    ensures DayHolidays(DayOf(docs[i].date), NormalizeDay(docs[i].shifts, layout)) <= WeekHolidays(docs, layout)
  {
    var init := docs[..|docs| - 1];
    if i < |init| {
      assert init[i] == docs[i];
      WeekHolidaysHoldDay(init, layout, i);
    }
  }

  /** Every slot a fetched record flags is in the holiday set. */
  lemma WeekHolidaysComplete(docs: seq<ScheduleDoc>, layout: Layout, i: nat, d: int, k: SlotKind)
    requires i < |docs| && FlagsHoliday(docs[i], layout, d, k)
    ensures (d, k) in WeekHolidays(docs, layout)
  {
    WeekHolidaysHoldDay(docs, layout, i);
    assert (d, k) in DayHolidays(DayOf(docs[i].date), NormalizeDay(docs[i].shifts, layout));
  }

  /** The holiday set holds `date-kind` exactly for the fetched slots whose flag is set. */
  lemma WeekHolidaysExact(docs: seq<ScheduleDoc>, layout: Layout, d: int, k: SlotKind)
    ensures (d, k) in WeekHolidays(docs, layout)
        <==> exists i :: 0 <= i < |docs| && FlagsHoliday(docs[i], layout, d, k)
  {
    if (d, k) in WeekHolidays(docs, layout) {
      var i := WeekHolidaysWitness(docs, layout, d, k);
    }
    forall i | 0 <= i < |docs| && FlagsHoliday(docs[i], layout, d, k)
      ensures (d, k) in WeekHolidays(docs, layout)
    {
      WeekHolidaysComplete(docs, layout, i, d, k);
    }
  }

  /** The map entry for a fetched day is the normalised last record for that day. */
  lemma {:induction false} WeekMapLast(docs: seq<ScheduleDoc>, layout: Layout, i: nat)
    requires i < |docs|
    requires forall j :: i < j < |docs| ==> DayOf(docs[j].date) != DayOf(docs[i].date)
    ensures WeekMap(docs, layout)[DayOf(docs[i].date)] == NormalizeDay(docs[i].shifts, layout)
  {
    if i < |docs| - 1 {
      var init := docs[..|docs| - 1];
      assert forall j :: 0 <= j < |init| ==> init[j] == docs[j];
      WeekMapLast(init, layout, i);
    }
  }

  /** One more fetched record: its day is (re)set and its holiday keys are added. */
  lemma WeekStep(docs: seq<ScheduleDoc>, i: nat, layout: Layout)
    requires i < |docs|
    ensures WeekMap(docs[..i + 1], layout)
         == WeekMap(docs[..i], layout)[DayOf(docs[i].date) := NormalizeDay(docs[i].shifts, layout)]
    ensures WeekHolidays(docs[..i + 1], layout)
         == WeekHolidays(docs[..i], layout) + DayHolidays(DayOf(docs[i].date), NormalizeDay(docs[i].shifts, layout))
  {
    assert docs[..i + 1][..i] == docs[..i];
  }
}
