/**
 * The public, read-only weekly table (src/components/OnCallTableReadOnly.tsx). It fetches
 * the week, normalises each record's `second` / `day` / `night` slots, collects the holiday
 * keys, and renders each cell as a names line and, on the two main rows, mode and holiday badges.
 */
module OnCallTableReadOnly {
  import opened Wrappers
  import opened Days
  import opened Slots
  import opened ScheduleSchema
  import opened ShiftNormalizer
  import OnCallTable

  /** `names.join(', ')` */
  function Join(names: seq<string>): (r: string)
    ensures names == [] ==> r == ""
    ensures |names| == 1 ==> r == names[0]
  {
    if names == [] then ""
    else if |names| == 1 then names[0]
    else Join(names[..|names| - 1]) + ", " + names[|names| - 1]
  }

  /** Each further name is appended after a comma and a space. */
  lemma JoinAppend(names: seq<string>, x: string)
    requires names != []
    ensures Join(names + [x]) == Join(names) + ", " + x
  {
    assert (names + [x])[..|names|] == names;
  }

  /** Two names are joined with one separator. */
  lemma JoinTwo(a: string, b: string)
    ensures Join([a, b]) == a + ", " + b
  {
    JoinAppend([a], b);
    assert [a] + [b] == [a, b];
  }

  /** The mode badge: the slot's mode when it is one of `MODES`, phone otherwise. */
  function ShownMode(mode: string): (r: string)
    ensures r in OnCallTable.Modes
    ensures mode in OnCallTable.Modes ==> r == mode
    ensures mode !in OnCallTable.Modes ==> r == "phone"
  {
    if mode in OnCallTable.Modes then mode else OnCallTable.Modes[0]
  }

  /** A rendered cell: the names line, the mode badge if shown, and whether the holiday badge is shown. */
  datatype CellView = CellView(text: string, modeBadge: Option<string>, holidayBadge: bool)

  /** `scheduleData.get(dateKey)?.[row] || { names: [], mode: 'phone' }` */
  function CellShift(data: map<int, DayShifts>, day: int, k: SlotKind): (s: ShiftDetails)
    ensures day in data ==> s == data[day].Get(k)
    ensures day !in data ==> s.names == [] && s.mode == "phone"
  {
    if day in data then data[day].Get(k) else ShiftDetails([], "phone", false)
  }

  /** One cell of the table (the mobile cards and the desktop grid render alike). */
  function Cell(data: map<int, DayShifts>, holidays: set<(int, SlotKind)>, day: int, k: SlotKind): (c: CellView)
    ensures var s := CellShift(data, day, k);
            && (s.names == [] ==> c.text == "-")
            && (s.names != [] ==> c.text == Join(s.names))
            && (c.modeBadge.Some? <==> k != Secondary && s.names != [])
            && (c.modeBadge.Some? ==> c.modeBadge.value == ShownMode(s.mode))
            && (c.holidayBadge <==> k != Secondary && s.names != [] && (day, k) in holidays)
  {
    var s := CellShift(data, day, k);
    var showBadges := k != Secondary && |s.names| > 0;
    CellView(if |s.names| > 0 then Join(s.names) else "-",
             if showBadges then Some(ShownMode(s.mode)) else None,
             showBadges && (day, k) in holidays)
  }

  /** A day with no record shows `-` in every row and no badges. */
  lemma MissingDayIsBlank(data: map<int, DayShifts>, holidays: set<(int, SlotKind)>, day: int, k: SlotKind)
    requires day !in data
    ensures Cell(data, holidays, day, k) == CellView("-", None, false)
  {
  }

  /** The `second` row never shows badges, whatever the slot holds. */
  lemma SecondRowHasNoBadges(data: map<int, DayShifts>, holidays: set<(int, SlotKind)>, day: int)
    ensures Cell(data, holidays, day, Secondary).modeBadge.None?
    ensures !Cell(data, holidays, day, Secondary).holidayBadge
  {
  }

  class ScheduleView {
    var currentStart: int
    var scheduleData: map<int, DayShifts>
    var holidays: set<(int, SlotKind)>

    constructor (start: int)
      ensures currentStart == start && scheduleData == map[] && holidays == {}
    {
      currentStart := start;
      scheduleData := map[];
      holidays := {};
    }

    /** fetchSchedule, given the GET /api/schedule response for the week. */
    method FetchSchedule(docs: seq<ScheduleDoc>)
      modifies this
      ensures scheduleData == WeekMap(docs, ViewRows)
      ensures holidays == WeekHolidays(docs, ViewRows)
      ensures currentStart == old(currentStart)
    {
      var m, holidaySet := FoldWeek(docs, ViewRows);
      scheduleData := m;
      holidays := holidaySet;
    }

    /** The cell rendered for `day` on row `k`. */
    function CellAt(day: int, k: SlotKind): (c: CellView)
      reads this
      ensures c == Cell(scheduleData, holidays, day, k)
    {
      Cell(scheduleData, holidays, day, k)
    }
  }

  /**
   * After a fetch, a main-row cell shows the holiday badge exactly when it lists someone and
   * some fetched record for that day marks that slot a holiday.
   */
  lemma HolidayBadgeAfterFetch(docs: seq<ScheduleDoc>, day: int, k: SlotKind)
    ensures Cell(WeekMap(docs, ViewRows), WeekHolidays(docs, ViewRows), day, k).holidayBadge
        <==> k != Secondary && CellShift(WeekMap(docs, ViewRows), day, k).names != []
             && exists i :: 0 <= i < |docs| && DayOf(docs[i].date) == day
                         && NormalizeShift(SlotOf(docs[i].shifts, ViewKey(k))).isHoliday
  {
    WeekHolidaysExact(docs, ViewRows, day, k);
  }
}
