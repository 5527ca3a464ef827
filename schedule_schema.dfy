/**
 * The OnCallSchedule schema (src/models/OnCallSchedule.ts): one record per calendar day,
 * three slots, each with its assignees, its mode and a per-slot holiday flag; and the raw
 * shape a slot may have when it is read back (absent, legacy single `name`, current `names`).
 */
module ScheduleSchema {
  import opened Wrappers
  import opened Days
  import opened Slots

  /** The schema's mode enum. */
  datatype Mode = Phone | Offices | Kirya | Ignore

  function ModeId(m: Mode): string {
    match m
    case Phone => "phone"
    case Offices => "offices"
    case Kirya => "kirya"
    case Ignore => "ignore"
  }

  /** The enum value a stored mode string names, if any. */
  function ParseMode(s: string): (r: Option<Mode>)
    ensures r.Some? ==> ModeId(r.value) == s
  {
    if s == "phone" then Some(Phone)
    else if s == "offices" then Some(Offices)
    else if s == "kirya" then Some(Kirya)
    else if s == "ignore" then Some(Ignore)
    else None
  }

  /** Every enum value parses back from its string. */
  lemma ParseModeId(m: Mode)
    ensures ParseMode(ModeId(m)) == Some(m)
  {
  }

  const DefaultMode: Mode := Phone

  /** A slot as the schema describes it. `mode` is kept as a string, as the clients hold it. */
  datatype ShiftDetails = ShiftDetails(names: seq<string>, mode: string, isHoliday: bool)

  /** `{names: [], mode: 'phone', isHoliday: false}`: the default of each field and of each slot. */
  function DefaultShift(): (d: ShiftDetails)
    ensures ParseMode(d.mode) == Some(DefaultMode)
    ensures d.names == [] && !d.isHoliday
  {
    ShiftDetails([], ModeId(DefaultMode), false)
  }

  /** A slot value whose mode is one of the enum's. */
  predicate ConformsToSchema(d: ShiftDetails) {
    ParseMode(d.mode).Some?
  }

  /** What a record's `names` field holds when read back. */
  datatype RawNames =
    | NoNames                      // the field is undefined
    | NotAnArray                   // present but not an array (null, a string, ...)
    | NameList(items: seq<string>)

  /**
   * A slot as read back from a record. `Absent` is any falsy value. In `Slot`,
   * `name` is the legacy single-name field (None when undefined, `Some("")` for any falsy
   * value), `mode` is `""` when undefined or empty, and `isHoliday` is its truthiness.
   */
  datatype RawShift =
    | Absent
    | Slot(name: Option<string>, names: RawNames, mode: string, isHoliday: bool)

  /** A record's `shifts` object: slot values under whatever keys were written. */
  type Shifts = map<string, RawShift>

  /** `shifts[key]`, undefined when the key is missing. */
  function SlotOf(shifts: Shifts, key: string): (r: RawShift)
    ensures key in shifts ==> r == shifts[key]
    ensures key !in shifts ==> r == Absent
  {
    if key in shifts then shifts[key] else Absent
  }

  /** A stored schedule record. */
  datatype ScheduleDoc = ScheduleDoc(date: Instant, shifts: Shifts)

  /** The current write shape of a slot. */
  function ToRaw(d: ShiftDetails): (r: RawShift)
    ensures r.Slot? && r.name.None? && r.names == NameList(d.names)
    ensures r.mode == d.mode && r.isHoliday == d.isHoliday
  {
    Slot(None, NameList(d.names), d.mode, d.isHoliday)
  }

  /** The schema default of `shifts`: each of morning, main and night is the default slot. */
  function DefaultShifts(): (s: Shifts)
    ensures forall k :: SlotOf(s, EditorKey(k)) == ToRaw(DefaultShift())
    ensures |s.Keys| == 3
  {
    var d := ToRaw(DefaultShift());
    var s := map[EditorKey(Secondary) := d, EditorKey(Primary) := d, EditorKey(Night) := d];
    assert s.Keys == {"morning", "main", "night"};
    s
  }
}
