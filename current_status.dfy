/**
 * The "current on-call" widget (src/components/CurrentStatus.tsx). From the hour it picks
 * the shift now running (day 08:00-19:59, night otherwise, a night before 08:00 belonging to
 * the previous calendar day), reads that day's first record and shows who is on it, who is
 * second, and the mode.
 */
module CurrentStatus {
  import opened Wrappers
  import opened Slots
  import opened ScheduleSchema
  import OnCallTableReadOnly

  /** One entry of `MODES_CONFIG`. */
  datatype ModeConfig = ModeConfig(title: string, bg: string, color: string)

  const PhoneConfig: ModeConfig := ModeConfig("טלפוני", "#e0f2fe", "#0ea5e9")
  const OfficesConfig: ModeConfig := ModeConfig("משרדים", "#f3e8ff", "#8b5cf6")
  const KiryaConfig: ModeConfig := ModeConfig("קריה", "#d1fae5", "#10b981")

  /** `MODES_CONFIG[mode]`: undefined for any mode but these three, `ignore` included. */
  function ModesConfig(mode: string): (r: Option<ModeConfig>)
    ensures r.Some? <==> mode == "phone" || mode == "offices" || mode == "kirya"
  {
    if mode == "phone" then Some(PhoneConfig)
    else if mode == "offices" then Some(OfficesConfig)
    else if mode == "kirya" then Some(KiryaConfig)
    else None
  }

  /** `(hour >= 8 && hour < 20) ? 'day' : 'night'` */
  function ShiftKindAt(hour: int): (k: SlotKind)
    ensures k != Secondary
    ensures k == Primary <==> 8 <= hour < 20
  {
    if 8 <= hour < 20 then Primary else Night
  }

  /** The calendar day queried: before 08:00 the night shift began the day before. */
  function QueryDay(today: int, hour: int): (d: int)
    ensures hour < 8 ==> d == today - 1
    ensures hour >= 8 ==> d == today
  {
    if hour < 8 then today - 1 else today
  }

  /** The night that runs past midnight is looked up on the day it began. */
  lemma EarlyHoursAreLastNight(today: int, hour: int)
    requires 0 <= hour < 8
    ensures ShiftKindAt(hour) == Night && QueryDay(today, hour) == today - 1
  {
  }

  /** The evening is tonight's night shift, on today's record. */
  lemma EveningIsTonight(today: int, hour: int)
    requires 20 <= hour < 24
    ensures ShiftKindAt(hour) == Night && QueryDay(today, hour) == today
  {
  }

  /** `shifts[key]?.names || []`: the widget reads `names` raw, without normalising. */
  function SlotNames(s: RawShift): (r: seq<string>)
    ensures s.Slot? && s.names.NameList? ==> r == s.names.items
    ensures !(s.Slot? && s.names.NameList?) ==> r == []
  {
    if s.Slot? && s.names.NameList? then s.names.items else []
  }

  /** `shifts[key]?.mode || 'phone'` */
  function SlotMode(s: RawShift): (r: string)
    ensures s.Absent? || s.mode == "" ==> r == "phone"
    ensures s.Slot? && s.mode != "" ==> r == s.mode
  {
    if s.Slot? && s.mode != "" then s.mode else "phone"
  }

  /** The state the widget renders. `config` is the resolved icon and colour. */
  datatype ShiftStatus = ShiftStatus(role: SlotKind, people: seq<string>, secondPeople: seq<string>,
                                     mode: string, config: ModeConfig)

  /**
   * fetchStatus, given the hour and the `shifts` of each record the query returned (None for
   * a record without `shifts`). No record, or a first record without `shifts`, is null.
   */
  function Status(hour: int, records: seq<Option<Shifts>>): (r: Option<ShiftStatus>)
    ensures r.None? <==> records == [] || records[0].None?
    ensures r.Some? ==>
              var main := SlotOf(records[0].value, ViewKey(ShiftKindAt(hour)));
              && r.value.role == ShiftKindAt(hour)
              && r.value.people == SlotNames(main)
              && r.value.secondPeople == SlotNames(SlotOf(records[0].value, "second"))
              && r.value.mode == SlotMode(main)
              && r.value.config == (if ModesConfig(r.value.mode).Some? then ModesConfig(r.value.mode).value else PhoneConfig)
  {
    if records == [] || records[0].None? then None
    else
      var shifts := records[0].value;
      var shiftType := ShiftKindAt(hour);
      var mainShift := SlotOf(shifts, ViewKey(shiftType));
      var secondShift := SlotOf(shifts, "second");
      var mode := SlotMode(mainShift);
      var modeConfig := ModesConfig(mode).GetOr(PhoneConfig);
      Some(ShiftStatus(shiftType, SlotNames(mainShift), SlotNames(secondShift), mode, modeConfig))
  }

  /** A status always carries a mode, and an unknown mode is kept raw while shown with phone's icon. */
  lemma StatusModeFallback(hour: int, records: seq<Option<Shifts>>)
    requires Status(hour, records).Some?
    ensures Status(hour, records).value.mode != ""
    ensures ModesConfig(Status(hour, records).value.mode).None? ==> Status(hour, records).value.config == PhoneConfig
  {
  }

  /** A legacy `{name}` slot shows nobody: the widget does not read `name`. */
  lemma LegacySlotShowsNobody(s: Shifts, hour: int, name: string, mode: string, isHoliday: bool)
    requires SlotOf(s, ViewKey(ShiftKindAt(hour))) == Slot(Some(name), NoNames, mode, isHoliday)
    ensures Status(hour, [Some(s)]).value.people == []
  {
  }

  /** `role: shiftType === 'night' ? 'לילה' : 'ראשי'` */
  function RoleLabel(k: SlotKind): (r: string)
    ensures k == Night ==> r == "לילה"
    ensures k != Night ==> r == "ראשי"
  {
    if k == Night then "לילה" else "ראשי"
  }

  /** The headline: the people, or "no assignment". */
  function Headline(s: ShiftStatus): (r: string)
    ensures s.people == [] ==> r == "אין שיבוץ"
    ensures s.people != [] ==> r == OnCallTableReadOnly.Join(s.people)
  {
    if |s.people| > 0 then OnCallTableReadOnly.Join(s.people) else "אין שיבוץ"
  }

  // ---------------------------------------------------------------------------------------
  // The header's mode (line 85).

  /** As written: the header looks the raw mode up again, with no fallback. */
  function HeaderConfigAsWritten(s: ShiftStatus): (r: Option<ModeConfig>)
    ensures r.None? <==> s.mode != "phone" && s.mode != "offices" && s.mode != "kirya"
  {
    ModesConfig(s.mode)
  }

  /**
   * A slot in `ignore` mode (a mode the schema allows) gives a status whose header config is
   * undefined, so rendering `activeModeConfig.bg` fails.
   */
  lemma IgnoreModeBreaksHeader()
    ensures var shifts := map["day" := Slot(None, NameList(["שלו"]), "ignore", false)];
            && Status(10, [Some(shifts)]).Some?
            && HeaderConfigAsWritten(Status(10, [Some(shifts)]).value).None?
  {
    var shifts := map["day" := Slot(None, NameList(["שלו"]), "ignore", false)];
    assert SlotOf(shifts, ViewKey(ShiftKindAt(10))) == Slot(None, NameList(["שלו"]), "ignore", false);
  }

  /** Corrected: the header uses the same resolved config as the icon and colour. */
  function HeaderConfig(s: ShiftStatus): (c: ModeConfig)
    ensures ModesConfig(s.mode).Some? ==> c == ModesConfig(s.mode).value
    ensures ModesConfig(s.mode).None? ==> c == PhoneConfig
  {
    ModesConfig(s.mode).GetOr(PhoneConfig)
  }

  /** For every status the widget computes, the header agrees with its icon and colour. */
  lemma HeaderMatchesStatus(hour: int, records: seq<Option<Shifts>>)
    requires Status(hour, records).Some?
    ensures HeaderConfig(Status(hour, records).value) == Status(hour, records).value.config
    ensures ModesConfig(Status(hour, records).value.mode).Some? ==>
              HeaderConfigAsWritten(Status(hour, records).value) == Some(HeaderConfig(Status(hour, records).value))
  {
  }
}
