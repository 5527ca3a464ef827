/**
 * The weekly editor (src/components/OnCallTable.tsx). It holds the week on screen, the
 * normalised slots of each day, the roster names, the loaded constraints and the set of
 * `date-role` holiday keys; edits are staged in that state and written back by saveAll,
 * which posts the days worth saving with their holiday flags injected.
 */
module OnCallTable {
  import opened Wrappers
  import opened Days
  import opened Slots
  import opened ScheduleSchema
  import opened ConstraintsSchema
  import opened TeamMemberSchema
  import opened ShiftNormalizer

  // ---------------------------------------------------------------------------------------
  // The mode button.

  /** `MODES`, in cycling order. */
  const Modes: seq<string> := ["phone", "offices", "kirya"]

  /** `MODES.findIndex(m => m.id === mode)`, None for -1. */
  function ModeIndex(mode: string): (r: Option<nat>)
    ensures r.Some? ==> r.value < |Modes| && Modes[r.value] == mode
    ensures r.None? ==> mode !in Modes
  {
    if mode == "phone" then Some(0)
    else if mode == "offices" then Some(1)
    else if mode == "kirya" then Some(2)
    else None
  }

  /** The mode cycleMode writes: the next one in `MODES`, or the first for an unknown mode. */
  function NextMode(mode: string): (r: string)
    ensures r in Modes
  {
    match ModeIndex(mode)
    case None => Modes[0]
    case Some(i) => Modes[(i + 1) % |Modes|]
  }

  /** phone -> offices -> kirya -> phone; anything else (`''`, `ignore`, ...) -> phone. */
  lemma NextModeTable(mode: string)
    ensures mode == "phone" ==> NextMode(mode) == "offices"
    ensures mode == "offices" ==> NextMode(mode) == "kirya"
    ensures mode == "kirya" ==> NextMode(mode) == "phone"
    ensures mode !in Modes ==> NextMode(mode) == "phone"
  {
  }

  /** Three presses from a known mode come back to it. */
  lemma NextModeThreeCycle(mode: string)
    requires mode in Modes
    ensures NextMode(NextMode(NextMode(mode))) == mode
  {
  }

  // ---------------------------------------------------------------------------------------
  // Staged slots.

  /** The default day of handleUpdate and saveAll: three empty phone slots. */
  function EmptyDay(): (r: DayShifts)
    ensures forall k :: r.Get(k) == DefaultShift()
  {
    DayShifts(DefaultShift(), DefaultShift(), DefaultShift())
  }

  /** `scheduleData.get(dateKey) || default` */
  function DayOrEmpty(data: map<int, DayShifts>, day: int): (r: DayShifts)
    ensures day in data ==> r == data[day]
    ensures day !in data ==> r == EmptyDay()
  {
    if day in data then data[day] else EmptyDay()
  }

  /** The `field`/`value` pair of handleUpdate. */
  datatype Update = SetNames(names: seq<string>) | SetMode(mode: string) | SetHoliday(isHoliday: bool)

  /** `{ ...currentShift, [field]: value }`, then phone when names are added to a slot with no mode. */
  function ApplyUpdate(s: ShiftDetails, u: Update): (r: ShiftDetails)
    ensures u.SetNames? ==> r.names == u.names && r.isHoliday == s.isHoliday
    ensures u.SetNames? ==> r.mode == (if |u.names| > 0 && s.mode == "" then "phone" else s.mode)
    ensures u.SetMode? ==> r == ShiftDetails(s.names, u.mode, s.isHoliday)
    ensures u.SetHoliday? ==> r == ShiftDetails(s.names, s.mode, u.isHoliday)
  {
    match u
    case SetNames(names) =>
      var r := s.(names := names);
      if |names| > 0 && r.mode == "" then r.(mode := "phone") else r
    case SetMode(mode) => s.(mode := mode)
    case SetHoliday(isHoliday) => s.(isHoliday := isHoliday)
  }

  /** The schedule map after handleUpdate: only `role` on `day` changes. */
  function UpdatedData(data: map<int, DayShifts>, day: int, role: SlotKind, u: Update): (r: map<int, DayShifts>)
    ensures r.Keys == data.Keys + {day}
    ensures r[day].Get(role) == ApplyUpdate(DayOrEmpty(data, day).Get(role), u)
    ensures forall k :: k != role ==> r[day].Get(k) == DayOrEmpty(data, day).Get(k)
    ensures forall d :: d in data && d != day ==> r[d] == data[d]
  {
    var current := DayOrEmpty(data, day);
    data[day := current.With(role, ApplyUpdate(current.Get(role), u))]
  }

  /** Every staged slot has a mode. */
  ghost predicate ModesSet(data: map<int, DayShifts>) {
    forall d, k :: d in data ==> data[d].Get(k).mode != ""
  }

  /** An update that does not clear the mode keeps every slot with a mode. */
  lemma UpdateKeepsModesSet(data: map<int, DayShifts>, day: int, role: SlotKind, u: Update)
    requires ModesSet(data) && u != SetMode("")
    ensures ModesSet(UpdatedData(data, day, role, u))
  {
    var r := UpdatedData(data, day, role, u);
    forall d, k | d in r
      ensures r[d].Get(k).mode != ""
    {
      if d == day && k == role {
        assert DayOrEmpty(data, day).Get(role).mode != "";
      } else if d == day {
        assert DayOrEmpty(data, day).Get(k).mode != "";
      }
    }
  }

  /** The fetched week always has a mode in every slot. */
  lemma FetchedModesSet(docs: seq<ScheduleDoc>)
    ensures ModesSet(WeekMap(docs, EditorRows))
  {
    var m := WeekMap(docs, EditorRows);
    forall d, k | d in m
      ensures m[d].Get(k).mode != ""
    {
      var i :| 0 <= i < |docs| && DayOf(docs[i].date) == d;
      var j := LastFor(docs, d, i);
      WeekMapLast(docs, EditorRows, j);
    }
  }

  /** The last index holding a record for `day`. */
  function LastFor(docs: seq<ScheduleDoc>, day: int, i: nat): (j: nat)
    requires i < |docs| && DayOf(docs[i].date) == day
    ensures i <= j < |docs| && DayOf(docs[j].date) == day
    ensures forall k :: j < k < |docs| ==> DayOf(docs[k].date) != day
    decreases |docs| - i
  {
    if forall k :: i < k < |docs| ==> DayOf(docs[k].date) != day then i
    else
      var k :| i < k < |docs| && DayOf(docs[k].date) == day;
      LastFor(docs, day, k)
  }

  // ---------------------------------------------------------------------------------------
  // Holiday keys and the member checkboxes.

  /** A `${dateKey}-${role}` holiday key. */
  type HolidayKey = (int, SlotKind)

  /** The set with `key` added when absent and removed when present. */
  function Toggle(s: set<HolidayKey>, key: HolidayKey): (r: set<HolidayKey>)
    ensures key in r <==> key !in s
    ensures forall other :: other != key ==> (other in r <==> other in s)
  {
    if key in s then s - {key} else s + {key}
  }

  lemma ToggleTwice(s: set<HolidayKey>, key: HolidayKey)
    ensures Toggle(Toggle(s, key), key) == s
  {
  }

  /** `names.filter(n => n !== member)` */
  function Without(names: seq<string>, member: string): (r: seq<string>)
    ensures member !in r
    ensures forall n :: n != member ==> multiset(r)[n] == multiset(names)[n]
  {
    if names == [] then []
    else
      var init := names[..|names| - 1];
      var last := names[|names| - 1];
      assert names == init + [last];
      if last == member then Without(init, member) else Without(init, member) + [last]
  }

  /** Unchecking keeps the remaining names in their order. */
  lemma {:induction false} WithoutKeepsOrder(names: seq<string>, member: string)
    requires member !in names
    ensures Without(names, member) == names
  {
    if names != [] {
      WithoutKeepsOrder(names[..|names| - 1], member);
      assert names == names[..|names| - 1] + [names[|names| - 1]];
    }
  }

  /** Filtering a single name keeps it unless it is the member. */
  lemma WithoutSingleton(x: string, member: string)
    ensures Without([x], member) == if x == member then [] else [x]
  {
    assert [x][..0] == [];
  }

  /** Filtering distributes over concatenation, so the survivors keep their relative order. */
  lemma {:induction false} WithoutConcat(a: seq<string>, b: seq<string>, member: string)
    ensures Without(a + b, member) == Without(a, member) + Without(b, member)
    decreases |b|
  {
    if b == [] {
      assert a + b == a;
    } else {
      var init := b[..|b| - 1];
      var last := b[|b| - 1];
      assert (a + b)[..|a + b| - 1] == a + init;
      assert (a + b)[|a + b| - 1] == last;
      WithoutConcat(a, init, member);
      if last != member {
        assert Without(a + b, member) == Without(a, member) + Without(init, member) + [last];
      }
    }
  }

  /** The new names of the checkbox's onChange. */
  function ToggledNames(names: seq<string>, member: string, checked: bool): (r: seq<string>)
    ensures checked ==> r == names + [member]
    ensures !checked ==> member !in r && forall n :: n != member ==> multiset(r)[n] == multiset(names)[n]
  {
    if checked then names + [member] else Without(names, member)
  }

  /** The names a cell shows: `scheduleData.get(dateKey)?.[role] || { names: [], ... }`. */
  function CellNames(data: map<int, DayShifts>, day: int, role: SlotKind): (r: seq<string>)
    ensures r == DayOrEmpty(data, day).Get(role).names
  {
    if day in data then data[day].Get(role).names else []
  }

  /**
   * The constraint shown beside a member in a dropdown: the `day` flag for the morning and
   * main rows, the `night` flag for the night row; no record or no entry means no constraint.
   */
  function ConstraintFlag(constraints: map<int, PersonFlags>, day: int, role: SlotKind, member: string): (r: bool)
    ensures day !in constraints || member !in constraints[day] ==> !r
    ensures day in constraints && member in constraints[day] ==>
              r == (if role == Night then constraints[day][member].night else constraints[day][member].day)
  {
    var dayConstraints := if day in constraints then constraints[day] else map[];
    var flags := if member in dayConstraints then dayConstraints[member] else NoFlags;
    match role
    case Secondary => flags.day
    case Primary => flags.day
    case Night => flags.night
  }

  // ---------------------------------------------------------------------------------------
  // What saveAll writes.

  /** The seven day numbers of the week starting at `start`. */
  function Week(start: int): (r: seq<int>)
    ensures |r| == 7 && forall i :: 0 <= i < 7 ==> r[i] == start + i
  {
    seq(7, i => start + i)
  }

  /** The day's slots with each `isHoliday` replaced by membership of `date-role` in the holiday set. */
  function Payload(data: map<int, DayShifts>, holidays: set<HolidayKey>, day: int): (p: DayShifts)
    ensures forall k :: p.Get(k).names == DayOrEmpty(data, day).Get(k).names
    ensures forall k :: p.Get(k).mode == DayOrEmpty(data, day).Get(k).mode
    ensures forall k :: p.Get(k).isHoliday == ((day, k) in holidays)
  {
    var shifts := DayOrEmpty(data, day);
    DayShifts(shifts.secondary.(isHoliday := (day, Secondary) in holidays),
              shifts.primary.(isHoliday := (day, Primary) in holidays),
              shifts.night.(isHoliday := (day, Night) in holidays))
  }

  /** `hasShifts || hasHoliday` */
  predicate WorthSaving(p: DayShifts) {
    |p.secondary.names| > 0 || |p.primary.names| > 0 || |p.night.names| > 0
    || p.secondary.isHoliday || p.primary.isHoliday || p.night.isHoliday
  }

  lemma WorthSavingMeans(p: DayShifts)
    ensures WorthSaving(p) <==> exists k :: |p.Get(k).names| > 0 || p.Get(k).isHoliday
  {
    if WorthSaving(p) {
      if |p.secondary.names| > 0 || p.secondary.isHoliday {
        assert |p.Get(Secondary).names| > 0 || p.Get(Secondary).isHoliday;
      } else if |p.primary.names| > 0 || p.primary.isHoliday {
        assert |p.Get(Primary).names| > 0 || p.Get(Primary).isHoliday;
      } else {
        assert |p.Get(Night).names| > 0 || p.Get(Night).isHoliday;
      }
    }
  }

  /** The posted `shifts` object, under the editor's keys. */
  function Wire(p: DayShifts): (s: Shifts)
    ensures forall k :: SlotOf(s, EditorKey(k)) == ToRaw(p.Get(k))
    ensures s.Keys == {"morning", "main", "night"}
  {
    map[EditorKey(Secondary) := ToRaw(p.secondary), EditorKey(Primary) := ToRaw(p.primary),
        EditorKey(Night) := ToRaw(p.night)]
  }

  /** One POST /api/schedule body. */
  datatype SchedulePost = SchedulePost(date: Instant, shifts: Shifts)

  /** The posts saveAll sends for the given days, in order. */
  function PlannedPosts(data: map<int, DayShifts>, holidays: set<HolidayKey>, days: seq<int>): (r: seq<SchedulePost>)
    ensures |r| <= |days|
  {
    if days == [] then []
    else
      var before := PlannedPosts(data, holidays, days[..|days| - 1]);
      var day := days[|days| - 1];
      var payload := Payload(data, holidays, day);
      if WorthSaving(payload) then before + [SchedulePost(DayStart(day), Wire(payload))] else before
  }

  /** A day is posted iff it is one of the days and, with holidays injected, is worth saving. */
  lemma {:induction false} PostedIffWorthSaving(data: map<int, DayShifts>, holidays: set<HolidayKey>, days: seq<int>, day: int)
    ensures (exists j :: 0 <= j < |PlannedPosts(data, holidays, days)| && PlannedPosts(data, holidays, days)[j].date == DayStart(day))
        <==> day in days && WorthSaving(Payload(data, holidays, day))
  {
    if days != [] {
      var init := days[..|days| - 1];
      var last := days[|days| - 1];
      PostedIffWorthSaving(data, holidays, init, day);
      assert days == init + [last];
      var before := PlannedPosts(data, holidays, init);
      var after := PlannedPosts(data, holidays, days);
      assert forall j :: 0 <= j < |before| ==> after[j] == before[j];
      assert DayOf(DayStart(day)) == day && DayOf(DayStart(last)) == last;
      if day in days && WorthSaving(Payload(data, holidays, day)) {
        if day in init {
          var j :| 0 <= j < |before| && before[j].date == DayStart(day);
          assert after[j].date == DayStart(day);
          assert exists jj :: 0 <= jj < |PlannedPosts(data, holidays, days)|
                           && PlannedPosts(data, holidays, days)[jj].date == DayStart(day);
        } else {
          assert after[|after| - 1].date == DayStart(day);
          assert exists jj :: 0 <= jj < |PlannedPosts(data, holidays, days)|
                           && PlannedPosts(data, holidays, days)[jj].date == DayStart(day);
        }
      }
      if exists j :: 0 <= j < |after| && after[j].date == DayStart(day) {
        var j :| 0 <= j < |after| && after[j].date == DayStart(day);
        if j >= |before| {
          assert WorthSaving(Payload(data, holidays, last)) && after == before + [after[j]];
          assert after[j].date == DayStart(last);
          assert last == day;
        } else {
          assert before[j].date == DayStart(day);
          assert exists jj :: 0 <= jj < |PlannedPosts(data, holidays, init)|
                           && PlannedPosts(data, holidays, init)[jj].date == DayStart(day);
          assert day in init && WorthSaving(Payload(data, holidays, day));
        }
      }
    }
  }

  /** Every post is dated at the start of one of the given days. */
  lemma {:induction false} PostsAreDayStarts(data: map<int, DayShifts>, holidays: set<HolidayKey>, days: seq<int>)
    ensures forall post :: post in PlannedPosts(data, holidays, days) ==>
              post.date == DayStart(DayOf(post.date)) && DayOf(post.date) in days
  {
    if days != [] {
      var init := days[..|days| - 1];
      PostsAreDayStarts(data, holidays, init);
      assert DayOf(DayStart(days[|days| - 1])) == days[|days| - 1];
      assert forall d :: d in init ==> d in days;
    }
  }

  /** Over days in increasing order (as `Week(start)` is), the posts go out in increasing date order. */
  lemma {:induction false} PlannedPostsAscending(data: map<int, DayShifts>, holidays: set<HolidayKey>, days: seq<int>)
    requires forall i, j :: 0 <= i < j < |days| ==> days[i] < days[j]
    ensures forall i, j :: 0 <= i < j < |PlannedPosts(data, holidays, days)| ==>
              PlannedPosts(data, holidays, days)[i].date < PlannedPosts(data, holidays, days)[j].date
  {
    if days != [] {
      var init := days[..|days| - 1];
      var last := days[|days| - 1];
      PlannedPostsAscending(data, holidays, init);
      PostsAreDayStarts(data, holidays, init);
      var before := PlannedPosts(data, holidays, init);
      var payload := Payload(data, holidays, last);
      if WorthSaving(payload) {
        var post := SchedulePost(DayStart(last), Wire(payload));
        forall j | 0 <= j < |before|
          ensures before[j].date < post.date
        {
          assert before[j] in before;
          var i :| 0 <= i < |init| && init[i] == DayOf(before[j].date);
          assert init[i] == days[i];
        }
        assert PlannedPosts(data, holidays, days) == before + [post];
      }
    }
  }

  /** saveAll's posts for a week go out one per day at most, in day order. */
  lemma WeekPostsAscending(data: map<int, DayShifts>, holidays: set<HolidayKey>, start: int)
    ensures forall i, j :: 0 <= i < j < |PlannedPosts(data, holidays, Week(start))| ==>
              PlannedPosts(data, holidays, Week(start))[i].date < PlannedPosts(data, holidays, Week(start))[j].date
  {
    PlannedPostsAscending(data, holidays, Week(start));
  }

  /** Every post carries its day's staged slots with the holiday flags from the holiday set. */
  lemma {:induction false} PostsCarryPayload(data: map<int, DayShifts>, holidays: set<HolidayKey>, days: seq<int>)
    ensures forall post :: post in PlannedPosts(data, holidays, days) ==>
              post.shifts == Wire(Payload(data, holidays, DayOf(post.date)))
              && WorthSaving(Payload(data, holidays, DayOf(post.date)))
              && DayOf(post.date) in days
  {
    if days != [] {
      PostsCarryPayload(data, holidays, days[..|days| - 1]);
    }
  }

  /** Each posted slot's `isHoliday` is whether its `date-role` key is in the holiday set. */
  lemma PostedHolidayFlags(data: map<int, DayShifts>, holidays: set<HolidayKey>, days: seq<int>, post: SchedulePost, k: SlotKind)
    requires post in PlannedPosts(data, holidays, days)
    ensures SlotOf(post.shifts, EditorKey(k)).Slot?
    ensures SlotOf(post.shifts, EditorKey(k)).isHoliday == ((DayOf(post.date), k) in holidays)
  {
    PostsCarryPayload(data, holidays, days);
  }

  /** A week with nothing staged and no holiday keys posts nothing. */
  lemma {:induction false} NothingStagedNothingPosted(holidays: set<HolidayKey>, days: seq<int>)
    requires forall d, k :: d in days ==> (d, k) !in holidays
    ensures PlannedPosts(map[], holidays, days) == []
  {
    if days != [] {
      NothingStagedNothingPosted(holidays, days[..|days| - 1]);
      var last := days[|days| - 1];
      assert !Payload(map[], holidays, last).Get(Secondary).isHoliday;
      assert !Payload(map[], holidays, last).Get(Primary).isHoliday;
      assert !Payload(map[], holidays, last).Get(Night).isHoliday;
    }
  }

  /** A holiday key alone is enough to post its day, with that one flag set. */
  lemma HolidayAloneIsPosted(holidays: set<HolidayKey>, days: seq<int>, day: int, k: SlotKind)
    requires day in days && (day, k) in holidays
    ensures exists j :: 0 <= j < |PlannedPosts(map[], holidays, days)|
                     && PlannedPosts(map[], holidays, days)[j].date == DayStart(day)
  {
    assert Payload(map[], holidays, day).Get(k).isHoliday;
    PostedIffWorthSaving(map[], holidays, days, day);
  }

  /** The date keys of the constraints fetch: date -> `item.constraints || {}`; a later record wins. */
  function WeekConstraints(docs: seq<ConstraintDoc>): (m: map<int, PersonFlags>)
    ensures forall d :: d in m <==> exists i :: 0 <= i < |docs| && DayOf(docs[i].date) == d
  {
    if docs == [] then map[]
    else
      var last := docs[|docs| - 1];
      assert forall i :: 0 <= i < |docs| - 1 ==> docs[..|docs| - 1][i] == docs[i];
      WeekConstraints(docs[..|docs| - 1])[DayOf(last.date) := last.constraints.GetOr(DefaultConstraints)]
  }

  // ---------------------------------------------------------------------------------------
  // The component.

  class WeekEditor {
    var currentStart: int
    var scheduleData: map<int, DayShifts>
    var teamMembers: seq<string>
    var constraints: map<int, PersonFlags>
    var holidays: set<HolidayKey>
    var hasChanges: bool
    var saving: bool

    /** The initial state, on the week starting at day `start`. */
    constructor (start: int)
      ensures currentStart == start && scheduleData == map[] && teamMembers == []
      ensures constraints == map[] && holidays == {} && !hasChanges && !saving
    {
      currentStart := start;
      scheduleData := map[];
      teamMembers := [];
      constraints := map[];
      holidays := {};
      hasChanges := false;
      saving := false;
    }

    /** fetchTeamMembers, given the GET /api/team-members response. */
    method LoadTeamMembers(members: seq<TeamMember>)
      modifies this
      ensures teamMembers == Names(members)
      ensures scheduleData == old(scheduleData) && constraints == old(constraints) && holidays == old(holidays)
      ensures hasChanges == old(hasChanges) && currentStart == old(currentStart) && saving == old(saving)
    {
      teamMembers := Names(members);
    }

    /** fetchConstraints, given the GET /api/constraints response for the week. */
    method LoadConstraints(docs: seq<ConstraintDoc>)
      modifies this
      ensures constraints == WeekConstraints(docs)
      ensures scheduleData == old(scheduleData) && teamMembers == old(teamMembers) && holidays == old(holidays)
      ensures hasChanges == old(hasChanges) && currentStart == old(currentStart) && saving == old(saving)
    {
      var m: map<int, PersonFlags> := map[];
      var i := 0;
      while i < |docs|
        invariant 0 <= i <= |docs|
        invariant m == WeekConstraints(docs[..i])
      {
        assert docs[..i + 1][..i] == docs[..i];
        var item := docs[i];
        m := m[DayOf(item.date) := if item.constraints.Some? then item.constraints.value else map[]];
        i := i + 1;
      }
      assert docs[..|docs|] == docs;
      constraints := m;
    }

    /** fetchSchedule, given the GET /api/schedule response for the week. */
    method LoadSchedule(docs: seq<ScheduleDoc>)
      modifies this
      ensures scheduleData == WeekMap(docs, EditorRows) && ModesSet(scheduleData)
      ensures holidays == WeekHolidays(docs, EditorRows)
      ensures !hasChanges
      ensures teamMembers == old(teamMembers) && constraints == old(constraints)
      ensures currentStart == old(currentStart) && saving == old(saving)
    {
      var m, holidaySet := FoldWeek(docs, EditorRows);
      FetchedModesSet(docs);
      scheduleData := m;
      holidays := holidaySet;
      hasChanges := false;
    }

    /** handleUpdate: one field of one role on one day changes; the week is marked changed. */
    method HandleUpdate(day: int, role: SlotKind, u: Update)
      modifies this
      ensures scheduleData == UpdatedData(old(scheduleData), day, role, u)
      ensures hasChanges
      ensures teamMembers == old(teamMembers) && constraints == old(constraints) && holidays == old(holidays)
      ensures currentStart == old(currentStart) && saving == old(saving)
    {
      var current := DayOrEmpty(scheduleData, day);
      var updatedShift := ApplyUpdate(current.Get(role), u);
      scheduleData := scheduleData[day := current.With(role, updatedShift)];
      hasChanges := true;
    }

    /** cycleMode: the mode button writes the next mode into the slot. */
    method CycleMode(day: int, role: SlotKind, currentMode: string)
      modifies this
      ensures scheduleData == UpdatedData(old(scheduleData), day, role, SetMode(NextMode(currentMode)))
      ensures scheduleData[day].Get(role).mode in Modes
      ensures old(ModesSet(scheduleData)) ==> ModesSet(scheduleData)
      ensures hasChanges
      ensures teamMembers == old(teamMembers) && constraints == old(constraints) && holidays == old(holidays)
      ensures currentStart == old(currentStart) && saving == old(saving)
    {
      if ModesSet(scheduleData) {
        UpdateKeepsModesSet(scheduleData, day, role, SetMode(NextMode(currentMode)));
      }
      HandleUpdate(day, role, SetMode(NextMode(currentMode)));
    }

    /**
     * The member checkbox: checking appends the member to the cell's names, unchecking
     * drops every occurrence. Whatever the member's constraint flag, the change goes through.
     */
    method ToggleMember(day: int, role: SlotKind, member: string, checked: bool)
      modifies this
      ensures scheduleData == UpdatedData(old(scheduleData), day, role,
                                          SetNames(ToggledNames(CellNames(old(scheduleData), day, role), member, checked)))
      ensures old(ModesSet(scheduleData)) ==> ModesSet(scheduleData)
      ensures hasChanges
      ensures teamMembers == old(teamMembers) && constraints == old(constraints) && holidays == old(holidays)
      ensures currentStart == old(currentStart) && saving == old(saving)
    {
      var names := CellNames(scheduleData, day, role);
      var newNames := if checked then names + [member] else Without(names, member);
      if ModesSet(scheduleData) {
        UpdateKeepsModesSet(scheduleData, day, role, SetNames(newNames));
      }
      HandleUpdate(day, role, SetNames(newNames));
    }

    /** toggleHoliday: exactly the key `date-role` flips. */
    method ToggleHoliday(day: int, role: SlotKind)
      modifies this
      ensures holidays == Toggle(old(holidays), (day, role))
      ensures hasChanges
      ensures scheduleData == old(scheduleData) && teamMembers == old(teamMembers) && constraints == old(constraints)
      ensures currentStart == old(currentStart) && saving == old(saving)
    {
      var key := (day, role);
      if key in holidays {
        holidays := holidays - {key};
      } else {
        holidays := holidays + {key};
      }
      hasChanges := true;
    }

    /**
     * saveAll: walks the seven days of the week and returns the posts it sends.
     * `succeeded` is whether every post resolved; only then is the week marked unchanged.
     */
    method SaveAll(succeeded: bool) returns (posts: seq<SchedulePost>)
      modifies this
      ensures posts == PlannedPosts(scheduleData, holidays, Week(currentStart))
      ensures hasChanges == (old(hasChanges) && !succeeded)
      ensures !saving
      ensures scheduleData == old(scheduleData) && teamMembers == old(teamMembers)
      ensures constraints == old(constraints) && holidays == old(holidays) && currentStart == old(currentStart)
    {
      saving := true;
      var weekDays := Week(currentStart);
      posts := [];
      var i := 0;
      while i < 7
        invariant 0 <= i <= 7
        invariant posts == PlannedPosts(scheduleData, holidays, weekDays[..i])
      {
        assert weekDays[..i + 1][..i] == weekDays[..i];
        var day := weekDays[i];
        var payloadShifts := Payload(scheduleData, holidays, day);
        var hasShifts := |payloadShifts.secondary.names| > 0 || |payloadShifts.primary.names| > 0
                         || |payloadShifts.night.names| > 0;
        var hasHoliday := payloadShifts.secondary.isHoliday || payloadShifts.primary.isHoliday
                          || payloadShifts.night.isHoliday;
        if hasShifts || hasHoliday {
          posts := posts + [SchedulePost(DayStart(day), Wire(payloadShifts))];
        }
        i := i + 1;
      }
      assert weekDays[..7] == weekDays;
      if succeeded {
        hasChanges := false;
      }
      saving := false;
    }
  }
}
