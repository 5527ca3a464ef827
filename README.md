# shob-takti on-call roster: a Dafny model

shob-takti is a small web application for a team's on-call roster. For each calendar day it has three slots:

- a secondary ("second" or "morning") slot;
- a primary ("day" or "main") slot;
- a night slot.

Each slot holds its assignees, a working mode (phone, offices, kirya, or the legacy ignore) and a per-slot holiday flag. Team members can also record, per day, that they cannot take the day shift or the night shift. A fairness table ranks the regular members by weighted points for the shifts they worked from the offices or from the kirya.

This project models the logic of that core and proves properties of it:

- **The scorer** (`Scores`) is a nested loop that credits points and category counters. It is proved equal to a pure fold, the fold is proved equal to an independent per-person tally, and the ranking is a stable sort by score, descending.
- **The week editor** (`OnCallTable`), **the read-only week view** (`OnCallTableReadOnly`) and **the current-status widget** (`CurrentStatus`). They share a slot normaliser (`ShiftNormalizer`).
- **The constraints page** (`ConstraintsPage`).
- **The keyed stores behind the HTTP endpoints:**
  - schedule (`ScheduleApi`);
  - constraints (`ConstraintsApi`);
  - team members (`TeamMembersApi`);
  - seeding (`SeedTeam`).
- **The record schemas:** `ScheduleSchema`, `ConstraintsSchema` and `TeamMemberSchema`.
- **The cleaning rota** (`CleaningSchedule`).

Modelling choices:

- **Slot keys.** Each file's slot keys are kept verbatim (module `Slots`):
  - the editor and the schema write `morning`/`main`/`night`;
  - the read-only view and the status widget read `second`/`day`/`night`;
  - the scorer reads `day`/`night`.

  So a record's `shifts` is a map from key strings to raw slot values.
- **Time.** An instant is an integer count of seconds from a local midnight that fell on a Sunday. A day number is the floor quotient by 86400, and its weekday is that number mod 7, following getDay's numbering. Clock readings (the hour, today's day number, the ISO week number) are parameters.
- **State.** Component state (React `useState`) and store contents are class fields. Handlers are methods whose `ensures` give the whole new state in terms of pure functions, and those functions carry the proved properties.
- **Failures.** Network and database failures are not modelled. Where a handler's outcome depends on requests succeeding, that outcome is a boolean parameter.
- **Scores** are `real`: only multiples of one half arise.

Three behaviours of the code worth noting:

- The editor's constraint flag only styles a checkbox; it does not remove the member from the choices (`OnCallTable.WeekEditor.ToggleMember`).
- Updating or deleting an unknown member id is not an error: the update returns null and the delete returns success.
- The status widget does not normalise legacy `{name}` slots.

## Model

| member | source | states |
|---|---|---|
| Days.StartOfDay | src/app/api/schedule/route.ts:45 | the normalised instant opens the day of the input and is at most a day earlier |
| Days.SameStartIffSameDay | src/app/api/schedule/route.ts:45 | two instants normalise to the same record date exactly when they fall on the same calendar day |
| Days.StartOfDayIdempotent | src/app/api/constraints/route.ts:41 | normalising a normalised date changes nothing |
| Days.Weekday | src/app/api/scores/route.ts:33 | getDay gives a weekday in 0..6 |
| Days.Ascending | src/app/api/schedule/route.ts:25 | `sort({date: 1})`: the dates are strictly increasing and are exactly the given set |
| Slots.KeysDistinct | src/models/OnCallSchedule.ts:12-16 | within one layout, different roles have different keys |
| Slots.LayoutsAgreeOnlyOnNight | src/components/OnCallTableReadOnly.tsx:64-66 | the editor's keys and the view's keys coincide only for the night slot |
| ScheduleSchema.ParseMode | src/models/OnCallSchedule.ts:21 | a stored mode string names an enum value only if that value's id is the string |
| ScheduleSchema.ParseModeId | src/models/OnCallSchedule.ts:5-21 | the four enum values phone, offices, kirya and ignore parse back from their ids |
| ScheduleSchema.DefaultShift | src/models/OnCallSchedule.ts:19-23 | the default slot has no names, the phone mode and no holiday |
| ScheduleSchema.DefaultShifts | src/models/OnCallSchedule.ts:28-32 | `shifts` defaults to morning, main and night, each the default slot |
| ScheduleSchema.SlotOf | src/models/OnCallSchedule.ts:12-16 | a key present in `shifts` reads as its stored value; a missing key reads as an absent slot |
| ScheduleSchema.ToRaw | src/models/OnCallSchedule.ts:3-7 | the current write shape has a `names` array and no legacy `name`, and keeps the mode and holiday flag |
| ConstraintsSchema.Flags.Flip | src/models/Constraints.ts:5-8 | negates exactly one of the two flags |
| ConstraintsSchema.EntryOf | src/models/Constraints.ts:12-20 | a person's entry, or `{day: false, night: false}` when the map or the person is missing |
| ConstraintsSchema.FlipTwice | src/app/constraints/page.tsx:78 | flipping a flag twice restores the entry |
| TeamMemberSchema.NewMember | src/models/TeamMember.ts:11-14 | a created member takes the given fields, or the defaults regular, order 0 and active |
| TeamMemberSchema.Names | src/components/OnCallTable.tsx:55 | the names of the members, position by position |
| TeamMemberSchema.RegularNames | src/app/constraints/page.tsx:41 | a name is offered iff some member with that name is regular |
| TeamMemberSchema.RegularNamesSingleton | src/app/constraints/page.tsx:41 | one member contributes its name iff it is regular |
| TeamMemberSchema.RegularNamesConcat | src/app/constraints/page.tsx:41 | the names of two lists joined are the names of the first, then those of the second, so the filter keeps the members' order |
| TeamMemberSchema.NoRegularNoNames | src/app/constraints/page.tsx:41 | a list with no regular member offers no names |
| TeamMemberSchema.FirstRegularName | src/app/constraints/page.tsx:41-45 | the first name offered, selected by default, is the name of the first regular member listed |
| ShiftNormalizer.OrPhone | src/components/OnCallTable.tsx:114 | `mode \|\| 'phone'` is never empty and keeps a non-empty mode |
| ShiftNormalizer.NormalizeShift | src/components/OnCallTable.tsx:109-122 | the mode is never empty and a present slot keeps its holiday flag |
| ShiftNormalizer.NormalizeAbsent | src/components/OnCallTable.tsx:110 | a falsy slot normalises to no names, phone and no holiday |
| ShiftNormalizer.NormalizeLegacy | src/components/OnCallTable.tsx:112-114 | legacy `name` wins over `names`: one name if non-empty, else none, and the mode falls back to phone |
| ShiftNormalizer.NormalizeNotAnArray | src/components/OnCallTable.tsx:117-118 | a `names` that is not an array gives no names |
| ShiftNormalizer.NormalizeNeither | src/components/OnCallTable.tsx:120-121 | a slot without `name` or `names` gives no names and phone, keeping the holiday flag |
| ShiftNormalizer.NormalizeToRaw | src/components/OnCallTable.tsx:117-118 | a slot written in the current shape with a mode reads back as itself |
| ShiftNormalizer.NormalizeIdempotent | src/components/OnCallTable.tsx:109-122 | normalising, writing and normalising again changes nothing |
| ShiftNormalizer.NormalizeDefaultsUseSchema | src/models/OnCallSchedule.ts:21 | the normaliser's fallback mode is the schema's default |
| ShiftNormalizer.DayShifts.With | src/components/OnCallTable.tsx:140 | replaces one role's slot and keeps the other two |
| ShiftNormalizer.NormalizeDay | src/components/OnCallTable.tsx:89-93 | each role of the day is the normalised slot under that layout's key |
| ShiftNormalizer.DayHolidays | src/components/OnCallTable.tsx:97-99 | the day's holiday keys are exactly the roles whose normalised slot is a holiday |
| ShiftNormalizer.AddDayHolidays | src/components/OnCallTable.tsx:96-99 | the three holiday `if`s add exactly the day's holiday keys to the set |
| ShiftNormalizer.FoldWeek | src/components/OnCallTable.tsx:87-100 | the `forEach` loop builds the week map and holiday set of all the fetched records |
| ShiftNormalizer.WeekMap | src/components/OnCallTable.tsx:87-94 | the staged days are exactly the days of the fetched records |
| ShiftNormalizer.WeekHolidays | src/components/OnCallTableReadOnly.tsx:70-73 | every key of the holiday set a fetch builds is dated on the day of some fetched record |
| ShiftNormalizer.WeekHolidaysExact | src/components/OnCallTableReadOnly.tsx:70-73 | a `date-role` key is in the fetched holiday set iff some record of that day has that normalised slot flagged |
| ShiftNormalizer.WeekHolidaysWitness | src/components/OnCallTableReadOnly.tsx:70-73 | every key in the holiday set comes from a fetched record that flags that slot |
| ShiftNormalizer.WeekHolidaysHoldDay | src/components/OnCallTableReadOnly.tsx:70-73 | the holiday set contains every fetched record's own holiday keys |
| ShiftNormalizer.WeekHolidaysComplete | src/components/OnCallTableReadOnly.tsx:70-73 | every slot a fetched record flags is in the holiday set |
| ShiftNormalizer.WeekMapLast | src/components/OnCallTable.tsx:94 | a day shows the normalised slots of the last record for that day |
| ShiftNormalizer.WeekStep | src/components/OnCallTable.tsx:87-100 | one step of the fetch loop sets one day's slots and adds that day's holiday keys |
| OnCallTable.ModeIndex | src/components/OnCallTable.tsx:150 | `findIndex` finds the position of a known mode and -1 (None) for any other |
| OnCallTable.NextMode | src/components/OnCallTable.tsx:149-155 | the written mode is always one of phone, offices and kirya |
| OnCallTable.NextModeTable | src/components/OnCallTable.tsx:23-27 | phone goes to offices, offices to kirya, kirya to phone, and anything else to phone |
| OnCallTable.NextModeThreeCycle | src/components/OnCallTable.tsx:153 | three presses from a known mode return to it |
| OnCallTable.EmptyDay | src/components/OnCallTable.tsx:126-130 | the fallback day has three empty phone slots |
| OnCallTable.DayOrEmpty | src/components/OnCallTable.tsx:126 | the staged day, or the empty day when none is staged |
| OnCallTable.ApplyUpdate | src/components/OnCallTable.tsx:132-138 | only the given field changes; setting non-empty names on a slot with no mode also sets phone |
| OnCallTable.UpdatedData | src/components/OnCallTable.tsx:124-147 | only the given role on the given day changes; other roles and other days are unchanged |
| OnCallTable.UpdateKeepsModesSet | src/components/OnCallTable.tsx:136-138 | an update that does not clear a mode keeps every staged slot with a mode |
| OnCallTable.FetchedModesSet | src/components/OnCallTable.tsx:89-94 | after a fetch every staged slot has a mode |
| OnCallTable.LastFor | src/components/OnCallTable.tsx:94 | finds the last fetched record of a day |
| OnCallTable.Toggle | src/components/OnCallTable.tsx:204-209 | the key's membership flips and every other key's membership is kept |
| OnCallTable.ToggleTwice | src/components/OnCallTable.tsx:201-210 | toggling a holiday key twice restores the set |
| OnCallTable.Without | src/components/OnCallTable.tsx:516 | unchecking removes every occurrence of the member and keeps every other name's count (its order is in WithoutConcat) |
| OnCallTable.WithoutKeepsOrder | src/components/OnCallTable.tsx:516 | filtering out an absent member leaves the names as they were |
| OnCallTable.WithoutSingleton | src/components/OnCallTable.tsx:516 | a single name survives the filter iff it is not the member |
| OnCallTable.WithoutConcat | src/components/OnCallTable.tsx:516 | filtering distributes over concatenation, so the other names keep their relative order |
| OnCallTable.ToggledNames | src/components/OnCallTable.tsx:514-516 | checking appends the member at the end; unchecking removes all its occurrences and keeps every other name's count, in order by WithoutConcat |
| OnCallTable.CellNames | src/components/OnCallTable.tsx:126-132 | a cell's names are the staged role's names, or none |
| OnCallTable.ConstraintFlag | src/components/OnCallTable.tsx:480-483 | morning and main rows read the member's day flag and night rows the night flag; a missing date or member is unconstrained |
| OnCallTable.Week | src/components/OnCallTable.tsx:40 | the seven consecutive days from the week's start |
| OnCallTable.Payload | src/components/OnCallTable.tsx:163-174 | the saved day keeps each slot's names and mode and takes its holiday flag from the holiday set |
| OnCallTable.WorthSavingMeans | src/components/OnCallTable.tsx:177-180 | a day is saved iff some slot has names or a holiday flag |
| OnCallTable.Wire | src/components/OnCallTable.tsx:170-185 | the posted `shifts` has exactly the keys morning, main and night, each in the current shape |
| OnCallTable.PlannedPosts | src/components/OnCallTable.tsx:161-189 | no more posts than days |
| OnCallTable.PostsAreDayStarts | src/components/OnCallTable.tsx:185 | every post is dated at the start of one of the given days |
| OnCallTable.PlannedPostsAscending | src/components/OnCallTable.tsx:161-189 | over strictly increasing days the posts are strictly increasing in date, so at most one per day |
| OnCallTable.WeekPostsAscending | src/components/OnCallTable.tsx:161-189 | the posts for a week go out at most one per day, in day order |
| OnCallTable.PostedIffWorthSaving | src/components/OnCallTable.tsx:176-188 | a day is posted iff it is in the week and, with holidays injected, has names or a holiday flag |
| OnCallTable.PostsCarryPayload | src/components/OnCallTable.tsx:170-185 | every post carries its day's staged slots with the injected holiday flags |
| OnCallTable.PostedHolidayFlags | src/components/OnCallTable.tsx:171-173 | each posted slot's `isHoliday` is membership of its `date-role` key |
| OnCallTable.NothingStagedNothingPosted | src/components/OnCallTable.tsx:176-180 | a week with nothing staged and no holiday keys posts nothing |
| OnCallTable.HolidayAloneIsPosted | src/components/OnCallTable.tsx:178-180 | a holiday key alone gets its day posted |
| OnCallTable.WeekConstraints | src/components/OnCallTable.tsx:67-71 | the constraint map holds exactly the days of the fetched records |
| OnCallTable.WeekEditor.LoadTeamMembers | src/components/OnCallTable.tsx:51-59 | the names of the listed members become the choices; nothing else changes |
| OnCallTable.WeekEditor.LoadConstraints | src/components/OnCallTable.tsx:61-76 | the loop builds the week's constraint map; nothing else changes |
| OnCallTable.WeekEditor.LoadSchedule | src/components/OnCallTable.tsx:78-107 | the loop stages the normalised week and its holiday set, every slot with a mode, and clears the changed flag |
| OnCallTable.WeekEditor.HandleUpdate | src/components/OnCallTable.tsx:124-147 | the schedule becomes the updated data and the week is marked changed |
| OnCallTable.WeekEditor.CycleMode | src/components/OnCallTable.tsx:149-155 | writes the next mode into the slot, which is then one of the three modes |
| OnCallTable.WeekEditor.ToggleMember | src/components/OnCallTable.tsx:510-518 | the cell's names become the toggled names, whatever the member's constraint flag |
| OnCallTable.WeekEditor.ToggleHoliday | src/components/OnCallTable.tsx:201-213 | exactly the key of that day and role flips, and the week is marked changed |
| OnCallTable.WeekEditor.SaveAll | src/components/OnCallTable.tsx:157-199 | the loop issues the planned posts; changes are marked saved only when the posts succeed, and `saving` ends false |
| OnCallTableReadOnly.Join | src/components/OnCallTableReadOnly.tsx:162 | `names.join(', ')` of no names is empty, and of a single name is that name |
| OnCallTableReadOnly.JoinAppend | src/components/OnCallTableReadOnly.tsx:162 | each further name is appended after `, ` |
| OnCallTableReadOnly.JoinTwo | src/components/OnCallTableReadOnly.tsx:162 | two names are joined with one `, ` |
| OnCallTableReadOnly.ShownMode | src/components/OnCallTableReadOnly.tsx:263 | an unknown mode is shown as phone and a known one as itself |
| OnCallTableReadOnly.CellShift | src/components/OnCallTableReadOnly.tsx:261 | a missing day or slot shows no names and phone |
| OnCallTableReadOnly.Cell | src/components/OnCallTableReadOnly.tsx:261-278 | `-` for no names, else the joined names; badges only outside the second row and only with names; the holiday badge iff the key is in the holiday set |
| OnCallTableReadOnly.MissingDayIsBlank | src/components/OnCallTableReadOnly.tsx:261-274 | a day with no record shows `-` and no badges |
| OnCallTableReadOnly.SecondRowHasNoBadges | src/components/OnCallTableReadOnly.tsx:278 | the second row never shows a mode or holiday badge |
| OnCallTableReadOnly.ScheduleView.FetchSchedule | src/components/OnCallTableReadOnly.tsx:51-80 | the loop stages the normalised week under the view's keys and its holiday set |
| OnCallTableReadOnly.ScheduleView.CellAt | src/components/OnCallTableReadOnly.tsx:259-264 | a cell is rendered from the staged state |
| OnCallTableReadOnly.HolidayBadgeAfterFetch | src/components/OnCallTableReadOnly.tsx:70-73 | after a fetch, a cell shows the holiday badge iff it has names, is not the second row, and a record of that day flags that slot |
| CurrentStatus.ModesConfig | src/components/CurrentStatus.tsx:13-17 | a mode has a display config iff it is phone, offices or kirya |
| CurrentStatus.ShiftKindAt | src/components/CurrentStatus.tsx:35 | hours 8 to 19 select the day shift and every other hour the night shift |
| CurrentStatus.QueryDay | src/components/CurrentStatus.tsx:34-39 | before 08:00 the previous day is queried, otherwise the current day |
| CurrentStatus.EarlyHoursAreLastNight | src/components/CurrentStatus.tsx:35-39 | hours 0 to 7 show the night shift of the previous day |
| CurrentStatus.EveningIsTonight | src/components/CurrentStatus.tsx:35-39 | hours 20 to 23 show tonight's shift on today's record |
| CurrentStatus.SlotNames | src/components/CurrentStatus.tsx:59-60 | `names \|\| []`: a slot's names array, or none |
| CurrentStatus.SlotMode | src/components/CurrentStatus.tsx:53 | `mode \|\| 'phone'`: an absent slot or empty mode becomes phone |
| CurrentStatus.Status | src/components/CurrentStatus.tsx:48-66 | null iff there is no record or the first has no `shifts`; otherwise the selected slot's names, the second slot's names, the raw mode and the resolved config |
| CurrentStatus.StatusModeFallback | src/components/CurrentStatus.tsx:53-61 | the stored mode is never empty, and an unknown mode is shown with phone's icon and colour |
| CurrentStatus.LegacySlotShowsNobody | src/components/CurrentStatus.tsx:59 | a legacy `{name}` slot shows nobody, since the widget reads `names` only |
| CurrentStatus.Headline | src/components/CurrentStatus.tsx:114 | no people shows "no assignment", otherwise the joined names |
| CurrentStatus.RoleLabel | src/components/CurrentStatus.tsx:58 | the night shift is labelled "לילה", the day shift "ראשי" |
| CurrentStatus.HeaderConfigAsWritten | src/components/CurrentStatus.tsx:85 | the as-written header config is undefined exactly for a mode other than phone, offices and kirya |
| CurrentStatus.IgnoreModeBreaksHeader | src/components/CurrentStatus.tsx:85 | a slot in ignore mode yields a status whose header config, as written, is undefined |
| CurrentStatus.HeaderConfig | src/components/CurrentStatus.tsx:54-85 | the corrected header config is the known mode's config, or phone's |
| CurrentStatus.HeaderMatchesStatus | src/components/CurrentStatus.tsx:54-85 | the corrected header always agrees with the status's icon and colour, and with the as-written lookup whenever that is defined |
| DateRange.DatesInRange | src/app/api/schedule/route.ts:20-25 | the stored dates with `start <= date <= end`, strictly ascending |
| DateRange.EmptyRange | src/app/api/schedule/route.ts:20-25 | a range whose end is before its start matches no date |
| DateRange.RangeMonotone | src/app/api/constraints/route.ts:18-23 | widening the range never loses a record |
| DateRange.IndexOf | src/app/api/schedule/route.ts:25 | finds the position of a date in the sorted result |
| ScheduleApi.DocsAt | src/app/api/schedule/route.ts:20-27 | the records at the given dates, in order |
| ScheduleApi.Query | src/app/api/schedule/route.ts:13-27 | a missing bound gives the 400 error; otherwise exactly the records in the inclusive range, ascending by date, with their shifts |
| ScheduleApi.Upserted | src/app/api/schedule/route.ts:45-54 | the record of the normalised date is created or has its shifts replaced; all other records are unchanged |
| ScheduleApi.UpsertKeepsNormalised | src/models/OnCallSchedule.ts:26 | writes keep every stored date a start of day, so there is at most one record per day |
| ScheduleApi.SameDaySameRecord | src/app/api/schedule/route.ts:45-48 | two posts for one calendar day hit the same record |
| ScheduleApi.UpsertIdempotent | src/app/api/schedule/route.ts:47-54 | posting the same payload twice equals posting it once |
| ScheduleApi.LastPostWins | src/app/api/schedule/route.ts:49-52 | a later post for a day replaces the earlier record wholesale |
| ScheduleApi.PostedRecordIsQueried | src/app/api/schedule/route.ts:20-54 | after a post, a query covering the day returns exactly one record for it, with the posted shifts |
| ScheduleApi.ScheduleStore.Get | src/app/api/schedule/route.ts:6-32 | GET answers the query over the current records |
| ScheduleApi.ScheduleStore.Post | src/app/api/schedule/route.ts:34-63 | the store becomes the upsert of the normalised date, stays normalised, and the saved record is returned |
| ConstraintsApi.DocsAt | src/app/api/constraints/route.ts:18-25 | the records at the given dates, in order |
| ConstraintsApi.Query | src/app/api/constraints/route.ts:13-25 | a missing bound gives the 400 error; otherwise exactly the records in the inclusive range, ascending by date |
| ConstraintsApi.Merged | src/app/api/constraints/route.ts:41-64 | an existing record gets the person set in its map (an empty one if it had none); a new record holds just that person; other dates are unchanged |
| ConstraintsApi.PostOverwritesEntry | src/app/api/constraints/route.ts:51-62 | after a post the person's entry is the posted flags wholesale, whatever it was |
| ConstraintsApi.PostKeepsOthers | src/app/api/constraints/route.ts:44-53 | every other person's entry on that date, and every other date, is unchanged |
| ConstraintsApi.NewDateHasOneEntry | src/app/api/constraints/route.ts:58-64 | a post for a new date creates a map with exactly one entry |
| ConstraintsApi.MergeKeepsNormalised | src/models/Constraints.ts:12 | writes keep one record per calendar day |
| ConstraintsApi.PostsForDifferentPeopleCommute | src/app/api/constraints/route.ts:44-53 | posts for two different people on one day give the same store in either order |
| ConstraintsApi.ApplyPosts | src/app/api/constraints/route.ts:41-64 | applying posts in order loses no stored date and keeps one record per calendar day |
| ConstraintsApi.LastPosted | src/app/api/constraints/route.ts:51 | a found post really is a post for that day and person |
| ConstraintsApi.ApplyPostsEntry | src/app/api/constraints/route.ts:44-64 | after a sequence of posts, each entry is its last posted flags, or what it held before |
| ConstraintsApi.LastPostedUnique | src/app/api/constraints/route.ts:51 | a post that no later post for the same day and person overrides is the one that holds |
| ConstraintsApi.ConstraintStore.Get | src/app/api/constraints/route.ts:6-30 | GET answers the query over the current records |
| ConstraintsApi.ConstraintStore.Post | src/app/api/constraints/route.ts:32-74 | find or create the day's record and set one person's entry; the store stays normalised |
| ConstraintsPage.Current | src/app/constraints/page.tsx:77-93 | a day with no staged entry reads as both flags off |
| ConstraintsPage.PersonWeek | src/app/constraints/page.tsx:59-65 | the staged days are exactly the days of the fetched records |
| ConstraintsPage.PersonWeekAt | src/app/constraints/page.tsx:62 | each day shows the selected person's entry of its record, or both off |
| ConstraintsPage.Toggled | src/app/constraints/page.tsx:75-83 | only the toggled flag of that day flips; the other flag and other days are kept |
| ConstraintsPage.FirstToggleSetsOneFlag | src/app/constraints/page.tsx:77-78 | toggling a day with no entry leaves exactly one flag set |
| ConstraintsPage.ToggleTwiceRestores | src/app/constraints/page.tsx:78 | toggling the same flag twice restores what the page shows |
| ConstraintsPage.SavePosts | src/app/constraints/page.tsx:91-108 | exactly seven posts, one per week day, all for the selected person, changed or not |
| ConstraintsPage.SavedWeekIsStored | src/app/constraints/page.tsx:91-108 | after the save the store holds, for each day of the week, the person's entry as shown; other people's entries are unchanged |
| ConstraintsPage.ConstraintsView.FetchTeamMembers | src/app/constraints/page.tsx:36-49 | only regular members are offered; with no selection the first one is selected |
| ConstraintsPage.ConstraintsView.FetchConstraints | src/app/constraints/page.tsx:51-73 | the loop stages the person's week and clears the changed flag |
| ConstraintsPage.ConstraintsView.HandleToggle | src/app/constraints/page.tsx:75-85 | the staged flags become the toggled ones and the page is marked changed |
| ConstraintsPage.ConstraintsView.SaveAll | src/app/constraints/page.tsx:87-118 | the loop issues the seven posts; changes are marked saved only when they succeed |
| TeamMembersApi.StringLeqTotal | src/app/api/team-members/route.ts:9 | name order is total |
| TeamMembersApi.StringLeqTrans | src/app/api/team-members/route.ts:9 | name order is transitive |
| TeamMembersApi.StringLeqAntisymmetric | src/app/api/team-members/route.ts:9 | name order is antisymmetric |
| TeamMembersApi.MemberLeqTotal | src/app/api/team-members/route.ts:9 | the (order, name) order is total |
| TeamMembersApi.MemberLeqTrans | src/app/api/team-members/route.ts:9 | the (order, name) order is transitive |
| TeamMembersApi.InsertMember | src/app/api/team-members/route.ts:9 | inserting keeps the same members plus the new one |
| TeamMembersApi.InsertMemberSorted | src/app/api/team-members/route.ts:9 | inserting into a sorted listing keeps it sorted |
| TeamMembersApi.SortMembers | src/app/api/team-members/route.ts:9 | sorting is a permutation |
| TeamMembersApi.SortMembersSorted | src/app/api/team-members/route.ts:9 | the sorted listing is ordered by order, then name |
| TeamMembersApi.ActiveMembers | src/app/api/team-members/route.ts:9 | exactly the active members, each as many times as stored |
| TeamMembersApi.ListActive | src/app/api/team-members/route.ts:9 | GET lists exactly the active members, as a permutation of them, sorted by order then name |
| TeamMembersApi.ApplyPatch | src/app/api/team-members/route.ts:26-30 | given fields replace the stored ones, undefined fields are kept, the id is kept |
| TeamMembersApi.UpdateWhere | src/app/api/team-members/route.ts:26-55 | only the member with that id changes |
| TeamMembersApi.IdIndex | src/app/api/team-members/route.ts:26 | finds the member with an id, or reports that none has it |
| TeamMembersApi.DeletedMemberIsUnlisted | src/app/api/team-members/route.ts:55 | after a soft delete the member is no longer listed, and every other listed member still is |
| TeamMembersApi.Roster.List | src/app/api/team-members/route.ts:5-15 | the listing is sorted and holds exactly the active records |
| TeamMembersApi.Roster.Save | src/app/api/team-members/route.ts:17-41 | with an id, that member is patched and returned (null if unknown), and an empty name fails; without one, a member with the defaults is appended, and a missing name fails |
| TeamMembersApi.Roster.Delete | src/app/api/team-members/route.ts:43-61 | no id gives the 400 error and changes nothing; otherwise that member is deactivated and success is returned, known id or not |
| TeamMembersApi.CreatedMemberIsListed | src/app/api/team-members/route.ts:34 | a newly created member (active by default) is listed |
| SeedTeam.SeedMembers | src/app/api/seed-team/route.ts:16-25 | eight members with the fixed names, all regular and active, with order 1 to 8 |
| SeedTeam.Seeded | src/app/api/seed-team/route.ts:10-27 | a roster holding any record is unchanged; an empty one becomes the eight |
| SeedTeam.SeedCount | src/app/api/seed-team/route.ts:13-32 | the count is the existing records' number, or the number inserted |
| SeedTeam.SeedIdempotent | src/app/api/seed-team/route.ts:10-14 | seeding twice equals seeding once, and the second call reports the roster's size |
| SeedTeam.DefaultTeamDistinct | src/app/api/seed-team/route.ts:16-25 | the eight names are distinct |
| SeedTeam.SeededTeamIsListedAndScored | src/app/api/seed-team/route.ts:16-27 | right after seeding, all eight are listed and all eight are scored |
| SeedTeam.Seed | src/app/api/seed-team/route.ts:6-37 | the roster becomes the seeded one, stays valid, and the reported count is returned |
| CleaningSchedule.JsRem | src/components/CleaningSchedule.tsx:11 | JavaScript's `%` agrees with the mathematical remainder for a non-negative dividend and is never positive for a negative one |
| CleaningSchedule.TeamNumber | src/components/CleaningSchedule.tsx:11 | for a week number that is not negative the team is 1, 2 or 3; a negative one gives -2, -1 or 3 |
| CleaningSchedule.TeamNumberByRemainder | src/components/CleaningSchedule.tsx:11 | a week divisible by 3 is team 3's, any other is team `week % 3`'s |
| CleaningSchedule.TeamNumberCycles | src/components/CleaningSchedule.tsx:11 | consecutive weeks cycle 1, 2, 3, 1 |
| CleaningSchedule.YearEndRepeatsTeam | src/components/CleaningSchedule.tsx:10-11 | weeks 52 and 1 both go to team 1, so the rota repeats a team across a 52-week year |
| CleaningSchedule.TeamName | src/components/CleaningSchedule.tsx:13-20 | 2 and 3 get their own labels; 1 and any other input get team 1's label |
| CleaningSchedule.TeamNamesDistinct | src/components/CleaningSchedule.tsx:13-20 | the three teams have distinct labels |
| Scores.Classify | src/app/api/scores/route.ts:45-86 | the points credited are always the weight of the category counted |
| Scores.HolidayIsWeekend | src/app/api/scores/route.ts:50-53 | a holiday slot scores 2, weekend, on any weekday and for either kind |
| Scores.WeekdayTable | src/app/api/scores/route.ts:55-86 | Friday scores 2 weekend; Saturday 2 weekend by day and 1.5 partial by night; Thursday 1.5 partial by night and 1 midweek by day; Sunday to Wednesday 1 midweek |
| Scores.CreditName | src/app/api/scores/route.ts:39-40 | crediting one listing never adds or removes a key |
| Scores.CreditNames | src/app/api/scores/route.ts:39-90 | crediting a slot's names never adds or removes a key |
| Scores.CreditShift | src/app/api/scores/route.ts:35-91 | processShift never adds or removes a key |
| Scores.CreditDoc | src/app/api/scores/route.ts:93-97 | one record credits only its day and night slots and keeps the keys |
| Scores.CreditDocs | src/app/api/scores/route.ts:31-98 | the whole walk keeps the keys |
| Scores.InitScores | src/app/api/scores/route.ts:24-29 | every regular member, and nobody else, starts at zero with a zero breakdown |
| Scores.AddTwice | src/app/api/scores/route.ts:88-89 | crediting two tallies in turn equals crediting their sum |
| Scores.CreditNamesAt | src/app/api/scores/route.ts:39-90 | crediting a slot adds to each regular member exactly that member's tally for the slot |
| Scores.CreditShiftAt | src/app/api/scores/route.ts:35-91 | processShift adds to each regular member exactly that member's slot tally |
| Scores.CreditDocAt | src/app/api/scores/route.ts:93-97 | a record adds to each regular member the tally of its day and night slots |
| Scores.CreditDocsAt | src/app/api/scores/route.ts:31-98 | the walk adds to each regular member the tally over all records |
| Scores.ScoreTableIsTally | src/app/api/scores/route.ts:24-98 | each regular member's score and breakdown equal the independent per-person tally |
| Scores.ScoreTable | src/app/api/scores/route.ts:24-98 | the fold over all records keeps exactly the regular members as keys |
| Scores.ScoreMatchesBreakdown | src/app/api/scores/route.ts:45-89 | every score is 2 x weekend + 1.5 x partial + 1 x midweek |
| Scores.NonCountingSlotEarnsNothing | src/app/api/scores/route.ts:36-43 | an absent slot, a slot whose `names` is missing or not an array, or a mode other than offices and kirya earns nothing |
| Scores.OtherSlotsNeverCount | src/app/api/scores/route.ts:93-97 | changing any slot other than day and night, `second` included, changes no score |
| Scores.OneShiftPerListing | src/app/api/scores/route.ts:39-40 | each listing of a person adds exactly one to one counter and that category's points; a name listed twice counts twice |
| Scores.Dedup | src/app/api/scores/route.ts:24-29 | each roster name appears once among the entries, and nobody else |
| Scores.DedupSnoc | src/app/api/scores/route.ts:24-29 | a further name keeps the earlier order and is added last, only if not already present, so keys stay in first-occurrence order |
| Scores.DedupOfDistinct | src/app/api/scores/route.ts:24-29 | a roster without repeated names gives the keys in roster order |
| Scores.Entries | src/app/api/scores/route.ts:101-102 | one entry per name, with that name's score and breakdown |
| Scores.EntryNames | src/app/api/scores/route.ts:102 | the names of the entries, in order |
| Scores.WithScoreAppend | src/app/api/scores/route.ts:103 | selecting the entries with one score distributes over concatenation |
| Scores.Insert | src/app/api/scores/route.ts:103 | insertion keeps every entry and adds the new one |
| Scores.InsertSorted | src/app/api/scores/route.ts:103 | insertion keeps the listing in non-increasing score |
| Scores.InsertStable | src/app/api/scores/route.ts:103 | among equal scores, insertion places the new entry after the existing ones |
| Scores.SortByScore | src/app/api/scores/route.ts:103 | sorting is a permutation of the entries and of their names |
| Scores.SortByScoreSorted | src/app/api/scores/route.ts:103 | `sort((a, b) => b.score - a.score)` yields non-increasing scores |
| Scores.SortByScoreStable | src/app/api/scores/route.ts:103 | entries with equal scores keep their input order |
| Scores.RankingSorted | src/app/api/scores/route.ts:101-103 | the ranking of any table covering the roster is sorted by score, highest first |
| Scores.Ranking | src/app/api/scores/route.ts:101-103 | each roster name appears in the ranking exactly once and nobody else does |
| Scores.RankingEntriesFromTable | src/app/api/scores/route.ts:101-102 | every ranked entry is a roster name with that name's score and breakdown from the table |
| Scores.RankingEntriesEarned | src/app/api/scores/route.ts:12-103 | every ranked entry carries the score and breakdown that member earned shift by shift |
| Scores.RankingIsFair | src/app/api/scores/route.ts:12-103 | the ranking is sorted descending and lists each regular member exactly once, with the score and breakdown of their tally |
| Scores.RankingKeepsRosterOrderOnTies | src/app/api/scores/route.ts:101-103 | members with equal scores appear in the order in which their names first occur in the roster |
| Scores.RankingTiesFollowListing | src/app/api/scores/route.ts:12-103 | when the active regular members have distinct names, members with equal scores appear in the listing order, by order then name |
| Scores.ProcessShift | src/app/api/scores/route.ts:35-91 | the imperative processShift, with its if-chain and `+=`, computes the fold step |
| Scores.ComputeScores | src/app/api/scores/route.ts:18-103 | the nested loops and the final sort compute the ranking of the score table |
| Scores.ScoredNames | src/app/api/scores/route.ts:12-13 | the scored names are exactly those of active regular members |
| Scores.Get | src/app/api/scores/route.ts:7-105 | GET /api/scores ranks the active regular members over all records |

## Left out

- Persistence: MongoDB and Mongoose are replaced by in-memory maps and sequences. Left out with them:
  - schema validation internals;
  - strict-mode stripping of keys the schema lacks (such as `day` and `second`) and the filling of schema defaults on write; the stores keep the posted `shifts` as given;
  - model recompilation (src/models/OnCallSchedule.ts:38-40);
  - `timestamps`.
- Database and network failures, and so the 500 error paths of every endpoint. A request body that does not parse, or has a member type or id value that Mongoose rejects, is also not modelled.
- Date arithmetic is abstract:
  - `startOfDay`, `startOfWeek`, `endOfWeek`, `addDays` and `subDays` are integer arithmetic on seconds and day numbers;
  - `getISOWeek` is a parameter;
  - time zones are not modelled;
  - the mismatch between the editor's UTC `toISOString()` date keys and the view's local `format(d, 'yyyy-MM-dd')` keys is not modelled; nor are the `...Z` day bounds of the status widget's query.
- Concurrency: the parallel `Promise.all` batches, their partial failure (some posts applied, others not), the read-modify-write race in the constraints POST, and polling with `setInterval`.
- Logging, alerts, response wrapping beyond an error datatype, styling, dropdown geometry, mobile detection, authentication, and the UI-only files (JusticeTable, team page, header, layout, login modal).
- The useEffect triggers: which handler runs when. The model has each handler as a method and does not model the React render cycle.
- Object key order in the scorer: `Object.entries` lists keys in insertion order, except integer-like keys, which JavaScript lists first. The model uses insertion order, that is, roster order without repeats; a member whose name is an integer-like string is ordered as if it were any other name.
- Scores.RankingTiesFollowListing: stated for rosters with distinct names; with a repeated name, ties follow the first occurrence of each name (RankingKeepsRosterOrderOnTies with DedupSnoc).
- Scores.RankingKeepsRosterOrderOnTies: the roster order of members with equal `(order, name)` is whatever the database returns; the model takes the order it is given.
- The comment at src/app/api/scores/route.ts:48 says holidays score 1.5 at night. The code and the model score 2 weekend for any holiday slot.
- CurrentStatus.SlotNames: a `names` value that is truthy but not an array (a string, say) is passed through by the widget; the model shows no names for it.
- CurrentStatus.Status: the hour and today's day number are parameters, and the fetched records' `shifts` are given as options (None for a record without `shifts`).
- TeamMembersApi.Roster.Save: Mongoose runs validators on update only for the fields given, and an undefined field is dropped from the update; the model keeps each field the patch leaves undefined. Any non-empty `_id` that names no record gives a null result; a malformed `_id` (a cast error and a 500) is not modelled.
- ConstraintsApi.ConstraintStore.Post: the posted flags are a full `{day, night}` pair; a partial or missing `constraints` body, which Mongoose would fill with defaults or reject, is not modelled.
- ScheduleApi.ScheduleStore.Post: an omitted `shifts` field is not modelled.

## Findings

| source | as written | input that shows it | evidently intended | confidence | as-written member | corrected member |
|---|---|---|---|---|---|---|
| src/components/CurrentStatus.tsx:85 | the header looks the raw mode up in `MODES_CONFIG` with no fallback, so a stored `ignore` mode (allowed by the schema) gives an undefined config and `activeModeConfig.bg` fails | the current day slot `{names: ["שלו"], mode: "ignore"}` at 10:00 | the header uses the same phone fallback as the icon and colour at line 54 | not executed | CurrentStatus.IgnoreModeBreaksHeader | CurrentStatus.HeaderConfig |
