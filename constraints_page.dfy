/**
 * The constraints page (src/app/constraints/page.tsx): one regular member at a time marks,
 * for each day of the shown week, whether they cannot take the day shift or the night shift,
 * then saves the whole week. Its staged state maps day numbers to that person's flags.
 */
module ConstraintsPage {
  import opened Wrappers
  import opened Days
  import opened ConstraintsSchema
  import opened TeamMemberSchema
  import opened ConstraintsApi

  /** The staged flags: day number -> the selected person's entry. */
  type StagedFlags = map<int, Flags>

  /** `constraintsData.get(dateKey) || {day: false, night: false}` */
  function Current(data: StagedFlags, day: int): (f: Flags)
    ensures day !in data ==> f == NoFlags
    ensures day in data ==> f == data[day]
  {
    if day in data then data[day] else NoFlags
  }

  /** What fetchConstraints stages: per record, the person's entry, or both flags off. */
  function PersonWeek(docs: seq<ConstraintDoc>, person: string): (m: StagedFlags)
    ensures forall d :: d in m <==> exists i :: 0 <= i < |docs| && DayOf(docs[i].date) == d
    decreases |docs|
  {
    if docs == [] then map[]
    else
      var last := docs[|docs| - 1];
      assert forall i :: 0 <= i < |docs| - 1 ==> docs[..|docs| - 1][i] == docs[i];
      PersonWeek(docs[..|docs| - 1], person)[DayOf(last.date) := EntryOf(last.constraints, person)]
  }

  /** The day of a record that no later record shares shows that record's entry for the person. */
  lemma {:induction false} PersonWeekAt(docs: seq<ConstraintDoc>, person: string, k: nat)
    requires k < |docs|
    requires forall i :: k < i < |docs| ==> DayOf(docs[i].date) != DayOf(docs[k].date)
    ensures PersonWeek(docs, person)[DayOf(docs[k].date)] == EntryOf(docs[k].constraints, person)
    decreases |docs|
  {
    if k < |docs| - 1 {
      var init := docs[..|docs| - 1];
      assert init[k] == docs[k];
      PersonWeekAt(init, person, k);
    }
  }

  /** handleToggle: flag `s` of the day is negated, starting from both off when the day has no entry. */
  function Toggled(data: StagedFlags, day: int, s: FlagKind): (r: StagedFlags)
    ensures r.Keys == data.Keys + {day}
    ensures r[day].Get(s) == !Current(data, day).Get(s)
    ensures forall other :: other != s ==> r[day].Get(other) == Current(data, day).Get(other)
    ensures forall d :: d in data && d != day ==> r[d] == data[d]
  {
    data[day := Current(data, day).Flip(s)]
  }

  /** A first toggle on a day with no entry leaves exactly the toggled flag set. */
  lemma FirstToggleSetsOneFlag(data: StagedFlags, day: int, s: FlagKind)
    requires day !in data
    ensures Toggled(data, day, s)[day].Get(s)
    ensures forall other :: other != s ==> !Toggled(data, day, s)[day].Get(other)
  {
  }

  /** Toggling the same flag twice restores every day's entry as the page reads it. */
  lemma ToggleTwiceRestores(data: StagedFlags, day: int, s: FlagKind)
    ensures forall d :: Current(Toggled(Toggled(data, day, s), day, s), d) == Current(data, d)
    ensures day in data ==> Toggled(Toggled(data, day, s), day, s) == data
  {
    FlipTwice(Current(data, day), s);
  }

  /** What saveAll posts: one request per day of the week, all for the selected person. */
  function SavePosts(data: StagedFlags, person: string, start: int): (posts: seq<ConstraintPost>)
    ensures |posts| == 7
    ensures forall i :: 0 <= i < 7 ==> posts[i] == ConstraintPost(DayStart(start + i), person, Current(data, start + i))
  {
    seq(7, i requires 0 <= i < 7 => ConstraintPost(DayStart(start + i), person, Current(data, start + i)))
  }

  /**
   * Saving the week leaves, on each of its seven days, the person's stored entry equal to what the
   * page showed (both off for an untouched day), and every other person's entries as they were.
   */
  lemma SavedWeekIsStored(records: ConstraintsApi.Records, data: StagedFlags, person: string, start: int)
    ensures var after := ApplyPosts(records, SavePosts(data, person, start));
            forall d :: start <= d < start + 7 ==> EntryOf(RecordAt(after, DayStart(d)), person) == Current(data, d)
    ensures var after := ApplyPosts(records, SavePosts(data, person, start));
            forall t, p :: p != person ==> EntryOf(RecordAt(after, t), p) == EntryOf(RecordAt(records, t), p)
  {
    var posts := SavePosts(data, person, start);
    forall d | start <= d < start + 7
      ensures EntryOf(RecordAt(ApplyPosts(records, posts), DayStart(d)), person) == Current(data, d)
    {
      var i := d - start;
      assert posts[i] == ConstraintPost(DayStart(d), person, Current(data, d));
      assert StartOfDay(posts[i].date) == DayStart(d);
      forall j | i < j < 7
        ensures StartOfDay(posts[j].date) != StartOfDay(posts[i].date)
      {
        assert DayOf(StartOfDay(posts[j].date)) == start + j;
      }
      LastPostedUnique(posts, i);
      ApplyPostsEntry(records, posts, DayStart(d), person);
    }
    forall t, p | p != person
      ensures EntryOf(RecordAt(ApplyPosts(records, posts), t), p) == EntryOf(RecordAt(records, t), p)
    {
      ApplyPostsEntry(records, posts, t, p);
    }
  }

  /** The page's state. */
  class ConstraintsView {
    var currentStart: int
    var teamMembers: seq<string>
    var selectedPerson: string
    var constraintsData: StagedFlags
    var hasChanges: bool
    var saving: bool

    /** The initial state, on the week starting at day `start`, with nobody selected. */
    constructor (start: int)
      ensures currentStart == start && teamMembers == [] && selectedPerson == ""
      ensures constraintsData == map[] && !hasChanges && !saving
    {
      currentStart := start;
      teamMembers := [];
      selectedPerson := "";
      constraintsData := map[];
      hasChanges := false;
      saving := false;
    }

    /** fetchTeamMembers: only regular members are offered; with no selection, the first is selected. */
    method FetchTeamMembers(members: seq<TeamMember>)
      modifies this
      ensures teamMembers == RegularNames(members)
      ensures old(selectedPerson) == "" && |teamMembers| > 0 ==> selectedPerson == teamMembers[0]
      ensures !(old(selectedPerson) == "" && |teamMembers| > 0) ==> selectedPerson == old(selectedPerson)
      ensures constraintsData == old(constraintsData) && hasChanges == old(hasChanges)
      ensures currentStart == old(currentStart) && saving == old(saving)
    {
      var regularNames := RegularNames(members);
      teamMembers := regularNames;
      if |regularNames| > 0 && selectedPerson == "" {
        selectedPerson := regularNames[0];
      }
    }

    /** fetchConstraints, given the GET /api/constraints response for the week. */
    method FetchConstraints(docs: seq<ConstraintDoc>)
      modifies this
      ensures constraintsData == PersonWeek(docs, selectedPerson)
      ensures !hasChanges
      ensures teamMembers == old(teamMembers) && selectedPerson == old(selectedPerson)
      ensures currentStart == old(currentStart) && saving == old(saving)
    {
      var m: StagedFlags := map[];
      var i := 0;
      while i < |docs|
        invariant 0 <= i <= |docs|
        invariant m == PersonWeek(docs[..i], selectedPerson)
      {
        assert docs[..i + 1][..i] == docs[..i];
        var item := docs[i];
        var personConstraints := EntryOf(item.constraints, selectedPerson);
        m := m[DayOf(item.date) := personConstraints];
        i := i + 1;
      }
      assert docs[..|docs|] == docs;
      constraintsData := m;
      hasChanges := false;
    }

    /** handleToggle */
    method HandleToggle(day: int, s: FlagKind)
      modifies this
      ensures constraintsData == Toggled(old(constraintsData), day, s)
      ensures hasChanges
      ensures teamMembers == old(teamMembers) && selectedPerson == old(selectedPerson)
      ensures currentStart == old(currentStart) && saving == old(saving)
    {
      var current := Current(constraintsData, day);
      var updated := current.Flip(s);
      constraintsData := constraintsData[day := updated];
      hasChanges := true;
    }

    /**
     * saveAll: posts every day of the week, changed or not. `succeeded` stands for whether all
     * the posts went through; only then are the changes marked saved.
     */
    method SaveAll(succeeded: bool) returns (posts: seq<ConstraintPost>)
      modifies this
      ensures posts == SavePosts(constraintsData, selectedPerson, currentStart)
      ensures hasChanges == (old(hasChanges) && !succeeded)
      ensures !saving
      ensures constraintsData == old(constraintsData) && teamMembers == old(teamMembers)
      ensures selectedPerson == old(selectedPerson) && currentStart == old(currentStart)
    {
      saving := true;
      posts := [];
      var i := 0;
      while i < 7
        invariant 0 <= i <= 7
        invariant |posts| == i
        invariant forall j :: 0 <= j < i ==> posts[j] == SavePosts(constraintsData, selectedPerson, currentStart)[j]
        invariant unchanged(this`constraintsData, this`selectedPerson, this`currentStart, this`teamMembers, this`hasChanges)
      {
        var day := currentStart + i;
        var constraints := Current(constraintsData, day);
        posts := posts + [ConstraintPost(DayStart(day), selectedPerson, constraints)];
        i := i + 1;
      }
      if succeeded {
        hasChanges := false;
      }
      saving := false;
    }
  }
}
