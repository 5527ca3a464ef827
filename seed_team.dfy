/**
 * The seed endpoint (src/app/api/seed-team/route.ts): an empty roster is filled with the
 * fixed team of eight regular members; a roster holding any record is left alone.
 */
module SeedTeam {
  import opened TeamMemberSchema
  import opened TeamMembersApi

  /** The default team, in seeding order. */
  const DefaultTeam: seq<string> := ["זמר", "שלו", "שיר", "רוני", "נויה", "תובל", "רוי", "כפיר"]

  /** The eight records inserted, ids allocated from `firstId`: regular, active, ordered 1 to 8. */
  function SeedMembers(firstId: nat): (r: seq<TeamMember>)
    ensures |r| == |DefaultTeam| == 8
    ensures forall i :: 0 <= i < 8 ==> r[i] == TeamMember(firstId + i, DefaultTeam[i], Regular, i + 1, true)
  {
    seq(8, i requires 0 <= i < 8 => TeamMember(firstId + i, DefaultTeam[i], Regular, i + 1, true))
  }

  /** The roster after seeding: unchanged unless it was empty. */
  function Seeded(members: seq<TeamMember>, firstId: nat): (r: seq<TeamMember>)
    ensures |members| > 0 ==> r == members
    ensures members == [] ==> r == SeedMembers(firstId)
  {
    if |members| > 0 then members else SeedMembers(firstId)
  }

  /** The count the endpoint reports: the records already there, or the number inserted. */
  function SeedCount(members: seq<TeamMember>): (n: nat)
    ensures |members| > 0 ==> n == |members|
    ensures members == [] ==> n == |SeedMembers(0)|
  {
    if |members| > 0 then |members| else |DefaultTeam|
  }

  /** Seeding twice is seeding once: the second call changes nothing and reports the roster's size. */
  lemma SeedIdempotent(members: seq<TeamMember>, firstId: nat, laterId: nat)
    ensures Seeded(Seeded(members, firstId), laterId) == Seeded(members, firstId)
    ensures SeedCount(Seeded(members, firstId)) == |Seeded(members, firstId)|
  {
  }

  /** The default names are pairwise distinct. */
  lemma DefaultTeamDistinct()
    ensures forall i, j :: 0 <= i < j < |DefaultTeam| ==> DefaultTeam[i] != DefaultTeam[j]
  {
  }

  /** Right after seeding, the listing shows all eight and all eight are scored. */
  lemma SeededTeamIsListedAndScored(firstId: nat)
    ensures forall i :: 0 <= i < 8 ==> SeedMembers(firstId)[i] in ListActive(SeedMembers(firstId))
    ensures forall n :: n in DefaultTeam ==> n in RegularNames(ListActive(SeedMembers(firstId)))
  {
    var ms := SeedMembers(firstId);
    forall n | n in DefaultTeam
      ensures n in RegularNames(ListActive(ms))
    {
      var i :| 0 <= i < 8 && DefaultTeam[i] == n;
      assert ms[i] in ms;
      assert ms[i] in ListActive(ms);
    }
  }

  /** POST /api/seed-team */
  method Seed(roster: Roster) returns (count: nat)
    requires roster.Valid()
    modifies roster
    ensures roster.Valid()
    ensures roster.members == Seeded(old(roster.members), old(roster.nextId))
    ensures count == SeedCount(old(roster.members))
    ensures old(roster.members) != [] ==> roster.nextId == old(roster.nextId)
  {
    if |roster.members| > 0 {
      return |roster.members|;
    }
    var defaultTeamMembers := SeedMembers(roster.nextId);
    roster.members := defaultTeamMembers;
    roster.nextId := roster.nextId + |defaultTeamMembers|;
    count := |defaultTeamMembers|;
  }
}
