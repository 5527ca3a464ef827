/**
 * The roster API (src/app/api/team-members/route.ts). GET lists the active members sorted
 * by `order`, then by `name`; POST updates a member when an `_id` is given and creates one
 * otherwise; DELETE never removes a record, it only clears `active`.
 */
module TeamMembersApi {
  import opened Wrappers
  import opened TeamMemberSchema

  // ---------------------------------------------------------------------------------------
  // The `{ order: 1, name: 1 }` sort key. Strings compare code point by code point, which is
  // the order of the stored UTF-8 bytes.

  predicate StringLeq(a: string, b: string) {
    if a == [] then true
    else if b == [] then false
    else if a[0] < b[0] then true
    else if a[0] > b[0] then false
    else StringLeq(a[1..], b[1..])
  }

  lemma {:induction false} StringLeqTotal(a: string, b: string)
    ensures StringLeq(a, b) || StringLeq(b, a)
    decreases |a|
  {
    if a != [] && b != [] && a[0] == b[0] {
      StringLeqTotal(a[1..], b[1..]);
    }
  }

  lemma {:induction false} StringLeqTrans(a: string, b: string, c: string)
    requires StringLeq(a, b) && StringLeq(b, c)
    ensures StringLeq(a, c)
    decreases |a|
  {
    if a != [] && b != [] && c != [] && a[0] == b[0] && b[0] == c[0] {
      StringLeqTrans(a[1..], b[1..], c[1..]);
    }
  }

  lemma {:induction false} StringLeqAntisymmetric(a: string, b: string)
    requires StringLeq(a, b) && StringLeq(b, a)
    ensures a == b
    decreases |a|
  {
    if a != [] && b != [] {
      StringLeqAntisymmetric(a[1..], b[1..]);
      assert a == [a[0]] + a[1..] && b == [b[0]] + b[1..];
    }
  }

  predicate MemberLeq(a: TeamMember, b: TeamMember) {
    a.order < b.order || (a.order == b.order && StringLeq(a.name, b.name))
  }

  lemma MemberLeqTotal(a: TeamMember, b: TeamMember)
    ensures MemberLeq(a, b) || MemberLeq(b, a)
  {
    StringLeqTotal(a.name, b.name);
  }

  lemma MemberLeqTrans(a: TeamMember, b: TeamMember, c: TeamMember)
    requires MemberLeq(a, b) && MemberLeq(b, c)
    ensures MemberLeq(a, c)
  {
    if a.order == b.order && b.order == c.order {
      StringLeqTrans(a.name, b.name, c.name);
    }
  }

  ghost predicate SortedMembers(s: seq<TeamMember>) {
    forall i, j :: 0 <= i < j < |s| ==> MemberLeq(s[i], s[j])
  }

  /** Place `m` after every member that sorts no later than it. */
  function InsertMember(sorted: seq<TeamMember>, m: TeamMember): (r: seq<TeamMember>)
    ensures multiset(r) == multiset(sorted) + multiset{m}
    decreases |sorted|
  {
    if sorted == [] then [m]
    else
      var init := sorted[..|sorted| - 1];
      var last := sorted[|sorted| - 1];
      assert sorted == init + [last];
      if MemberLeq(last, m) then sorted + [m] else InsertMember(init, m) + [last]
  }

  lemma {:induction false} InsertMemberSorted(sorted: seq<TeamMember>, m: TeamMember)
    requires SortedMembers(sorted)
    ensures SortedMembers(InsertMember(sorted, m))
    decreases |sorted|
  {
    if sorted != [] {
      var init := sorted[..|sorted| - 1];
      var last := sorted[|sorted| - 1];
      var r := InsertMember(sorted, m);
      if MemberLeq(last, m) {
        forall i, j | 0 <= i < j < |r|
          ensures MemberLeq(r[i], r[j])
        {
          if j == |r| - 1 && i < |sorted| - 1 {
            MemberLeqTrans(sorted[i], last, m);
          }
        }
      } else {
        MemberLeqTotal(last, m);
        InsertMemberSorted(init, m);
        var front := InsertMember(init, m);
        forall x | x in front
          ensures MemberLeq(x, last)
        {
          assert x in multiset(front);
          if x != m {
            assert x in multiset(init);
            var k :| 0 <= k < |init| && init[k] == x;
            assert sorted[k] == x;
          }
        }
        forall i, j | 0 <= i < j < |r|
          ensures MemberLeq(r[i], r[j])
        {
          if j == |r| - 1 {
            assert r[i] in front;
          }
        }
      }
    }
  }

  /** A stable insertion sort by (order, name). */
  function SortMembers(s: seq<TeamMember>): (r: seq<TeamMember>)
    ensures multiset(r) == multiset(s)
  {
    if s == [] then []
    else
      assert s == s[..|s| - 1] + [s[|s| - 1]];
      InsertMember(SortMembers(s[..|s| - 1]), s[|s| - 1])
  }

  lemma {:induction false} SortMembersSorted(s: seq<TeamMember>)
    ensures SortedMembers(SortMembers(s))
  {
    if s != [] {
      SortMembersSorted(s[..|s| - 1]);
      InsertMemberSorted(SortMembers(s[..|s| - 1]), s[|s| - 1]);
    }
  }

  /** `find({ active: true })`: the active records, in store order. */
  function ActiveMembers(ms: seq<TeamMember>): (r: seq<TeamMember>)
    ensures forall m :: m in r <==> m in ms && m.active
    ensures forall m :: multiset(r)[m] == if m.active then multiset(ms)[m] else 0
  {
    if ms == [] then []
    else
      var init := ms[..|ms| - 1];
      var last := ms[|ms| - 1];
      assert ms == init + [last];
      if last.active then ActiveMembers(init) + [last] else ActiveMembers(init)
  }

  /** GET: every active member exactly once, and nobody else, sorted by (order, name). */
  function ListActive(ms: seq<TeamMember>): (r: seq<TeamMember>)
    ensures SortedMembers(r)
    ensures multiset(r) == multiset(ActiveMembers(ms))
    ensures forall m :: m in r <==> m in ms && m.active
  {
    SortMembersSorted(ActiveMembers(ms));
    var r := SortMembers(ActiveMembers(ms));
    assert forall m :: m in r <==> m in multiset(r);
    r
  }

  // ---------------------------------------------------------------------------------------
  // Writes.

  /** The fields named by an update; `None` is a field the request leaves undefined. */
  datatype Patch = Patch(name: Option<string>, memberType: Option<MemberType>, order: Option<int>, active: Option<bool>)

  /** `findByIdAndUpdate(_id, { name, type, order, active })`: defined fields replace, undefined ones are kept. */
  function ApplyPatch(m: TeamMember, p: Patch): (r: TeamMember)
    ensures r.id == m.id
    ensures r.name == (if p.name.Some? then p.name.value else m.name)
    ensures r.memberType == (if p.memberType.Some? then p.memberType.value else m.memberType)
    ensures r.order == (if p.order.Some? then p.order.value else m.order)
    ensures r.active == (if p.active.Some? then p.active.value else m.active)
  {
    TeamMember(m.id, p.name.GetOr(m.name), p.memberType.GetOr(m.memberType), p.order.GetOr(m.order), p.active.GetOr(m.active))
  }

  /** An update passes the validators unless it sets `name` to the empty string. */
  predicate PatchValid(p: Patch) {
    p.name != Some("")
  }

  /** The record with `_id == id` patched; everything else kept in place. */
  function UpdateWhere(ms: seq<TeamMember>, id: nat, p: Patch): (r: seq<TeamMember>)
    ensures |r| == |ms|
    ensures forall i :: 0 <= i < |ms| ==> r[i] == if ms[i].id == id then ApplyPatch(ms[i], p) else ms[i]
  {
    seq(|ms|, i requires 0 <= i < |ms| => if ms[i].id == id then ApplyPatch(ms[i], p) else ms[i])
  }

  /** A soft delete is an update of `active` alone. */
  const Deactivate: Patch := Patch(None, None, None, Some(false))

  function IdIndex(ms: seq<TeamMember>, id: nat): (r: Option<nat>)
    ensures r.Some? ==> r.value < |ms| && ms[r.value].id == id
    ensures r.None? ==> forall i :: 0 <= i < |ms| ==> ms[i].id != id
  {
    if ms == [] then None
    else if ms[|ms| - 1].id == id then Some(|ms| - 1)
    else IdIndex(ms[..|ms| - 1], id)
  }

  const SaveFailed: ApiError := ApiError(500, "Failed to save team member")
  const MissingId: ApiError := ApiError(400, "Missing member ID")

  /** After a soft delete, the member is hidden from GET; every other listed member stays listed. */
  lemma DeletedMemberIsUnlisted(ms: seq<TeamMember>, id: nat)
    ensures forall m :: m in ListActive(UpdateWhere(ms, id, Deactivate)) ==> m.id != id
    ensures forall m :: m in ListActive(ms) && m.id != id ==> m in ListActive(UpdateWhere(ms, id, Deactivate))
  {
    var r := UpdateWhere(ms, id, Deactivate);
    forall m | m in ms && m.active && m.id != id
      ensures m in r
    {
      var i :| 0 <= i < |ms| && ms[i] == m;
      assert r[i] == m;
    }
  }

  /** The store: no two records share an id, and the id counter is past every one of them. */
  class Roster {
    var members: seq<TeamMember>
    var nextId: nat

    ghost predicate Valid()
      reads this
    {
      && (forall i :: 0 <= i < |members| ==> members[i].id < nextId)
      && (forall i, j :: 0 <= i < j < |members| ==> members[i].id != members[j].id)
    }

    constructor ()
      ensures Valid() && members == [] && nextId == 0
    {
      members := [];
      nextId := 0;
    }

    /** GET /api/team-members */
    function List(): (r: seq<TeamMember>)
      reads this
      ensures SortedMembers(r)
      ensures forall m :: m in r <==> m in members && m.active
    {
      ListActive(members)
    }

    /**
     * POST /api/team-members. With an id: the matching record is patched and returned
     * (nothing, if no record matches); an empty name fails validation. Without one: a new
     * record is appended with the schema's defaults; a missing or empty name fails.
     */
    method Save(id: Option<nat>, p: Patch) returns (r: Result<Option<TeamMember>, ApiError>)
      requires Valid()
      modifies this
      ensures Valid()
      ensures id.Some? && !PatchValid(p) ==> r == Failure(SaveFailed) && members == old(members)
      ensures id.Some? && PatchValid(p) ==> members == UpdateWhere(old(members), id.value, p)
      ensures id.Some? && PatchValid(p) ==>
                r == Success(match IdIndex(old(members), id.value)
                             case None => None
                             case Some(k) => Some(ApplyPatch(old(members)[k], p)))
      ensures id.None? && !NamePresent(p.name) ==> r == Failure(SaveFailed) && members == old(members)
      ensures id.None? && NamePresent(p.name) ==>
                var m := NewMember(old(nextId), p.name.value, p.memberType, p.order, p.active);
                members == old(members) + [m] && r == Success(Some(m))
      ensures id.Some? ==> nextId == old(nextId)
    {
      if id.Some? {
        if !PatchValid(p) {
          return Failure(SaveFailed);
        }
        var k := IdIndex(members, id.value);
        members := UpdateWhere(members, id.value, p);
        match k {
          case None => r := Success(None);
          case Some(k) => r := Success(Some(members[k]));
        }
      } else {
        if !NamePresent(p.name) {
          return Failure(SaveFailed);
        }
        var m := NewMember(nextId, p.name.value, p.memberType, p.order, p.active);
        members := members + [m];
        nextId := nextId + 1;
        r := Success(Some(m));
      }
    }

    /** DELETE /api/team-members?id=…: a missing id is a 400; otherwise the record is deactivated. */
    method Delete(id: Option<nat>) returns (r: Result<bool, ApiError>)
      requires Valid()
      modifies this
      ensures Valid() && nextId == old(nextId)
      ensures id.None? ==> r == Failure(MissingId) && members == old(members)
      ensures id.Some? ==> r == Success(true) && members == UpdateWhere(old(members), id.value, Deactivate)
    {
      if id.None? {
        return Failure(MissingId);
      }
      members := UpdateWhere(members, id.value, Deactivate);
      r := Success(true);
    }
  }

  /** A member created without `active` is listed by the next GET. */
  lemma CreatedMemberIsListed(ms: seq<TeamMember>, id: nat, name: string, t: Option<MemberType>, order: Option<int>)
    ensures NewMember(id, name, t, order, None) in ListActive(ms + [NewMember(id, name, t, order, None)])
  {
  }
}
