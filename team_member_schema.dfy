/**
 * The TeamMember schema (src/models/TeamMember.ts). A member is `regular` (scored and
 * offered on the constraints page) or `mliluim` (a reserve, only offered for assignment).
 */
module TeamMemberSchema {
  import opened Wrappers

  datatype MemberType = Regular | Mliluim

  const DefaultType: MemberType := Regular
  const DefaultOrder: int := 0
  const DefaultActive: bool := true

  /** A stored member; `id` stands for the document's `_id`. */
  datatype TeamMember = TeamMember(id: nat, name: string, memberType: MemberType, order: int, active: bool)

  /** The `required` validator on `name`: the field must be present and non-empty. */
  predicate NamePresent(name: Option<string>) {
    name.Some? && name.value != ""
  }

  /** A created member: fields left undefined take the schema defaults. */
  function NewMember(id: nat, name: string, memberType: Option<MemberType>, order: Option<int>, active: Option<bool>): (m: TeamMember)
    ensures m.id == id && m.name == name
    ensures m.memberType == (if memberType.Some? then memberType.value else Regular)
    ensures m.order == (if order.Some? then order.value else 0)
    ensures m.active == (if active.Some? then active.value else true)
  {
    TeamMember(id, name, memberType.GetOr(DefaultType), order.GetOr(DefaultOrder), active.GetOr(DefaultActive))
  }

  /** Names, in order. */
  function Names(ms: seq<TeamMember>): (r: seq<string>)
    ensures |r| == |ms|
    ensures forall i :: 0 <= i < |ms| ==> r[i] == ms[i].name
  {
    if ms == [] then [] else Names(ms[..|ms| - 1]) + [ms[|ms| - 1].name]
  }

  /** The names of the regular members, in order: `filter(type === 'regular').map(name)`. */
  function RegularNames(ms: seq<TeamMember>): (r: seq<string>)
    ensures forall n :: n in r <==> exists m :: m in ms && m.memberType == Regular && m.name == n
    ensures |r| <= |ms|
  {
    if ms == [] then []
    else
      var init := RegularNames(ms[..|ms| - 1]);
      var last := ms[|ms| - 1];
      assert forall m :: m in ms <==> m in ms[..|ms| - 1] || m == last;
      if last.memberType == Regular then init + [last.name] else init
  }

  /** One member contributes its name iff it is regular. */
  lemma RegularNamesSingleton(m: TeamMember)
    ensures RegularNames([m]) == if m.memberType == Regular then [m.name] else []
  {
    assert [m][..0] == [];
  }

  /** The filter distributes over concatenation, so the regular names keep the members' order. */
  lemma {:induction false} RegularNamesConcat(a: seq<TeamMember>, b: seq<TeamMember>)
    ensures RegularNames(a + b) == RegularNames(a) + RegularNames(b)
    decreases |b|
  {
    if b == [] {
      assert a + b == a;
    } else {
      var init := b[..|b| - 1];
      var last := b[|b| - 1];
      assert (a + b)[..|a + b| - 1] == a + init;
      assert (a + b)[|a + b| - 1] == last;
      RegularNamesConcat(a, init);
      if last.memberType == Regular {
        assert RegularNames(a + b) == RegularNames(a) + RegularNames(init) + [last.name];
      }
    }
  }

  /** Members none of whom is regular offer no names. */
  lemma {:induction false} NoRegularNoNames(ms: seq<TeamMember>)
    requires forall j :: 0 <= j < |ms| ==> ms[j].memberType != Regular
    ensures RegularNames(ms) == []
    decreases |ms|
  {
    if ms != [] {
      NoRegularNoNames(ms[..|ms| - 1]);
    }
  }

  /** The first name offered is the name of the first regular member. */
  lemma FirstRegularName(ms: seq<TeamMember>, i: nat)
    requires i < |ms| && ms[i].memberType == Regular
    requires forall j :: 0 <= j < i ==> ms[j].memberType != Regular
    ensures RegularNames(ms) != [] && RegularNames(ms)[0] == ms[i].name
  {
    assert ms == ms[..i] + ([ms[i]] + ms[i + 1..]);
    RegularNamesConcat(ms[..i], [ms[i]] + ms[i + 1..]);
    RegularNamesConcat([ms[i]], ms[i + 1..]);
    RegularNamesSingleton(ms[i]);
    NoRegularNoNames(ms[..i]);
  }
}
