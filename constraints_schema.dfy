/**
 * The Constraints schema (src/models/Constraints.ts): one record per calendar day holding,
 * per person name, whether that person is unavailable for day duty and for night duty.
 */
module ConstraintsSchema {
  import opened Wrappers
  import opened Days

  /** The two flags of an entry, as the constraints page names them. */
  datatype FlagKind = DayFlag | NightFlag

  datatype Flags = Flags(day: bool, night: bool) {
    function Get(k: FlagKind): bool {
      match k
      case DayFlag => day
      case NightFlag => night
    }

    /** The entry with flag `k` negated. */
    function Flip(k: FlagKind): (f: Flags)
      ensures f.Get(k) == !Get(k)
      ensures forall other :: other != k ==> f.Get(other) == Get(other)
    {
      match k
      case DayFlag => Flags(!day, night)
      case NightFlag => Flags(day, !night)
    }
  }

  /** Both flags default to false: no constraint. */
  const NoFlags: Flags := Flags(false, false)

  /** person name -> flags */
  type PersonFlags = map<string, Flags>

  /** The map defaults to empty. */
  const DefaultConstraints: PersonFlags := map[]

  /** A stored record; `constraints` is None when the record carries no map. */
  datatype ConstraintDoc = ConstraintDoc(date: Instant, constraints: Option<PersonFlags>)

  /** One person's entry in a record's map, `{day: false, night: false}` when absent. */
  function EntryOf(constraints: Option<PersonFlags>, person: string): (f: Flags)
    ensures constraints.None? || person !in constraints.value ==> f == NoFlags
    ensures constraints.Some? && person in constraints.value ==> f == constraints.value[person]
  {
    if constraints.Some? && person in constraints.value then constraints.value[person] else NoFlags
  }

  /** Flipping the same flag twice restores the entry. */
  lemma FlipTwice(f: Flags, k: FlagKind)
    ensures f.Flip(k).Flip(k) == f
  {
  }
}
