/**
 * The cleaning rota widget (src/components/CleaningSchedule.tsx): three teams take turns by
 * week number.
 */
module CleaningSchedule {

  /** JavaScript's `%`: the remainder takes the sign of the dividend. */
  function JsRem(a: int, b: int): (r: int)
    requires b > 0
    ensures a >= 0 ==> r == a % b
    ensures a < 0 ==> -b < r <= 0
  {
    if a >= 0 then a % b else -((-a) % b)
  }

  /** `(week % 3) || 3`: a zero remainder is falsy and becomes 3. */
  function TeamNumber(week: int): (n: int)
    ensures week >= 0 ==> 1 <= n <= 3
    ensures week < 0 ==> -2 <= n <= -1 || n == 3
  {
    var r := JsRem(week, 3);
    if r == 0 then 3 else r
  }

  /** A week divisible by 3 is team 3's; any other week is team `week % 3`'s. */
  lemma TeamNumberByRemainder(week: int)
    requires week >= 0
    ensures week % 3 == 0 ==> TeamNumber(week) == 3
    ensures week % 3 != 0 ==> TeamNumber(week) == week % 3
  {
  }

  /** Consecutive weeks hand over in the cycle 1, 2, 3, 1, ... */
  lemma TeamNumberCycles(week: int)
    requires week >= 0
    ensures TeamNumber(week + 1) == TeamNumber(week) % 3 + 1
  {
  }

  /** Across a 52-week year the rota does not cycle: week 52 and the next week 1 are both team 1's. */
  lemma YearEndRepeatsTeam()
    ensures TeamNumber(52) == TeamNumber(1) == 1
  {
  }

  /** getTeamName */
  function TeamName(num: int): (s: string)
    ensures num == 2 ==> s == "צוות 2"
    ensures num == 3 ==> s == "צוות 3"
    ensures num != 2 && num != 3 ==> s == "צוות 1"
  {
    match num
    case 1 => "צוות 1"
    case 2 => "צוות 2"
    case 3 => "צוות 3"
    case _ => "צוות 1"
  }

  /** The three teams have three distinct labels. */
  lemma TeamNamesDistinct()
    ensures TeamName(1) != TeamName(2) && TeamName(2) != TeamName(3) && TeamName(1) != TeamName(3)
  {
  }
}
