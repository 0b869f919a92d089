/** The Person record of PeopleViewer.Common: an immutable value whose equality
    and hash code are defined by its Id alone. Also the calendar values it and
    the Winners container are built from. */
module Persons {

  /** A nullable reference: `Person?` in the source. */
  datatype Option<+T> = None | Some(value: T)

  /** C#'s `int`. */
  type Int32 = x: int | -0x8000_0000 <= x < 0x8000_0000

  /** System.DateTime counts time in ticks of 100 ns. */
  const TicksPerSecond: int := 10_000_000
  const TicksPerDay: int := 86_400 * TicksPerSecond

  type Year = y: int | 1 <= y <= 9999 witness 1
  type Month = m: int | 1 <= m <= 12 witness 1
  type Day = d: int | 1 <= d <= 31 witness 1
  type TimeOfDay = t: int | 0 <= t < TicksPerDay

  /** A calendar instant: System.DateTime split into its date and its time of day. */
  datatype DateTime = DateTime(year: Year, month: Month, day: Day, timeOfDay: TimeOfDay)

  /** System.DateOnly: a calendar date without a time of day. */
  datatype DateOnly = DateOnly(year: Year, month: Month, day: Day)

  /** DateOnly.ToDateTime at TimeOnly.MinValue: the instant that starts the day. */
  function Midnight(date: DateOnly): DateTime
  {
    DateTime(date.year, date.month, date.day, 0)
  }

  /** DateOnly.FromDateTime: keeps the calendar date and drops the time of day,
      so turning the date back into an instant gives the start of that day. */
  function DateOf(d: DateTime): (r: DateOnly)
    ensures Midnight(r) == d.(timeOfDay := 0)
  {
    DateOnly(d.year, d.month, d.day)
  }

  /** Two instants have the same DateOf exactly when they fall on the same
      calendar day, whatever their times of day. */
  lemma DateOfIgnoresTimeOfDay(d1: DateTime, d2: DateTime)
    ensures DateOf(d1) == DateOf(d2) <==>
              d1.year == d2.year && d1.month == d2.month && d1.day == d2.day
    ensures DateOf(d1) == DateOf(d2) <==> d1.(timeOfDay := 0) == d2.(timeOfDay := 0)
  {
  }

  datatype Person = Person(id: Int32, givenName: string, familyName: string,
                           startDate: DateTime, rating: Int32, formatString: string)

  /** Person.Equals(Person? other): `this.Id == other?.Id`; a null other gives
      a null right-hand side, which never equals an int. */
  predicate Equals(p: Person, other: Option<Person>): (b: bool)
    ensures b ==> other.Some?
    ensures other == Some(p) ==> b
  {
    other.Some? && p.id == other.value.id
  }

  /** Person.GetHashCode: the Id itself, so exactly the persons Equal to p
      share its hash code. */
  function HashCode(p: Person): (h: Int32)
    ensures forall q: Person :: Equals(p, Some(q)) <==> q.id == h
  {
    p.id
  }

  /** Equals looks at the Id only: two persons that differ in every other field
      are equal when their Ids agree, and null is never equal to a person. */
  lemma EqualsIsIdentity(p: Person, q: Person)
    ensures Equals(p, Some(q)) <==> p.id == q.id
    ensures Equals(p, Some(q)) <==> Equals(p, Some(q.(givenName := p.givenName, familyName := p.familyName,
                                                     startDate := p.startDate, rating := p.rating,
                                                     formatString := p.formatString)))
    ensures !Equals(p, None)
  {
  }

  /** Equals is an equivalence relation on non-null persons. */
  lemma EqualsIsEquivalence(p: Person, q: Person, r: Person)
    ensures Equals(p, Some(p))
    ensures Equals(p, Some(q)) <==> Equals(q, Some(p))
    ensures Equals(p, Some(q)) && Equals(q, Some(r)) ==> Equals(p, Some(r))
  {
  }

  /** Equal persons have equal hash codes, and equal hash codes mean equal persons. */
  lemma HashCodeAgreesWithEquals(p: Person, q: Person)
    ensures Equals(p, Some(q)) <==> HashCode(p) == HashCode(q)
  {
  }

  /** Person.ToString. With an empty FormatString it is the given name, a space
      and the family name; otherwise it is `string.Format(FormatString,
      GivenName, FamilyName)`, which is the `format` parameter here. */
  function ToString(p: Person, format: (string, string, string) -> string): (r: string)
    ensures p.formatString == "" ==>
              |r| == |p.givenName| + 1 + |p.familyName| &&
              r[..|p.givenName|] == p.givenName &&
              r[|p.givenName|] == ' ' &&
              r[|p.givenName| + 1..] == p.familyName
    ensures p.formatString != "" ==> r == format(p.formatString, p.givenName, p.familyName)
  {
    if p.formatString == "" then p.givenName + " " + p.familyName
    else format(p.formatString, p.givenName, p.familyName)
  }
}
