/** What both copies of PeopleViewModel share: the cache rule, the collaborators
    the dependency container may supply, the startup error, the exception
    value a failed fetch leaves behind, and the names of the properties whose
    changes are announced. */
module Presentation {
  import opened Persons
  import Selection

  /** DateTime.MinValue in ticks: the LastRefreshTime of a new view model. */
  const MinValueTicks: int := 0

  /** TimeSpan.FromSeconds(10) in ticks. */
  const CacheLifetime: int := 10 * TicksPerSecond

  /** `DateTime.Now - LastRefreshTime < TimeSpan.FromSeconds(10)`, on ticks. */
  predicate CacheValid(lastRefreshTime: int, now: int)
  {
    now - lastRefreshTime < CacheLifetime
  }

  /** The cache is valid for less than ten seconds after a refresh, is never
      valid for a view model that has not refreshed (any clock reading is more
      than ten seconds past DateTime.MinValue), and once expired stays expired
      until LastRefreshTime moves. */
  lemma CacheRule(lastRefreshTime: int, now: int, later: int)
    ensures CacheValid(lastRefreshTime, now) <==> now < lastRefreshTime + 100_000_000
    ensures now >= CacheLifetime ==> !CacheValid(MinValueTicks, now)
    ensures !CacheValid(lastRefreshTime, now) && now <= later ==> !CacheValid(lastRefreshTime, later)
  {
  }

  /** The IPersonReader implementation the container binds; only its identity
      matters here, what it reads is outside the model. */
  datatype PersonReader = PersonReader(name: string)

  /** An exception value, such as the first inner exception of a faulted fetch. */
  datatype Exception = Exception(message: string)

  /** The dependency container: the IPersonReader binding and the Winners
      bound under the name "TodaysWinners", each possibly missing (null). */
  datatype Container = Container(personReader: Option<PersonReader>,
                                 todaysWinners: Selection.Winners?)

  /** What a container look-up gives: the bound value, or the message of the
      MissingFieldException it throws. */
  datatype Lookup<T> = Found(value: T) | Missing(message: string)

  /** Initialize either returns or throws MissingFieldException. */
  datatype InitOutcome = Initialized | MissingField(message: string)

  const ReaderMissing := "IPersonReader is not available from the DI Container"
  const WinnersMissing := "TodaysWinners is not available from the DI Container"

  /** The names carried by PropertyChanged. The TodaysWinners setter would
      raise one more, but the controller writes its backing field directly,
      so that name is never announced. */
  datatype Property =
    | LastRefreshTimeChanged
    | Include70sChanged | Include80sChanged | Include90sChanged
    | Include00sChanged | Include10sChanged
    | PeopleChanged
    | ViewModelExceptionChanged

  /** What RefreshFilter announces: the five toggles, then People. */
  const FilterAnnouncements: seq<Property> :=
    [Include70sChanged, Include80sChanged, Include90sChanged,
     Include00sChanged, Include10sChanged, PeopleChanged]
}
