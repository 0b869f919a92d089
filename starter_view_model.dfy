/** The starter PeopleViewModel: the same controller with the container
    look-ups, the cache test and the fetch continuations written inline in
    Initialize and RefreshPeople, and a filter that compares
    `StartDate.Year / 10` with 197 .. 201. */
module StarterViewModel {
  import opened Persons
  import opened Filtering
  import opened Presentation
  import Selection

  /** One stage of RefreshFilter: when the toggle is off, keep the persons
      whose `StartDate.Year / 10` differs from the bucket. Years are positive,
      so C#'s truncating division and Dafny's agree. */
  function ExcludeUnless(shown: bool, s: seq<Person>, bucket: int): seq<Person>
  {
    if shown then s else Where(s, (p: Person) => p.startDate.year / 10 != bucket)
  }

  /** The Where chain of RefreshFilter, 197 first: a selection from the
      snapshot that is the whole snapshot when every toggle is on. */
  function FilterByYear(s: seq<Person>, t: Toggles): (r: seq<Person>)
    ensures |r| <= |s|
    ensures forall x :: x in r ==> x in s
    ensures t == AllIncluded ==> r == s
  {
    var after70s := ExcludeUnless(t.include70s, s, 197);
    var after80s := ExcludeUnless(t.include80s, after70s, 198);
    var after90s := ExcludeUnless(t.include90s, after80s, 199);
    var after00s := ExcludeUnless(t.include00s, after90s, 200);
    ExcludeUnless(t.include10s, after00s, 201)
  }

  /** For the years a DateTime can hold, `Year / 10 == b` names the ten years
      10*b .. 10*b + 9. */
  lemma BucketOfYear(p: Person, bucket: int)
    ensures p.startDate.year / 10 == bucket <==> 10 * bucket <= p.startDate.year <= 10 * bucket + 9
  {
  }

  lemma ExcludeUnlessConcat(shown: bool, a: seq<Person>, b: seq<Person>, bucket: int)
    ensures ExcludeUnless(shown, a + b, bucket) ==
              ExcludeUnless(shown, a, bucket) + ExcludeUnless(shown, b, bucket)
  {
    if !shown {
      WhereConcat(a, b, (p: Person) => p.startDate.year / 10 != bucket);
    }
  }

  lemma FilterByYearConcat(a: seq<Person>, b: seq<Person>, t: Toggles)
    ensures FilterByYear(a + b, t) == FilterByYear(a, t) + FilterByYear(b, t)
  {
    ExcludeUnlessConcat(t.include70s, a, b, 197);
    var a1, b1 := ExcludeUnless(t.include70s, a, 197), ExcludeUnless(t.include70s, b, 197);
    ExcludeUnlessConcat(t.include80s, a1, b1, 198);
    var a2, b2 := ExcludeUnless(t.include80s, a1, 198), ExcludeUnless(t.include80s, b1, 198);
    ExcludeUnlessConcat(t.include90s, a2, b2, 199);
    var a3, b3 := ExcludeUnless(t.include90s, a2, 199), ExcludeUnless(t.include90s, b2, 199);
    ExcludeUnlessConcat(t.include00s, a3, b3, 200);
    var a4, b4 := ExcludeUnless(t.include00s, a3, 200), ExcludeUnless(t.include00s, b3, 200);
    ExcludeUnlessConcat(t.include10s, a4, b4, 201);
  }

  /** One stage applied to what the earlier stages left of a one-person
      list: either nothing (`gone`) or the person. */
  lemma ExcludeUnlessStage(shown: bool, p: Person, gone: bool, bucket: int)
    ensures ExcludeUnless(shown, if gone then [] else [p], bucket) ==
              if gone || (!shown && 10 * bucket <= p.startDate.year <= 10 * bucket + 9) then [] else [p]
  {
    BucketOfYear(p, bucket);
    assert [p][1..] == [];
  }

  /** The first three stages on a one-person list. */
  lemma EarlyStagesSingle(p: Person, t: Toggles)
    ensures ExcludeUnless(t.include90s, ExcludeUnless(t.include80s, ExcludeUnless(t.include70s, [p], 197), 198), 199) ==
              if Hidden(t.(include00s := true, include10s := true), p.startDate.year) then [] else [p]
  {
    var year := p.startDate.year;
    ExcludeUnlessStage(t.include70s, p, false, 197);
    var gone := !t.include70s && 1970 <= year <= 1979;
    ExcludeUnlessStage(t.include80s, p, gone, 198);
    gone := gone || (!t.include80s && 1980 <= year <= 1989);
    ExcludeUnlessStage(t.include90s, p, gone, 199);
  }

  lemma FilterByYearSingle(p: Person, t: Toggles)
    ensures FilterByYear([p], t) == Visible([p], t)
  {
    var year := p.startDate.year;
    EarlyStagesSingle(p, t);
    var gone := Hidden(t.(include00s := true, include10s := true), year);
    ExcludeUnlessStage(t.include00s, p, gone, 200);
    gone := gone || (!t.include00s && 2000 <= year <= 2009);
    ExcludeUnlessStage(t.include10s, p, gone, 201);
    assert [p][1..] == [];
  }

  /** The Where chain computes the visible people: it keeps, in order, every
      person whose decade is not switched off. */
  lemma {:induction false} FilterByYearIsVisible(s: seq<Person>, t: Toggles)
    ensures FilterByYear(s, t) == Visible(s, t)
  {
    if s != [] {
      var head, tail := [s[0]], s[1..];
      assert s == head + tail;
      calc {
        FilterByYear(s, t);
        { FilterByYearConcat(head, tail, t); }
        FilterByYear(head, t) + FilterByYear(tail, t);
        { FilterByYearSingle(s[0], t); FilterByYearIsVisible(tail, t); }
        Visible(head, t) + Visible(tail, t);
        { VisibleConcat(head, tail, t); }
        Visible(s, t);
      }
    }
  }


  class PeopleViewModel {
    const container: Container
    var dataReader: Option<PersonReader>
    var todaysWinners: Selection.Winners?
    var lastRefreshTime: int
    var include70s: bool
    var include80s: bool
    var include90s: bool
    var include00s: bool
    var include10s: bool
    var fullPeopleList: seq<Person>
    var people: seq<Person>
    var viewModelException: Option<Exception>
    /** The PropertyChanged notifications raised so far, oldest first. */
    var announced: seq<Property>
    /** How many times GetPeople has been called on the reader. */
    ghost var readerCalls: nat
    /** Fetches whose continuation has not run yet. */
    ghost var pendingFetches: nat

    function CurrentToggles(): Toggles
      reads this`include70s, this`include80s, this`include90s, this`include00s, this`include10s
    {
      Toggles(include70s, include80s, include90s, include00s, include10s)
    }

    /** The state RefreshPeople(now) leaves, relative to the state before it. */
    twostate predicate Refreshed(now: int)
      reads this
    {
      && lastRefreshTime == old(lastRefreshTime)
      && fullPeopleList == old(fullPeopleList)
      && viewModelException == old(viewModelException)
      && if CacheValid(old(lastRefreshTime), now) then
           && CurrentToggles() == AllIncluded
           && people == fullPeopleList
           && announced == old(announced) + FilterAnnouncements
           && readerCalls == old(readerCalls)
           && pendingFetches == old(pendingFetches)
         else
           && CurrentToggles() == old(CurrentToggles())
           && people == []
           && announced == old(announced) + [PeopleChanged]
           && readerCalls == old(readerCalls) + 1
           && pendingFetches == old(pendingFetches) + 1
    }

    constructor (container: Container)
      ensures this.container == container
      ensures dataReader == None && todaysWinners == null
      ensures lastRefreshTime == MinValueTicks
      ensures CurrentToggles() == Toggles(false, false, false, false, false)
      ensures fullPeopleList == [] && people == [] && viewModelException == None
      ensures announced == [] && readerCalls == 0 && pendingFetches == 0
    {
      this.container := container;
      dataReader := None;
      todaysWinners := null;
      lastRefreshTime := MinValueTicks;
      include70s, include80s, include90s, include00s, include10s := false, false, false, false, false;
      fullPeopleList := [];
      people := [];
      viewModelException := None;
      announced := [];
      readerCalls := 0;
      pendingFetches := 0;
    }

    /** Looks up IPersonReader, then TodaysWinners, then refreshes. A missing
        reader fails before anything changes; a missing Winners fails after
        the reader has been stored; neither failure fetches. */
    method Initialize(now: int) returns (outcome: InitOutcome)
      modifies this
      ensures container.personReader.None? ==>
                outcome == MissingField(ReaderMissing) && unchanged(this)
      ensures container.personReader.Some? && container.todaysWinners == null ==>
                && outcome == MissingField(WinnersMissing)
                && dataReader == container.personReader
                && todaysWinners == old(todaysWinners)
                && lastRefreshTime == old(lastRefreshTime)
                && CurrentToggles() == old(CurrentToggles())
                && fullPeopleList == old(fullPeopleList) && people == old(people)
                && viewModelException == old(viewModelException)
                && announced == old(announced)
                && readerCalls == old(readerCalls) && pendingFetches == old(pendingFetches)
      ensures container.personReader.Some? && container.todaysWinners != null ==>
                && outcome == Initialized
                && dataReader == container.personReader
                && todaysWinners == container.todaysWinners
                && Refreshed(now)
    {
      if container.personReader.None? {
        return MissingField(ReaderMissing);
      }
      dataReader := container.personReader;
      if container.todaysWinners == null {
        return MissingField(WinnersMissing);
      }
      todaysWinners := container.todaysWinners;
      RefreshPeople(now);
      outcome := Initialized;
    }

    /** Reuses the snapshot while the cache is valid (turning every toggle on),
        otherwise empties People and calls GetPeople, whose outcome arrives
        later through FetchSucceeded or FetchFaulted. The fetch needs the
        reader that Initialize stores. */
    method RefreshPeople(now: int)
      requires CacheValid(lastRefreshTime, now) || dataReader.Some?
      modifies this
      ensures Refreshed(now)
      ensures dataReader == old(dataReader) && todaysWinners == old(todaysWinners)
    {
      if now - lastRefreshTime < CacheLifetime {
        IncludeAll();
      } else {
        people := [];
        announced := announced + [PeopleChanged];
        readerCalls := readerCalls + 1;
        pendingFetches := pendingFetches + 1;
      }
    }

    /** The continuation that runs when GetPeople completes: store the
        snapshot, turn every toggle on and refilter (which shows all of it),
        and only then
        stamp LastRefreshTime. A recorded exception is left in place. */
    method FetchSucceeded(result: seq<Person>, now: int)
      requires pendingFetches > 0
      modifies this
      ensures fullPeopleList == result
      ensures CurrentToggles() == AllIncluded && people == result
      ensures lastRefreshTime == now
      ensures announced == old(announced) + FilterAnnouncements + [LastRefreshTimeChanged]
      ensures viewModelException == old(viewModelException)
      ensures dataReader == old(dataReader) && todaysWinners == old(todaysWinners)
      ensures readerCalls == old(readerCalls) && pendingFetches == old(pendingFetches) - 1
    {
      fullPeopleList := result;
      IncludeAll();
      lastRefreshTime := now;
      announced := announced + [LastRefreshTimeChanged];
      pendingFetches := pendingFetches - 1;
    }

    /** The continuation that runs when GetPeople faults:
        record the first inner exception and change nothing else, so People
        stays empty and the cache stays expired. */
    method FetchFaulted(innerExceptions: seq<Exception>)
      requires pendingFetches > 0 && |innerExceptions| > 0
      modifies this
      ensures viewModelException == Some(innerExceptions[0])
      ensures announced == old(announced) + [ViewModelExceptionChanged]
      ensures people == old(people) && fullPeopleList == old(fullPeopleList)
      ensures CurrentToggles() == old(CurrentToggles()) && lastRefreshTime == old(lastRefreshTime)
      ensures dataReader == old(dataReader) && todaysWinners == old(todaysWinners)
      ensures readerCalls == old(readerCalls) && pendingFetches == old(pendingFetches) - 1
    {
      viewModelException := Some(innerExceptions[0]);
      announced := announced + [ViewModelExceptionChanged];
      pendingFetches := pendingFetches - 1;
    }

    /** The block that RefreshPeople writes out twice, in its cached branch
        and in the fetch continuation: turn every toggle on and refilter,
        which then shows the whole snapshot. */
    method IncludeAll()
      modifies this`include70s, this`include80s, this`include90s, this`include00s,
               this`include10s, this`people, this`announced
      ensures CurrentToggles() == AllIncluded && people == fullPeopleList
      ensures announced == old(announced) + FilterAnnouncements
    {
      include70s, include80s, include90s, include00s, include10s := true, true, true, true, true;
      RefreshFilter();
      VisibleAllIncluded(fullPeopleList);
    }

    /** Recomputes People from the snapshot and the toggles. */
    method RefreshFilter()
      modifies this`people, this`announced
      ensures people == Visible(fullPeopleList, CurrentToggles())
      ensures announced == old(announced) + FilterAnnouncements
    {
      announced := announced + FilterAnnouncements;
      people := FilterByYear(fullPeopleList, CurrentToggles());
      FilterByYearIsVisible(fullPeopleList, CurrentToggles());
    }

    /** The Include70s setter; the other four setters below differ only in the
        toggle they set. */
    method SetInclude70s(value: bool)
      modifies this`include70s, this`people, this`announced
      ensures CurrentToggles() == old(CurrentToggles()).(include70s := value)
      ensures people == Visible(fullPeopleList, CurrentToggles())
      ensures announced == old(announced) + FilterAnnouncements
    {
      include70s := value;
      RefreshFilter();
    }

    method SetInclude80s(value: bool)
      modifies this`include80s, this`people, this`announced
      ensures CurrentToggles() == old(CurrentToggles()).(include80s := value)
      ensures people == Visible(fullPeopleList, CurrentToggles())
      ensures announced == old(announced) + FilterAnnouncements
    {
      include80s := value;
      RefreshFilter();
    }

    method SetInclude90s(value: bool)
      modifies this`include90s, this`people, this`announced
      ensures CurrentToggles() == old(CurrentToggles()).(include90s := value)
      ensures people == Visible(fullPeopleList, CurrentToggles())
      ensures announced == old(announced) + FilterAnnouncements
    {
      include90s := value;
      RefreshFilter();
    }

    method SetInclude00s(value: bool)
      modifies this`include00s, this`people, this`announced
      ensures CurrentToggles() == old(CurrentToggles()).(include00s := value)
      ensures people == Visible(fullPeopleList, CurrentToggles())
      ensures announced == old(announced) + FilterAnnouncements
    {
      include00s := value;
      RefreshFilter();
    }

    method SetInclude10s(value: bool)
      modifies this`include10s, this`people, this`announced
      ensures CurrentToggles() == old(CurrentToggles()).(include10s := value)
      ensures people == Visible(fullPeopleList, CurrentToggles())
      ensures announced == old(announced) + FilterAnnouncements
    {
      include10s := value;
      RefreshFilter();
    }

    /** The LastRefreshTime setter. */
    method SetLastRefreshTime(value: int)
      modifies this`lastRefreshTime, this`announced
      ensures lastRefreshTime == value
      ensures announced == old(announced) + [LastRefreshTimeChanged]
    {
      lastRefreshTime := value;
      announced := announced + [LastRefreshTimeChanged];
    }

    /** Adds the person unless it is null or a person with its Id is already
        selected; a list with unique Ids keeps them unique. A null person
        returns before TodaysWinners is read, so only a real person needs it. */
    method AddToWinners(person: Option<Person>)
      requires person.Some? ==> todaysWinners != null
      modifies if todaysWinners == null then {} else {todaysWinners.selectedPeople}
      ensures todaysWinners != null ==>
                todaysWinners.selectedPeople.items ==
                  Selection.AddIfAbsent(old(todaysWinners.selectedPeople.items), person)
      ensures todaysWinners != null ==>
                Selection.UniqueIds(old(todaysWinners.selectedPeople.items)) ==>
                  Selection.UniqueIds(todaysWinners.selectedPeople.items)
    {
      if person.None? {
        return;
      }
      Selection.AddIfAbsentProperties(todaysWinners.selectedPeople.items, person);
      var present := todaysWinners.selectedPeople.ContainsPerson(person.value);
      if !present {
        todaysWinners.selectedPeople.Add(person.value);
      }
    }

    /** Removes the person with the same Id, if the person is not null; a null
        person returns before TodaysWinners is read. */
    method RemoveFromWinners(person: Option<Person>)
      requires person.Some? ==> todaysWinners != null
      modifies if todaysWinners == null then {} else {todaysWinners.selectedPeople}
      ensures todaysWinners != null ==>
                todaysWinners.selectedPeople.items ==
                  Selection.RemoveIfPresent(old(todaysWinners.selectedPeople.items), person)
      ensures todaysWinners != null ==>
                Selection.UniqueIds(old(todaysWinners.selectedPeople.items)) ==>
                  Selection.UniqueIds(todaysWinners.selectedPeople.items)
    {
      if person.None? {
        return;
      }
      if Selection.UniqueIds(todaysWinners.selectedPeople.items) {
        Selection.RemoveKeepsIdsUnique(todaysWinners.selectedPeople.items, person.value);
      }
      var _ := todaysWinners.selectedPeople.RemovePerson(person.value);
    }

    method ClearWinners()
      requires todaysWinners != null
      modifies todaysWinners.selectedPeople
      ensures todaysWinners.selectedPeople.items == []
    {
      todaysWinners.selectedPeople.Clear();
    }
  }
}
