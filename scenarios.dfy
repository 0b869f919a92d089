/** The view models driven the way PeopleViewModelTests drives them, with the
    test data of TestFakes: what a caller can conclude from the contracts
    alone. Also: the two copies of the filter agree. */
module Scenarios {
  import opened Persons
  import opened Filtering
  import opened Presentation
  import Selection
  import Completed = CompletedViewModel
  import Starter = StarterViewModel

  const Test00sPerson := Person(1, "John", "Smith", DateTime(2000, 10, 1, 0), 7, "")
  const Test70sPerson := Person(2, "Mary", "Thomas", DateTime(1971, 7, 23, 0), 9, "")
  const NewPerson := Person(100, "Rogers", "Peter", DateTime(2013, 1, 1, 0), 5, "")
  const TestData := [Test00sPerson, Test70sPerson]
  const OneHour := 3600 * TicksPerSecond

  /** The refactored filter (on Decade) and the starter filter (on Year / 10)
      compute the same People from every list and every toggle setting. */
  lemma CopiesFilterAlike(s: seq<Person>, t: Toggles)
    ensures Completed.FilterByDecade(s, t) == Starter.FilterByYear(s, t)
  {
    Completed.FilterByDecadeIsVisible(s, t);
    Starter.FilterByYearIsVisible(s, t);
  }

  /** The test data filtered: all toggles on shows both persons in order;
      Include70s off hides the 1971 person; Include00s off hides the 2000 one. */
  lemma TestDataFiltered()
    ensures Visible(TestData, AllIncluded) == TestData
    ensures Visible(TestData, AllIncluded.(include70s := false)) == [Test00sPerson]
    ensures Visible(TestData, AllIncluded.(include00s := false)) == [Test70sPerson]
  {
    VisibleAllIncluded(TestData);
    var no70s, no00s := AllIncluded.(include70s := false), AllIncluded.(include00s := false);
    assert TestData == [Test00sPerson] + [Test70sPerson];
    VisibleConcat([Test00sPerson], [Test70sPerson], no70s);
    VisibleConcat([Test00sPerson], [Test70sPerson], no00s);
    assert [Test00sPerson][1..] == [] && [Test70sPerson][1..] == [];
    assert Visible([Test00sPerson], no70s) == [Test00sPerson];
    assert Visible([Test70sPerson], no70s) == [];
    assert Visible([Test00sPerson], no00s) == [];
    assert Visible([Test70sPerson], no00s) == [Test70sPerson];
  }

  /** A new view model whose container has both bindings, for the reader
      returning TestData. */
  method StandardViewModel(today: DateTime) returns (vm: Starter.PeopleViewModel)
    ensures fresh(vm) && vm.container.personReader.Some? && vm.container.todaysWinners != null
    ensures vm.lastRefreshTime == MinValueTicks && vm.readerCalls == 0 && vm.pendingFetches == 0
    ensures vm.dataReader.None? && vm.todaysWinners == null && vm.viewModelException.None?
    ensures fresh(vm.container.todaysWinners) && fresh(vm.container.todaysWinners.selectedPeople)
    ensures vm.container.todaysWinners.selectedPeople.items == []
  {
    var winners := new Selection.Winners(today);
    vm := new Starter.PeopleViewModel(Container(Some(PersonReader("FakeReader")), winners));
  }

  /** The standard view model after Initialize: the reader has been called
      once and its fetch is pending. */
  method InitializedViewModel(today: DateTime, start: int) returns (vm: Starter.PeopleViewModel)
    requires start >= CacheLifetime
    ensures fresh(vm) && fresh(vm.todaysWinners) && fresh(vm.todaysWinners.selectedPeople)
    ensures vm.dataReader.Some? && vm.todaysWinners != null
    ensures vm.todaysWinners.selectedPeople.items == []
    ensures vm.lastRefreshTime == MinValueTicks && vm.people == [] && vm.viewModelException.None?
    ensures vm.readerCalls == 1 && vm.pendingFetches == 1
  {
    vm := StandardViewModel(today);
    var outcome := vm.Initialize(start);
  }

  /** The standard view model after Initialize and a fetch of TestData that
      completed at `start + 1`. */
  method FetchedViewModel(today: DateTime, start: int) returns (vm: Starter.PeopleViewModel)
    requires start >= CacheLifetime
    ensures fresh(vm) && vm.dataReader.Some?
    ensures vm.fullPeopleList == TestData && vm.people == TestData && vm.CurrentToggles() == AllIncluded
    ensures vm.lastRefreshTime == start + 1 && vm.viewModelException.None?
    ensures vm.readerCalls == 1 && vm.pendingFetches == 0
  {
    vm := InitializedViewModel(today, start);
    vm.FetchSucceeded(TestData, start + 1);
  }

  /** Refreshing within ten seconds of a completed fetch does not call the
      reader again and turns every toggle back on, so the whole snapshot is
      shown. */
  method RefreshWithinCacheLifetime(today: DateTime, start: int)
    returns (toggles: Toggles, shown: seq<Person>)
    requires start >= CacheLifetime
    ensures toggles == AllIncluded && shown == TestData
  {
    var vm := FetchedViewModel(today, start);
    vm.SetInclude70s(false);
    vm.SetInclude00s(false);
    vm.RefreshPeople(start + 2);
    assert vm.readerCalls == 1;
    toggles, shown := vm.CurrentToggles(), vm.people;
  }

  /** After LastRefreshTime is moved an hour back, a refresh empties People
      and calls the reader a second time; when that fetch completes every
      toggle is on again. */
  method RefreshAfterBackdating(today: DateTime, start: int)
    returns (shown: seq<Person>, toggles: Toggles)
    requires start >= CacheLifetime
    ensures shown == [] && toggles == AllIncluded
  {
    var vm := FetchedViewModel(today, start);
    vm.SetLastRefreshTime(start + 2 - OneHour);
    vm.RefreshPeople(start + 2);
    assert vm.readerCalls == 2;
    shown := vm.people;
    vm.SetInclude70s(false);
    vm.FetchSucceeded(TestData, start + 3);
    toggles := vm.CurrentToggles();
  }

  /** A fetch that faults records the exception and leaves People empty; a
      refresh one second later fetches again, because only a successful fetch
      moves LastRefreshTime. */
  method FaultThenRefresh(today: DateTime, start: int, e: Exception)
    returns (recorded: Option<Exception>, shown: seq<Person>)
    requires start >= CacheLifetime
    ensures recorded == Some(e) && shown == []
  {
    var vm := InitializedViewModel(today, start);
    vm.FetchFaulted([e]);
    recorded, shown := vm.viewModelException, vm.people;
    vm.RefreshPeople(start + TicksPerSecond);
    assert vm.readerCalls == 2 && vm.people == [];
  }

  /** A fetch that succeeds records no exception. */
  method SuccessRecordsNoException(today: DateTime, start: int) returns (recorded: Option<Exception>)
    requires start >= CacheLifetime
    ensures recorded == None
  {
    var vm := FetchedViewModel(today, start);
    recorded := vm.viewModelException;
  }

  /** Initialize with a binding missing fails with MissingFieldException and
      never calls the reader; the refactored copy behaves the same way. */
  method InitializeWithMissingBinding(today: DateTime, now: int)
    returns (noReader: InitOutcome, noWinners: InitOutcome)
    ensures noReader == MissingField(ReaderMissing)
    ensures noWinners == MissingField(WinnersMissing)
  {
    var winners := new Selection.Winners(today);
    var vm1 := new Starter.PeopleViewModel(Container(None, winners));
    noReader := vm1.Initialize(now);
    assert vm1.readerCalls == 0 && vm1.dataReader.None?;

    var vm2 := new Completed.PeopleViewModel(Container(Some(PersonReader("FakeReader")), null));
    noWinners := vm2.Initialize(now);
    assert vm2.readerCalls == 0 && vm2.dataReader.Some? && vm2.todaysWinners == null;
  }

  /** Switching Include70s off and on again gives back exactly the People
      shown after the fetch. */
  method ToggleOffAndOn(today: DateTime, start: int) returns (before: seq<Person>, after: seq<Person>)
    requires start >= CacheLifetime
    ensures before == after == TestData
  {
    var winners := new Selection.Winners(today);
    var vm := new Completed.PeopleViewModel(Container(Some(PersonReader("FakeReader")), winners));
    var outcome := vm.Initialize(start);
    vm.FetchSucceeded(TestData, start + 1);
    before := vm.people;
    vm.SetInclude70s(false);
    TestDataFiltered();
    assert vm.people == [Test00sPerson];
    vm.SetInclude70s(true);
    after := vm.people;
  }

  /** Adding a new person selects it; adding it again (or a person with the
      same Id and other names) keeps one copy. */
  method AddTwice(today: DateTime, start: int)
    returns (counts: seq<nat>, afterFirst: seq<Person>, afterSecond: seq<Person>)
    requires start >= CacheLifetime
    ensures counts == [1, 1]
    ensures afterFirst == afterSecond == [NewPerson]
    ensures Selection.Contains(afterSecond, NewPerson)
  {
    var vm := InitializedViewModel(today, start);
    var selected := vm.todaysWinners.selectedPeople;
    vm.AddToWinners(Some(NewPerson));
    counts, afterFirst := [|selected.items|], selected.items;
    vm.AddToWinners(Some(NewPerson.(givenName := "Peter", familyName := "Rogers")));
    counts, afterSecond := counts + [|selected.items|], selected.items;
  }

  /** Setting a toggle while a fetch is pending refilters the previous
      snapshot, so People is no longer empty before the fetch completes. */
  method ToggleWhileFetchPending(today: DateTime, start: int) returns (emptied: seq<Person>, shown: seq<Person>)
    requires start >= CacheLifetime
    ensures emptied == [] && shown == TestData
  {
    var vm := FetchedViewModel(today, start);
    vm.SetLastRefreshTime(start + 2 - OneHour);
    vm.RefreshPeople(start + 2);
    emptied := vm.people;
    vm.SetInclude70s(true);
    VisibleAllIncluded(TestData);
    shown := vm.people;
  }

  /** Removing a selected person takes it out; removing an absent person or
      adding null changes nothing; ClearWinners empties the selection. */
  method RemoveAndClear(today: DateTime, start: int) returns (counts: seq<nat>)
    requires start >= CacheLifetime
    ensures counts == [0, 0, 0]
  {
    var vm := InitializedViewModel(today, start);
    var selected := vm.todaysWinners.selectedPeople;
    vm.AddToWinners(Some(NewPerson));
    assert selected.items == [NewPerson];
    vm.RemoveFromWinners(Some(NewPerson));
    counts := [|selected.items|];
    vm.RemoveFromWinners(Some(NewPerson));
    vm.AddToWinners(None);
    counts := counts + [|selected.items|];
    vm.AddToWinners(Some(Test70sPerson));
    vm.ClearWinners();
    counts := counts + [|selected.items|];
  }

  /** Before Initialize a null person can be added or removed: both return
      before TodaysWinners is read, and the container's Winners is untouched. */
  method NullPersonBeforeInitialize(today: DateTime) returns (count: nat)
    ensures count == 0
  {
    var vm := StandardViewModel(today);
    vm.AddToWinners(None);
    vm.RemoveFromWinners(None);
    count := |vm.container.todaysWinners.selectedPeople.items|;
  }
}
