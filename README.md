# PeopleViewer presentation controller in Dafny

This project models `PeopleViewModel`, the presentation controller of the
PeopleViewer sample, together with the `Person` record it shows and the
`Winners` container it selects into. The repository holds the controller
twice. `Completed/` is the refactored copy: the container look-ups, the cache
test, the fetch, the filter reset and the filter each have their own member.
`Starter/` is the inlined copy: the same logic written directly into
`Initialize`, `RefreshPeople` and `RefreshFilter`. Each copy is a class of its
own here (`CompletedViewModel.PeopleViewModel`, `StarterViewModel.PeopleViewModel`).
The Starter class keeps the inline structure, with one exception: the block
that sets all five toggles and refilters appears twice in the Starter
`RefreshPeople`, and the model writes it once, as the method `IncludeAll`.

What the controller does:

- **Initialize.** It looks up the `IPersonReader` binding, then the `Winners`
  bound as "TodaysWinners", and then refreshes. A missing binding throws
  `MissingFieldException`, modelled as the outcome `MissingField(message)`.
- **RefreshPeople(now).** If less than ten seconds have passed since
  `LastRefreshTime`, the cached snapshot is reused: all five decade toggles
  are switched on and `People` is recomputed. Otherwise `People` is emptied
  and `GetPeople` is called on the reader.
- **Fetch continuations.** The two continuations of the fetch are the methods
  `FetchSucceeded(result, now)` and `FetchFaulted(innerExceptions)`.
  - On success the snapshot is stored, the toggles are reset, and then
    `LastRefreshTime` is stamped.
  - On a fault the first inner exception is recorded and nothing else changes.
- **Decade filter.** `People` keeps, in order, the persons of the snapshot
  whose start-year decade (1970s to 2010s) is not switched off. The filter is
  a chain of LINQ `Where` calls (`FilterByDecade`, `FilterByYear`). Both chains
  are proved equal to one reference definition, `Filtering.Visible`.
- **Winners.** `AddToWinners`, `RemoveFromWinners` and `ClearWinners` change
  the day's selection list in place. The list compares persons by `Id`
  (`Person.Equals`).

How the model represents the source:

- Time for the cache is `DateTime` ticks: an `int` in units of 100 ns.
  `DateTime.MinValue` is tick 0, and ten seconds are 100,000,000 ticks.
  The clock reading `now` is a parameter.
- A start date is a calendar `DateTime` value whose year lies in 1..9999.
  Because the year is positive, C#'s truncating `Year / 10` equals Dafny's
  division.
- `Person?` is `Option<Person>`.
- Each `PropertyChanged` notification is appended to the field `announced`.
  This log records the order in which the properties change.
- The ghost fields `readerCalls` and `pendingFetches` count the calls to
  `GetPeople` and the fetches that have not completed yet.

Assumption: the `Person` type that the refactored copy filters on has a
`Decade` property, but that `Person` is not part of this model. The model
takes `Decade` to be the start year rounded down to a multiple of ten
(`CompletedViewModel.Decade`). That is the rule the Starter copy's
`Year / 10` comparison applies.

Behaviour of the code worth noting:

- A successful fetch does not clear `ViewModelException`. A fault recorded
  earlier stays recorded.
- Both missing bindings throw the same exception type. Only the message differs.
- A new view model has all five toggles off, C#'s default for `bool`. The
  controller itself first switches them on in a refresh.
- The Winners list does not keep Ids unique by itself. Only `AddToWinners`
  avoids duplicates.
- Each toggle setter refilters the stored snapshot. Setting a toggle while a
  fetch is pending, or after a fault, therefore shows the previous snapshot
  again. `People` stays empty after a fault only if no toggle is set in
  between.

## Model

| member | source | states |
|---|---|---|
| Persons.DateOfIgnoresTimeOfDay | Completed/PeopleViewer.Common/Winners.cs:12 | `DateOnly.FromDateTime` gives the same date for two instants exactly when they fall on the same calendar day, whatever the time of day |
| Persons.DateOf | Completed/PeopleViewer.Common/Winners.cs:12 | `DateOnly.FromDateTime` drops the time of day: turned back into an instant, the date is the start of the same day |
| Persons.Equals | Starter/PeopleViewer.Common/Person.cs:13-16 | a person never equals null and always equals itself |
| Persons.HashCode | Starter/PeopleViewer.Common/Person.cs:19-22 | the hash code is shared by exactly the persons Equal to this one |
| Persons.EqualsIsIdentity | Starter/PeopleViewer.Common/Person.cs:13-16 | `Equals(other)` holds iff `other` is non-null and has the same Id; names, start date, rating and format string do not matter; `Equals(null)` is false |
| Persons.EqualsIsEquivalence | Starter/PeopleViewer.Common/Person.cs:13-16 | on non-null persons Equals is reflexive, symmetric and transitive |
| Persons.HashCodeAgreesWithEquals | Starter/PeopleViewer.Common/Person.cs:19-22 | two persons are Equal exactly when their hash codes (the Ids) are equal |
| Persons.ToString | Starter/PeopleViewer.Common/Person.cs:6-11 | with an empty FormatString the text is the given name, one space and the family name, recoverable as prefix, separator and suffix; otherwise it is the formatter's result |
| Selection.IndexOf | Completed/PeopleViewer.Common/Winners.cs:8 | the collection's search gives the first position holding an Equal person, or -1 when no element is Equal |
| Selection.Contains | Completed/PeopleViewer.Presentation/PeopleViewModel.cs:181 | the collection's Contains holds exactly when some element has the person's Id |
| Selection.Remove | Completed/PeopleViewer.Presentation/PeopleViewModel.cs:188 | the collection's Remove leaves the list unchanged when no element has the Id, otherwise shortens it by one, and never adds an element |
| Selection.AddIfAbsentProperties | Completed/PeopleViewer.Presentation/PeopleViewModel.cs:177-183 | adding keeps Ids unique, leaves the person present, grows the list by one exactly when a non-null person was absent, keeps the earlier elements, and a second add changes nothing |
| Selection.RemoveShrinks | Completed/PeopleViewer.Presentation/PeopleViewModel.cs:185-189 | removing a present person shortens the list by one and takes out one element; removing an absent person leaves the list unchanged |
| Selection.RemoveKeepsIdsUnique | Completed/PeopleViewer.Presentation/PeopleViewModel.cs:185-189 | on a list with unique Ids, removing leaves no element with that Id and keeps the Ids unique |
| Selection.RemoveUndoesAdd | Completed/PeopleViewer.Presentation/PeopleViewModel.cs:177-189 | removing a person just added to a list that lacked it gives back the original list |
| Selection.PersonCollection.constructor | Completed/PeopleViewer.Common/Winners.cs:13 | a new collection is empty |
| Selection.PersonCollection.ContainsPerson | Completed/PeopleViewer.Common/Winners.cs:8 | `Contains` answers whether some element has the person's Id |
| Selection.PersonCollection.Add | Completed/PeopleViewer.Common/Winners.cs:8 | `Add` appends the person and changes nothing else, without a duplicate check |
| Selection.PersonCollection.RemovePerson | Completed/PeopleViewer.Common/Winners.cs:8 | `Remove` reports whether an Equal person was present and drops the first such element |
| Selection.PersonCollection.Clear | Completed/PeopleViewer.Common/Winners.cs:8 | `Clear` empties the collection |
| Selection.Winners.constructor | Completed/PeopleViewer.Common/Winners.cs:10-14 | Date is the calendar date of the argument; SelectedPeople is a new, empty collection shared with no other object |
| Filtering.Where | Completed/PeopleViewer.Presentation/PeopleViewModel.cs:162-174 | `Where(..).ToList()` keeps exactly the elements that pass and is never longer than its input |
| Filtering.WhereConcat | Completed/PeopleViewer.Presentation/PeopleViewModel.cs:162-174 | Where distributes over concatenation, so it preserves relative order |
| Filtering.VisibleMembers | Completed/PeopleViewer.Presentation/PeopleViewModel.cs:157-174 | a person is visible iff it is in the snapshot and its start year is not in a decade whose toggle is off; years outside 1970-2019 are always kept |
| Filtering.VisibleConcat | Completed/PeopleViewer.Presentation/PeopleViewModel.cs:157-174 | the filter distributes over concatenation: People is an order-preserving subsequence of the snapshot |
| Filtering.VisibleAllIncluded | Completed/PeopleViewer.Presentation/PeopleViewModel.cs:147-155 | with all five toggles on, People equals the snapshot |
| Filtering.VisibleIdempotent | Completed/PeopleViewer.Presentation/PeopleViewModel.cs:157-174 | filtering the filtered list again changes nothing |
| Filtering.SwitchOff70s | Completed/PeopleViewer.Presentation/PeopleViewModel.cs:163-164 | turning Include70s off shows what was shown before minus the persons who started in 1970-1979 |
| Presentation.CacheRule | Completed/PeopleViewer.Presentation/PeopleViewModel.cs:145 | the cache is valid iff less than 10 s (10^8 ticks) passed since LastRefreshTime; never valid at the DateTime.MinValue default; once expired it stays expired while LastRefreshTime is unchanged |
| CompletedViewModel.Decade | Completed/PeopleViewer.Presentation/PeopleViewModel.cs:164 | (assumed) the Decade is a multiple of ten, at most the start year and within ten years of it |
| CompletedViewModel.FilterByDecade | Completed/PeopleViewer.Presentation/PeopleViewModel.cs:162-174 | the Where chain keeps only persons of the snapshot, is never longer than it, and is the whole snapshot when every toggle is on |
| CompletedViewModel.PeopleViewModel.IsCacheValid | Completed/PeopleViewer.Presentation/PeopleViewModel.cs:145 | valid iff `now` is less than ten seconds (10^8 ticks) after LastRefreshTime; never valid for a view model still at DateTime.MinValue |
| CompletedViewModel.DecadeOfYear | Completed/PeopleViewer.Presentation/PeopleViewModel.cs:164-172 | under the stated Decade assumption, `Decade == d` for d in 1970..2010 iff the start year is in d..d+9 |
| CompletedViewModel.FilterByDecadeIsVisible | Completed/PeopleViewer.Presentation/PeopleViewModel.cs:157-174 | the five-stage Where chain on Decade equals the reference filter Visible |
| CompletedViewModel.PeopleViewModel.constructor | Completed/PeopleViewer.Presentation/PeopleViewModel.cs:82-85 | a new view model keeps its container and starts with no reader or winners, LastRefreshTime = MinValue, all toggles off, empty lists, no exception |
| CompletedViewModel.PeopleViewModel.Initialize | Completed/PeopleViewer.Presentation/PeopleViewModel.cs:87-92 | a missing reader fails with its message and changes nothing; a missing Winners fails with its message after storing the reader; neither calls the reader; otherwise stores both and performs RefreshPeople |
| CompletedViewModel.PeopleViewModel.GetDataReaderFromContainer | Completed/PeopleViewer.Presentation/PeopleViewModel.cs:114-120 | gives the bound reader, or the "IPersonReader is not available" failure when there is no binding |
| CompletedViewModel.PeopleViewModel.GetWinnersFromContainer | Completed/PeopleViewer.Presentation/PeopleViewModel.cs:106-112 | gives the bound Winners, or the "TodaysWinners is not available" failure when there is no binding |
| CompletedViewModel.PeopleViewModel.RefreshPeople | Completed/PeopleViewer.Presentation/PeopleViewModel.cs:94-104 | cache valid: toggles all on, People = snapshot, no reader call; cache expired: People emptied, exactly one reader call, toggles unchanged; snapshot, LastRefreshTime and exception unchanged either way |
| CompletedViewModel.PeopleViewModel.RefreshPeopleFromDataReader | Completed/PeopleViewer.Presentation/PeopleViewModel.cs:122-134 | People is emptied (announced) before one reader call, and one fetch becomes pending |
| CompletedViewModel.PeopleViewModel.FetchSucceeded | Completed/PeopleViewer.Presentation/PeopleViewModel.cs:126-131 | snapshot := result, toggles all on, People = result, LastRefreshTime = now, announced after People; the recorded exception is left as it was |
| CompletedViewModel.PeopleViewModel.FetchFaulted | Completed/PeopleViewer.Presentation/PeopleViewModel.cs:136-142 | the exception becomes the first inner exception; People, snapshot, toggles and LastRefreshTime are unchanged |
| CompletedViewModel.PeopleViewModel.ResetFiltersToDefaults | Completed/PeopleViewer.Presentation/PeopleViewModel.cs:147-155 | all five toggles on and People equal to the snapshot |
| CompletedViewModel.PeopleViewModel.RefreshFilter | Completed/PeopleViewer.Presentation/PeopleViewModel.cs:157-175 | People becomes the reference filter of the snapshot under the current toggles; toggles and People are announced in that order |
| CompletedViewModel.PeopleViewModel.SetInclude70s | Completed/PeopleViewer.Presentation/PeopleViewModel.cs:31-35 | only Include70s and People change, and People is the filter under the new toggles |
| CompletedViewModel.PeopleViewModel.SetInclude80s | Completed/PeopleViewer.Presentation/PeopleViewModel.cs:38-42 | only Include80s and People change, and People is the filter under the new toggles |
| CompletedViewModel.PeopleViewModel.SetInclude90s | Completed/PeopleViewer.Presentation/PeopleViewModel.cs:45-49 | only Include90s and People change, and People is the filter under the new toggles |
| CompletedViewModel.PeopleViewModel.SetInclude00s | Completed/PeopleViewer.Presentation/PeopleViewModel.cs:52-56 | only Include00s and People change, and People is the filter under the new toggles |
| CompletedViewModel.PeopleViewModel.SetInclude10s | Completed/PeopleViewer.Presentation/PeopleViewModel.cs:59-63 | only Include10s and People change, and People is the filter under the new toggles |
| CompletedViewModel.PeopleViewModel.SetLastRefreshTime | Completed/PeopleViewer.Presentation/PeopleViewModel.cs:22-26 | the setter stores the value and announces LastRefreshTime |
| CompletedViewModel.PeopleViewModel.AddToWinners | Completed/PeopleViewer.Presentation/PeopleViewModel.cs:177-183 | null is a no-op even before Initialize; the person is appended only if no Equal person is selected; unique Ids stay unique |
| CompletedViewModel.PeopleViewModel.RemoveFromWinners | Completed/PeopleViewer.Presentation/PeopleViewModel.cs:185-189 | null is a no-op even before Initialize; otherwise the first Equal person is removed; unique Ids stay unique |
| CompletedViewModel.PeopleViewModel.ClearWinners | Completed/PeopleViewer.Presentation/PeopleViewModel.cs:191-194 | the selection becomes empty and nothing else changes |
| StarterViewModel.FilterByYear | Starter/PeopleViewer.Presentation/PeopleViewModel.cs:142-154 | the Where chain keeps only persons of the snapshot, is never longer than it, and is the whole snapshot when every toggle is on |
| StarterViewModel.BucketOfYear | Starter/PeopleViewer.Presentation/PeopleViewModel.cs:144-152 | for DateTime years, `Year / 10 == b` iff the year lies in 10b..10b+9 |
| StarterViewModel.FilterByYearIsVisible | Starter/PeopleViewer.Presentation/PeopleViewModel.cs:137-155 | the five-stage Where chain on `Year / 10` equals the reference filter Visible |
| StarterViewModel.PeopleViewModel.constructor | Starter/PeopleViewer.Presentation/PeopleViewModel.cs:82-85 | as for the refactored copy |
| StarterViewModel.PeopleViewModel.Initialize | Starter/PeopleViewer.Presentation/PeopleViewModel.cs:87-100 | the reader is checked before the Winners; either missing fails with its message and RefreshPeople is never reached; otherwise both are stored and RefreshPeople runs |
| StarterViewModel.PeopleViewModel.RefreshPeople | Starter/PeopleViewer.Presentation/PeopleViewModel.cs:102-135 | fetches iff now - LastRefreshTime >= 10 s; the cached branch forces all toggles on and shows the snapshot; the fetch branch empties People and calls the reader once |
| StarterViewModel.PeopleViewModel.IncludeAll | Starter/PeopleViewer.Presentation/PeopleViewModel.cs:106-111 | the toggle reset that RefreshPeople writes out in both branches: all five toggles on and People equal to the snapshot |
| StarterViewModel.PeopleViewModel.FetchSucceeded | Starter/PeopleViewer.Presentation/PeopleViewModel.cs:117-127 | snapshot, then toggles, then People, and only then LastRefreshTime (the order shows in the announcements); the exception is untouched |
| StarterViewModel.PeopleViewModel.FetchFaulted | Starter/PeopleViewer.Presentation/PeopleViewModel.cs:129-133 | the exception is set to the first inner exception and People stays as the refresh left it |
| StarterViewModel.PeopleViewModel.RefreshFilter | Starter/PeopleViewer.Presentation/PeopleViewModel.cs:137-155 | People becomes the reference filter of the snapshot under the current toggles |
| StarterViewModel.PeopleViewModel.SetInclude70s | Starter/PeopleViewer.Presentation/PeopleViewModel.cs:31-35 | only Include70s and People change, and People is the filter under the new toggles |
| StarterViewModel.PeopleViewModel.SetInclude80s | Starter/PeopleViewer.Presentation/PeopleViewModel.cs:38-42 | only Include80s and People change, and People is the filter under the new toggles |
| StarterViewModel.PeopleViewModel.SetInclude90s | Starter/PeopleViewer.Presentation/PeopleViewModel.cs:45-49 | only Include90s and People change, and People is the filter under the new toggles |
| StarterViewModel.PeopleViewModel.SetInclude00s | Starter/PeopleViewer.Presentation/PeopleViewModel.cs:52-56 | only Include00s and People change, and People is the filter under the new toggles |
| StarterViewModel.PeopleViewModel.SetInclude10s | Starter/PeopleViewer.Presentation/PeopleViewModel.cs:59-63 | only Include10s and People change, and People is the filter under the new toggles |
| StarterViewModel.PeopleViewModel.SetLastRefreshTime | Starter/PeopleViewer.Presentation/PeopleViewModel.cs:22-26 | the setter stores the value and announces LastRefreshTime |
| StarterViewModel.PeopleViewModel.AddToWinners | Starter/PeopleViewer.Presentation/PeopleViewModel.cs:157-163 | null is a no-op even before Initialize; a present Id leaves the list unchanged; otherwise the person is appended |
| StarterViewModel.PeopleViewModel.RemoveFromWinners | Starter/PeopleViewer.Presentation/PeopleViewModel.cs:165-169 | null is a no-op even before Initialize; otherwise the first Equal person is removed |
| StarterViewModel.PeopleViewModel.ClearWinners | Starter/PeopleViewer.Presentation/PeopleViewModel.cs:171-174 | the selection becomes empty and nothing else changes |
| Scenarios.CopiesFilterAlike | Starter/PeopleViewer.Presentation/PeopleViewModel.cs:142-154 | the Year / 10 filter of the starter copy and the Decade filter of the refactored copy give the same People for every list and toggle setting |
| Scenarios.TestDataFiltered | Starter/PeopleViewer.Presentation.Tests/PeopleViewModelTests.cs:159-213 | on the test data, all toggles on shows both persons in order, Include70s off hides the 1971 person, Include00s off hides the 2000 person |
| Scenarios.StandardViewModel | Completed/PeopleViewer.Presentation.Tests/TestFakes.cs:45-50 | a new view model over a container with both bindings and an empty Winners |
| Scenarios.InitializedViewModel | Starter/PeopleViewer.Presentation.Tests/PeopleViewModelTests.cs:288-289 | the standard view model after Initialize: reader stored, one reader call, its fetch pending, People empty, nothing selected |
| Scenarios.FetchedViewModel | Starter/PeopleViewer.Presentation.Tests/PeopleViewModelTests.cs:264-265 | the standard view model once the first fetch of the test data has completed: all toggles on, People is the test data, LastRefreshTime stamped |
| Scenarios.RefreshWithinCacheLifetime | Starter/PeopleViewer.Presentation.Tests/PeopleViewModelTests.cs:251-279 | a refresh within ten seconds of a completed fetch calls the reader no second time and turns every toggle back on, so People is the whole snapshot |
| Scenarios.RefreshAfterBackdating | Starter/PeopleViewer.Presentation.Tests/PeopleViewModelTests.cs:219-249 | after LastRefreshTime is moved back an hour a refresh empties People and calls the reader again; when that fetch completes all toggles are on |
| Scenarios.FaultThenRefresh | Starter/PeopleViewer.Presentation.Tests/PeopleViewModelTests.cs:127-139 | a faulted fetch records the exception and leaves People empty, and a refresh one second later fetches again |
| Scenarios.SuccessRecordsNoException | Starter/PeopleViewer.Presentation.Tests/PeopleViewModelTests.cs:141-153 | a fetch that succeeds leaves no exception recorded |
| Scenarios.InitializeWithMissingBinding | Starter/PeopleViewer.Presentation.Tests/PeopleViewModelTests.cs:29-82 | a missing reader or a missing Winners makes Initialize fail with MissingFieldException, and the reader is never called |
| Scenarios.ToggleOffAndOn | Starter/PeopleViewer.Presentation.Tests/PeopleViewModelTests.cs:173-185 | switching Include70s off hides the 70s person; switching it on again restores People exactly |
| Scenarios.NullPersonBeforeInitialize | Starter/PeopleViewer.Presentation/PeopleViewModel.cs:157-169 | adding or removing a null person before Initialize is a no-op that leaves the container's Winners empty |
| Scenarios.AddTwice | Starter/PeopleViewer.Presentation.Tests/PeopleViewModelTests.cs:300-316 | adding a new person selects exactly that person, and adding it again (or a person with the same Id) leaves the selection as the one person, still contained |
| Scenarios.ToggleWhileFetchPending | Starter/PeopleViewer.Presentation/PeopleViewModel.cs:31-35 | a refresh with an expired cache empties People, and setting a toggle before the fetch completes shows the previous snapshot again |
| Scenarios.RemoveAndClear | Starter/PeopleViewer.Presentation.Tests/PeopleViewModelTests.cs:318-351 | removing a selected person empties the selection; removing an absent person or adding null changes nothing; ClearWinners empties the selection |

## Left out

- The dependency container (Ninject `CanResolve`/`Get`): it is a foreign library. A `Container` value holds the two optional bindings.
- Task scheduling (`ContinueWith`, `SynchronizationContext`) and overlapping fetches are concurrency, which is not modelled. Each continuation is a separate method that a caller invokes after the fetch. `pendingFetches` only counts the fetches in flight, so the model also admits two overlapping fetches with the later continuation winning, as in the code.
- `DateTime.Now` is the parameter `now`. `AggregateException.Flatten` is replaced by the list of inner exceptions that a faulted task carries.
- `PropertyChanged` dispatch to subscribers is not modelled; only the sequence of announced property names is kept. The test helper `PropertyChangeTracker` is a wall-clock polling loop and is not modelled either.
- The `CollectionChanged` events of the observable collection are not modelled.
- The WPF window, the Dispatcher rethrow of `ViewModelException` and the application start-up and shutdown are UI plumbing.
- `string.Format` with a non-empty `FormatString` is a foreign formatting call. It is the `format` parameter of `Persons.ToString`.
- What the `IPersonReader` implementation reads, and its `GetPerson`, are outside the model. Only whether `GetPeople` was called matters.
- Calendar validity (days per month) is not checked for `DateTime` values. The filter uses only the year.
- The settable `Winners.Date` and `Winners.SelectedPeople` properties, and the `TodaysWinners` setter, are never called by the controller and have no methods here.
- CompletedViewModel.PeopleViewModel.ClearWinners (in both copies) requires `TodaysWinners` to be set. The source would throw `NullReferenceException` before `Initialize` has succeeded.
- CompletedViewModel.PeopleViewModel.AddToWinners and RemoveFromWinners (in both copies) require `TodaysWinners` to be set only for a non-null person. The source would throw `NullReferenceException` there; a null person returns first and is a no-op in the model too.
- CompletedViewModel.PeopleViewModel.RefreshPeople (in both copies) requires a stored reader when the cache has expired. The source would throw `NullReferenceException` there.
- CompletedViewModel.PeopleViewModel.FetchFaulted (in both copies) requires a pending fetch and a non-empty list of inner exceptions. A faulted task always carries at least one.
- A cancelled fetch is not modelled. The `NotOnFaulted` continuation also runs on cancellation, and its `task.Result` throws inside the continuation, so nothing is stored and no exception is recorded. The model has only the two outcomes `FetchSucceeded` and `FetchFaulted`, because cancellation belongs to the task runtime.
- A `GetPeople` that throws synchronously, instead of returning a faulted task, is not modelled. In the source that exception escapes `RefreshPeople` after `People` has already been emptied. The model treats `GetPeople` as a foreign call that always returns a task.
- Null strings in `Person` are not modelled, because a Dafny `string` cannot be null. In the source `string.IsNullOrEmpty` treats a null `FormatString` like an empty one, and a null name is interpolated as the empty text.
