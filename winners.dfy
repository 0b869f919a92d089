/** The Winners container of PeopleViewer.Common and the observable list of
    persons it holds. The list compares persons with Person.Equals, so its
    membership test and its removal go by Id; it does not itself keep Ids
    unique. */
module Selection {
  import opened Persons

  /** List<Person>.IndexOf as the collection uses it: the first position whose
      element Equals the person, or -1. */
  function IndexOf(s: seq<Person>, p: Person): (i: int)
    ensures -1 <= i < |s|
    ensures 0 <= i ==> Equals(s[i], Some(p))
    ensures forall j :: 0 <= j < |s| && (i < 0 || j < i) ==> !Equals(s[j], Some(p))
  {
    if |s| == 0 then -1
    else if Equals(s[0], Some(p)) then 0
    else
      var k := IndexOf(s[1..], p);
      if k < 0 then -1 else k + 1
  }

  /** Collection<Person>.Contains: holds exactly when some element has the
      person's Id. */
  predicate Contains(s: seq<Person>, p: Person): (b: bool)
    ensures b <==> exists i :: 0 <= i < |s| && s[i].id == p.id
  {
    IndexOf(s, p) >= 0
  }

  /** Collection<Person>.Remove: drops the first element that Equals the person,
      if there is one. */
  function Remove(s: seq<Person>, p: Person): (r: seq<Person>)
    ensures !Contains(s, p) ==> r == s
    ensures Contains(s, p) ==> |r| == |s| - 1
    ensures forall q :: q in r ==> q in s
  {
    var k := IndexOf(s, p);
    if k < 0 then s else s[..k] + s[k + 1..]
  }

  /** No two elements share an Id. */
  predicate UniqueIds(s: seq<Person>)
  {
    forall i, j :: 0 <= i < j < |s| ==> s[i].id != s[j].id
  }

  /** The list that AddToWinners leaves: unchanged for null or for a person
      whose Id is present, otherwise the person appended. */
  function AddIfAbsent(s: seq<Person>, person: Option<Person>): seq<Person>
  {
    if person.None? then s
    else if Contains(s, person.value) then s
    else s + [person.value]
  }

  /** The list that RemoveFromWinners leaves: unchanged for null, otherwise
      the collection's Remove. */
  function RemoveIfPresent(s: seq<Person>, person: Option<Person>): seq<Person>
  {
    if person.None? then s else Remove(s, person.value)
  }

  /** Adding keeps Ids unique, leaves the person present, grows the list by one
      exactly when the person was absent, and a second add changes nothing. */
  lemma AddIfAbsentProperties(s: seq<Person>, person: Option<Person>)
    ensures UniqueIds(s) ==> UniqueIds(AddIfAbsent(s, person))
    ensures person.Some? ==> Contains(AddIfAbsent(s, person), person.value)
    ensures |AddIfAbsent(s, person)| ==
              if person.Some? && !Contains(s, person.value) then |s| + 1 else |s|
    ensures AddIfAbsent(s, person)[..|s|] == s
    ensures AddIfAbsent(AddIfAbsent(s, person), person) == AddIfAbsent(s, person)
  {
    if person.Some? && !Contains(s, person.value) {
      var r := s + [person.value];
      assert r[|s|] == person.value;
      assert IndexOf(r, person.value) >= 0 by {
        assert Equals(r[|s|], Some(person.value));
      }
    }
  }

  /** Removing a present person shortens the list by one and takes out one
      of its elements; removing an absent one changes nothing. */
  lemma RemoveShrinks(s: seq<Person>, p: Person)
    ensures Contains(s, p) ==> |Remove(s, p)| == |s| - 1
    ensures Contains(s, p) ==> multiset(Remove(s, p)) + multiset{s[IndexOf(s, p)]} == multiset(s)
    ensures !Contains(s, p) ==> Remove(s, p) == s
  {
    var k := IndexOf(s, p);
    if k >= 0 {
      var before, after := s[..k], s[k + 1..];
      assert s == before + [s[k]] + after;
      calc {
        multiset(s);
        multiset(before + [s[k]] + after);
        multiset(before) + multiset{s[k]} + multiset(after);
        multiset(before + after) + multiset{s[k]};
      }
    }
  }

  /** On a list with unique Ids, Remove takes the person out altogether and
      the Ids stay unique. */
  lemma RemoveKeepsIdsUnique(s: seq<Person>, p: Person)
    requires UniqueIds(s)
    ensures UniqueIds(Remove(s, p))
    ensures !Contains(Remove(s, p), p)
  {
    var k := IndexOf(s, p);
    if k >= 0 {
      var r := Remove(s, p);
      assert |r| == |s| - 1;
      assert forall i :: 0 <= i < |r| ==> r[i] == if i < k then s[i] else s[i + 1];
      forall i | 0 <= i < |r| ensures r[i].id != p.id {
        if i < k { assert s[i].id != s[k].id; } else { assert s[i + 1].id != s[k].id; }
      }
    }
  }

  /** Removing a person just added to a list that lacked it gives back the list. */
  lemma {:induction false} RemoveUndoesAdd(s: seq<Person>, p: Person)
    requires !Contains(s, p)
    ensures Remove(AddIfAbsent(s, Some(p)), p) == s
  {
    var r := s + [p];
    assert IndexOf(r, p) == |s| by {
      assert Equals(r[|s|], Some(p));
      forall j | 0 <= j < |s| ensures !Equals(r[j], Some(p)) {
        assert r[j] == s[j];
      }
    }
    assert r[..|s|] == s;
  }

  /** ObservableCollection<Person>: a list that the view model changes in place. */
  class PersonCollection {
    var items: seq<Person>

    constructor ()
      ensures items == []
    {
      items := [];
    }

    method ContainsPerson(p: Person) returns (found: bool)
      ensures found == Contains(items, p)
      ensures found <==> exists i :: 0 <= i < |items| && items[i].id == p.id
    {
      found := IndexOf(items, p) >= 0;
    }

    method Add(p: Person)
      modifies this
      ensures items == old(items) + [p]
    {
      items := items + [p];
    }

    method RemovePerson(p: Person) returns (removed: bool)
      modifies this
      ensures removed == Contains(old(items), p)
      ensures items == Remove(old(items), p)
    {
      removed := IndexOf(items, p) >= 0;
      items := Remove(items, p);
    }

    method Clear()
      modifies this
      ensures items == []
    {
      items := [];
    }
  }

  /** The day's winners: the date they belong to and the people chosen. */
  class Winners {
    var date: DateOnly
    var selectedPeople: PersonCollection

    /** Each Winners gets a new, empty collection of its own. */
    constructor (d: DateTime)
      ensures date == DateOf(d)
      ensures fresh(selectedPeople) && selectedPeople.items == []
    {
      date := DateOf(d);
      selectedPeople := new PersonCollection();
    }
  }
}
