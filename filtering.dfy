/** The decade filter that derives the visible People from the full list: the
    LINQ `Where` it is built from, the five toggles, and a one-pass reference
    definition that both view models are proved to agree with. */
module Filtering {
  import opened Persons

  /** Enumerable.Where followed by ToList: the elements that pass, in order. */
  function Where(s: seq<Person>, keep: Person -> bool): (r: seq<Person>)
    ensures |r| <= |s|
    ensures forall x :: x in r <==> x in s && keep(x)
  {
    if s == [] then []
    else if keep(s[0]) then [s[0]] + Where(s[1..], keep)
    else Where(s[1..], keep)
  }

  /** Where distributes over concatenation, so it never reorders. */
  lemma {:induction false} WhereConcat(a: seq<Person>, b: seq<Person>, keep: Person -> bool)
    ensures Where(a + b, keep) == Where(a, keep) + Where(b, keep)
  {
    if a == [] {
      assert a + b == b;
    } else {
      assert (a + b)[0] == a[0];
      assert (a + b)[1..] == a[1..] + b;
      WhereConcat(a[1..], b, keep);
    }
  }

  /** The five toggles Include70s .. Include10s. */
  datatype Toggles = Toggles(include70s: bool, include80s: bool, include90s: bool,
                             include00s: bool, include10s: bool)

  const AllIncluded := Toggles(true, true, true, true, true)

  /** A person is hidden when the start year falls in one of the decades
      1970-1979 .. 2010-2019 and that decade's toggle is off. */
  predicate Hidden(t: Toggles, year: int)
  {
    || (1970 <= year <= 1979 && !t.include70s)
    || (1980 <= year <= 1989 && !t.include80s)
    || (1990 <= year <= 1999 && !t.include90s)
    || (2000 <= year <= 2009 && !t.include00s)
    || (2010 <= year <= 2019 && !t.include10s)
  }

  /** The visible people: those of the full list that are not hidden, in order. */
  function Visible(s: seq<Person>, t: Toggles): (r: seq<Person>)
  {
    if s == [] then []
    else if Hidden(t, s[0].startDate.year) then Visible(s[1..], t)
    else [s[0]] + Visible(s[1..], t)
  }

  /** A person is visible exactly when it is in the full list and not hidden;
      in particular a start year outside 1970-2019 is always visible. */
  lemma {:induction false} VisibleMembers(s: seq<Person>, t: Toggles, p: Person)
    ensures p in Visible(s, t) <==> p in s && !Hidden(t, p.startDate.year)
    ensures p in s && !(1970 <= p.startDate.year <= 2019) ==> p in Visible(s, t)
  {
    if s != [] {
      VisibleMembers(s[1..], t, p);
      assert s == [s[0]] + s[1..];
    }
  }

  /** Filtering the concatenation of two lists filters each in turn: the
      visible people keep their relative order. */
  lemma {:induction false} VisibleConcat(a: seq<Person>, b: seq<Person>, t: Toggles)
    ensures Visible(a + b, t) == Visible(a, t) + Visible(b, t)
  {
    if a == [] {
      assert a + b == b;
    } else {
      assert (a + b)[0] == a[0];
      assert (a + b)[1..] == a[1..] + b;
      VisibleConcat(a[1..], b, t);
    }
  }

  /** With every toggle on the visible people are the full list. */
  lemma {:induction false} VisibleAllIncluded(s: seq<Person>)
    ensures Visible(s, AllIncluded) == s
  {
    if s != [] {
      VisibleAllIncluded(s[1..]);
    }
  }

  /** Filtering the visible people again changes nothing. */
  lemma {:induction false} VisibleIdempotent(s: seq<Person>, t: Toggles)
    ensures Visible(Visible(s, t), t) == Visible(s, t)
  {
    if s != [] {
      VisibleIdempotent(s[1..], t);
      if !Hidden(t, s[0].startDate.year) {
        var r := [s[0]] + Visible(s[1..], t);
        assert r[0] == s[0] && r[1..] == Visible(s[1..], t);
      }
    }
  }

  /** Switching one more toggle off keeps a sub-list: what it shows is what
      was shown before minus that decade. Here for Include70s. */
  lemma {:induction false} SwitchOff70s(s: seq<Person>, t: Toggles)
    ensures Visible(s, t.(include70s := false)) ==
              Where(Visible(s, t), (p: Person) => !(1970 <= p.startDate.year <= 1979))
  {
    if s != [] {
      SwitchOff70s(s[1..], t);
      if !Hidden(t, s[0].startDate.year) {
        var r := [s[0]] + Visible(s[1..], t);
        assert r[0] == s[0] && r[1..] == Visible(s[1..], t);
      }
    }
  }
}
