/**
  The disco party roster: a `Dancer` record (disco/dancer.h) and a `Party`
  that owns an append-only, ordered list of dancers (disco/ballroom.h,
  disco/ballroom.cpp).
 */
module Disco {

  /** A dancer's only data is its name. Dancers are values: the party stores
      copies, so nothing a caller later does to its own dancer or string
      reaches the party. */
  datatype Dancer = Dancer(name: string)

  /** `Dancer() = default`: the name is the empty string. */
  function DefaultDancer(): (d: Dancer)
    ensures d.name == ""
  {
    Dancer("")
  }

  /** `Dancer(n)`: the name is a copy of `n`. */
  function NamedDancer(n: string): (d: Dancer)
    ensures d.name == n
    ensures d == DefaultDancer() <==> n == ""
  {
    Dancer(n)
  }

  /** What `WhoIsAtThisParty` promises: the names of `ds`, index for index. */
  function Names(ds: seq<Dancer>): (r: seq<string>)
    ensures |r| == |ds|
    ensures forall i :: 0 <= i < |ds| ==> r[i] == ds[i].name
  {
    if ds == [] then [] else [ds[0].name] + Names(ds[1..])
  }

  /** Appending a dancer appends exactly its name to the name list. It
      follows from the index-for-index contract of `Names`. */
  lemma NamesAppend(ds: seq<Dancer>, d: Dancer)
    ensures Names(ds + [d]) == Names(ds) + [d.name]
  {
  }

  /** The party never deduplicates: two dancers with the same name, appended
      one after the other, add two occurrences of that name. */
  lemma SameNameTwiceGivesTwoEntries(ds: seq<Dancer>, a: Dancer, b: Dancer)
    requires a.name == b.name
    ensures Names(ds + [a] + [b]) == Names(ds) + [a.name] + [a.name]
    ensures multiset(Names(ds + [a] + [b]))[a.name] == multiset(Names(ds))[a.name] + 2
  {
    NamesAppend(ds, a);
    NamesAppend(ds + [a], b);
    TwoMoreOccurrences(Names(ds), a.name);
  }

  /** Appending `n` twice raises its multiplicity by exactly two. */
  lemma TwoMoreOccurrences(s: seq<string>, n: string)
    ensures multiset(s + [n] + [n])[n] == multiset(s)[n] + 2
  {
  }

  /** The party: its only state is the ordered dancer list, held by value. */
  class Party {
    var dancers: seq<Dancer>

    /** `Party p;`: a party starts with no dancers. */
    constructor ()
      ensures dancers == []
    {
      dancers := [];
    }

    /** Appends a copy of `d` at the end; every earlier dancer keeps its
        index, and the name list grows by exactly `d.name`. */
    method AddDancer(d: Dancer)
      modifies this
      ensures dancers == old(dancers) + [d]
      ensures forall i :: 0 <= i < |old(dancers)| ==> dancers[i] == old(dancers)[i]
      ensures Names(dancers) == Names(old(dancers)) + [d.name]
    {
      NamesAppend(dancers, d);
      dancers := dancers + [d];
    }

    /** The names of the dancers, in insertion order. The query changes
        nothing (it has no modifies clause). */
    method WhoIsAtThisParty() returns (result: seq<string>)
      ensures result == Names(dancers)
      ensures |result| == |dancers|
      ensures forall i :: 0 <= i < |dancers| ==> result[i] == dancers[i].name
    {
      result := [];
      for i := 0 to |dancers|
        invariant result == Names(dancers[..i])
      {
        NamesAppend(dancers[..i], dancers[i]);
        assert dancers[..i + 1] == dancers[..i] + [dancers[i]];
        result := result + [dancers[i].name];
      }
      assert dancers[..|dancers|] == dancers;
    }
  }

  /** The query is read-only and deterministic: asking twice with no
      `AddDancer` in between gives equal lists. */
  method QueryTwice(p: Party) returns (first: seq<string>, second: seq<string>)
    ensures first == second == Names(p.dancers)
  {
    first := p.WhoIsAtThisParty();
    second := p.WhoIsAtThisParty();
  }
}
