/**
  The disco demo program (demo/disco_demo.cpp): three dancers join a party
  and the party is asked who is there. Printing the names is left out.
 */
module DiscoDemo {
  import opened Disco

  /** "cat", "dog" and "fish" join, in that order; the query lists them in
      that order. */
  method Demo() returns (who: seq<string>)
    ensures who == ["cat", "dog", "fish"]
  {
    var p := new Party();
    p.AddDancer(NamedDancer("cat"));
    p.AddDancer(NamedDancer("dog"));
    p.AddDancer(NamedDancer("fish"));
    who := p.WhoIsAtThisParty();
  }

  /** A party nobody has joined answers with the empty list. */
  method EmptyParty() returns (who: seq<string>)
    ensures who == []
  {
    var p := new Party();
    who := p.WhoIsAtThisParty();
  }

  /** Adding two dancers with the same name keeps both. */
  method SameNameTwice(n: string) returns (who: seq<string>)
    ensures who == [n, n]
  {
    var p := new Party();
    p.AddDancer(NamedDancer(n));
    p.AddDancer(NamedDancer(n));
    who := p.WhoIsAtThisParty();
  }
}
