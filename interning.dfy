/**
 * The global-name table that both compilers keep (`constant_get_or_def` in imsta.rs and in
 * closure.rs): a name's slot is the position of its first occurrence.
 */
module Interning {

  ghost predicate NoDuplicates(g: seq<string>) {
    forall i, j :: 0 <= i < j < |g| ==> g[i] != g[j]
  }

  /** `iter().position(|x| x == &name)`: the first position holding `name`. */
  function IndexOf(g: seq<string>, name: string): (r: nat)
    requires name in g
    ensures r < |g| && g[r] == name
    ensures forall j :: 0 <= j < r ==> g[j] != name
  {
    if g[0] == name then 0 else 1 + IndexOf(g[1..], name)
  }

  /** The slot `constant_get_or_def` returns and the table it leaves. */
  function Intern(g: seq<string>, name: string): (r: (nat, seq<string>))
    ensures r.0 < |r.1| && r.1[r.0] == name && g <= r.1
  {
    if name in g then (IndexOf(g, name), g) else (|g|, g + [name])
  }

  /** The interning contract: a present name keeps the table and gets its first position, a new one is appended. */
  lemma InternContract(g: seq<string>, name: string)
    ensures name in g ==> Intern(g, name).1 == g && Intern(g, name).0 == IndexOf(g, name)
    ensures name !in g ==> Intern(g, name).1 == g + [name] && Intern(g, name).0 == |g|
    ensures NoDuplicates(g) ==> NoDuplicates(Intern(g, name).1)
  {
  }

  /** Interning a name twice gives the same slot and leaves the table as the first call did. */
  lemma InternIdempotent(g: seq<string>, name: string)
    ensures Intern(Intern(g, name).1, name) == Intern(g, name)
  {
    var (i, g') := Intern(g, name);
    assert name in g';
    if name !in g {
      assert IndexOf(g', name) == |g| by {
        assert forall j :: 0 <= j < |g| ==> g'[j] == g[j];
      }
    }
  }

  /** A longer table that extends a shorter one resolves the shorter one's names to the same slots. */
  lemma {:induction false} IndexOfExtended(g: seq<string>, h: seq<string>, name: string)
    requires name in g && g <= h
    ensures name in h && IndexOf(h, name) == IndexOf(g, name)
  {
    var i := IndexOf(g, name);
    assert h[i] == g[i];
  }

  /** The search `constant_get_or_def` does with `contains` and `position`, as one loop. */
  method Position(g: seq<string>, name: string) returns (found: bool, i: nat)
    ensures found <==> name in g
    ensures found ==> i == IndexOf(g, name)
  {
    i := 0;
    while i < |g| && g[i] != name
      invariant i <= |g|
      invariant forall j :: 0 <= j < i ==> g[j] != name
    {
      i := i + 1;
    }
    found := i < |g|;
    if !found {
      i := 0;
    }
  }
}
