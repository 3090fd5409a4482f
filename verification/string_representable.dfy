/**
 String helpers that every `CaseIterable` enum of the library gets for free
 (`casesCollection()` and `toString()`).

 An enum is described by the ordered list of its cases (`allCases`) and by
 `name`, the string Swift's interpolation produces for a case, which is the
 case's identifier.
 */
module StringRepresentable {

  /** The elements of `xs` equal to `s`, in order (`xs.filter { $0 == s }`). */
  function KeepEqual(xs: seq<string>, s: string): (r: seq<string>)
    ensures |r| <= |xs|
    ensures forall i :: 0 <= i < |r| ==> r[i] == s
    ensures |r| > 0 <==> s in xs
  {
    if xs == [] then []
    else if xs[0] == s then [xs[0]] + KeepEqual(xs[1..], s)
    else KeepEqual(xs[1..], s)
  }

  /** The filter keeps every copy of `s`: its length is the multiplicity of `s` in `xs`. */
  lemma {:induction false} KeepEqualCount(xs: seq<string>, s: string)
    ensures |KeepEqual(xs, s)| == multiset(xs)[s]
  {
    if xs != [] {
      assert xs == [xs[0]] + xs[1..];
      KeepEqualCount(xs[1..], s);
    }
  }

  /**
   `casesCollection()`: one string per case, in `allCases` order. The receiver
   `self` takes no part in the result.
   */
  function CasesCollection<T>(self: T, allCases: seq<T>, name: T -> string): (r: seq<string>)
    ensures |r| == |allCases|
    ensures forall i :: 0 <= i < |r| ==> r[i] == name(allCases[i])
  {
    if allCases == [] then []
    else [name(allCases[0])] + CasesCollection(self, allCases[1..], name)
  }

  /** The receiver of `casesCollection()` does not matter. */
  lemma CasesCollectionIgnoresSelf<T>(a: T, b: T, allCases: seq<T>, name: T -> string)
    ensures CasesCollection(a, allCases, name) == CasesCollection(b, allCases, name)
  {
  }

  /** The name of a listed case is among the collected strings. */
  lemma NameIsCollected<T>(self: T, allCases: seq<T>, name: T -> string)
    requires self in allCases
    ensures name(self) in CasesCollection(self, allCases, name)
  {
  }

  /**
   `toString()`: the first collected string equal to the case's own name.
   The `CaseIterable` precondition (every case is listed in `allCases`) is
   what makes the filter non-empty, so the `[0]` never traps.
   */
  function ToString<T(==)>(self: T, allCases: seq<T>, name: T -> string): (r: string)
    requires self in allCases
    ensures r == name(self)
    ensures r in CasesCollection(self, allCases, name)
  {
    NameIsCollected(self, allCases, name);
    KeepEqual(CasesCollection(self, allCases, name), name(self))[0]
  }
}
