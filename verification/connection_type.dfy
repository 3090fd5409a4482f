/**
 The normalised connection taxonomy (`GTNetMon.ConnectionType`) and the
 matcher that maps a platform interface-type name onto it.
 */
module ConnectionTypes {
  import opened Wrappers
  import SR = StringRepresentable

  datatype ConnectionType = Wifi | Cellular | WiredEthernet | Other | Undefined

  /** The identifier of each case, as Swift's string interpolation prints it. */
  function CaseName(c: ConnectionType): string {
    match c
    case Wifi => "wifi"
    case Cellular => "cellular"
    case WiredEthernet => "wiredEthernet"
    case Other => "other"
    case Undefined => "undefined"
  }

  /** The position of a case in the declaration. */
  function Ordinal(c: ConnectionType): (k: nat)
    ensures k < 5
  {
    match c
    case Wifi => 0
    case Cellular => 1
    case WiredEthernet => 2
    case Other => 3
    case Undefined => 4
  }

  /** `ConnectionType.allCases`: every case exactly once, in declaration order. */
  function AllCases(): (r: seq<ConnectionType>)
    ensures |r| == 5
    ensures forall c :: r[Ordinal(c)] == c
    ensures Distinct(r)
  {
    [Wifi, Cellular, WiredEthernet, Other, Undefined]
  }

  /** Every case is listed in `allCases`, the `CaseIterable` promise. */
  lemma Listed(c: ConnectionType)
    ensures c in AllCases()
  {
  }

  /** No case occurs twice in `cs`. */
  predicate Distinct(cs: seq<ConnectionType>) {
    forall i, j :: 0 <= i < j < |cs| ==> cs[i] != cs[j]
  }

  /** `casesCollection()` on a connection type. */
  function CasesCollection(self: ConnectionType): (r: seq<string>)
    ensures |r| == 5
    ensures forall i :: 0 <= i < 5 ==> r[i] == CaseName(AllCases()[i])
  {
    SR.CasesCollection(self, AllCases(), CaseName)
  }

  /**
   `toString()` on a connection type: the case's own name.
   `ToStringFromCollection` shows that the library's definition (filter
   `casesCollection()` for the name and take the first hit) computes exactly
   this string, so the rest of the model uses this direct form.
   */
  function ToString(c: ConnectionType): (r: string)
  {
    CaseName(c)
  }

  /** The library's `toString()` is total on connection types and gives `ToString`. */
  lemma ToStringFromCollection(c: ConnectionType)
    ensures SR.ToString(c, AllCases(), CaseName) == ToString(c)
    ensures ToString(c) in CasesCollection(c)
  {
  }

  /** Distinct cases have distinct string forms. */
  lemma ToStringInjective(a: ConnectionType, b: ConnectionType)
    ensures ToString(a) == ToString(b) ==> a == b
  {
  }

  /** The cases of `cs` whose string form is `name`, in order. */
  function Named(cs: seq<ConnectionType>, name: string): (r: seq<ConnectionType>)
    ensures forall i :: 0 <= i < |r| ==> ToString(r[i]) == name && r[i] in cs
    ensures forall c :: c in cs && ToString(c) == name ==> c in r
  {
    if cs == [] then []
    else if ToString(cs[0]) == name then [cs[0]] + Named(cs[1..], name)
    else Named(cs[1..], name)
  }

  /** Filtering a list without repetitions gives a list without repetitions. */
  lemma {:induction false} NamedDistinct(cs: seq<ConnectionType>, name: string)
    requires Distinct(cs)
    ensures Distinct(Named(cs, name))
  {
    if cs != [] {
      assert Distinct(cs[1..]);
      NamedDistinct(cs[1..], name);
    }
  }

  /** The filter keeps every copy of a case: its length is the case's multiplicity. */
  lemma {:induction false} NamedCount(cs: seq<ConnectionType>, c: ConnectionType)
    ensures |Named(cs, ToString(c))| == multiset(cs)[c]
  {
    if cs != [] {
      assert cs == [cs[0]] + cs[1..];
      NamedCount(cs[1..], c);
      ToStringInjective(cs[0], c);
    }
  }

  /** At most one case carries a given string form. */
  lemma NamedAtMostOne(name: string)
    ensures |Named(AllCases(), name)| <= 1
  {
    var r := Named(AllCases(), name);
    NamedDistinct(AllCases(), name);
    if |r| > 1 {
      ToStringInjective(r[0], r[1]);
    }
  }

  /**
   `ConnectionType.allCases.filter { $0.toString() == name }`, the filter both
   path-backend accessors apply to an interface's type name.
   */
  function CasesNamed(name: string): (r: seq<ConnectionType>)
    ensures |r| <= 1
    ensures forall i :: 0 <= i < |r| ==> ToString(r[i]) == name
  {
    NamedAtMostOne(name);
    Named(AllCases(), name)
  }

  /** Filtering the cases by a case's own string form yields exactly that case. */
  lemma CasesNamedRoundTrip(c: ConnectionType)
    ensures CasesNamed(ToString(c)) == [c]
  {
  }

  /** The first case of `cs` whose string form is `name`, if any. */
  function FirstNamed(cs: seq<ConnectionType>, name: string): (r: Option<ConnectionType>)
    ensures r.Some? ==> ToString(r.value) == name && r.value in cs
    ensures r.None? ==> forall i :: 0 <= i < |cs| ==> ToString(cs[i]) != name
  {
    if cs == [] then None
    else if ToString(cs[0]) == name then Some(cs[0])
    else FirstNamed(cs[1..], name)
  }

  /** When `cs[k]` is the first element carrying `name`, the search returns `cs[k]`. */
  lemma FirstNamedIsFirst(cs: seq<ConnectionType>, name: string, k: nat)
    requires k < |cs| && ToString(cs[k]) == name
    requires forall j :: 0 <= j < k ==> ToString(cs[j]) != name
    ensures FirstNamed(cs, name) == Some(cs[k])
  {
  }

  /**
   The matcher the path backend applies to an interface's type name: the
   first case, in `allCases` order, whose string form is `name`.
   `MatchIsFilterHead` shows it is the source's `filtered[0]` guarded by
   `filtered.count > 0`.
   */
  function Match(name: string): (r: Option<ConnectionType>)
    ensures r.Some? ==> ToString(r.value) == name
  {
    FirstNamed(AllCases(), name)
  }

  /** `Match` is the head of `CasesNamed`, when there is one. */
  lemma MatchIsFilterHead(name: string)
    ensures Match(name) == if |CasesNamed(name)| > 0 then Some(CasesNamed(name)[0]) else None
  {
  }

  /** Matching a case's string form gives back that case. */
  lemma MatchRoundTrip(c: ConnectionType)
    ensures Match(ToString(c)) == Some(c)
  {
  }

  /** A name matches no case exactly when it is not among the case strings. */
  lemma MatchNone(name: string)
    ensures Match(name).None? <==> name !in CasesCollection(Wifi)
    ensures Match(name).None? <==> forall c :: ToString(c) != name
  {
  }
}
