/** Import aliases of generated code (protoc-gen-psrpc/generator.go). */
module Aliases {
  /** strconv.Itoa on natural numbers. */
  function Itoa(n: nat): string {
    var digit := [('0' as int + n % 10) as char];
    if n < 10 then digit else Itoa(n / 10) + digit
  }

  function Atoi(s: string): int {
    if s == "" then 0 else Atoi(s[..|s| - 1]) * 10 + (s[|s| - 1] as int - '0' as int)
  }

  lemma {:induction false} AtoiItoa(n: nat)
    ensures Itoa(n) != "" && Atoi(Itoa(n)) == n
  {
    if n >= 10 {
      AtoiItoa(n / 10);
      assert Itoa(n)[..|Itoa(n)| - 1] == Itoa(n / 10);
    }
  }

  /** The names that are tried, in their order. */
  function Candidate(name: string, i: nat): string {
    if i == 0 then name else name + Itoa(i)
  }

  lemma CandidatesAreDistinct(name: string, i: nat, j: nat)
    requires Candidate(name, i) == Candidate(name, j)
    ensures i == j
  {
    AtoiItoa(i);
    AtoiItoa(j);
    assert i > 0 ==> Candidate(name, i)[|name|..] == Itoa(i);
    assert j > 0 ==> Candidate(name, j)[|name|..] == Itoa(j);
    assert i > 0 ==> |Candidate(name, i)| > |name|;
    assert j > 0 ==> |Candidate(name, j)| > |name|;
  }

  /** `alias` is the first candidate that is not in use. */
  ghost predicate IsFirstFree(name: string, inUse: set<string>, alias: string) {
    exists i :: IsFirstFreeAt(name, inUse, i) && Candidate(name, i) == alias
  }

  ghost predicate IsFirstFreeAt(name: string, inUse: set<string>, i: nat) {
    Candidate(name, i) !in inUse && forall j :: 0 <= j < i ==> Candidate(name, j) in inUse
  }

  function FirstCandidates(name: string, n: nat): set<string> {
    if n == 0 then {} else FirstCandidates(name, n - 1) + {Candidate(name, n - 1)}
  }

  lemma {:induction false} AllFirstCandidates(name: string, n: nat)
    ensures |FirstCandidates(name, n)| == n
    ensures forall c :: c in FirstCandidates(name, n) ==> exists j :: 0 <= j < n && Candidate(name, j) == c
  {
    if n > 0 {
      AllFirstCandidates(name, n - 1);
      if Candidate(name, n - 1) in FirstCandidates(name, n - 1) {
        var j :| 0 <= j < n - 1 && Candidate(name, j) == Candidate(name, n - 1);
        CandidatesAreDistinct(name, j, n - 1);
        assert false;
      }
    }
  }

  lemma {:induction false} SubsetIsSmaller(a: set<string>, b: set<string>)
    requires a <= b
    ensures |a| <= |b|
  {
    if a != {} {
      var x :| x in a;
      SubsetIsSmaller(a - {x}, b - {x});
    }
  }

  /** No more candidates can be in use than there are names in use. */
  lemma Pigeonhole(name: string, inUse: set<string>, n: nat)
    requires forall j :: 0 <= j < n ==> Candidate(name, j) in inUse
    ensures n <= |inUse|
  {
    AllFirstCandidates(name, n);
    SubsetIsSmaller(FirstCandidates(name, n), inUse);
  }

  class Generator {
    var pkgNamesInUse: set<string>
    var pkgs: map<string, string>

    constructor ()
      ensures pkgNamesInUse == {} && pkgs == map[] && Valid()
    {
      pkgNamesInUse, pkgs := {}, map[];
    }

    /** Packages never share an alias. */
    ghost predicate Valid()
      reads this
    {
      && (forall name :: name in pkgs ==> pkgs[name] in pkgNamesInUse)
      && (forall a, b :: a in pkgs && b in pkgs && pkgs[a] == pkgs[b] ==> a == b)
    }

    /** registerPackageName */
    method RegisterPackageName(name: string) returns (alias: string)
      requires Valid()
      modifies this
      ensures Valid()
      ensures IsFirstFree(name, old(pkgNamesInUse), alias)
      ensures pkgNamesInUse == old(pkgNamesInUse) + {alias} && pkgs == old(pkgs)[name := alias]
    {
      alias := name;
      var i := 1;
      while alias in pkgNamesInUse
        invariant i >= 1 && alias == Candidate(name, i - 1)
        invariant pkgNamesInUse == old(pkgNamesInUse) && pkgs == old(pkgs)
        invariant forall j :: 0 <= j < i - 1 ==> Candidate(name, j) in pkgNamesInUse
        decreases |pkgNamesInUse| - i
      {
        Pigeonhole(name, pkgNamesInUse, i);
        alias := name + Itoa(i);
        i := i + 1;
      }
      assert IsFirstFreeAt(name, pkgNamesInUse, i - 1);
      pkgNamesInUse := pkgNamesInUse + {alias};
      pkgs := pkgs[name := alias];
    }
  }

  /** There is always exactly one first free name. */
  lemma FirstFreeExists(name: string, inUse: set<string>) returns (alias: string)
    ensures IsFirstFree(name, inUse, alias)
    ensures forall other :: IsFirstFree(name, inUse, other) ==> other == alias
  {
    var i := 0;
    while Candidate(name, i) in inUse
      invariant forall j :: 0 <= j < i ==> Candidate(name, j) in inUse
      decreases |inUse| - i
    {
      Pigeonhole(name, inUse, i + 1);
      i := i + 1;
    }
    assert IsFirstFreeAt(name, inUse, i);
    alias := Candidate(name, i);
    forall other | IsFirstFree(name, inUse, other) ensures other == alias {
      var k :| IsFirstFreeAt(name, inUse, k) && Candidate(name, k) == other;
      assert k == i;
    }
  }

  /** The names in use after the first `n` registrations. */
  function InUse(inUse: set<string>, aliases: seq<string>, n: nat): set<string>
    requires n <= |aliases|
  {
    if n == 0 then inUse else InUse(inUse, aliases, n - 1) + {aliases[n - 1]}
  }

  /** What a sequence of registrations returns. */
  ghost predicate AreAliases(names: seq<string>, inUse: set<string>, aliases: seq<string>) {
    && |aliases| == |names|
    && forall k :: 0 <= k < |names| ==> IsFirstFree(names[k], InUse(inUse, aliases, k), aliases[k])
  }

  lemma {:induction false} InUseGrows(inUse: set<string>, aliases: seq<string>, n: nat)
    requires n <= |aliases|
    ensures inUse <= InUse(inUse, aliases, n)
    ensures forall k :: 0 <= k < n ==> aliases[k] in InUse(inUse, aliases, n)
  {
    if n > 0 {
      InUseGrows(inUse, aliases, n - 1);
    }
  }

  /** Whatever is registered, the same name again included, the aliases all differ. */
  lemma AliasesAreDistinct(names: seq<string>, inUse: set<string>, aliases: seq<string>, j: nat, k: nat)
    requires AreAliases(names, inUse, aliases) && j < k < |names|
    ensures aliases[j] != aliases[k] && aliases[k] !in inUse
  {
    InUseGrows(inUse, aliases, k);
    assert IsFirstFree(names[k], InUse(inUse, aliases, k), aliases[k]);
  }

  /** Every sequence of registrations has aliases, so the lemma above is never empty. */
  lemma {:induction false} AliasesExist(names: seq<string>, inUse: set<string>) returns (aliases: seq<string>)
    ensures AreAliases(names, inUse, aliases)
  {
    hide IsFirstFree, InUse;
    if names == [] {
      aliases := [];
    } else {
      var last := |names| - 1;
      var before := AliasesExist(names[..last], inUse);
      var alias := FirstFreeExists(names[last], InUse(inUse, before, last));
      aliases := before + [alias];
      forall k | 0 <= k < |names|
        ensures IsFirstFree(names[k], InUse(inUse, aliases, k), aliases[k])
      {
        InUsePrefix(inUse, before, [alias], k);
        assert k < last ==> IsFirstFree(names[..last][k], InUse(inUse, before, k), before[k]);
      }
    }
  }

  lemma {:induction false} InUsePrefix(inUse: set<string>, a: seq<string>, b: seq<string>, n: nat)
    requires n <= |a|
    ensures InUse(inUse, a + b, n) == InUse(inUse, a, n)
  {
    if n > 0 {
      InUsePrefix(inUse, a, b, n - 1);
    }
  }
}
