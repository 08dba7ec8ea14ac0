/** The name an archived room gets: the first in a fixed sequence that no channel has. */
module ArchiveNames {
  import opened Text

  /** The `n`-th candidate: a suffix to the old name, numbered from the second on. */
  function ArchiveName(base: string, n: nat): string
    requires n >= 1
  {
    base + "-archived" + if n == 1 then "" else "#" + Decimal(n)
  }

  lemma CandidatesDiffer(base: string, n: nat, k: nat)
    requires 1 <= n < k
    ensures ArchiveName(base, n) != ArchiveName(base, k)
  {
    var stem := |base + "-archived"|;
    var x, y := ArchiveName(base, n)[stem..], ArchiveName(base, k)[stem..];
    assert y == "#" + Decimal(k) && y[1..] == Decimal(k);
    if n > 1 {
      assert x == "#" + Decimal(n) && x[1..] == Decimal(n);
      DecimalRoundTrip(n);
      DecimalRoundTrip(k);
    } else {
      assert x == "";
    }
  }

  /** Every taken candidate from the `n`-th on is among `left`. */
  ghost predicate Remaining(taken: set<string>, left: set<string>, base: string, n: nat)
    requires n >= 1
  {
    forall k :: k >= n && ArchiveName(base, k) in taken ==> ArchiveName(base, k) in left
  }

  lemma OneFewer(taken: set<string>, left: set<string>, base: string, n: nat)
    requires n >= 1 && Remaining(taken, left, base, n)
    ensures Remaining(taken, left - {ArchiveName(base, n)}, base, n + 1)
  {
    forall k | k >= n + 1 && ArchiveName(base, k) in taken
      ensures ArchiveName(base, k) in left - {ArchiveName(base, n)}
    {
      CandidatesDiffer(base, n, k);
    }
  }

  /** The first candidate from the `n`-th on that is not taken. */
  function FirstFree(taken: set<string>, ghost left: set<string>, base: string, n: nat): (r: string)
    requires n >= 1 && Remaining(taken, left, base, n)
    ensures r !in taken && base + "-archived" <= r
    ensures exists k :: k >= n && r == ArchiveName(base, k) && forall i :: n <= i < k ==> ArchiveName(base, i) in taken
    decreases left
  {
    if ArchiveName(base, n) !in taken then ArchiveName(base, n)
    else
      OneFewer(taken, left, base, n);
      FirstFree(taken, left - {ArchiveName(base, n)}, base, n + 1)
  }

  /** The name a channel called `base` is archived under while the names `taken` are in use. */
  function NextArchiveName(taken: set<string>, base: string): (r: string)
    ensures r !in taken && r != base && base + "-archived" <= r
    ensures r == base + "-archived" || exists k :: k >= 2 && r == base + "-archived#" + Decimal(k)
    ensures exists k :: k >= 1 && r == ArchiveName(base, k) && forall i :: 1 <= i < k ==> ArchiveName(base, i) in taken
  {
    var r := FirstFree(taken, taken, base, 1);
    CandidateForm(base, r);
    r
  }

  lemma CandidateForm(base: string, r: string)
    requires exists k :: k >= 1 && r == ArchiveName(base, k)
    ensures r == base + "-archived" || exists k :: k >= 2 && r == base + "-archived#" + Decimal(k)
  {
    var k :| k >= 1 && r == ArchiveName(base, k);
    if k >= 2 { assert r == base + "-archived#" + Decimal(k); }
  }

  lemma {:induction false} FirstFreeIs(taken: set<string>, left: set<string>, base: string, n: nat, k: nat)
    requires 1 <= n <= k && Remaining(taken, left, base, n)
    requires ArchiveName(base, k) !in taken && forall i :: n <= i < k ==> ArchiveName(base, i) in taken
    ensures FirstFree(taken, left, base, n) == ArchiveName(base, k)
    decreases k - n
  {
    if n < k {
      OneFewer(taken, left, base, n);
      FirstFreeIs(taken, left - {ArchiveName(base, n)}, base, n + 1, k);
    }
  }

  /** The search: the plain suffix, then numbered ones from 2 on until one is free. */
  method FindArchiveName(taken: set<string>, base: string) returns (name: string)
    ensures name == NextArchiveName(taken, base)
  {
    name := base + "-archived";
    if name !in taken {
      assert name == ArchiveName(base, 1);
      FirstFreeIs(taken, taken, base, 1, 1);
      return;
    }
    var n := 2;
    name := base + "-archived" + "#" + Decimal(n);
    ghost var left := taken - {ArchiveName(base, 1)};
    OneFewer(taken, taken, base, 1);
    assert base + "-archived" == ArchiveName(base, 1);
    while name in taken
      invariant n >= 2 && name == ArchiveName(base, n) && Remaining(taken, left, base, n)
      invariant forall i :: 1 <= i < n ==> ArchiveName(base, i) in taken
      decreases left
    {
      OneFewer(taken, left, base, n);
      left := left - {name};
      n := n + 1;
      name := base + "-archived" + "#" + Decimal(n);
    }
    FirstFreeIs(taken, taken, base, 1, n);
  }
}
