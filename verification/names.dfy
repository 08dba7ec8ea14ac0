/** Python's order on strings: code point by code point, a proper prefix first. */
module Names {

  predicate Less(a: string, b: string) {
    b != "" && (a == "" || a[0] < b[0] || (a[0] == b[0] && Less(a[1..], b[1..])))
  }

  lemma {:induction false} LessTotal(a: string, b: string)
    ensures Less(a, b) || a == b || Less(b, a)
    ensures !(Less(a, b) && Less(b, a)) && !Less(a, a)
  {
    if a != "" && b != "" && a[0] == b[0] {
      LessTotal(a[1..], b[1..]);
      assert a == [a[0]] + a[1..] && b == [b[0]] + b[1..];
    }
    if a != "" { LessTotalSelf(a); }
  }

  lemma {:induction false} LessTotalSelf(a: string)
    ensures !Less(a, a)
  {
    if a != "" { LessTotalSelf(a[1..]); }
  }

  lemma {:induction false} LessTransitive(a: string, b: string, c: string)
    requires Less(a, b) && Less(b, c)
    ensures Less(a, c)
  {
    if a != "" && a[0] == b[0] && b[0] == c[0] { LessTransitive(a[1..], b[1..], c[1..]); }
  }

  /** The strings agree up to the `k`-th place, and there the first one ends or has the smaller character. */
  predicate Splits(a: string, b: string, k: nat) {
    k <= |a| && k < |b| && a[..k] == b[..k] && (k == |a| || a[k] < b[k])
  }

  lemma SplitsLater(a: string, b: string, k: nat)
    requires a != "" && b != "" && a[0] == b[0]
    ensures Splits(a, b, k + 1) <==> Splits(a[1..], b[1..], k)
    ensures !Splits(a, b, 0)
  {
    if k < |a| && k < |b| {
      assert a[..k + 1] == [a[0]] + a[1..][..k] && b[..k + 1] == [b[0]] + b[1..][..k];
      assert a[..k + 1][1..] == a[1..][..k] && b[..k + 1][1..] == b[1..][..k];
    }
  }

  lemma SplitsAtOnce(a: string, b: string, k: nat)
    requires a == "" || b == "" || a[0] != b[0]
    ensures Splits(a, b, k) ==> k == 0
    ensures Splits(a, b, 0) <==> Less(a, b)
  {
    if 0 < k <= |a| && k < |b| { assert a[..k][0] != b[..k][0]; }
  }

  /** The order is the one in dictionaries. */
  lemma {:induction false} LessIs(a: string, b: string)
    ensures Less(a, b) <==> exists k: nat :: Splits(a, b, k)
  {
    if a != "" && b != "" && a[0] == b[0] {
      LessIs(a[1..], b[1..]);
      forall k: nat ensures (Splits(a, b, k + 1) <==> Splits(a[1..], b[1..], k)) && !Splits(a, b, 0) {
        SplitsLater(a, b, k);
      }
      if k: nat :| Splits(a, b, k) {
        var j: nat := k - 1;
        assert Splits(a[1..], b[1..], j);
      }
    } else {
      forall k: nat ensures Splits(a, b, k) ==> Splits(a, b, 0) { SplitsAtOnce(a, b, k); }
      SplitsAtOnce(a, b, 0);
    }
  }
}
