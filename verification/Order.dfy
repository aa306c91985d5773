/** Orderings of rows: text columns, and sorted listings of finite sets. */
module Orders {

  // ---- the order of text columns

  predicate TextBefore(a: string, b: string) {
    b != [] && (a == [] || a[0] < b[0] || (a[0] == b[0] && TextBefore(a[1..], b[1..])))
  }

  lemma {:induction false} TextBeforeTotal(a: string, b: string)
    ensures TextBefore(a, b) || a == b || TextBefore(b, a)
    ensures !(TextBefore(a, b) && TextBefore(b, a)) && !TextBefore(a, a)
  {
    if a != [] {
      TextBeforeTotal(a[1..], a[1..]);
      if b != [] && a[0] == b[0] {
        TextBeforeTotal(a[1..], b[1..]);
        assert a == [a[0]] + a[1..] && b == [b[0]] + b[1..];
      }
    }
  }

  lemma {:induction false} TextBeforeTransitive(a: string, b: string, c: string)
    requires TextBefore(a, b) && TextBefore(b, c)
    ensures TextBefore(a, c)
  {
    if a != [] && a[0] == b[0] == c[0] {
      TextBeforeTransitive(a[1..], b[1..], c[1..]);
    }
  }

  /** `a` and `b` agree on the first `n` characters, and then `a` ends or has the smaller character. */
  predicate DiffersAt(a: string, b: string, n: nat) {
    && n <= |a| && n < |b| && a[..n] == b[..n]
    && (n == |a| || a[n] < b[n])
  }

  lemma FirstAgrees(a: string, b: string, n: nat)
    requires DiffersAt(a, b, n)
    ensures n > 0 ==> a != [] && a[0] == b[0]
  {
    if n > 0 {
      assert a[..n][0] == a[0] && b[..n][0] == b[0];
    }
  }

  /** The order is the lexicographic one. */
  lemma {:induction false} TextBeforeExactly(a: string, b: string)
    ensures TextBefore(a, b) <==> exists n: nat :: DiffersAt(a, b, n)
  {
    if a != [] && b != [] && a[0] == b[0] {
      TextBeforeExactly(a[1..], b[1..]);
      assert a == [a[0]] + a[1..] && b == [b[0]] + b[1..];
      forall n: nat | DiffersAt(a[1..], b[1..], n) ensures DiffersAt(a, b, n + 1) {
        assert a[..n + 1] == [a[0]] + a[1..][..n] && b[..n + 1] == [b[0]] + b[1..][..n];
      }
      forall n: nat | DiffersAt(a, b, n) ensures n > 0 && DiffersAt(a[1..], b[1..], n - 1) {
        if n > 0 {
          assert a[1..][..n - 1] == a[..n][1..] && b[1..][..n - 1] == b[..n][1..];
        }
      }
    } else {
      if TextBefore(a, b) {
        assert DiffersAt(a, b, 0);
      }
      forall n: nat | DiffersAt(a, b, n) ensures TextBefore(a, b) {
        FirstAgrees(a, b, n);
      }
    }
  }

  lemma {:induction false} FirstExists<T(!new)>(s: set<T>, notAfter: (T, T) -> bool) returns (first: T)
    requires s != {}
    requires forall x, y :: notAfter(x, y) || notAfter(y, x)
    requires forall x, y, z :: notAfter(x, y) && notAfter(y, z) ==> notAfter(x, z)
    ensures first in s && forall x <- s :: notAfter(first, x)
    decreases |s|
  {
    var x :| x in s;
    first := x;
    if s != {x} {
      assert s - {x} != {};
      var y := FirstExists(s - {x}, notAfter);
      if !notAfter(x, y) {
        first := y;
      }
      assert forall z <- s :: z == x || z in s - {x};
    }
  }

  /** `order` holds the elements of `s`, each once, none after a later one. */
  ghost predicate Sorted<T(!new)>(order: seq<T>, s: set<T>, notAfter: (T, T) -> bool) {
    && (forall x :: x in order <==> x in s)
    && (forall i, j | 0 <= i < j < |order| :: order[i] != order[j] && notAfter(order[i], order[j]))
  }

  /** Every finite set can be sorted. */
  lemma {:induction false} SortExists<T(!new)>(s: set<T>, notAfter: (T, T) -> bool) returns (order: seq<T>)
    requires forall x, y :: notAfter(x, y) || notAfter(y, x)
    requires forall x, y, z :: notAfter(x, y) && notAfter(y, z) ==> notAfter(x, z)
    ensures Sorted(order, s, notAfter)
    decreases |s|
  {
    if s == {} {
      order := [];
    } else {
      var first := FirstExists(s, notAfter);
      var rest := SortExists(s - {first}, notAfter);
      order := [first] + rest;
      forall i, j | 0 <= i < j < |order| ensures order[i] != order[j] && notAfter(order[i], order[j]) {
        assert rest[j - 1] in s - {first};
      }
    }
  }
}
