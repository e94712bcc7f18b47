/** Shared value types. */
module Base {

  datatype Option<+T> = None | Some(value: T)

  const INT32_MAX := 0x7FFF_FFFF

  /** Go's conversion of an int to an int32: the value modulo 2^32, as a signed number. */
  function ToInt32(x: int): (r: int)
    ensures -0x8000_0000 <= r <= INT32_MAX
    ensures -0x8000_0000 <= x <= INT32_MAX ==> r == x
    ensures (x - r) % 0x1_0000_0000 == 0
  {
    var m := x % 0x1_0000_0000;
    if m <= INT32_MAX then m else m - 0x1_0000_0000
  }

  /** The cardinality of a set bounds that of its subsets. */
  lemma {:induction false} SubsetCard<T>(a: set<T>, b: set<T>)
    requires a <= b
    ensures |a| <= |b|
    ensures |a| == |b| ==> a == b
    decreases a
  {
    if a == {} {
      if |b| > 0 {
      }
    } else {
      var x :| x in a;
      SubsetCard(a - {x}, b - {x});
    }
  }

  /** An injection into `b` shows that `a` is no larger than `b`. */
  lemma {:induction false} InjectionCard<S, T>(a: set<S>, b: set<T>, f: S -> T)
    requires forall x :: x in a ==> f(x) in b
    requires forall x, y :: x in a && y in a && f(x) == f(y) ==> x == y
    ensures |a| <= |b|
    decreases a
  {
    if a != {} {
      var x :| x in a;
      InjectionCard(a - {x}, b - {f(x)}, f);
    }
  }

  /** Mentioned where a proof wants to know what a predicate with this trigger says. The trigger keeps the
      content out of proofs that do not ask for it. */
  ghost predicate Detail<T(!new)>(x: T) { true }

  /** `|a| == n`. */
  ghost predicate Counts<T(!new)>(a: set<T>, n: int) {
    forall x {:trigger Detail(x)} :: x == a ==> |x| == n
  }

  /** `|a| <= n`. */
  ghost predicate Within<T(!new)>(a: set<T>, n: int) {
    forall x {:trigger Detail(x)} :: x == a ==> |x| <= n
  }

  /** `|b| + n <= |a|`. */
  ghost predicate Covers<S(!new), T(!new)>(a: set<S>, b: set<T>, n: int) {
    forall x {:trigger Detail(x)} :: x == a ==> |b| + n <= |x|
  }

  lemma Counted<T(!new)>(a: set<T>, n: int)
    ensures Counts(a, n) <==> |a| == n
    ensures Within(a, n) <==> |a| <= n
  {
    assert Detail(a);
  }

  lemma CountsMore<T(!new)>(a: set<T>, n: int, b: set<T>, m: int)
    requires Counts(a, n) && Counts(b, m) && a !! b
    ensures Counts(a + b, n + m)
  {
    Counted(a, n);
    Counted(b, m);
    assert |a + b| == |a| + |b|;
  }

  lemma CountsOne<T(!new)>(x: T)
    ensures Counts({x}, 1)
  {
  }

  lemma CountsNone<T(!new)>()
    ensures Counts<T>({}, 0) && Within<T>({}, 0)
  {
  }

  lemma CoversOne<S(!new), T(!new)>(x: S, b: set<T>, n: int)
    requires |b| + n <= 1
    ensures Covers({x}, b, n)
  {
  }

  lemma CoversMore<S(!new), T(!new)>(a: set<S>, b: set<T>, n: int, x: S, c: set<T>, m: int)
    requires Covers(a, b, n) && Covers({x}, c, m) && x !in a
    ensures Covers(a + {x}, b + c, n + m)
  {
    assert Detail(a) && Detail({x}) && Detail(a + {x});
    assert |b + c| <= |b| + |c|;
  }

  lemma WithinMore<T(!new)>(a: set<T>, n: int, b: set<T>, m: int, all: set<T>)
    requires Within(a, n) && Within(b, m) && all <= a + b
    ensures Within(all, n + m)
  {
    Counted(a, n);
    Counted(b, m);
    SubsetCard(all, a + b);
  }
}
