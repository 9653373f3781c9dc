/** Sums over finite sets, in whatever order the elements are visited. */
module SetSums {
  ghost function SumOver<T>(s: set<T>, f: T -> nat): nat {
    if s == {} then 0
    else
      var x :| x in s;
      f(x) + SumOver(s - {x}, f)
  }

  lemma {:induction false} SumPick<T>(s: set<T>, f: T -> nat, x: T)
    requires x in s
    ensures SumOver(s, f) == f(x) + SumOver(s - {x}, f)
    decreases |s|
  {
    var y :| y in s && SumOver(s, f) == f(y) + SumOver(s - {y}, f);
    if y != x {
      SumPick(s - {y}, f, x);
      SumPick(s - {x}, f, y);
      assert s - {y} - {x} == s - {x} - {y};
    }
  }

  lemma {:induction false} SumAdd<T>(s: set<T>, f: T -> nat, x: T)
    requires x !in s
    ensures SumOver(s + {x}, f) == SumOver(s, f) + f(x)
  {
    SumPick(s + {x}, f, x);
    assert s + {x} - {x} == s;
  }

  lemma {:induction false} SumSame<T>(s: set<T>, f: T -> nat, g: T -> nat)
    requires forall x :: x in s ==> f(x) == g(x)
    ensures SumOver(s, f) == SumOver(s, g)
    decreases |s|
  {
    if x :| x in s {
      SumSame(s - {x}, f, g);
      SumPick(s, f, x);
      SumPick(s, g, x);
    }
  }

  /** Adding or changing one element changes the sum by as much. */
  lemma {:induction false} SumUpdate<T>(s: set<T>, f: T -> nat, g: T -> nat, x: T)
    requires forall y :: y in s && y != x ==> f(y) == g(y)
    ensures SumOver(s + {x}, g) == SumOver(s, f) - (if x in s then f(x) else 0) + g(x)
  {
    SumPick(s + {x}, g, x);
    assert s + {x} - {x} == s - {x};
    SumSame(s - {x}, f, g);
    if x in s {
      SumPick(s, f, x);
    } else {
      assert s - {x} == s;
    }
  }

  lemma {:induction false} SumSplit<T>(a: set<T>, b: set<T>, f: T -> nat)
    requires a !! b
    ensures SumOver(a + b, f) == SumOver(a, f) + SumOver(b, f)
    decreases |a|
  {
    if x :| x in a {
      SumSplit(a - {x}, b, f);
      SumPick(a, f, x);
      SumPick(a + b, f, x);
      assert a + b - {x} == (a - {x}) + b;
    } else {
      assert a + b == b;
    }
  }

  // ---------- Sizes ----------

  lemma {:induction false} SubsetSize<T>(a: set<T>, b: set<T>)
    requires a <= b
    ensures |a| <= |b| && (a != b ==> |a| < |b|)
  {
    assert b == a + (b - a);
    assert a != b ==> b - a != {};
  }
}
