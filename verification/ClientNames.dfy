/** Unique client names: `base`, or `base@N` for the lowest free N.
    Models dedup_client_name in core/src/websocket/protocol.rs. */
module ClientNames {

  function Digit(d: nat): char
    requires d < 10
  {
    '0' + d as char
  }

  function Decimal(n: nat): string {
    if n < 10 then [Digit(n)] else Decimal(n / 10) + [Digit(n % 10)]
  }

  function Suffixed(base: string, k: nat): string { base + "@" + Decimal(k) }

  lemma {:induction false} DecimalInjective(m: nat, n: nat)
    requires Decimal(m) == Decimal(n)
    ensures m == n
  {
    var a, b := Decimal(m), Decimal(n);
    assert a[|a| - 1] == Digit(m % 10) && b[|b| - 1] == Digit(n % 10);
    if m >= 10 && n >= 10 {
      assert a[..|a| - 1] == Decimal(m / 10) && b[..|b| - 1] == Decimal(n / 10);
      DecimalInjective(m / 10, n / 10);
    } else {
      DecimalLength(m);
      DecimalLength(n);
    }
  }

  lemma {:induction false} DecimalLength(n: nat)
    ensures |Decimal(n)| >= 1
    ensures |Decimal(n)| == 1 <==> n < 10
  {
    if n >= 10 { DecimalLength(n / 10); }
  }

  lemma SuffixedInjective(base: string, j: nat, k: nat)
    requires Suffixed(base, j) == Suffixed(base, k)
    ensures j == k
  {
    var n := |base| + 1;
    assert Suffixed(base, j)[n..] == Decimal(j) && Suffixed(base, k)[n..] == Decimal(k);
    DecimalInjective(j, k);
  }

  lemma SuffixedLonger(base: string, k: nat)
    ensures Suffixed(base, k) != base
  {
    DecimalLength(k);
    assert |Suffixed(base, k)| > |base|;
  }

  /** The names in use that are `base@j` for some j from k on. */
  ghost function TakenFrom(names: set<string>, base: string, k: nat): set<string> {
    set n | n in names && exists j: nat :: j >= k && n == Suffixed(base, j)
  }

  lemma TakenShrinks(names: set<string>, base: string, k: nat)
    requires Suffixed(base, k) in names
    ensures |TakenFrom(names, base, k + 1)| < |TakenFrom(names, base, k)|
  {
    var small, big := TakenFrom(names, base, k + 1), TakenFrom(names, base, k);
    assert Suffixed(base, k) in big;
    if Suffixed(base, k) in small {
      var j: nat :| j >= k + 1 && Suffixed(base, k) == Suffixed(base, j);
      SuffixedInjective(base, j, k);
    }
    assert small <= big - {Suffixed(base, k)};
    Subset(small, big - {Suffixed(base, k)});
  }

  lemma {:induction false} Subset<T>(a: set<T>, b: set<T>)
    requires a <= b
    ensures |a| <= |b|
  {
    if a != {} {
      var x :| x in a;
      Subset(a - {x}, b - {x});
    }
  }

  /** The suffix search from `k` on.  It ends because each taken candidate is a
      different name in use. */
  function FreeSuffix(names: set<string>, base: string, k: nat): (j: nat)
    ensures j >= k && Suffixed(base, j) !in names
    ensures forall i | k <= i < j :: Suffixed(base, i) in names
    decreases |TakenFrom(names, base, k)|
  {
    if Suffixed(base, k) !in names then k
    else
      TakenShrinks(names, base, k);
      FreeSuffix(names, base, k + 1)
  }

  function Dedup(names: set<string>, base: string): string {
    if base !in names then base else Suffixed(base, FreeSuffix(names, base, 1))
  }

  /** `base`, `base@1` .. `base@(k-1)` in use are k different names. */
  lemma {:induction false} Pigeonhole(names: set<string>, base: string, k: nat)
    requires k >= 1
    requires base in names && forall i | 1 <= i < k :: Suffixed(base, i) in names
    ensures |names| >= k
  {
    if k > 1 {
      var last := Suffixed(base, k - 1);
      SuffixedLonger(base, k - 1);
      forall i | 1 <= i < k - 1 ensures Suffixed(base, i) in names - {last} {
        if Suffixed(base, i) == last { SuffixedInjective(base, i, k - 1); }
      }
      Pigeonhole(names - {last}, base, k - 1);
    }
  }

  /** The assigned name is free, is `base` whenever that is free, and otherwise the
      lowest free suffix, found within as many tries as there are names in use. */
  lemma {:induction false} DedupMeets(names: set<string>, base: string)
    ensures Dedup(names, base) !in names
    ensures base !in names ==> Dedup(names, base) == base
    ensures base in names ==>
              exists k: nat :: 1 <= k <= |names| && Dedup(names, base) == Suffixed(base, k)
                               && forall i | 1 <= i < k :: Suffixed(base, i) in names
  {
    if base in names {
      var k := FreeSuffix(names, base, 1);
      Pigeonhole(names, base, k);
      assert 1 <= k <= |names| && Dedup(names, base) == Suffixed(base, k);
    }
  }

  /** The source's loop: inserts candidates until one is new. */
  method DedupClientName(names: set<string>, base: string) returns (name: string, names': set<string>)
    ensures name == Dedup(names, base)
    ensures name !in names && names' == names + {name}
  {
    if base !in names {
      return base, names + {base};
    }
    var suffix := 1;
    while Suffixed(base, suffix) in names
      invariant suffix >= 1
      invariant FreeSuffix(names, base, suffix) == FreeSuffix(names, base, 1)
      decreases |TakenFrom(names, base, suffix)|
    {
      TakenShrinks(names, base, suffix);
      suffix := suffix + 1;
    }
    name := Suffixed(base, suffix);
    names' := names + {name};
  }
}
