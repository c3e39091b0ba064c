/** Generated object names: decimal rendering, separators, injectivity and prefixes. */
module Names {

  function Digit(d: nat): char
    requires d < 10
  {
    ('0' as int + d) as char
  }

  /** What `%d` prints for a non-negative number. */
  function Decimal(n: nat): string
  {
    if n < 10 then [Digit(n)] else Decimal(n / 10) + [Digit(n % 10)]
  }

  ghost predicate AllDigits(s: string)
  {
    forall k :: 0 <= k < |s| ==> '0' <= s[k] <= '9'
  }

  /** What `strconv.ParseInt` reads back from a string of digits. */
  function Parse(s: string): nat
    requires AllDigits(s)
  {
    if s == [] then 0 else Parse(s[..|s| - 1]) * 10 + (s[|s| - 1] as int - '0' as int)
  }

  lemma {:induction false} DecimalDigits(n: nat)
    ensures AllDigits(Decimal(n)) && |Decimal(n)| > 0
  {
    if n >= 10 { DecimalDigits(n / 10); }
  }

  /** A replica label written by the controller is read back as the index it was written for. */
  lemma {:induction false} ParseDecimal(n: nat)
    ensures AllDigits(Decimal(n)) && Parse(Decimal(n)) == n
  {
    DecimalDigits(n);
    if n >= 10 {
      ParseDecimal(n / 10);
      assert Decimal(n)[..|Decimal(n)| - 1] == Decimal(n / 10);
    }
  }

  lemma DecimalInjective(m: nat, n: nat)
    requires Decimal(m) == Decimal(n)
    ensures m == n
  {
    ParseDecimal(m);
    ParseDecimal(n);
  }

  /** Ten digits: every clock reading from September 2001 to November 2286. */
  ghost predicate UnixTime(t: int)
  {
    1_000_000_000 <= t < 10_000_000_000
  }

  function Pow10(k: nat): nat
  {
    if k == 0 then 1 else 10 * Pow10(k - 1)
  }

  lemma {:induction false} DecimalWidth(n: nat, k: nat)
    requires 1 <= k && n < Pow10(k) && (k == 1 || Pow10(k - 1) <= n)
    ensures |Decimal(n)| == k
  {
    if k == 1 {
      assert Pow10(1) == 10 * Pow10(0);
    } else {
      var p := Pow10(k - 2);
      assert Pow10(k - 1) == 10 * p && Pow10(k) == 10 * Pow10(k - 1);
      PositivePow10(k - 2);
      DecimalWidth(n / 10, k - 1);
    }
  }

  lemma {:induction false} PositivePow10(k: nat)
    ensures Pow10(k) >= 1
  {
    if k > 0 { PositivePow10(k - 1); }
  }

  lemma UnixTimeWidth(t: nat)
    requires UnixTime(t)
    ensures |Decimal(t)| == 10
  {
    assert Pow10(3) == 1000 by { assert Pow10(1) == 10 && Pow10(2) == 100; }
    assert Pow10(6) == 1_000_000 by { assert Pow10(4) == 10_000 && Pow10(5) == 100_000; }
    assert Pow10(9) == 1_000_000_000 by { assert Pow10(7) == 10_000_000 && Pow10(8) == 100_000_000; }
    assert Pow10(10) == 10_000_000_000;
    DecimalWidth(t, 10);
  }

  // ---------- Separators ----------

  /** Digits end at the first dash, so a dash-terminated number can be split off a prefix in one way. */
  lemma FirstDash(a: string, x: string, b: string, y: string)
    requires AllDigits(a) && AllDigits(b)
    requires a + "-" + x <= b + "-" + y
    ensures a == b && x <= y
  {
    var l, r := a + "-" + x, b + "-" + y;
    assert l[|a|] == '-' && r[|b|] == '-';
    assert forall k :: 0 <= k < |a| ==> l[k] == a[k];
    assert forall k :: 0 <= k < |b| ==> r[k] == b[k];
    assert |a| == |b|;
    assert a == l[..|a|] == r[..|a|] == b;
    assert x == l[|a| + 1..] && y == r[|a| + 1..];
    forall k | 0 <= k < |x| ensures x[k] == y[k] {
      assert x[k] == l[|a| + 1 + k] == r[|a| + 1 + k];
    }
  }

  /** A name that ends in `-<number>` decodes uniquely at its last dash. */
  lemma LastDash(x: string, a: string, y: string, b: string)
    requires AllDigits(a) && AllDigits(b)
    requires x + "-" + a == y + "-" + b
    ensures x == y && a == b
  {
    var s := x + "-" + a;
    assert s == y + "-" + b;
    assert s[|x|] == '-' && s[|y|] == '-';
    assert forall k :: |x| < k < |s| ==> s[k] == a[k - |x| - 1];
    assert forall k :: |y| < k < |s| ==> s[k] == b[k - |y| - 1];
    assert |x| == |y|;
    assert x == s[..|x|] == y;
    assert a == s[|x| + 1..] == b;
  }

  lemma StripPrefix(p: string, x: string, y: string)
    ensures p + x <= p + y <==> x <= y
  {
    assert forall k :: 0 <= k < |x| ==> (p + x)[|p| + k] == x[k];
    assert forall k :: 0 <= k < |y| ==> (p + y)[|p| + k] == y[k];
    if p + x <= p + y {
      assert forall k :: 0 <= k < |x| ==> x[k] == (p + x)[|p| + k] == (p + y)[|p| + k] == y[k];
    }
  }

  // ---------- ProvisionedInstance names ----------

  /** `%s-%s-%d-%d` of SpotInstanceJob, InstanceTemplate, replica index and Unix time. */
  function InstanceName(job: string, template: string, i: nat, t: nat): string
  {
    (job + "-" + template + "-") + (Decimal(i) + "-" + Decimal(t))
  }

  /** Exactly when one generated name is a prefix of another of the same job and template. */
  lemma InstanceNamePrefix(job: string, template: string, i: nat, t: nat, j: nat, u: nat)
    ensures InstanceName(job, template, i, t) <= InstanceName(job, template, j, u)
       <==> i == j && Decimal(t) <= Decimal(u)
  {
    var p := job + "-" + template + "-";
    var x, y := Decimal(i) + "-" + Decimal(t), Decimal(j) + "-" + Decimal(u);
    StripPrefix(p, x, y);
    DecimalDigits(i);
    DecimalDigits(j);
    if x <= y {
      FirstDash(Decimal(i), Decimal(t), Decimal(j), Decimal(u));
      DecimalInjective(i, j);
    } else if i == j && Decimal(t) <= Decimal(u) {
      StripPrefix(Decimal(i) + "-", Decimal(t), Decimal(u));
    }
  }

  /** With clock readings of equal width, the prefix search of a name finds no other generated name. */
  lemma InstanceNameExact(job: string, template: string, i: nat, t: nat, j: nat, u: nat)
    requires UnixTime(t) && UnixTime(u)
    ensures InstanceName(job, template, i, t) <= InstanceName(job, template, j, u) <==> i == j && t == u
  {
    InstanceNamePrefix(job, template, i, t, j, u);
    UnixTimeWidth(t);
    UnixTimeWidth(u);
    if i == j && Decimal(t) <= Decimal(u) {
      assert Decimal(t) == Decimal(u);
      DecimalInjective(t, u);
    }
  }

  /**
    Exactly when two generated names coincide, whatever jobs and templates they are for: the dash also occurs
    inside the two leading parts, so only these parts taken together can be told apart.
  */
  lemma InstanceNamesCoincide(a: string, b: string, i: nat, t: nat, c: string, d: string, j: nat, u: nat)
    ensures InstanceName(a, b, i, t) == InstanceName(c, d, j, u) <==> a + "-" + b == c + "-" + d && i == j && t == u
  {
    var x, y := a + "-" + b, c + "-" + d;
    DecimalDigits(t);
    DecimalDigits(u);
    DecimalDigits(i);
    DecimalDigits(j);
    assert InstanceName(a, b, i, t) == (x + "-" + Decimal(i)) + "-" + Decimal(t);
    assert InstanceName(c, d, j, u) == (y + "-" + Decimal(j)) + "-" + Decimal(u);
    if InstanceName(a, b, i, t) == InstanceName(c, d, j, u) {
      LastDash(x + "-" + Decimal(i), Decimal(t), y + "-" + Decimal(j), Decimal(u));
      LastDash(x, Decimal(i), y, Decimal(j));
      DecimalInjective(i, j);
      DecimalInjective(t, u);
    }
  }

  /** Two different SpotInstanceJobs with coinciding names. */
  lemma InstanceNameAmbiguousAcrossJobs(i: nat, t: nat)
    ensures InstanceName("a-b", "c", i, t) == InstanceName("a", "b-c", i, t)
  {
    assert "a-b" + "-" + "c" + "-" == "a" + "-" + "b-c" + "-";
  }

  // ---------- Job and CheckpointBackup names ----------

  /** `%s-replica-%d-%d`. */
  function JobName(job: string, i: nat, t: nat): string
  {
    (job + "-replica-" + Decimal(i)) + "-" + Decimal(t)
  }

  lemma JobNameInjective(job: string, i: nat, t: nat, j: nat, u: nat)
    requires JobName(job, i, t) == JobName(job, j, u)
    ensures i == j && t == u
  {
    DecimalDigits(t);
    DecimalDigits(u);
    LastDash(job + "-replica-" + Decimal(i), Decimal(t), job + "-replica-" + Decimal(j), Decimal(u));
    DecimalInjective(t, u);
    var p := job + "-replica-";
    assert Decimal(i) == (p + Decimal(i))[|p|..] == (p + Decimal(j))[|p|..] == Decimal(j);
    DecimalInjective(i, j);
  }

  /** `%s-%s-%d` of SpotInstanceJob, pod and Unix time. */
  function CheckpointName(job: string, pod: string, t: nat): string
  {
    (job + "-" + pod) + "-" + Decimal(t)
  }

  /** Checkpoint names carry their creation time. */
  lemma CheckpointNameTime(job: string, p: string, t: nat, q: string, u: nat)
    requires CheckpointName(job, p, t) == CheckpointName(job, q, u)
    ensures p == q && t == u
  {
    DecimalDigits(t);
    DecimalDigits(u);
    LastDash(job + "-" + p, Decimal(t), job + "-" + q, Decimal(u));
    DecimalInjective(t, u);
    assert p == (job + "-" + p)[|job| + 1..] == (job + "-" + q)[|job| + 1..] == q;
  }

  /** The three patterns, on numbers of one and of two digits. */
  lemma NamesSpelled(job: string, template: string, pod: string)
    ensures InstanceName(job, template, 3, 40) == job + "-" + template + "-3-40"
    ensures JobName(job, 3, 40) == job + "-replica-3-40"
    ensures CheckpointName(job, pod, 40) == job + "-" + pod + "-40"
  {
    assert Decimal(3) == "3" && Decimal(40) == Decimal(4) + "0" == "40";
  }
}
