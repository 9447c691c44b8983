/** Instants kept as text: comparing `isoformat()` strings compares the instants
    (section 5.1 of RFC 3339), which is what the SQL predicates rely on. */
module IsoTime {
  import opened Text

  /** A UTC instant; `datetime` keeps whole microseconds. */
  datatype Instant = Instant(year: nat, month: nat, day: nat, hour: nat, minute: nat, second: nat, micro: nat)

  predicate Valid(t: Instant) {
    1 <= t.year <= 9999 && 1 <= t.month <= 12 && 1 <= t.day <= 31 && t.hour < 24 && t.minute < 60 && t.second < 60 && t.micro < 1000000
  }

  function Parts(t: Instant): seq<nat> { [t.year, t.month, t.day, t.hour, t.minute, t.second] }

  /** Chronological order of fields, the largest unit first. */
  predicate Smaller(a: seq<nat>, b: seq<nat>)
    requires |a| == |b|
  {
    a != [] && (a[0] < b[0] || (a[0] == b[0] && Smaller(a[1..], b[1..])))
  }

  predicate Earlier(a: Instant, b: Instant) {
    Smaller(Parts(a), Parts(b)) || (Parts(a) == Parts(b) && a.micro < b.micro)
  }

  function Power(width: nat): nat { if width == 0 then 1 else 10 * Power(width - 1) }

  function Digits(n: nat, width: nat): (s: string)
    ensures |s| == width
  {
    if width == 0 then [] else Digits(n / 10, width - 1) + [('0' as int + n % 10) as char]
  }

  /** Fields in fixed width, each followed by its separator except the last. */
  function Join(values: seq<nat>, widths: seq<nat>, separators: string): string
    requires |values| == |widths| == |separators|
  {
    if values == [] then [] else Digits(values[0], widths[0]) + [separators[0]] + Join(values[1..], widths[1..], separators[1..])
  }

  const WIDTHS: seq<nat> := [4, 2, 2, 2, 2]

  /** Up to the second, which has no separator behind it. */
  function Head(t: Instant): string {
    Join([t.year, t.month, t.day, t.hour, t.minute], WIDTHS, "--T::") + Digits(t.second, 2)
  }

  /** The fraction is written only when it is not zero. */
  function Fraction(micro: nat): string { if micro == 0 then "" else "." + Digits(micro, 6) }

  function Iso(t: Instant): string { Head(t) + (Fraction(t.micro) + "+00:00") }

  /** The form of `now_iso` in the control pool, with `Z` for the offset. */
  function IsoZ(t: Instant): string { Head(t) + (Fraction(t.micro) + "Z") }

  // --------------------------------------------------------------- text and numbers

  /** Behind prefixes of one length, the prefixes decide unless they are equal. */
  lemma {:induction false} LessAfter(p: string, q: string, x: string, y: string)
    requires |p| == |q|
    ensures Less(p + x, q + y) <==> Less(p, q) || (p == q && Less(x, y))
  {
    if p == [] {
      assert p + x == x && q + y == y;
    } else {
      assert (p + x)[1..] == p[1..] + x && (q + y)[1..] == q[1..] + y;
      LessAfter(p[1..], q[1..], x, y);
      assert p == [p[0]] + p[1..] && q == [q[0]] + q[1..];
    }
  }

  /** Numbers of one width compare as their digits do. */
  lemma {:induction false} DigitsOrder(a: nat, b: nat, width: nat)
    requires a < Power(width) && b < Power(width)
    ensures Less(Digits(a, width), Digits(b, width)) <==> a < b
    ensures Digits(a, width) == Digits(b, width) <==> a == b
  {
    if width > 0 {
      DigitsOrder(a / 10, b / 10, width - 1);
      var (p, q) := (Digits(a / 10, width - 1), Digits(b / 10, width - 1));
      var (x, y) := ([('0' as int + a % 10) as char], [('0' as int + b % 10) as char]);
      LessAfter(p, q, x, y);
      assert Digits(a, width) == p + x && Digits(b, width) == q + y;
      assert (p + x)[..width - 1] == p && (q + y)[..width - 1] == q;
      assert (p + x)[width - 1] == x[0] && (q + y)[width - 1] == y[0];
    }
  }

  predicate Fits(values: seq<nat>, widths: seq<nat>)
    requires |values| == |widths|
  {
    forall i | 0 <= i < |values| :: values[i] < Power(widths[i])
  }

  /** A field, its separator and the rest. */
  lemma FieldOrder(p: string, q: string, s: string, x: string, y: string)
    requires |p| == |q| && |x| == |y|
    ensures Less(p + s + x, q + s + y) <==> Less(p, q) || (p == q && Less(x, y))
    ensures p + s + x == q + s + y <==> p == q && x == y
  {
    assert p + s + x == p + (s + x) && q + s + y == q + (s + y);
    LessAfter(p, q, s + x, s + y);
    LessAfter(s, s, x, y);
    LessIrreflexive(s);
    assert (p + (s + x))[..|p|] == p && (q + (s + y))[..|q|] == q;
    assert (p + s + x)[|p| + |s|..] == x && (q + s + y)[|q| + |s|..] == y;
  }

  lemma {:induction false} JoinOrder(a: seq<nat>, b: seq<nat>, widths: seq<nat>, separators: string)
    requires |a| == |b| == |widths| == |separators| && Fits(a, widths) && Fits(b, widths)
    ensures |Join(a, widths, separators)| == |Join(b, widths, separators)|
    ensures Less(Join(a, widths, separators), Join(b, widths, separators)) <==> Smaller(a, b)
    ensures Join(a, widths, separators) == Join(b, widths, separators) <==> a == b
  {
    if a != [] {
      JoinOrder(a[1..], b[1..], widths[1..], separators[1..]);
      DigitsOrder(a[0], b[0], widths[0]);
      var (p, q) := (Digits(a[0], widths[0]), Digits(b[0], widths[0]));
      var (x, y) := (Join(a[1..], widths[1..], separators[1..]), Join(b[1..], widths[1..], separators[1..]));
      FieldOrder(p, q, [separators[0]], x, y);
      assert a == [a[0]] + a[1..] && b == [b[0]] + b[1..];
      hide Digits, Join;
    }
  }

  lemma HeadOrder(a: Instant, b: Instant)
    requires Valid(a) && Valid(b)
    ensures |Head(a)| == |Head(b)|
    ensures Less(Head(a), Head(b)) <==> Smaller(Parts(a), Parts(b))
    ensures Head(a) == Head(b) <==> Parts(a) == Parts(b)
  {
    var (u, v) := ([a.year, a.month, a.day, a.hour, a.minute], [b.year, b.month, b.day, b.hour, b.minute]);
    assert Power(0) == 1 && Power(1) == 10 && Power(2) == 100 && Power(3) == 1000 && Power(4) == 10000;
    JoinOrder(u, v, WIDTHS, "--T::");
    DigitsOrder(a.second, b.second, 2);
    LessAfter(Join(u, WIDTHS, "--T::"), Join(v, WIDTHS, "--T::"), Digits(a.second, 2), Digits(b.second, 2));
    SmallerSnoc(u, v, a.second, b.second);
    assert Parts(a) == u + [a.second] && Parts(b) == v + [b.second];
    var n := |Join(u, WIDTHS, "--T::")|;
    assert Head(a)[..n] == Join(u, WIDTHS, "--T::") && Head(b)[..n] == Join(v, WIDTHS, "--T::");
    assert Head(a)[n..] == Digits(a.second, 2) && Head(b)[n..] == Digits(b.second, 2);
    assert (u + [a.second])[..5] == u && (v + [b.second])[..5] == v;
    assert (u + [a.second])[5] == a.second && (v + [b.second])[5] == b.second;
  }

  lemma {:induction false} SmallerSnoc(a: seq<nat>, b: seq<nat>, x: nat, y: nat)
    requires |a| == |b|
    ensures Smaller(a + [x], b + [y]) <==> Smaller(a, b) || (a == b && x < y)
  {
    if a == [] {
      assert (a + [x])[1..] == [] && (b + [y])[1..] == [];
    } else {
      assert (a + [x])[1..] == a[1..] + [x] && (b + [y])[1..] == b[1..] + [y];
      SmallerSnoc(a[1..], b[1..], x, y);
      assert a == [a[0]] + a[1..] && b == [b[0]] + b[1..];
    }
  }

  /** Fractions behind equal seconds: `+` sorts before `.`, so an absent fraction is the least. */
  lemma FractionOrder(m: nat, n: nat, suffix: string)
    requires m < 1000000 && n < 1000000 && suffix != []
    ensures m > 0 && n > 0 ==> (Less(Fraction(m) + suffix, Fraction(n) + suffix) <==> m < n)
    ensures m == 0 && n > 0 ==> (Less(Fraction(m) + suffix, Fraction(n) + suffix) <==> suffix[0] < '.' || (suffix[0] == '.' && Less(suffix[1..], Digits(n, 6) + suffix)))
    ensures m > 0 && n == 0 ==> (Less(Fraction(m) + suffix, Fraction(n) + suffix) <==> '.' < suffix[0] || (suffix[0] == '.' && Less(Digits(m, 6) + suffix, suffix[1..])))
    ensures m == n == 0 ==> !Less(Fraction(m) + suffix, Fraction(n) + suffix)
  {
    LessIrreflexive(suffix);
    assert "" + suffix == suffix;
    assert Power(0) == 1 && Power(1) == 10 && Power(2) == 100 && Power(3) == 1000 && Power(4) == 10000 && Power(5) == 100000 && Power(6) == 1000000;
    if m > 0 {
      assert Fraction(m) + suffix == "." + (Digits(m, 6) + suffix);
      assert ("." + (Digits(m, 6) + suffix))[1..] == Digits(m, 6) + suffix;
    }
    if n > 0 {
      assert Fraction(n) + suffix == "." + (Digits(n, 6) + suffix);
      assert ("." + (Digits(n, 6) + suffix))[1..] == Digits(n, 6) + suffix;
    }
    if m > 0 && n > 0 {
      LessAfter(".", ".", Digits(m, 6) + suffix, Digits(n, 6) + suffix);
      LessIrreflexive(".");
      LessAfter(Digits(m, 6), Digits(n, 6), suffix, suffix);
      DigitsOrder(m, n, 6);
    }
  }

  // ------------------------------------------------------------------------ results

  /** Text order of `isoformat()` strings is time order, with or without a fraction. */
  lemma TextOrderIsTimeOrder(a: Instant, b: Instant)
    requires Valid(a) && Valid(b)
    ensures Less(Iso(a), Iso(b)) <==> Earlier(a, b)
  {
    HeadOrder(a, b);
    LessAfter(Head(a), Head(b), Fraction(a.micro) + "+00:00", Fraction(b.micro) + "+00:00");
    FractionOrder(a.micro, b.micro, "+00:00");
  }

  /** Equal text is the same instant, so `<=` and `<` decide alike on both sides. */
  lemma SameTextIsSameTime(a: Instant, b: Instant)
    requires Valid(a) && Valid(b)
    ensures Iso(a) == Iso(b) <==> a == b
  {
    TextOrderIsTimeOrder(a, b);
    TextOrderIsTimeOrder(b, a);
    LessIrreflexive(Iso(a));
    PartsAre(a, b);
    if a != b { EarlierTotal(a, b); }
  }

  lemma PartsAre(a: Instant, b: Instant)
    ensures Parts(a) == Parts(b) && a.micro == b.micro ==> a == b
  {
    if Parts(a) == Parts(b) {
      assert Parts(a)[0] == Parts(b)[0] && Parts(a)[1] == Parts(b)[1] && Parts(a)[2] == Parts(b)[2];
      assert Parts(a)[3] == Parts(b)[3] && Parts(a)[4] == Parts(b)[4] && Parts(a)[5] == Parts(b)[5];
    }
  }

  lemma {:induction false} SmallerTotal(a: seq<nat>, b: seq<nat>)
    requires |a| == |b|
    ensures Smaller(a, b) || Smaller(b, a) || a == b
  {
    if a != [] {
      SmallerTotal(a[1..], b[1..]);
      assert a == [a[0]] + a[1..] && b == [b[0]] + b[1..];
    }
  }

  lemma EarlierTotal(a: Instant, b: Instant)
    requires a != b
    ensures Earlier(a, b) || Earlier(b, a)
  {
    SmallerTotal(Parts(a), Parts(b));
    PartsAre(a, b);
  }

  predicate SameSecond(a: Instant, b: Instant) { Parts(a) == Parts(b) }

  /** With `Z` the order is right exactly unless the two instants share a second and
      just one of them has no fraction: there it is reversed. */
  lemma ZuluOrderExact(a: Instant, b: Instant)
    requires Valid(a) && Valid(b)
    ensures (Less(IsoZ(a), IsoZ(b)) <==> Earlier(a, b)) <==> !(SameSecond(a, b) && (a.micro == 0) != (b.micro == 0))
  {
    HeadOrder(a, b);
    LessAfter(Head(a), Head(b), Fraction(a.micro) + "Z", Fraction(b.micro) + "Z");
    FractionOrder(a.micro, b.micro, "Z");
    SmallerIrreflexive(Parts(a));
    LessIrreflexive(Head(a));
  }

  lemma {:induction false} SmallerIrreflexive(a: seq<nat>)
    ensures !Smaller(a, a)
  {
    if a != [] { SmallerIrreflexive(a[1..]); }
  }

  /** One microsecond into a second sorts before the second itself. */
  lemma ZuluReverses()
    ensures var (whole, later) := (Instant(2026, 7, 1, 12, 0, 0, 0), Instant(2026, 7, 1, 12, 0, 0, 1));
      Earlier(whole, later) && Less(IsoZ(later), IsoZ(whole))
  {
    var (whole, later) := (Instant(2026, 7, 1, 12, 0, 0, 0), Instant(2026, 7, 1, 12, 0, 0, 1));
    HeadOrder(later, whole);
    LessAfter(Head(later), Head(whole), Fraction(1) + "Z", Fraction(0) + "Z");
    FractionOrder(1, 0, "Z");
  }
}
