/**
 * The lightbox counter text. `updateModalContent` writes
 * `${currentImageIndex + 1} / ${currentImages.length}`; JavaScript renders a
 * non-negative integer as its decimal digits without leading zeros. The
 * parser below is the partner that shows the text determines both numbers.
 */
module CounterText {
  import opened Wrappers

  predicate IsDigit(c: char) {
    '0' <= c <= '9'
  }

  predicate AllDigits(s: string) {
    forall i :: 0 <= i < |s| ==> IsDigit(s[i])
  }

  function DigitChar(d: nat): (c: char)
    requires d < 10
    ensures IsDigit(c)
  {
    (d + '0' as int) as char
  }

  function DigitValue(c: char): (d: nat)
    requires IsDigit(c)
    ensures d < 10 && DigitChar(d) == c
  {
    c as int - '0' as int
  }

  /** The decimal rendering of `n`: at least one digit, and no leading zero unless `n` is 0. */
  function Decimal(n: nat): (s: string)
    ensures 1 <= |s| && AllDigits(s)
    ensures s[0] == '0' ==> n == 0
  {
    if n < 10 then [DigitChar(n)] else Decimal(n / 10) + [DigitChar(n % 10)]
  }

  /** The number a string of decimal digits denotes. */
  function ValueOf(s: string): nat
    requires AllDigits(s)
  {
    if s == [] then 0 else 10 * ValueOf(s[..|s| - 1]) + DigitValue(s[|s| - 1])
  }

  /** Reading back the decimal rendering of `n` gives `n`. */
  lemma {:induction false} ValueOfDecimal(n: nat)
    ensures ValueOf(Decimal(n)) == n
  {
    var s := Decimal(n);
    if n < 10 {
      assert s[..|s| - 1] == [];
    } else {
      ValueOfDecimal(n / 10);
      assert s[..|s| - 1] == Decimal(n / 10);
      assert DigitValue(s[|s| - 1]) == n % 10;
    }
  }

  /** The counter text for image `position` of `total`. */
  function Counter(position: nat, total: nat): string {
    Decimal(position) + " / " + Decimal(total)
  }

  /** Length of the longest all-digit prefix of `s`. */
  function DigitRun(s: string): (k: nat)
    ensures k <= |s| && AllDigits(s[..k])
    ensures k < |s| ==> !IsDigit(s[k])
  {
    if s == [] || !IsDigit(s[0]) then 0
    else
      var k := 1 + DigitRun(s[1..]);
      assert s[..k] == [s[0]] + s[1..][..k - 1];
      k
  }

  /** Reads a counter text `p / t` back into the pair `(p, t)`. */
  function ParseCounter(s: string): Option<(nat, nat)> {
    var k := DigitRun(s);
    if 0 < k && k + 3 < |s| && s[k..k + 3] == " / " && AllDigits(s[k + 3..]) then
      Some((ValueOf(s[..k]), ValueOf(s[k + 3..])))
    else
      None
  }

  lemma {:induction false} DigitRunOfPrefix(a: string, b: string)
    requires AllDigits(a)
    requires b != [] && !IsDigit(b[0])
    ensures DigitRun(a + b) == |a|
  {
    if a != [] {
      assert (a + b)[1..] == a[1..] + b;
      DigitRunOfPrefix(a[1..], b);
    }
  }

  /** The counter text names its position and total: parsing it gives both back. */
  lemma CounterRoundTrip(position: nat, total: nat)
    ensures ParseCounter(Counter(position, total)) == Some((position, total))
  {
    var p, t := Decimal(position), Decimal(total);
    var s := Counter(position, total);
    assert s == p + (" / " + t);
    DigitRunOfPrefix(p, " / " + t);
    var k := |p|;
    assert DigitRun(s) == k;
    assert s[..k] == p;
    assert s[k..k + 3] == " / ";
    assert s[k + 3..] == t;
    ValueOfDecimal(position);
    ValueOfDecimal(total);
  }

  /** Different positions or totals give different counter texts. */
  lemma CounterInjective(p1: nat, t1: nat, p2: nat, t2: nat)
    requires Counter(p1, t1) == Counter(p2, t2)
    ensures p1 == p2 && t1 == t2
  {
    CounterRoundTrip(p1, t1);
    CounterRoundTrip(p2, t2);
  }
}
