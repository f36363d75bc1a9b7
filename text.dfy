/** The few pieces of Go's strings and fmt packages that the logger relies on. */
module Text {
  /** A value passed to fmt through an `...interface{}` parameter; left opaque. */
  type Value

  /** fmt.Sprintln over the given operands; left uninterpreted. */
  const Sprintln: seq<Value> -> string

  /** fmt.Sprintf with the given format and operands; left uninterpreted. */
  const Sprintf: (string, seq<Value>) -> string

  /** strings.Join: the elements in order, with sep between neighbours. */
  function Join(elems: seq<string>, sep: string): (r: string)
    ensures |elems| == 0 ==> r == ""
    ensures |elems| >= 1 ==> |r| >= |elems[0]| && r[..|elems[0]|] == elems[0]
    ensures |elems| == 1 ==> r == elems[0]
    decreases |elems|
  {
    if |elems| == 0 then ""
    else if |elems| == 1 then elems[0]
    else elems[0] + sep + Join(elems[1..], sep)
  }

  /** Joining two non-empty lists is joining each and putting one sep between. */
  lemma {:induction false} JoinConcat(xs: seq<string>, ys: seq<string>, sep: string)
    requires xs != [] && ys != []
    ensures Join(xs + ys, sep) == Join(xs, sep) + sep + Join(ys, sep)
    decreases |xs|
  {
    if |xs| == 1 {
      assert (xs + ys)[1..] == ys;
    } else {
      assert (xs + ys)[1..] == xs[1..] + ys;
      JoinConcat(xs[1..], ys, sep);
    }
  }

  /** The ASCII character of a decimal digit. */
  function DigitChar(d: int): (c: char)
    requires 0 <= d <= 9
    ensures '0' <= c <= '9'
    ensures c as int - '0' as int == d
  {
    ('0' as int + d) as char
  }

  /** The decimal digits of n, most significant first, with no leading zero. */
  function Decimal(n: nat): (s: string)
    ensures 1 <= |s|
    ensures n < 10 ==> |s| == 1
    ensures forall k :: 0 <= k < |s| ==> '0' <= s[k] <= '9'
    ensures n >= 10 ==> |s| >= 2
    ensures n >= 100 ==> |s| >= 3
    ensures n < 100 ==> |s| <= 2
    decreases n
  {
    if n < 10 then [DigitChar(n)] else Decimal(n / 10) + [DigitChar(n % 10)]
  }

  /**
   * fmt's "%02d": the decimal form of i, left-padded with zeros to two
   * characters; a sign counts towards the width and larger numbers are not cut.
   */
  function ZeroPad2(i: int): (r: string)
    ensures |r| >= 2
    ensures 0 <= i <= 99 ==> |r| == 2
    ensures i >= 100 ==> |r| >= 3
  {
    if i < 0 then "-" + Decimal(-i)
    else if i < 10 then "0" + Decimal(i)
    else Decimal(i)
  }

  /** On 0..99 the padded form is exactly the tens digit then the units digit. */
  lemma ZeroPad2TwoDigits(i: int)
    requires 0 <= i <= 99
    ensures ZeroPad2(i) == [DigitChar(i / 10), DigitChar(i % 10)]
  {
    if i >= 10 {
      assert Decimal(i / 10) == [DigitChar(i / 10)];
    }
  }

  /** The padded form of 0..99 can be read back: it determines the number. */
  lemma ZeroPad2Injective(i: int, j: int)
    requires 0 <= i <= 99 && 0 <= j <= 99
    requires ZeroPad2(i) == ZeroPad2(j)
    ensures i == j
  {
    ZeroPad2TwoDigits(i);
    ZeroPad2TwoDigits(j);
    assert DigitChar(i / 10) == DigitChar(j / 10);
    assert DigitChar(i % 10) == DigitChar(j % 10);
  }
}
