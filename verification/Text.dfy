/** Text shared by the models: optional values, decimal numerals and colon-joined keys. */
module Text {

  datatype Option<+T> = None | Some(value: T)

  /** A string that can be cut out of a colon-joined key again. */
  predicate NoColon(s: string) {
    ':' !in s
  }

  predicate IsDigit(c: char) {
    '0' <= c <= '9'
  }

  function Digit(d: nat): (c: char)
    requires d < 10
    ensures IsDigit(c) && c as int - '0' as int == d
  {
    ('0' as int + d) as char
  }

  /** The decimal numeral of a natural number, without leading zeros. */
  function NatText(n: nat): (s: string)
    ensures s != [] && forall i :: 0 <= i < |s| ==> IsDigit(s[i])
  {
    if n < 10 then [Digit(n)] else NatText(n / 10) + [Digit(n % 10)]
  }

  /** What Python's `str` gives for an integer. */
  function IntText(i: int): (s: string)
    ensures NoColon(s) && s != []
  {
    if i < 0 then "-" + NatText(-i) else NatText(i)
  }

  function ParseNat(s: string): int {
    if s == [] then 0 else ParseNat(s[..|s| - 1]) * 10 + (s[|s| - 1] as int - '0' as int)
  }

  lemma {:induction false} ParseNatText(n: nat)
    ensures ParseNat(NatText(n)) == n
  {
    if n < 10 {
      assert ParseNat([Digit(n)]) == ParseNat([]) * 10 + n;
    } else {
      ParseNatText(n / 10);
      var s := NatText(n);
      assert s[..|s| - 1] == NatText(n / 10);
    }
  }

  lemma IntTextInjective(i: int, k: int)
    requires IntText(i) == IntText(k)
    ensures i == k
  {
    var a, b := if i < 0 then -i else i, if k < 0 then -k else k;
    ParseNatText(a);
    ParseNatText(b);
    assert IsDigit(NatText(a)[0]) && IsDigit(NatText(b)[0]);
    assert i < 0 <==> IntText(i)[0] == '-';
    assert k < 0 <==> IntText(k)[0] == '-';
    assert i < 0 ==> IntText(i)[1..] == NatText(a);
    assert k < 0 ==> IntText(k)[1..] == NatText(b);
  }

  /** Colon-free heads of equal colon-joined strings are equal, and so are the tails. */
  lemma SplitFirst(a: string, x: string, b: string, y: string)
    requires NoColon(a) && NoColon(b)
    requires a + ":" + x == b + ":" + y
    ensures a == b && x == y
  {
    var s, t := a + ":" + x, b + ":" + y;
    assert forall k | 0 <= k < |a| :: s[k] == a[k] != ':';
    assert forall k | 0 <= k < |b| :: t[k] == b[k] != ':';
    assert s[|a|] == ':' && t[|b|] == ':';
    assert |a| == |b|;
    assert a == s[..|a|] && b == t[..|b|];
    assert x == s[|a| + 1..] && y == t[|b| + 1..];
  }

  /** Colon-free last fields of equal colon-joined strings are equal, and so is all before them. */
  lemma SplitLast(x: string, a: string, y: string, b: string)
    requires NoColon(a) && NoColon(b)
    requires x + ":" + a == y + ":" + b
    ensures a == b && x == y
  {
    var s, t := x + ":" + a, y + ":" + b;
    assert forall k | |x| < k < |s| :: s[k] == a[k - |x| - 1] != ':';
    assert forall k | |y| < k < |t| :: t[k] == b[k - |y| - 1] != ':';
    assert s[|x|] == ':' && t[|y|] == ':';
    assert |x| == |y|;
    assert x == s[..|x|] && y == t[..|y|];
    assert a == s[|x| + 1..] && b == t[|y| + 1..];
  }
}
