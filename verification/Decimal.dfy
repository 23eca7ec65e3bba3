/** The decimal numerals of cluster/placement.go, and the keys made from them. */
module Decimal {

  function Digit(d: nat): char
    requires d < 10
  {
    '0' + d as char
  }

  /** The numeral of n, without leading zeros. */
  function Digits(n: nat): string {
    if n < 10 then [Digit(n)] else Digits(n / 10) + [Digit(n % 10)]
  }

  function Value(s: string): int {
    if s == [] then 0 else 10 * Value(s[..|s| - 1]) + (s[|s| - 1] as int - '0' as int)
  }

  /** Reading a numeral back gives the number, so different numbers have different numerals. */
  lemma {:induction false} DigitsValue(n: nat)
    ensures Value(Digits(n)) == n && |Digits(n)| > 0
    decreases n
  {
    if n >= 10 {
      DigitsValue(n / 10);
      assert Digits(n)[..|Digits(n)| - 1] == Digits(n / 10);
    } else {
      assert Digits(n)[..0] == [];
    }
  }

  lemma {:induction false} DigitsPlain(n: nat)
    ensures forall c | c in Digits(n) :: '0' <= c <= '9'
    decreases n
  {
    if n >= 10 {
      DigitsPlain(n / 10);
    }
  }

  /** A buffer read from its end. */
  function Mirror(s: string): string {
    seq(|s|, k requires 0 <= k < |s| => s[|s| - 1 - k])
  }

  lemma MirrorSnoc(s: string, c: char)
    ensures Mirror(s + [c]) == [c] + Mirror(s)
  {
    forall k | 0 <= k <= |s| ensures Mirror(s + [c])[k] == ([c] + Mirror(s))[k] {
    }
  }

  /** The numeral of n is that of m, if any of it is left, and then the buffer from its end. */
  predicate Taken(n: nat, m: nat, buf: string) {
    Digits(n) == (if m == 0 then "" else Digits(m)) + Mirror(buf)
  }

  lemma TakeDigit(n: nat, m: nat, buf: string)
    requires m > 0 && Taken(n, m, buf)
    ensures Taken(n, m / 10, buf + [Digit(m % 10)])
  {
    var c := Digit(m % 10);
    MirrorSnoc(buf, c);
    var high := if m < 10 then "" else Digits(m / 10);
    assert Digits(m) == high + [c];
    assert high + [c] + Mirror(buf) == high + ([c] + Mirror(buf));
  }

  /** The digits from the last to the first; none for a negative number. */
  method DigitsBackwards(n: int) returns (buf: string)
    requires n != 0
    ensures if n < 0 then buf == "" else Digits(n) == Mirror(buf)
  {
    buf := "";
    var m := n;
    while m > 0
      invariant n < 0 ==> m == n && buf == ""
      invariant n > 0 ==> m >= 0 && Taken(n, m, buf)
    {
      TakeDigit(n, m, buf);
      buf := buf + [Digit(m % 10)];
      m := m / 10;
    }
  }

  /** Turn a buffer round by swapping from both ends. */
  method TurnRound(s: string) returns (buf: string)
    ensures buf == Mirror(s)
  {
    buf := s;
    var i, j := 0, |buf| - 1;
    while i < j
      invariant 0 <= i <= j + 1 && i + j == |s| - 1 && |buf| == |s|
      invariant forall k | i <= k <= j :: buf[k] == s[k]
      invariant forall k | 0 <= k < i || j < k < |s| :: buf[k] == s[|s| - 1 - k]
    {
      buf := buf[i := buf[j]][j := buf[i]];
      i, j := i + 1, j - 1;
    }
  }

  /** itoa. */
  method Itoa(n: int) returns (s: string)
    ensures s == if n < 0 then "" else Digits(n)
  {
    if n == 0 { return "0"; }
    var buf := DigitsBackwards(n);
    s := TurnRound(buf);
  }

  function Key(id: string, i: nat): string {
    id + "-" + Digits(i)
  }

  /** After the id, the only dash of a key is the one that ends the id. */
  lemma LastDash(a: string, i: nat, p: nat)
    requires |a| <= p < |Key(a, i)|
    ensures Key(a, i)[p] == '-' <==> p == |a|
  {
    DigitsPlain(i);
    if p > |a| {
      assert Key(a, i)[p] == Digits(i)[p - |a| - 1];
      assert Digits(i)[p - |a| - 1] in Digits(i);
    }
  }

  /** No two virtual nodes share a key, whatever characters the node ids are made of. */
  lemma KeysDiffer(a: string, i: nat, b: string, j: nat)
    ensures Key(a, i) == Key(b, j) <==> a == b && i == j
  {
    var s := Key(a, i);
    if s == Key(b, j) {
      LastDash(a, i, |a|);
      LastDash(b, j, |b|);
      if |a| <= |b| { LastDash(a, i, |b|); } else { LastDash(b, j, |a|); }
      assert a == s[..|a|] && b == s[..|b|];
      assert Digits(i) == s[|a| + 1..] && Digits(j) == s[|b| + 1..];
      DigitsValue(i);
      DigitsValue(j);
    }
  }
}
