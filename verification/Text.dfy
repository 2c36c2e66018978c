/** Strings as the controller prints, orders and splits them. */
module Text {

  /** Decimal digits of a natural number, without leading zeros. */
  function Digits(n: nat): (s: string)
    ensures |s| > 0
    ensures forall c :: c in s ==> '0' <= c <= '9'
    ensures s[0] == '0' <==> n == 0
  {
    var last := [('0' as int + n % 10) as char];
    if n < 10 then last else Digits(n / 10) + last
  }

  /** The number a digit string stands for. */
  function Value(s: string): int
  {
    if s == "" then 0 else 10 * Value(s[..|s| - 1]) + (s[|s| - 1] as int - '0' as int)
  }

  lemma {:induction false} ValueOfDigits(n: nat)
    ensures Value(Digits(n)) == n
  {
    var s := Digits(n);
    if n >= 10 {
      assert s[..|s| - 1] == Digits(n / 10);
      ValueOfDigits(n / 10);
    }
  }

  /** A digit string without leading zeros is the one printed for its value. */
  lemma {:induction false} DigitsOfValue(s: string)
    requires s != "" && (forall c :: c in s ==> '0' <= c <= '9') && (s[0] == '0' ==> |s| == 1)
    ensures Value(s) >= 0 && Digits(Value(s)) == s
    ensures Value(s) == 0 <==> s == "0"
  {
    hide Digits;
    var before, last := s[..|s| - 1], s[|s| - 1] as int - '0' as int;
    assert s[|s| - 1] in s && s == before + [s[|s| - 1]];
    if before == "" {
      OneDigit(s);
    } else {
      assert forall c :: c in before ==> c in s;
      assert before[0] == s[0];
      DigitsOfValue(before);
      assert Value(before) != 0;
      AppendDigit(Value(before), last);
    }
  }

  lemma OneDigit(s: string)
    requires |s| == 1 && '0' <= s[0] <= '9'
    ensures Value(s) == s[0] as int - '0' as int && Digits(Value(s)) == s
  {
    assert s == [s[0]] && Value(s[..0]) == 0;
  }

  lemma AppendDigit(n: nat, last: nat)
    requires n > 0 && last <= 9
    ensures Digits(10 * n + last) == Digits(n) + [('0' as int + last) as char]
  {
    assert (10 * n + last) / 10 == n && (10 * n + last) % 10 == last;
  }

  /** Base-ten formatting of a port number or of the broker's id counter. */
  function Format(n: int): string
  {
    if n < 0 then "-" + Digits(-n) else Digits(n)
  }

  lemma FormatExamples()
    ensures Format(0) == "0" && Format(7) == "7" && Format(-10) == "-10" && Format(30080) == "30080"
  {
    assert Digits(30) == "30" && Digits(300) == "300" && Digits(3008) == "3008";
  }

  lemma SignOf(n: int)
    ensures Format(n) != "" && (n < 0 <==> Format(n)[0] == '-')
  {
    var digits := Digits(if n < 0 then -n else n);
    assert digits[0] in digits;
  }

  lemma FormatInjective(a: int, b: int)
    requires Format(a) == Format(b)
    ensures a == b
  {
    ValueOfDigits(if a < 0 then -a else a);
    ValueOfDigits(if b < 0 then -b else b);
    SignOf(a);
    SignOf(b);
    if a < 0 {
      assert Digits(-a) == Format(a)[1..] == Format(b)[1..] == Digits(-b);
    }
  }

  lemma FormatHasNoSlash(n: int)
    ensures '/' !in Format(n)
  {
  }

  /** A text is determined by what stands before and after its last separator. */
  lemma LastSeparator(p: string, s: string, q: string, t: string, c: char)
    requires c !in s && c !in t
    requires p + [c] + s == q + [c] + t
    ensures p == q && s == t
  {
    var w := p + [c] + s;
    assert w[|p|] == c && w[|q|] == c;
    assert forall i | |p| < i < |w| :: w[i] == s[i - |p| - 1];
    assert forall i | |q| < i < |w| :: w[i] == t[i - |q| - 1];
    assert |p| == |q|;
    assert p == w[..|p|] && q == w[..|q|];
    assert s == w[|p| + 1..] && t == w[|q| + 1..];
  }

  /** The pieces of `s` between occurrences of `c`; there is always at least one. */
  function Split(s: string, c: char): (parts: seq<string>)
    ensures |parts| > 0
    ensures c !in parts[0]
    ensures |parts| == 1 <==> c !in s
  {
    if s == "" then [""]
    else
      var rest := Split(s[1..], c);
      if s[0] == c then [""] + rest else [[s[0]] + rest[0]] + rest[1..]
  }

  lemma {:induction false} SplitParts(s: string, c: char)
    ensures forall part :: part in Split(s, c) ==> c !in part
  {
    if s != "" {
      SplitParts(s[1..], c);
      var rest := Split(s[1..], c);
      assert rest[0] in rest;
      assert forall part :: part in rest[1..] ==> part in rest;
    }
  }

  lemma {:induction false} SplitAtFirst(a: string, b: string, c: char)
    requires c !in a
    ensures Split(a + [c] + b, c) == [a] + Split(b, c)
  {
    var w := a + [c] + b;
    if a == "" {
      assert w[1..] == b;
    } else {
      var rest := a[1..] + [c] + b;
      SplitAtFirst(a[1..], b, c);
      assert w == [a[0]] + rest;
      assert w[1..] == rest && w[0] == a[0];
      assert [a[0]] + a[1..] == a;
    }
  }

  lemma {:induction false} SplitWithout(s: string, c: char)
    requires c !in s
    ensures Split(s, c) == [s]
  {
    if s != "" {
      SplitWithout(s[1..], c);
      assert [s[0]] + s[1..] == s;
    }
  }

  /** Lexicographic order, as a three-way string comparison gives it. */
  predicate Less(a: string, b: string)
  {
    b != "" && (a == "" || a[0] < b[0] || (a[0] == b[0] && Less(a[1..], b[1..])))
  }

  /** The texts differ first at `k`, where the one ends or has the lower character. */
  ghost predicate LowerAt(a: string, b: string, k: int)
  {
    0 <= k <= |a| && k < |b| && a[..k] == b[..k] && (k < |a| ==> a[k] < b[k])
  }

  lemma SameHead(a: string, b: string, k: int)
    requires 0 < k <= |a| && k <= |b| && a[..k] == b[..k]
    ensures a[0] == b[0]
  {
    assert a[..k][0] == b[..k][0];
  }

  lemma {:induction false} LessExact(a: string, b: string)
    ensures Less(a, b) <==> exists k :: LowerAt(a, b, k)
  {
    if a == "" || b == "" || a[0] != b[0] {
      assert b != "" && (a == "" || a[0] < b[0]) ==> LowerAt(a, b, 0);
      forall k | LowerAt(a, b, k) ensures k == 0 {
        if k > 0 {
          SameHead(a, b, k);
        }
      }
    } else {
      var a', b' := a[1..], b[1..];
      LessExact(a', b');
      if k :| LowerAt(a', b', k) {
        assert a[..k + 1] == [a[0]] + a'[..k] && b[..k + 1] == [b[0]] + b'[..k];
        assert LowerAt(a, b, k + 1);
      }
      if k :| LowerAt(a, b, k) {
        assert a'[..k - 1] == a[..k][1..] && b'[..k - 1] == b[..k][1..];
        assert LowerAt(a', b', k - 1);
      }
    }
  }

  lemma {:induction false} LessTransitive(a: string, b: string, c: string)
    requires Less(a, b) && Less(b, c)
    ensures Less(a, c)
  {
    if a != "" && a[0] == b[0] == c[0] {
      LessTransitive(a[1..], b[1..], c[1..]);
    }
  }

  lemma {:induction false} LessTotal(a: string, b: string)
    ensures Less(a, b) || a == b || Less(b, a)
    ensures !(Less(a, b) && Less(b, a))
    ensures !Less(a, a)
  {
    if a != "" {
      LessTotal(a[1..], a[1..]);
      if b != "" && a[0] == b[0] {
        LessTotal(a[1..], b[1..]);
      }
    }
  }

  /** Unicode white space, as the class annotation is trimmed of it. */
  predicate IsSpace(c: char)
  {
    || '\t' <= c <= '\r' || c == ' ' || c == '\U{85}' || c == '\U{A0}' || c == '\U{1680}'
    || '\U{2000}' <= c <= '\U{200A}' || c == '\U{2028}' || c == '\U{2029}' || c == '\U{202F}'
    || c == '\U{205F}' || c == '\U{3000}'
  }

  /** `r` is `s` without the white space `a` before and `b` after it. */
  ghost predicate Trims(s: string, a: string, r: string, b: string)
  {
    s == a + r + b && forall c :: c in a + b ==> IsSpace(c)
  }

  lemma TrimsFirst(s: string, a: string, r: string, b: string)
    requires s != "" && IsSpace(s[0]) && Trims(s[1..], a, r, b)
    ensures Trims(s, [s[0]] + a, r, b)
  {
    hide IsSpace;
    assert s == [s[0]] + s[1..] == ([s[0]] + a) + r + b;
    forall c | c in [s[0]] + a + b ensures IsSpace(c) {
      assert c == s[0] || c in a + b;
    }
  }

  lemma TrimsLast(s: string, a: string, r: string, b: string)
    requires s != "" && IsSpace(s[|s| - 1]) && Trims(s[..|s| - 1], a, r, b)
    ensures Trims(s, a, r, b + [s[|s| - 1]])
  {
    hide IsSpace;
    var last := s[|s| - 1];
    assert s == s[..|s| - 1] + [last] == a + r + (b + [last]);
    forall c | c in a + (b + [last]) ensures IsSpace(c) {
      assert c == last || c in a + b;
    }
  }

  lemma TrimsNothing(s: string)
    ensures Trims(s, "", s, "")
  {
  }

  function Trim(s: string): (r: string)
    ensures r != "" ==> !IsSpace(r[0]) && !IsSpace(r[|r| - 1])
    ensures exists a, b :: Trims(s, a, r, b)
  {
    hide IsSpace, Trims;
    if s != "" && IsSpace(s[0]) then
      var r := Trim(s[1..]);
      assert exists a, b :: Trims(s, a, r, b) by {
        var a, b :| Trims(s[1..], a, r, b);
        TrimsFirst(s, a, r, b);
      }
      r
    else if s != "" && IsSpace(s[|s| - 1]) then
      var r := Trim(s[..|s| - 1]);
      assert exists a, b :: Trims(s, a, r, b) by {
        var a, b :| Trims(s[..|s| - 1], a, r, b);
        TrimsLast(s, a, r, b);
      }
      r
    else
      TrimsNothing(s);
      s
  }
}
