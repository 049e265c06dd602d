/** String helpers shared by the lineage modules: Python's `str.split`, `in` on
    strings, `','.join`, `str(int)` and `int(str)`, written out on `seq<char>`. */
module Text {
  import opened Outcomes

  /** Concatenation is associative. */
  lemma AppendAssoc<T>(a: seq<T>, b: seq<T>, c: seq<T>)
    ensures a + (b + c) == (a + b) + c
  {
  }

  /** Growing a prefix by one element. */
  lemma TakeSnoc<T>(s: seq<T>, j: nat)
    requires j < |s|
    ensures s[..j + 1] == s[..j] + [s[j]]
  {
  }

  /** No element occurs twice. */
  predicate NoDup<T(==)>(s: seq<T>) {
    forall i, j :: 0 <= i < j < |s| ==> s[i] != s[j]
  }

  /** `list(s)` of a set: some order without repetitions, holding exactly the members. */
  method ListOfSet<T(==)>(s: set<T>) returns (r: seq<T>)
    ensures NoDup(r) && |r| == |s|
    ensures forall x :: x in r <==> x in s
  {
    r := [];
    var rest := s;
    while rest != {}
      invariant rest <= s && NoDup(r)
      invariant forall x :: x in r <==> x in s && x !in rest
      invariant |r| + |rest| == |s|
      decreases |rest|
    {
      var x :| x in rest;
      r := r + [x];
      rest := rest - {x};
    }
  }

  /** Python `s.split(c)` for a one-character separator: every occurrence splits,
      so the result always has one more piece than `s` has separators. */
  function Split(s: string, c: char): (r: seq<string>)
    ensures |r| >= 1
    decreases |s|
  {
    if |s| == 0 then [""]
    else
      var rest := Split(s[1..], c);
      if s[0] == c then [""] + rest else [[s[0]] + rest[0]] + rest[1..]
  }

  lemma {:induction false} SplitNoSeparator(s: string, c: char)
    requires c !in s
    ensures Split(s, c) == [s]
    decreases |s|
  {
    if |s| > 0 {
      assert c !in s[1..];
      SplitNoSeparator(s[1..], c);
      assert [s[0]] + s[1..] == s;
    }
  }

  /** There are at least two pieces exactly when the separator occurs. */
  lemma SplitPieces(s: string, c: char)
    ensures |Split(s, c)| >= 2 <==> c in s
  {
    if c in s {
      var i :| 0 <= i < |s| && s[i] == c;
      assert s == s[..i] + [c] + s[i + 1..];
      SplitConcat(s[..i], c, s[i + 1..]);
    } else {
      SplitNoSeparator(s, c);
    }
  }

  /** Splitting at a separator splits the two sides independently. */
  lemma {:induction false} SplitConcat(a: string, c: char, b: string)
    ensures Split(a + [c] + b, c) == Split(a, c) + Split(b, c)
    decreases |a|
  {
    var s := a + [c] + b;
    if |a| == 0 {
      assert s[0] == c && s[1..] == b;
    } else {
      assert s[0] == a[0] && s[1..] == a[1..] + [c] + b;
      SplitConcat(a[1..], c, b);
      var x, y := Split(a[1..], c), Split(b, c);
      if a[0] != c {
        ConsPiece(a[0], x, y);
      }
    }
  }

  /** Prepending a character to the first piece commutes with appending more pieces. */
  lemma ConsPiece(h: char, x: seq<string>, y: seq<string>)
    requires |x| >= 1
    ensures [[h] + (x + y)[0]] + (x + y)[1..] == ([[h] + x[0]] + x[1..]) + y
  {
    assert (x + y)[0] == x[0];
    assert (x + y)[1..] == x[1..] + y;
  }

  /** Split after a separator-free first part. */
  lemma SplitFirst(a: string, c: char, b: string)
    requires c !in a
    ensures Split(a + [c] + b, c) == [a] + Split(b, c)
  {
    SplitConcat(a, c, b);
    SplitNoSeparator(a, c);
  }

  /** Splitting at a character that occurs once gives the two sides. */
  lemma SplitTwo(a: string, c: char, b: string)
    requires c !in a && c !in b
    ensures c in a + [c] + b
    ensures Split(a + [c] + b, c) == [a, b]
  {
    SplitNoSeparator(b, c);
    SplitFirst(a, c, b);
    assert (a + [c] + b)[|a|] == c;
  }

  /** Split of four separator-free parts joined by `c`. */
  lemma SplitFour(p0: string, p1: string, p2: string, p3: string, c: char)
    requires c !in p0 && c !in p1 && c !in p2 && c !in p3
    ensures Split(p0 + [c] + p1 + [c] + p2 + [c] + p3, c) == [p0, p1, p2, p3]
  {
    SplitConcat(p0 + [c] + p1 + [c] + p2, c, p3);
    SplitConcat(p0 + [c] + p1, c, p2);
    SplitConcat(p0, c, p1);
    SplitNoSeparator(p0, c);
    SplitNoSeparator(p1, c);
    SplitNoSeparator(p2, c);
    SplitNoSeparator(p3, c);
  }

  /** Python `sub in s`. */
  predicate Contains(s: string, sub: string)
    decreases |s|
  {
    if |s| < |sub| then false
    else s[..|sub|] == sub || Contains(s[1..], sub)
  }

  /** Python `sep.join(parts)`. */
  function Join(parts: seq<string>, sep: string): string
  {
    if |parts| == 0 then ""
    else if |parts| == 1 then parts[0]
    else parts[0] + sep + Join(parts[1..], sep)
  }

  /** Splitting a join of separator-free parts at the (one-character) separator gives the parts back. */
  lemma {:induction false} SplitJoin(parts: seq<string>, c: char)
    requires |parts| >= 1
    requires forall i :: 0 <= i < |parts| ==> c !in parts[i]
    ensures Split(Join(parts, [c]), c) == parts
    decreases |parts|
  {
    if |parts| == 1 {
      SplitNoSeparator(parts[0], c);
    } else {
      SplitJoin(parts[1..], c);
      SplitFirst(parts[0], c, Join(parts[1..], [c]));
      assert [parts[0]] + parts[1..] == parts;
    }
  }

  /** A character in neither the parts nor the separator is not in the join. */
  lemma {:induction false} JoinNoChar(parts: seq<string>, sep: string, c: char)
    requires c !in sep && forall i :: 0 <= i < |parts| ==> c !in parts[i]
    ensures c !in Join(parts, sep)
    decreases |parts|
  {
    if |parts| > 1 {
      JoinNoChar(parts[1..], sep, c);
    }
  }

  /** A join ends with its last part. */
  lemma {:induction false} JoinEndsWith(parts: seq<string>, sep: string)
    requires |parts| >= 1
    ensures var j := Join(parts, sep); var l := parts[|parts| - 1];
      |j| >= |l| && j[|j| - |l|..] == l
    decreases |parts|
  {
    if |parts| > 1 {
      JoinEndsWith(parts[1..], sep);
    }
  }

  /** `sub` occurs in `s` starting at index `i`. */
  predicate OccursAt(s: string, sub: string, i: int)
  {
    0 <= i && i + |sub| <= |s| && s[i..i + |sub|] == sub
  }

  /** `sub in s` means `sub` occurs at some position of `s`. */
  lemma {:induction false} ContainsAt(s: string, sub: string)
    ensures Contains(s, sub) <==> exists i :: OccursAt(s, sub, i)
    decreases |s|
  {
    if |s| >= |sub| && |s| > 0 {
      ContainsAt(s[1..], sub);
      if s[..|sub|] == sub {
        assert OccursAt(s, sub, 0);
      }
      if Contains(s[1..], sub) {
        var i :| OccursAt(s[1..], sub, i);
        assert OccursAt(s, sub, i + 1);
      }
      if exists i :: OccursAt(s, sub, i) {
        var i :| OccursAt(s, sub, i);
        if i > 0 {
          assert s[1..][i - 1..i - 1 + |sub|] == s[i..i + |sub|];
          assert OccursAt(s[1..], sub, i - 1);
          assert Contains(s[1..], sub);
        } else {
          assert s[..|sub|] == sub;
        }
        assert Contains(s, sub);
      }
    } else if |s| >= |sub| {
      assert OccursAt(s, sub, 0);
    }
  }

  function UpperChar(c: char): char
  {
    if 'a' <= c <= 'z' then ((c as int) - 32) as char else c
  }

  function LowerChar(c: char): char
  {
    if 'A' <= c <= 'Z' then ((c as int) + 32) as char else c
  }

  /** `str.capitalize()` on ASCII letters: the first character upper-cased, the rest
      lower-cased; other characters are left as they are. */
  function Capitalize(s: string): (r: string)
    ensures |r| == |s|
    ensures forall i :: 0 <= i < |s| ==> (IsDigit(r[i]) <==> IsDigit(s[i]))
  {
    if s == [] then []
    else
      var r := [UpperChar(s[0])] + seq(|s| - 1, i requires 0 <= i < |s| - 1 => LowerChar(s[i + 1]));
      CapitalizeDigits(s, r);
      r
  }

  lemma CapitalizeDigits(s: string, r: string)
    requires |s| > 0 && r == [UpperChar(s[0])] + seq(|s| - 1, i requires 0 <= i < |s| - 1 => LowerChar(s[i + 1]))
    ensures |r| == |s|
    ensures forall i :: 0 <= i < |s| ==> (IsDigit(r[i]) <==> IsDigit(s[i]))
  {
    forall i | 0 <= i < |s| ensures IsDigit(r[i]) <==> IsDigit(s[i]) {
      if i == 0 {
        assert r[i] == UpperChar(s[0]);
      } else {
        assert r[i] == LowerChar(s[i]);
      }
    }
  }

  predicate NoDigits(s: string) {
    forall i :: 0 <= i < |s| ==> !IsDigit(s[i])
  }

  lemma OccursChar(s: string, sub: string, i: int, k: int)
    requires OccursAt(s, sub, i) && 0 <= k < |sub|
    ensures s[i + k] == sub[k]
  {
    assert s[i..i + |sub|][k] == s[i + k];
  }

  lemma OccursInside(a: string, m: string, b: string, sub: string, i: int)
    requires |sub| > 0 && AllDigits(sub) && NoDigits(a) && NoDigits(b)
    requires OccursAt(a + m + b, sub, i)
    ensures OccursAt(m, sub, i - |a|)
  {
    var s := a + m + b;
    OccursChar(s, sub, i, 0);
    OccursChar(s, sub, i, |sub| - 1);
    assert IsDigit(sub[0]) && IsDigit(sub[|sub| - 1]);
    var j := i - |a|;
    assert s[i..i + |sub|] == m[j..j + |sub|];
  }

  /** A non-empty digit string occurs in `a + m + b` exactly when it occurs in `m`,
      if neither `a` nor `b` holds a digit. */
  lemma ContainsDigitsInside(a: string, m: string, b: string, sub: string)
    requires |sub| > 0 && AllDigits(sub) && NoDigits(a) && NoDigits(b)
    ensures Contains(a + m + b, sub) <==> Contains(m, sub)
  {
    var s := a + m + b;
    ContainsAt(s, sub);
    ContainsAt(m, sub);
    if Contains(s, sub) {
      var i :| OccursAt(s, sub, i);
      OccursInside(a, m, b, sub, i);
    }
    if Contains(m, sub) {
      var j :| OccursAt(m, sub, j);
      assert s[|a| + j..|a| + j + |sub|] == m[j..j + |sub|];
      assert OccursAt(s, sub, |a| + j);
    }
  }

  function DigitChar(d: nat): (c: char)
    requires d < 10
  {
    ['0', '1', '2', '3', '4', '5', '6', '7', '8', '9'][d]
  }

  predicate IsDigit(c: char) { '0' <= c <= '9' }

  function DigitValue(c: char): (d: nat)
    requires IsDigit(c)
    ensures d < 10
  {
    (c as int) - ('0' as int)
  }

  /** Python `str(n)` for a natural number: decimal, no leading zeros. */
  function NatToString(n: nat): (s: string)
    ensures |s| >= 1 && forall i :: 0 <= i < |s| ==> IsDigit(s[i])
    decreases n
  {
    if n < 10 then [DigitChar(n)] else NatToString(n / 10) + [DigitChar(n % 10)]
  }

  /** Python `str(i)` for an int. */
  function IntToString(i: int): (s: string)
    ensures |s| >= 1
  {
    if i < 0 then "-" + NatToString(-i) else NatToString(i)
  }

  predicate AllDigits(s: string) {
    forall i :: 0 <= i < |s| ==> IsDigit(s[i])
  }

  /** Value of a string of decimal digits. */
  function DigitsValue(s: string): nat
    requires AllDigits(s)
    decreases |s|
  {
    if |s| == 0 then 0 else DigitsValue(s[..|s| - 1]) * 10 + DigitValue(s[|s| - 1])
  }

  /** Python `int(s)` for an optionally signed decimal literal; anything else is a ValueError. */
  function ParseInt(s: string): (r: Result<int>)
    ensures r.Ok? ==> |s| >= 1
  {
    if |s| >= 2 && (s[0] == '-' || s[0] == '+') && AllDigits(s[1..]) then
      var v: int := DigitsValue(s[1..]);
      Ok(if s[0] == '-' then -v else v)
    else if |s| >= 1 && AllDigits(s) then Ok(DigitsValue(s))
    else Err(ValueError("invalid literal for int() with base 10: '" + s + "'"))
  }

  lemma DigitCharValue(d: nat)
    requires d < 10
    ensures IsDigit(DigitChar(d)) && DigitValue(DigitChar(d)) == d
  {
  }

  lemma {:induction false} DigitsOfNat(n: nat)
    ensures AllDigits(NatToString(n)) && DigitsValue(NatToString(n)) == n
    decreases n
  {
    var s := NatToString(n);
    if n < 10 {
      assert s == [DigitChar(n)];
      assert s[..0] == [];
      DigitCharValue(n);
    } else {
      var q, d := n / 10, n % 10;
      DigitsOfNat(q);
      assert s[..|s| - 1] == NatToString(q);
      assert s[|s| - 1] == DigitChar(d);
      DigitCharValue(d);
      assert DigitsValue(s) == DigitsValue(NatToString(q)) * 10 + d;
      assert q * 10 + d == n;
    }
  }

  /** `int(str(i)) == i`: the id stringified by the edge reader is parsed back by the builder. */
  lemma ParseIntToString(i: int)
    ensures ParseInt(IntToString(i)) == Ok(i)
  {
    if i < 0 {
      var t := NatToString(-i);
      DigitsOfNat(-i);
      ParseNegative(t);
      assert IntToString(i) == "-" + t;
    } else {
      var t := NatToString(i);
      DigitsOfNat(i);
      ParseDigits(t);
      assert IntToString(i) == t;
    }
  }

  lemma ParseNegative(t: string)
    requires |t| >= 1 && AllDigits(t)
    ensures ParseInt("-" + t) == Ok(-(DigitsValue(t) as int))
  {
    var s := "-" + t;
    assert s[0] == '-' && s[1..] == t;
  }

  lemma ParseDigits(s: string)
    requires |s| >= 1 && AllDigits(s)
    ensures ParseInt(s) == Ok(DigitsValue(s))
  {
    assert IsDigit(s[0]);
  }
}
