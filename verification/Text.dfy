/** Strings as the source builds them: decimal rendering of integers (`str`), parsing
    (`int`), joining with a separator, Python's `s[:-2]`, repetition and substring tests. */
module Text {
  import opened Wrappers

  predicate IsDigit(c: char) { '0' <= c <= '9' }

  predicate IsDigits(s: string) { forall i :: 0 <= i < |s| ==> IsDigit(s[i]) }

  function DigitChar(d: nat): (c: char)
    requires d < 10
    ensures IsDigit(c) && c as int - '0' as int == d
  {
    ('0' as int + d) as char
  }

  /** `str(n)` for a natural number. */
  function NatToString(n: nat): (s: string)
    ensures |s| >= 1 && IsDigits(s)
    decreases n
  {
    if n < 10 then [DigitChar(n)] else NatToString(n / 10) + [DigitChar(n % 10)]
  }

  /** `str(i)` for any integer. */
  function IntToString(i: int): string
  {
    if i < 0 then "-" + NatToString(-i) else NatToString(i)
  }

  /** The value of a string of decimal digits (most significant first). */
  function DigitsValue(s: string): nat
    requires IsDigits(s)
  {
    if s == [] then 0 else DigitsValue(s[..|s| - 1]) * 10 + (s[|s| - 1] as int - '0' as int)
  }

  /** `int(s)` restricted to an optional minus sign followed by decimal digits; any other
      string is the `ValueError` case. */
  function ParseInt(s: string): Option<int>
  {
    if |s| > 1 && s[0] == '-' && IsDigits(s[1..]) then Some(0 - DigitsValue(s[1..]) as int)
    else if |s| > 0 && IsDigits(s) then Some(DigitsValue(s))
    else None
  }

  lemma {:induction false} DigitsValueOfNatToString(n: nat)
    ensures DigitsValue(NatToString(n)) == n
    decreases n
  {
    if n >= 10 {
      var p := NatToString(n / 10);
      var s := p + [DigitChar(n % 10)];
      assert s[..|s| - 1] == p;
      DigitsValueOfNatToString(n / 10);
    }
  }

  /** `int(str(i)) == i`: rendering an integer and parsing it back is the identity. */
  lemma ParseIntToString(i: int)
    ensures ParseInt(IntToString(i)) == Some(i)
  {
    if i < 0 {
      var s := "-" + NatToString(-i);
      assert s[1..] == NatToString(-i);
      DigitsValueOfNatToString(-i);
    } else {
      DigitsValueOfNatToString(i);
    }
  }

  /** `sep.join(parts)`. */
  function Join(parts: seq<string>, sep: string): (s: string)
  {
    if |parts| == 0 then ""
    else if |parts| == 1 then parts[0]
    else parts[0] + sep + Join(parts[1..], sep)
  }

  /** Python's `s[:-2]`: drop the last two characters (the empty string when shorter). */
  function DropLastTwo(s: string): (r: string)
    ensures |s| >= 2 ==> r + s[|s| - 2..] == s
    ensures |s| < 2 ==> r == ""
  {
    if |s| >= 2 then s[..|s| - 2] else ""
  }

  /** `''.join(p + sep for p in parts)`: every part followed by the separator. */
  function Suffixed(parts: seq<string>, sep: string): string
  {
    if parts == [] then "" else parts[0] + sep + Suffixed(parts[1..], sep)
  }

  lemma {:induction false} SuffixedAppend(parts: seq<string>, p: string, sep: string)
    ensures Suffixed(parts + [p], sep) == Suffixed(parts, sep) + p + sep
    decreases |parts|
  {
    if parts == [] {
      assert parts + [p] == [p];
    } else {
      assert (parts + [p])[1..] == parts[1..] + [p];
      SuffixedAppend(parts[1..], p, sep);
    }
  }

  /** Dropping the trailing two-character separator from the suffixed parts gives the
      separator-joined parts: the idiom `''.join(p + ', ' for p in parts)[:-2]`. */
  lemma {:induction false} SuffixedJoin(parts: seq<string>, sep: string)
    requires |sep| == 2
    ensures DropLastTwo(Suffixed(parts, sep)) == Join(parts, sep)
    decreases |parts|
  {
    if |parts| == 1 {
      assert Suffixed(parts, sep) == parts[0] + sep + "";
    } else if |parts| > 1 {
      SuffixedJoin(parts[1..], sep);
      var rest := Suffixed(parts[1..], sep);
      assert |rest| >= 2 by {
        assert rest == parts[1] + sep + Suffixed(parts[2..], sep);
      }
      assert Suffixed(parts, sep) == (parts[0] + sep) + rest;
    }
  }

  lemma {:induction false} JoinAbsent(c: char, parts: seq<string>, sep: string)
    requires c !in sep
    requires forall i :: 0 <= i < |parts| ==> c !in parts[i]
    ensures c !in Join(parts, sep)
    decreases |parts|
  {
    if |parts| > 1 {
      assert forall i :: 0 <= i < |parts[1..]| ==> parts[1..][i] == parts[i + 1];
      JoinAbsent(c, parts[1..], sep);
    }
  }

  /** Joining parts that each hold one `c` with a separator free of `c`: one `c` per part. */
  lemma {:induction false} JoinCount(c: char, parts: seq<string>, sep: string)
    requires c !in sep
    requires forall i :: 0 <= i < |parts| ==> CountChar(c, parts[i]) == 1
    ensures CountChar(c, Join(parts, sep)) == |parts|
    decreases |parts|
  {
    if |parts| > 1 {
      var rest := parts[1..];
      var tail := Join(rest, sep);
      assert forall i :: 0 <= i < |rest| ==> CountChar(c, rest[i]) == 1 by {
        assert forall i :: 0 <= i < |rest| ==> rest[i] == parts[i + 1];
      }
      JoinCount(c, rest, sep);
      assert Join(parts, sep) == (parts[0] + sep) + tail;
      CountCharAppend(c, parts[0] + sep, tail);
      CountCharAppend(c, parts[0], sep);
      CountCharAbsent(c, sep);
    } else if |parts| == 1 {
      assert CountChar(c, parts[0]) == 1;
    }
  }

  /** Python's `s * n`. */
  function Repeat(s: string, n: nat): string
  {
    if n == 0 then "" else s + Repeat(s, n - 1)
  }

  /** Number of occurrences of `c` in `s`. */
  function CountChar(c: char, s: string): nat
  {
    if s == [] then 0 else (if s[0] == c then 1 else 0) + CountChar(c, s[1..])
  }

  lemma {:induction false} CountCharAppend(c: char, a: string, b: string)
    ensures CountChar(c, a + b) == CountChar(c, a) + CountChar(c, b)
    decreases |a|
  {
    if a == [] {
      assert a + b == b;
    } else {
      assert (a + b)[1..] == a[1..] + b;
      CountCharAppend(c, a[1..], b);
    }
  }

  lemma {:induction false} CountCharAbsent(c: char, s: string)
    requires c !in s
    ensures CountChar(c, s) == 0
    decreases |s|
  {
    if s != [] {
      assert s[0] != c;
      assert forall k :: 0 <= k < |s[1..]| ==> s[1..][k] == s[k + 1];
      CountCharAbsent(c, s[1..]);
    }
  }

  /** `'?, ' * n` is `n` question marks, each followed by `, `. */
  lemma {:induction false} RepeatSuffixed(s: string, n: nat)
    ensures Repeat(s + ", ", n) == Suffixed(seq(n, _ => s), ", ")
  {
    if n > 0 {
      RepeatSuffixed(s, n - 1);
      assert seq(n, _ => s)[1..] == seq(n - 1, _ => s);
    }
  }

  /** Python's `x in s` for two strings. */
  predicate IsSubstring(x: string, s: string)
  {
    exists i :: 0 <= i <= |s| && x <= s[i..]
  }

  /** An element of a non-empty sequence is in its prefix or is its last element. */
  lemma InPrefixOrLast<T>(xs: seq<T>, x: T)
    requires xs != []
    ensures x in xs <==> x in xs[..|xs| - 1] || x == xs[|xs| - 1]
  {
    if x in xs {
      var i :| 0 <= i < |xs| && xs[i] == x;
      if i < |xs| - 1 {
        assert xs[..|xs| - 1][i] == x;
      }
    }
  }

  lemma SubstringOfItself(s: string)
    ensures IsSubstring(s, s)
  {
    assert s <= s[0..];
  }
}
