/**
 * The string operations of JavaScript that the faucet relies on, written out:
 * removing a trailing run of a character (`replace(/\.+$/, '')`), `split`,
 * `slice` with a negative end, and the decimal rendering of an integer that
 * string concatenation performs.  `LastIndexOf`, `Join`, `ParseInt` and
 * `IndexOf` are reference definitions and inverses that the proofs use; the
 * source calls none of them.
 */
module Text {
  import opened Wrappers

  /** `s.replace(/\.+$/, '')`: drop the maximal run of dots at the end of `s`. */
  function StripTrailingDots(s: string): (r: string)
    ensures |r| <= |s| && r == s[..|r|]
    ensures r == [] || r[|r| - 1] != '.'
    ensures forall i :: |r| <= i < |s| ==> s[i] == '.'
  {
    if |s| > 0 && s[|s| - 1] == '.' then StripTrailingDots(s[..|s| - 1]) else s
  }

  /**
   * The three postconditions above determine the stripped string: any prefix
   * of `s` that does not end in a dot and is followed only by dots is it.
   */
  lemma {:induction false} StripTrailingDotsUnique(s: string, r: string)
    requires |r| <= |s| && r == s[..|r|]
    requires r == [] || r[|r| - 1] != '.'
    requires forall i :: |r| <= i < |s| ==> s[i] == '.'
    ensures StripTrailingDots(s) == r
  {
    var t := StripTrailingDots(s);
    if |t| < |r| {
      assert false;
    } else if |r| < |t| {
      assert false;
    }
  }

  /** Appending a dot never changes what is left after stripping, so `a.b..` behaves like `a.b`. */
  lemma StripTrailingDotsAppendDot(s: string)
    ensures StripTrailingDots(s + ".") == StripTrailingDots(s)
  {
    assert (s + ".")[..|s|] == s;
  }

  /** Stripping twice is stripping once. */
  lemma StripTrailingDotsIdempotent(s: string)
    ensures StripTrailingDots(StripTrailingDots(s)) == StripTrailingDots(s)
  {
    var t := StripTrailingDots(s);
    StripTrailingDotsUnique(t, t);
  }

  /** `s.split(sep)` for a one-character separator: never empty, and no part holds `sep`. */
  function Split(s: string, sep: char): (parts: seq<string>)
    ensures |parts| >= 1
    ensures forall i :: 0 <= i < |parts| ==> sep !in parts[i]
  {
    if s == [] then [""]
    else
      var rest := Split(s[1..], sep);
      if s[0] == sep then [""] + rest
      else [[s[0]] + rest[0]] + rest[1..]
  }

  /** `parts.join(sep)`, the inverse of `Split`. */
  function Join(parts: seq<string>, sep: char): string
    requires |parts| >= 1
  {
    if |parts| == 1 then parts[0] else parts[0] + [sep] + Join(parts[1..], sep)
  }

  /** Joining the parts of a split gives back the string. */
  lemma {:induction false} JoinSplit(s: string, sep: char)
    ensures Join(Split(s, sep), sep) == s
  {
    if s != [] {
      var rest := Split(s[1..], sep);
      JoinSplit(s[1..], sep);
      if s[0] == sep {
        assert Split(s, sep)[1..] == rest;
      } else {
        var parts := Split(s, sep);
        if |rest| == 1 {
          assert parts == [[s[0]] + rest[0]];
        } else {
          assert parts[1..] == rest[1..];
          assert Join(rest, sep) == rest[0] + [sep] + Join(rest[1..], sep);
        }
      }
    }
  }

  /** Splitting a join of separator-free parts gives back the parts. */
  lemma {:induction false} SplitJoin(parts: seq<string>, sep: char)
    requires |parts| >= 1
    requires forall i :: 0 <= i < |parts| ==> sep !in parts[i]
    ensures Split(Join(parts, sep), sep) == parts
  {
    if |parts| == 1 {
      SplitFree(parts[0], sep);
    } else {
      var tail := Join(parts[1..], sep);
      SplitJoin(parts[1..], sep);
      SplitPrefix(parts[0], [sep] + tail, sep);
      assert ([sep] + tail)[1..] == tail;
      assert Join(parts, sep) == parts[0] + ([sep] + tail);
      assert parts == [parts[0]] + parts[1..];
    }
  }

  /** A string without the separator splits into itself alone. */
  lemma {:induction false} SplitFree(s: string, sep: char)
    requires sep !in s
    ensures Split(s, sep) == [s]
  {
    if s != [] {
      SplitFree(s[1..], sep);
      assert [s[0]] + s[1..] == s;
    }
  }

  /** A separator-free head glues onto the first part of whatever follows it. */
  lemma {:induction false} SplitPrefix(p: string, s: string, sep: char)
    requires sep !in p
    requires s != [] && s[0] == sep
    ensures Split(p + s, sep) == [p] + Split(s[1..], sep)
  {
    if p == [] {
      assert p + s == s;
    } else {
      SplitPrefix(p[1..], s, sep);
      assert (p + s)[1..] == p[1..] + s;
      assert [p[0]] + p[1..] == p;
    }
  }

  /** The position of the last `c` in `s`, or -1 when there is none: where a split-and-pop cuts. */
  function LastIndexOf(s: string, c: char): (k: int)
    ensures -1 <= k < |s|
    ensures k >= 0 ==> s[k] == c
    ensures forall i :: k < i < |s| ==> s[i] != c
  {
    if s == [] then -1
    else
      var k := LastIndexOf(s[1..], c);
      if k >= 0 then k + 1 else if s[0] == c then 0 else -1
  }

  /** The last part of a split is what follows the last separator. */
  lemma {:induction false} LastPartOfSplit(s: string, sep: char)
    ensures var parts := Split(s, sep);
            parts[|parts| - 1] == s[LastIndexOf(s, sep) + 1..]
  {
    if s != [] {
      LastPartOfSplit(s[1..], sep);
      if LastIndexOf(s[1..], sep) >= 0 {
        LastPartSepInTail(s, sep);
      } else if s[0] == sep {
        LastPartSepAtHead(s, sep);
      } else {
        LastPartNoSep(s, sep);
      }
    }
  }

  /** A separator in the tail: the last part is the tail's last part. */
  lemma {:induction false} LastPartSepInTail(s: string, sep: char)
    requires s != [] && LastIndexOf(s[1..], sep) >= 0
    requires var rest := Split(s[1..], sep);
             rest[|rest| - 1] == s[1..][LastIndexOf(s[1..], sep) + 1..]
    ensures var parts := Split(s, sep);
            parts[|parts| - 1] == s[LastIndexOf(s, sep) + 1..]
  {
    var tail := s[1..];
    var k := LastIndexOf(tail, sep);
    var rest := Split(tail, sep);
    assert LastIndexOf(s, sep) == k + 1;
    assert tail[k] == sep;
    SplitAtSep(tail, sep);
    var parts := Split(s, sep);
    if s[0] == sep {
      assert parts == [""] + rest;
    } else {
      assert parts == [[s[0]] + rest[0]] + rest[1..];
      assert parts[|parts| - 1] == rest[1..][|rest| - 2];
    }
    assert s[k + 2..] == tail[k + 1..];
  }

  /** A string holding the separator splits into two parts or more. */
  lemma {:induction false} SplitAtSep(s: string, sep: char)
    requires sep in s
    ensures |Split(s, sep)| >= 2
  {
    JoinSplit(s, sep);
  }

  /** The only separator is the first character: the last part is the tail. */
  lemma {:induction false} LastPartSepAtHead(s: string, sep: char)
    requires s != [] && s[0] == sep && LastIndexOf(s[1..], sep) < 0
    requires var rest := Split(s[1..], sep);
             rest[|rest| - 1] == s[1..][LastIndexOf(s[1..], sep) + 1..]
    ensures var parts := Split(s, sep);
            parts[|parts| - 1] == s[LastIndexOf(s, sep) + 1..]
  {
    assert s[1..] == s[1..][0..];
  }

  /** No separator at all: the whole string is the last part. */
  lemma {:induction false} LastPartNoSep(s: string, sep: char)
    requires s != [] && s[0] != sep && LastIndexOf(s[1..], sep) < 0
    ensures var parts := Split(s, sep);
            parts[|parts| - 1] == s[LastIndexOf(s, sep) + 1..]
  {
    var tail := s[1..];
    assert LastIndexOf(s, sep) == -1;
    assert sep !in tail;
    SplitFree(tail, sep);
    assert Split(s, sep) == [[s[0]] + tail];
    assert [s[0]] + tail == s[0..];
  }

  /** `s.slice(0, -back)` for `back >= 1`: JavaScript clamps a negative end below zero to zero. */
  function SliceToNegativeEnd(s: string, back: nat): (r: string)
    requires back >= 1
    ensures |r| == if back <= |s| then |s| - back else 0
    ensures r == s[..|r|]
  {
    s[..if back <= |s| then |s| - back else 0]
  }

  /** The decimal digits of a natural number, without leading zeros. */
  function NatToDecimal(n: nat): (r: string)
    ensures |r| >= 1
    ensures forall i :: 0 <= i < |r| ==> '0' <= r[i] <= '9'
    ensures r[0] == '0' ==> n == 0
  {
    if n < 10 then [Digit(n)] else NatToDecimal(n / 10) + [Digit(n % 10)]
  }

  function Digit(d: nat): (c: char)
    requires d < 10
    ensures '0' <= c <= '9' && (c - '0') as nat == d
  {
    ('0' as int + d) as char
  }

  /** The number a string of decimal digits stands for. */
  function DecimalValue(s: string): nat
    requires forall i :: 0 <= i < |s| ==> '0' <= s[i] <= '9'
  {
    if s == [] then 0 else 10 * DecimalValue(s[..|s| - 1]) + (s[|s| - 1] - '0') as nat
  }

  lemma {:induction false} DecimalValueOfNat(n: nat)
    ensures DecimalValue(NatToDecimal(n)) == n
  {
    var r := NatToDecimal(n);
    if n >= 10 {
      DecimalValueOfNat(n / 10);
      assert r[..|r| - 1] == NatToDecimal(n / 10);
      assert r[|r| - 1] == Digit(n % 10);
      assert n == 10 * (n / 10) + n % 10;
    }
  }

  /**
   * How string concatenation renders an integer: a minus sign for negatives,
   * then the decimal digits.  JavaScript writes numbers of 1e21 and more in
   * exponent form; that range is not modelled, since ratings lie in -1..5.
   */
  function IntToString(n: int): (r: string)
    ensures |r| >= 1 && ' ' !in r
  {
    if n < 0 then "-" + NatToDecimal(-n) else NatToDecimal(n)
  }

  /** Reads back what `IntToString` writes; `None` for anything else. */
  function ParseInt(s: string): (r: Option<int>)
  {
    if |s| >= 1 && s[0] == '-' then
      if IsCanonicalDecimal(s[1..]) && s[1..] != "0" then Some(-(DecimalValue(s[1..]) as int)) else None
    else if IsCanonicalDecimal(s) then Some(DecimalValue(s) as int)
    else None
  }

  predicate IsCanonicalDecimal(s: string)
  {
    |s| >= 1 && (forall i :: 0 <= i < |s| ==> '0' <= s[i] <= '9') && (s[0] == '0' ==> |s| == 1)
  }

  /** Rendering then parsing an integer gives it back. */
  lemma IntToStringRoundTrip(n: int)
    ensures ParseInt(IntToString(n)) == Some(n)
  {
    var m: nat := if n < 0 then -n else n;
    var d := NatToDecimal(m);
    DecimalValueOfNat(m);
    NatToDecimalCanonical(m);
    if n < 0 {
      assert IntToString(n)[1..] == d;
    }
  }

  lemma {:induction false} NatToDecimalCanonical(n: nat)
    ensures IsCanonicalDecimal(NatToDecimal(n))
    ensures NatToDecimal(n) == "0" <==> n == 0
  {
    if n >= 10 {
      NatToDecimalCanonical(n / 10);
    }
  }

  /** The position of the first `c`, or -1: a helper of the feedback-body reader `ParseEmailBody`. */
  function IndexOf(s: string, c: char): (k: int)
    ensures -1 <= k < |s|
    ensures k >= 0 ==> s[k] == c
    ensures forall i :: 0 <= i < |s| && (k < 0 || i < k) ==> s[i] != c
  {
    if s == [] then -1
    else if s[0] == c then 0
    else var k := IndexOf(s[1..], c); if k < 0 then -1 else k + 1
  }
}
