/**
 * The few string operations of Go's standard library that the core uses:
 * `strings.HasSuffix`, `strings.Split` with a one-character separator and
 * decimal formatting of integers (`strconv.Itoa`, `%d`), each with a partner
 * that it is proved against.
 */
module Text {
  import opened Wrappers

  // ---------------------------------------------------------------------
  // strings.HasSuffix

  predicate HasSuffix(s: string, suffix: string) {
    |suffix| <= |s| && s[|s| - |suffix|..] == suffix
  }

  /** HasSuffix agrees with its definition "s is something followed by suffix". */
  lemma HasSuffixIff(s: string, suffix: string, p: string)
    ensures s == p + suffix ==> HasSuffix(s, suffix)
    ensures HasSuffix(s, suffix) ==> s == s[..|s| - |suffix|] + suffix
  {
    if s == p + suffix {
      assert s[|s| - |suffix|..] == suffix;
    }
  }

  /** A suffix is kept when more text is put in front. */
  lemma HasSuffixPrepend(p: string, s: string, suffix: string)
    ensures HasSuffix(p + s, suffix) <== HasSuffix(s, suffix)
    ensures |suffix| <= |s| ==> (HasSuffix(p + s, suffix) <==> HasSuffix(s, suffix))
  {
    if |suffix| <= |s| {
      assert (p + s)[|p + s| - |suffix|..] == s[|s| - |suffix|..];
    }
  }

  /** Two suffixes of one string: the shorter is a suffix of the longer. */
  lemma SuffixesNest(s: string, a: string, b: string)
    requires HasSuffix(s, a) && HasSuffix(s, b) && |b| <= |a|
    ensures HasSuffix(a, b)
  {
    assert a[|a| - |b|..] == s[|s| - |b|..];
  }

  // ---------------------------------------------------------------------
  // strings.Split(s, sep) for a separator of one character

  function CountChar(s: string, c: char): nat {
    if s == [] then 0 else (if s[0] == c then 1 else 0) + CountChar(s[1..], c)
  }

  /**
   * The pieces of `s` between occurrences of `sep`; like Go's
   * strings.Split, "" gives [""] and every separator starts a new piece.
   */
  function Split(s: string, sep: char): (parts: seq<string>)
    ensures |parts| >= 1
  {
    if s == [] then [""]
    else
      var rest := Split(s[1..], sep);
      if s[0] == sep then [""] + rest
      else [[s[0]] + rest[0]] + rest[1..]
  }

  /** The inverse of Split: the pieces glued back with the separator. */
  function Join(parts: seq<string>, sep: char): string
    requires |parts| >= 1
  {
    if |parts| == 1 then parts[0] else parts[0] + [sep] + Join(parts[1..], sep)
  }

  /** Split makes one more piece than there are separators. */
  lemma {:induction false} SplitCount(s: string, sep: char)
    ensures |Split(s, sep)| == CountChar(s, sep) + 1
  {
    if s != [] {
      SplitCount(s[1..], sep);
    }
  }

  /** No piece contains the separator. */
  lemma {:induction false} SplitPiecesFree(s: string, sep: char)
    ensures forall i :: 0 <= i < |Split(s, sep)| ==> sep !in Split(s, sep)[i]
  {
    if s != [] {
      SplitPiecesFree(s[1..], sep);
      var rest := Split(s[1..], sep);
      if s[0] != sep {
        assert sep !in rest[0];
        assert sep !in [s[0]] + rest[0];
      }
    }
  }

  /** Join undoes Split. */
  lemma {:induction false} JoinSplit(s: string, sep: char)
    ensures Join(Split(s, sep), sep) == s
  {
    if s != [] {
      JoinSplit(s[1..], sep);
      var rest := Split(s[1..], sep);
      if s[0] == sep {
        assert Split(s, sep)[1..] == rest;
      } else {
        var parts := Split(s, sep);
        if |rest| == 1 {
          assert parts == [[s[0]] + rest[0]];
        } else {
          assert parts[1..] == rest[1..];
          assert Join(rest, sep) == rest[0] + [sep] + Join(rest[1..], sep);
        }
      }
    }
  }

  /** A string made of exactly two separator-free pieces splits back into them. */
  lemma {:induction false} SplitPair(key: string, value: string, sep: char)
    requires sep !in key && sep !in value
    ensures Split(key + [sep] + value, sep) == [key, value]
  {
    if key == [] {
      assert [] + [sep] + value == [sep] + value;
      assert ([sep] + value)[1..] == value;
      SplitFree(value, sep);
    } else {
      SplitPair(key[1..], value, sep);
      var s := key + [sep] + value;
      assert s[1..] == key[1..] + [sep] + value;
      assert [key[0]] + key[1..] == key;
    }
  }

  /** A separator-free string is one piece. */
  lemma {:induction false} SplitFree(s: string, sep: char)
    requires sep !in s
    ensures Split(s, sep) == [s]
  {
    if s != [] {
      SplitFree(s[1..], sep);
      assert [s[0]] + s[1..] == s;
    }
  }

  /** Exactly two pieces means exactly one separator, between them. */
  lemma TwoPieces(s: string, sep: char)
    ensures |Split(s, sep)| == 2 <==> CountChar(s, sep) == 1
    ensures |Split(s, sep)| == 2 ==>
      var p := Split(s, sep);
      s == p[0] + [sep] + p[1] && sep !in p[0] && sep !in p[1]
  {
    SplitCount(s, sep);
    SplitPiecesFree(s, sep);
    JoinSplit(s, sep);
    var p := Split(s, sep);
    if |p| == 2 {
      assert Join(p[1..], sep) == p[1];
      assert sep !in p[0] && sep !in p[1];
    }
  }

  // ---------------------------------------------------------------------
  // Decimal formatting: strconv.Itoa and fmt's %d

  function DigitChar(d: nat): char
    requires d < 10
  {
    "0123456789"[d]
  }

  function Digits(n: nat): (s: string)
    ensures |s| >= 1
    decreases n
  {
    if n < 10 then [DigitChar(n)] else Digits(n / 10) + [DigitChar(n % 10)]
  }

  /** The decimal text of `n`, with a leading '-' for a negative number. */
  function Decimal(n: int): string {
    if n < 0 then "-" + Digits(-n) else Digits(n)
  }

  function DigitValue(c: char): Option<nat> {
    if '0' <= c <= '9' then Some(c as int - '0' as int) else None
  }

  /** Reads a non-empty run of decimal digits. */
  function ParseDigits(s: string): Option<nat> {
    if s == [] then None
    else
      match DigitValue(s[|s| - 1])
      case None => None
      case Some(d) =>
        if |s| == 1 then Some(d)
        else
          match ParseDigits(s[..|s| - 1])
          case None => None
          case Some(m) => Some(10 * m + d)
  }

  /** Reads an optionally negative decimal integer (the partner of Decimal). */
  function ParseDecimal(s: string): Option<int> {
    if |s| > 0 && s[0] == '-' then
      match ParseDigits(s[1..])
      case None => None
      case Some(m) => Some(0 - m)
    else
      match ParseDigits(s)
      case None => None
      case Some(m) => Some(m)
  }

  lemma {:induction false} ParseDigitsOfDigits(n: nat)
    ensures ParseDigits(Digits(n)) == Some(n)
    decreases n
  {
    var s := Digits(n);
    if n >= 10 {
      ParseDigitsOfDigits(n / 10);
      assert s[..|s| - 1] == Digits(n / 10);
      assert s[|s| - 1] == DigitChar(n % 10);
    }
  }

  /** Decimal text reads back as the number it was made from. */
  lemma DecimalRoundTrip(n: int)
    ensures ParseDecimal(Decimal(n)) == Some(n)
  {
    if n < 0 {
      ParseDigitsOfDigits(-n);
      ParseNegative(Digits(-n), -n);
    } else {
      DigitsAreDigits(n);
      ParseDigitsOfDigits(n);
      ParseNonNegative(Digits(n), n);
    }
  }

  lemma ParseNegative(s: string, m: nat)
    requires ParseDigits(s) == Some(m)
    ensures ParseDecimal("-" + s) == Some(0 - m)
  {
    assert ("-" + s)[0] == '-' && ("-" + s)[1..] == s;
  }

  lemma ParseNonNegative(s: string, m: nat)
    requires |s| > 0 && '0' <= s[0] <= '9' && ParseDigits(s) == Some(m)
    ensures ParseDecimal(s) == Some(m)
  {
  }

  /** Digits writes nothing but the characters '0' to '9'. */
  lemma {:induction false} DigitsAreDigits(n: nat)
    ensures forall i :: 0 <= i < |Digits(n)| ==> '0' <= Digits(n)[i] <= '9'
    decreases n
  {
    if n >= 10 {
      DigitsAreDigits(n / 10);
    }
  }

  lemma DecimalHasNoColon(n: int)
    ensures ':' !in Decimal(n)
  {
    DigitsAreDigits(if n < 0 then -n else n);
  }

  /** The text after the last ':' of `s` (all of `s` when it has none). */
  function AfterLastColon(s: string): string {
    if s == [] then []
    else if s[|s| - 1] == ':' then []
    else AfterLastColon(s[..|s| - 1]) + [s[|s| - 1]]
  }

  lemma {:induction false} AfterLastColonOf(front: string, tail: string)
    requires ':' !in tail
    ensures AfterLastColon(front + ":" + tail) == tail
    decreases |tail|
  {
    var s := front + ":" + tail;
    if tail != [] {
      var t := tail[..|tail| - 1];
      assert s[..|s| - 1] == front + ":" + t;
      AfterLastColonOf(front, t);
      assert t + [tail[|tail| - 1]] == tail;
    } else {
      assert s[|s| - 1] == ':';
    }
  }
}
