/**
 * The handful of Python string operations the integration relies on:
 * `str.lower()`, `str.split(sep)`, `s.split(sep)[-1]`, `str(int)`,
 * `f"{n:02}"` and `int(s)`.  Characters are compared as code points and
 * case folding covers the ASCII letters only.
 */
module Strings {
  import opened Wrappers

  predicate IsUpper(c: char) { 'A' <= c <= 'Z' }

  function LowerChar(c: char): (r: char)
    ensures IsUpper(c) ==> r as int == c as int + 32
    ensures !IsUpper(c) ==> r == c
  {
    if IsUpper(c) then (c as int + 32) as char else c
  }

  /** `s.lower()`, restricted to ASCII case folding. */
  function Lower(s: string): (r: string)
    ensures |r| == |s|
    ensures forall i :: 0 <= i < |s| ==> r[i] == LowerChar(s[i])
  {
    seq(|s|, i requires 0 <= i < |s| => LowerChar(s[i]))
  }

  lemma LowerIdempotent(s: string)
    ensures Lower(Lower(s)) == Lower(s)
  {
    assert forall i :: 0 <= i < |s| ==> LowerChar(LowerChar(s[i])) == LowerChar(s[i]);
  }

  /** `sep.join(parts)` */
  function Join(parts: seq<string>, sep: char): string
    requires |parts| >= 1
    decreases |parts|
  {
    if |parts| == 1 then parts[0] else parts[0] + [sep] + Join(parts[1..], sep)
  }

  /**
   * `s.split(sep)` for a one-character separator: the pieces between the
   * separators, always at least one, none containing the separator.
   */
  function Split(s: string, sep: char): (parts: seq<string>)
    ensures |parts| >= 1
    ensures forall i :: 0 <= i < |parts| ==> sep !in parts[i]
    decreases |s|
  {
    if |s| == 0 then [""]
    else if s[0] == sep then [""] + Split(s[1..], sep)
    else
      var rest := Split(s[1..], sep);
      [[s[0]] + rest[0]] + rest[1..]
  }

  /** Joining the pieces with the separator gives back the string. */
  lemma {:induction false} SplitJoin(s: string, sep: char)
    ensures Join(Split(s, sep), sep) == s
    decreases |s|
  {
    if |s| > 0 {
      SplitJoin(s[1..], sep);
      var rest := Split(s[1..], sep);
      assert s == [s[0]] + s[1..];
      if s[0] != sep && |rest| > 1 {
        assert ([[s[0]] + rest[0]] + rest[1..])[1..] == rest[1..];
      }
    }
  }

  /** Splitting a string that has no separator gives that string alone. */
  lemma {:induction false} SplitNoSep(s: string, sep: char)
    requires sep !in s
    ensures Split(s, sep) == [s]
    decreases |s|
  {
    if |s| > 0 {
      assert sep !in s[1..];
      SplitNoSep(s[1..], sep);
      assert [s[0]] + s[1..] == s;
    }
  }

  /** A leading piece free of the separator is split off exactly. */
  lemma {:induction false} SplitJoined(a: string, sep: char, b: string)
    requires sep !in a
    ensures Split(a + [sep] + b, sep) == [a] + Split(b, sep)
    decreases |a|
  {
    if |a| == 0 {
      assert a + [sep] + b == [sep] + b;
      assert ([sep] + b)[1..] == b;
    } else {
      var s := a + [sep] + b;
      assert s[0] == a[0] && s[0] != sep;
      assert s[1..] == a[1..] + [sep] + b;
      assert sep !in a[1..];
      SplitJoined(a[1..], sep, b);
      assert [a[0]] + a[1..] == a;
    }
  }

  /** `s.split(".")[-1]`: the text after the last dot, or all of `s`. */
  function LastSegment(s: string): (r: string)
    ensures '.' !in r
    ensures |r| <= |s| && r == s[|s| - |r|..]
    ensures '.' !in s ==> r == s
    decreases |s|
  {
    if '.' !in s then s
    else if s[0] == '.' then LastSegment(s[1..])
    else
      assert '.' in s[1..];
      LastSegment(s[1..])
  }

  /** When `s` holds a dot, the last segment is what follows its last
      dot. */
  lemma {:induction false} LastSegmentFollowsDot(s: string)
    requires '.' in s
    ensures var r := LastSegment(s);
      |r| < |s| && s[|s| - |r| - 1] == '.'
    decreases |s|
  {
    var t := s[1..];
    assert s == [s[0]] + t;
    if '.' in t {
      LastSegmentFollowsDot(t);
      var r := LastSegment(t);
      assert LastSegment(s) == r;
      assert s[|s| - |r| - 1] == t[|t| - |r| - 1];
    } else {
      assert s[0] == '.';
      assert LastSegment(s) == t;
    }
  }

  /** The last of the pieces `Split` produces. */
  function LastPiece(s: string, sep: char): string {
    var parts := Split(s, sep);
    parts[|parts| - 1]
  }

  /** A string holding the separator splits into at least two pieces. */
  lemma SplitAtSep(s: string, sep: char)
    requires sep in s
    ensures |Split(s, sep)| >= 2
  {
    SplitJoin(s, sep);
  }

  /** A leading separator does not change the last piece. */
  lemma LastPieceAfterSep(s: string, sep: char)
    requires |s| > 0 && s[0] == sep
    ensures LastPiece(s, sep) == LastPiece(s[1..], sep)
  {
    assert Split(s, sep) == [""] + Split(s[1..], sep);
  }

  /** Nor does a leading character when a separator follows it. */
  lemma LastPieceBeforeSep(s: string, sep: char)
    requires |s| > 0 && s[0] != sep && sep in s[1..]
    ensures LastPiece(s, sep) == LastPiece(s[1..], sep)
  {
    SplitAtSep(s[1..], sep);
    var rest := Split(s[1..], sep);
    assert Split(s, sep) == [[s[0]] + rest[0]] + rest[1..];
  }

  /** `LastSegment` is the last piece of `s.split(".")`. */
  lemma {:induction false} LastSegmentIsLastPiece(s: string)
    ensures LastSegment(s) == LastPiece(s, '.')
    decreases |s|
  {
    if '.' !in s {
      SplitNoSep(s, '.');
    } else if s[0] == '.' {
      LastSegmentIsLastPiece(s[1..]);
      LastPieceAfterSep(s, '.');
    } else {
      assert '.' in s[1..];
      LastSegmentIsLastPiece(s[1..]);
      LastPieceBeforeSep(s, '.');
    }
  }

  /** The lowercased last dotted segment, as both program selects and the
      active-program sensor present a program name:
      `program_name.split(".")[-1].lower()`. */
  function ShortName(programName: string): (r: string)
    ensures '.' !in r
    ensures Lower(r) == r
  {
    var seg := LastSegment(programName);
    LowerIdempotent(seg);
    assert forall i :: 0 <= i < |seg| ==> Lower(seg)[i] == LowerChar(seg[i]) && LowerChar(seg[i]) != '.';
    Lower(seg)
  }

  /** The short names of a list of program names, in order. */
  function ShortNames(names: seq<string>): (r: seq<string>)
    ensures |r| == |names|
    ensures forall i :: 0 <= i < |names| ==> r[i] == ShortName(names[i])
  {
    seq(|names|, i requires 0 <= i < |names| => ShortName(names[i]))
  }

  lemma ShortNamesAppend(names: seq<string>, last: string)
    ensures ShortNames(names + [last]) == ShortNames(names) + [ShortName(last)]
  {
    var all, before := ShortNames(names + [last]), ShortNames(names);
    forall i | 0 <= i < |names| ensures all[i] == before[i] {
      assert (names + [last])[i] == names[i];
    }
  }

  /** A short name is `program_name.split(".")[-1].lower()`. */
  lemma ShortNameIsLastPiece(programName: string)
    ensures ShortName(programName) == Lower(LastPiece(programName, '.'))
  {
    LastSegmentIsLastPiece(programName);
  }

  /** `a in b` for two strings: `a` occurs in `b` as a contiguous run. */
  predicate IsSubstring(a: string, b: string) {
    exists i :: 0 <= i <= |b| - |a| && OccursAt(a, b, i)
  }

  predicate OccursAt(a: string, b: string, i: int)
    requires 0 <= i <= |b| - |a|
  {
    b[i..i + |a|] == a
  }

  // ---------------------------------------------------------------- numbers

  predicate IsDigit(c: char) { '0' <= c <= '9' }

  function DigitChar(d: nat): (c: char)
    requires d < 10
    ensures IsDigit(c)
  {
    ('0' as int + d) as char
  }

  function DigitValue(c: char): (d: nat)
    requires IsDigit(c)
    ensures d < 10
  {
    c as int - '0' as int
  }

  /** `str(n)` for n >= 0: decimal digits without leading zeros. */
  function NatToString(n: nat): (s: string)
    ensures |s| >= 1
    ensures forall i :: 0 <= i < |s| ==> IsDigit(s[i])
    decreases n
  {
    if n < 10 then [DigitChar(n)] else NatToString(n / 10) + [DigitChar(n % 10)]
  }

  /** `str(i)` */
  function IntToString(i: int): (s: string)
    ensures |s| >= 1
    ensures ':' !in s && '.' !in s
  {
    if i < 0 then "-" + NatToString(-i) else NatToString(i)
  }

  /** `f"{n:02}"` for a non-negative n: at least two digits, zero-padded. */
  function Pad2(n: nat): (s: string)
    ensures |s| >= 2
    ensures forall i :: 0 <= i < |s| ==> IsDigit(s[i])
  {
    if n < 10 then "0" + NatToString(n) else NatToString(n)
  }

  predicate AllDigits(s: string) { forall i :: 0 <= i < |s| ==> IsDigit(s[i]) }

  /** The value of a run of decimal digits. */
  function DigitsValue(s: string): (n: nat)
    requires AllDigits(s)
    decreases |s|
  {
    if |s| == 0 then 0 else DigitsValue(s[..|s| - 1]) * 10 + DigitValue(s[|s| - 1])
  }

  /**
   * `int(s)`: an optional sign followed by one or more decimal digits;
   * anything else raises ValueError.
   */
  function ParseInt(s: string): (r: Result<int>)
    ensures r.Err? ==> r.error == ValueError
    ensures r.Ok? ==> |s| >= 1
  {
    if |s| >= 1 && (s[0] == '-' || s[0] == '+') then
      var digits := s[1..];
      if |digits| >= 1 && AllDigits(digits) then
        var d: int := DigitsValue(digits);
        Ok(if s[0] == '-' then 0 - d else d)
      else Err(ValueError)
    else if |s| >= 1 && AllDigits(s) then Ok(DigitsValue(s))
    else Err(ValueError)
  }

  lemma {:induction false} DigitsOfNatToString(n: nat)
    ensures DigitsValue(NatToString(n)) == n
    decreases n
  {
    var s := NatToString(n);
    if n < 10 {
      assert s[..0] == [];
    } else {
      DigitsOfNatToString(n / 10);
      assert s[..|s| - 1] == NatToString(n / 10);
    }
  }

  /** `int(str(i)) == i` */
  lemma ParseIntToString(i: int)
    ensures ParseInt(IntToString(i)) == Ok(i)
  {
    var s := IntToString(i);
    if i < 0 {
      DigitsOfNatToString(-i);
      assert s[1..] == NatToString(-i);
    } else {
      DigitsOfNatToString(i);
    }
  }

  /** `int(f"{n:02}") == n` */
  lemma ParsePad2(n: nat)
    ensures ParseInt(Pad2(n)) == Ok(n)
  {
    DigitsOfNatToString(n);
    if n < 10 {
      var s := Pad2(n);
      assert s[..|s| - 1] == "0";
      assert "0"[..0] == "";
      assert DigitsValue("0") == 0;
      assert DigitsValue(s) == n;
    }
  }
}
