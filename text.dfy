/**
 * The few Python string built-ins the application relies on, with the
 * semantics CPython gives them on ASCII text: `str.replace`, `str.split`,
 * `str.join`, `str.title`, `str(int)` and `int(str)`.
 */
module Text {
  import opened Wrappers

  /** `s.startswith(pat)` */
  predicate StartsWith(s: string, pat: string) {
    |pat| <= |s| && s[..|pat|] == pat
  }

  /** `pat in s`: `pat` occurs at some position of `s` (the empty string occurs everywhere). */
  predicate Occurs(s: string, pat: string)
    decreases |s|
  {
    StartsWith(s, pat) || (s != [] && Occurs(s[1..], pat))
  }

  /** Every character of a pattern found in `s` is a character of `s`. */
  lemma {:induction false} OccursHasChars(s: string, pat: string, c: char)
    requires Occurs(s, pat) && c in pat
    ensures c in s
    decreases |s|
  {
    if StartsWith(s, pat) {
      assert s[..|pat|] == pat;
    } else {
      OccursHasChars(s[1..], pat, c);
    }
  }

  /**
   * `s.replace(pat, rep)`: every leftmost, non-overlapping occurrence of a
   * non-empty `pat` is replaced by `rep`; an empty `pat` matches before every
   * character and at the end, so `rep` is inserted |s| + 1 times.
   */
  function Replace(s: string, pat: string, rep: string): string
    decreases |s|
  {
    if pat == [] then
      if s == [] then rep else rep + [s[0]] + Replace(s[1..], pat, rep)
    else if StartsWith(s, pat) then rep + Replace(s[|pat|..], pat, rep)
    else if s == [] then []
    else [s[0]] + Replace(s[1..], pat, rep)
  }

  /** `s.split(sep)` for a non-empty separator (Python raises on an empty one). */
  function Split(s: string, sep: string): (parts: seq<string>)
    requires sep != []
    ensures |parts| >= 1
    decreases |s|
  {
    if StartsWith(s, sep) then [[]] + Split(s[|sep|..], sep)
    else if s == [] then [[]]
    else
      var rest := Split(s[1..], sep);
      [[s[0]] + rest[0]] + rest[1..]
  }

  /** `sep.join(parts)` */
  function Join(sep: string, parts: seq<string>): string {
    if parts == [] then []
    else if |parts| == 1 then parts[0]
    else parts[0] + sep + Join(sep, parts[1..])
  }

  lemma JoinConsChar(sep: string, c: char, parts: seq<string>)
    requires |parts| >= 1
    ensures Join(sep, [[c] + parts[0]] + parts[1..]) == [c] + Join(sep, parts)
  {
    var q := [[c] + parts[0]] + parts[1..];
    assert q[1..] == parts[1..];
  }

  lemma JoinConsEmpty(sep: string, parts: seq<string>)
    requires |parts| >= 1
    ensures Join(sep, [[]] + parts) == sep + Join(sep, parts)
  {
    var q := [[]] + parts;
    assert q[1..] == parts;
  }

  /**
   * `s.replace(pat, rep) == rep.join(s.split(pat))` for a non-empty `pat`:
   * an independent reference definition of replacement.
   */
  lemma {:induction false} ReplaceIsJoinOfSplit(s: string, pat: string, rep: string)
    requires pat != []
    ensures Replace(s, pat, rep) == Join(rep, Split(s, pat))
    decreases |s|
  {
    if StartsWith(s, pat) {
      ReplaceIsJoinOfSplit(s[|pat|..], pat, rep);
      JoinConsEmpty(rep, Split(s[|pat|..], pat));
    } else if s == [] {
    } else {
      ReplaceIsJoinOfSplit(s[1..], pat, rep);
      JoinConsChar(rep, s[0], Split(s[1..], pat));
    }
  }

  /** Splitting on a non-empty separator and joining with it gives the text back. */
  lemma {:induction false} JoinOfSplit(s: string, sep: string)
    requires sep != []
    ensures Join(sep, Split(s, sep)) == s
    decreases |s|
  {
    if StartsWith(s, sep) {
      JoinOfSplit(s[|sep|..], sep);
      JoinConsEmpty(sep, Split(s[|sep|..], sep));
      assert s == sep + s[|sep|..];
    } else if s == [] {
    } else {
      JoinOfSplit(s[1..], sep);
      JoinConsChar(sep, s[0], Split(s[1..], sep));
      assert s == [s[0]] + s[1..];
    }
  }

  /** Replacing a non-empty pattern by itself changes nothing. */
  lemma ReplaceBySelf(s: string, pat: string)
    requires pat != []
    ensures Replace(s, pat, pat) == s
  {
    ReplaceIsJoinOfSplit(s, pat, pat);
    JoinOfSplit(s, pat);
  }

  /** A non-empty pattern that does not occur leaves the text unchanged. */
  lemma {:induction false} ReplaceAbsent(s: string, pat: string, rep: string)
    requires pat != [] && !Occurs(s, pat)
    ensures Replace(s, pat, rep) == s
    decreases |s|
  {
    if s != [] {
      ReplaceAbsent(s[1..], pat, rep);
      assert s == [s[0]] + s[1..];
    }
  }

  /** Replacing a leading occurrence: `(pat + s).replace(pat, rep)`. */
  lemma ReplaceLeading(s: string, pat: string, rep: string)
    requires pat != []
    ensures Replace(pat + s, pat, rep) == rep + Replace(s, pat, rep)
  {
    assert StartsWith(pat + s, pat);
    assert (pat + s)[|pat|..] == s;
  }

  /**
   * An empty pattern inserts `rep` before every character and at the end:
   * the text grows by (|s| + 1) * |rep| characters and every original
   * character is still there, in order.
   */
  lemma {:induction false} ReplaceEmptyPattern(s: string, rep: string)
    ensures |Replace(s, [], rep)| == |s| + (|s| + 1) * |rep|
    ensures forall i :: 0 <= i < |s| ==> Replace(s, [], rep)[i * (|rep| + 1) + |rep|] == s[i]
    decreases |s|
  {
    if s != [] {
      ReplaceEmptyPattern(s[1..], rep);
      var tail := Replace(s[1..], [], rep);
      var r := rep + [s[0]] + tail;
      assert Replace(s, [], rep) == r;
      forall i | 0 <= i < |s|
        ensures r[i * (|rep| + 1) + |rep|] == s[i]
      {
        if i > 0 {
          var j := i - 1;
          assert i * (|rep| + 1) + |rep| == (|rep| + 1) + (j * (|rep| + 1) + |rep|);
          assert tail[j * (|rep| + 1) + |rep|] == s[1..][j];
        }
      }
    }
  }

  /** The lines of a text joined by a one-character separator that none of them holds split back into those lines. */
  lemma {:induction false} SplitOfJoin(parts: seq<string>, c: char)
    requires |parts| >= 1
    requires forall i :: 0 <= i < |parts| ==> c !in parts[i]
    ensures Split(Join([c], parts), [c]) == parts
    decreases |parts|
  {
    if |parts| == 1 {
      SplitNoSeparator(parts[0], [], c);
      assert parts[0] + [] == parts[0];
    } else {
      SplitOfJoin(parts[1..], c);
      var rest := Join([c], parts[1..]);
      var t := [c] + rest;
      assert Join([c], parts) == parts[0] + t;
      SplitNoSeparator(parts[0], t, c);
      assert StartsWith(t, [c]);
      assert t[1..] == rest;
      var st := Split(t, [c]);
      assert st == [[]] + parts[1..];
      assert st[0] == [] && st[1..] == parts[1..];
      assert parts[0] + st[0] == parts[0];
      assert parts == [parts[0]] + parts[1..];
    }
  }

  /** A prefix free of the separator is glued to the first piece of what follows. */
  lemma {:induction false} SplitNoSeparator(x: string, t: string, c: char)
    requires c !in x
    ensures Split(x + t, [c]) == [x + Split(t, [c])[0]] + Split(t, [c])[1..]
    decreases |x|
  {
    if x == [] {
      var st := Split(t, [c]);
      assert x + t == t && x + st[0] == st[0];
      assert st == [st[0]] + st[1..];
    } else {
      var xt := x + t;
      assert xt[0] == x[0];
      assert !StartsWith(xt, [c]);
      assert xt[1..] == x[1..] + t;
      SplitNoSeparator(x[1..], t, c);
      assert [x[0]] + (x[1..] + Split(t, [c])[0]) == x + Split(t, [c])[0];
    }
  }

  predicate IsAsciiLetter(c: char) {
    ('a' <= c <= 'z') || ('A' <= c <= 'Z')
  }

  function ToUpper(c: char): char {
    if 'a' <= c <= 'z' then (c as int - 32) as char else c
  }

  function ToLower(c: char): char {
    if 'A' <= c <= 'Z' then (c as int + 32) as char else c
  }

  /** `str.title()` from a position whose previous character was (or was not) a letter. */
  function TitleFrom(s: string, afterLetter: bool): string
    decreases |s|
  {
    if s == [] then []
    else if IsAsciiLetter(s[0]) then
      [if afterLetter then ToLower(s[0]) else ToUpper(s[0])] + TitleFrom(s[1..], true)
    else [s[0]] + TitleFrom(s[1..], false)
  }

  /** `s.title()`: the first letter of every run of letters upper-case, the rest lower-case. */
  function Title(s: string): string {
    TitleFrom(s, false)
  }

  /** Title-casing keeps the length and is idempotent. */
  lemma {:induction false} TitleIdempotent(s: string, afterLetter: bool)
    ensures |TitleFrom(s, afterLetter)| == |s|
    ensures TitleFrom(TitleFrom(s, afterLetter), afterLetter) == TitleFrom(s, afterLetter)
    decreases |s|
  {
    if s != [] {
      TitleIdempotent(s[1..], IsAsciiLetter(s[0]));
      var t := TitleFrom(s, afterLetter);
      assert t[1..] == TitleFrom(s[1..], IsAsciiLetter(s[0]));
      assert IsAsciiLetter(t[0]) == IsAsciiLetter(s[0]);
    }
  }

  predicate IsDigit(c: char) {
    '0' <= c <= '9'
  }

  function DigitChar(d: nat): (c: char)
    requires d < 10
    ensures IsDigit(c) && c as int - '0' as int == d
  {
    ('0' as int + d) as char
  }

  /** `str(n)` for n >= 0: decimal digits, most significant first, no leading zero. */
  function NatToString(n: nat): (r: string)
    ensures |r| >= 1
    ensures forall i :: 0 <= i < |r| ==> IsDigit(r[i])
  {
    if n < 10 then [DigitChar(n)] else NatToString(n / 10) + [DigitChar(n % 10)]
  }

  /** `str(n)` */
  function IntToString(n: int): string {
    if n < 0 then "-" + NatToString(-n) else NatToString(n)
  }

  function DigitValue(c: char): nat
    requires IsDigit(c)
  {
    c as int - '0' as int
  }

  /** The number a string of decimal digits denotes. */
  function DigitsValue(s: string): nat
    requires forall i :: 0 <= i < |s| ==> IsDigit(s[i])
  {
    if s == [] then 0 else DigitsValue(s[..|s| - 1]) * 10 + DigitValue(s[|s| - 1])
  }

  /**
   * `int(s)` restricted to an optional sign followed by ASCII digits; any
   * other text raises `ValueError` with Python's message.
   */
  function ParseInt(s: string): Result<int, string> {
    var signed := s != [] && (s[0] == '-' || s[0] == '+');
    var digits := if signed then s[1..] else s;
    if digits == [] || exists i :: 0 <= i < |digits| && !IsDigit(digits[i]) then
      Failure("invalid literal for int() with base 10: '" + s + "'")
    else
      var v: int := DigitsValue(digits);
      Success(if signed && s[0] == '-' then -v else v)
  }

  lemma {:induction false} DigitsValueOfNatToString(n: nat)
    ensures DigitsValue(NatToString(n)) == n
  {
    if n >= 10 {
      DigitsValueOfNatToString(n / 10);
      var r := NatToString(n);
      assert r[..|r| - 1] == NatToString(n / 10);
    }
  }

  /** `int(str(n)) == n`. */
  lemma ParseIntOfIntToString(n: int)
    ensures ParseInt(IntToString(n)) == Success(n)
  {
    var m: nat := if n < 0 then -n else n;
    DigitsValueOfNatToString(m);
    var s := IntToString(n);
    if n < 0 {
      assert s[1..] == NatToString(m);
    } else {
      assert s[0] != '-' && s[0] != '+';
    }
  }
}
