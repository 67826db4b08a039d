/** The Python `str` operations the tools rely on, over Dafny strings.
    Case mapping covers ASCII letters only; `isspace` covers the whole set
    of characters Python 3 treats as whitespace. */
module Text {

  predicate IsUpperAscii(c: char) { 'A' <= c <= 'Z' }

  predicate IsLowerAscii(c: char) { 'a' <= c <= 'z' }

  function LowerChar(c: char): char {
    if IsUpperAscii(c) then (c as int + 32) as char else c
  }

  function UpperChar(c: char): char {
    if IsLowerAscii(c) then (c as int - 32) as char else c
  }

  /** `s.lower()` */
  function Lower(s: string): string {
    seq(|s|, i requires 0 <= i < |s| => LowerChar(s[i]))
  }

  /** `s.upper()` */
  function Upper(s: string): string {
    seq(|s|, i requires 0 <= i < |s| => UpperChar(s[i]))
  }

  /** `s.replace(a, b)` for one-character `a` and `b` */
  function ReplaceChar(s: string, a: char, b: char): string {
    seq(|s|, i requires 0 <= i < |s| => if s[i] == a then b else s[i])
  }

  /** The lookup-key normalisation of the order-fulfilment tools,
      `key.lower().replace(" ", "_")`, as one pass over the characters. */
  function NormaliseKey(s: string): string {
    seq(|s|, i requires 0 <= i < |s| => if s[i] == ' ' then '_' else LowerChar(s[i]))
  }

  /** The one-pass normalisation is lower-casing followed by replacing spaces. */
  lemma NormaliseKeyIsLowerThenReplace(s: string)
    ensures NormaliseKey(s) == ReplaceChar(Lower(s), ' ', '_')
  {
  }

  /** A key that normalisation leaves alone: no space, no upper-case letter. */
  predicate IsNormalKey(s: string) {
    forall i :: 0 <= i < |s| ==> s[i] != ' ' && !IsUpperAscii(s[i])
  }

  /** Normalisation keeps the length and always produces a normal key. */
  lemma NormaliseKeyIsNormal(s: string)
    ensures |NormaliseKey(s)| == |s|
    ensures IsNormalKey(NormaliseKey(s))
  {
    var r := NormaliseKey(s);
    forall i | 0 <= i < |r| ensures r[i] != ' ' && !IsUpperAscii(r[i]) {
    }
  }

  /** The keys normalisation fixes are exactly the normal keys. */
  lemma NormaliseKeyFixpoint(s: string)
    ensures NormaliseKey(s) == s <==> IsNormalKey(s)
  {
    NormaliseKeyIsNormal(s);
    if IsNormalKey(s) {
      var r := NormaliseKey(s);
      forall i | 0 <= i < |s| ensures r[i] == s[i] {
        assert LowerChar(s[i]) == s[i];
      }
      assert r == s;
    }
  }

  /** Normalising an already normalised key changes nothing. */
  lemma NormaliseKeyIdempotent(s: string)
    ensures NormaliseKey(NormaliseKey(s)) == NormaliseKey(s)
  {
    NormaliseKeyIsNormal(s);
    NormaliseKeyFixpoint(NormaliseKey(s));
  }

  predicate StartsWith(s: string, prefix: string) {
    |prefix| <= |s| && s[..|prefix|] == prefix
  }

  /** `s.endswith(suffix)` */
  predicate EndsWith(s: string, suffix: string) {
    |suffix| <= |s| && s[|s| - |suffix|..] == suffix
  }

  /** The tools' error convention: a string that starts with `Error:`. */
  predicate IsErrorText(s: string) { StartsWith(s, "Error:") }

  /** The text after the last `c` in `s`, or all of `s` when `c` does not
      occur: `s.rsplit(c, 1)[-1]`, and `os.path.basename` for `c == '/'`. */
  function AfterLast(s: string, c: char): (r: string)
    ensures c !in r
    ensures |r| <= |s| && r == s[|s| - |r|..]
    ensures c in s <==> |r| < |s|
    ensures |r| < |s| ==> s[|s| - |r| - 1] == c
  {
    if s == [] then []
    else if s[|s| - 1] == c then []
    else
      var init := s[..|s| - 1];
      assert s == init + [s[|s| - 1]];
      AfterLast(init, c) + [s[|s| - 1]]
  }

  /** `sep.join(parts)` */
  function Join(sep: string, parts: seq<string>): string {
    if |parts| == 0 then ""
    else if |parts| == 1 then parts[0]
    else parts[0] + sep + Join(sep, parts[1..])
  }

  /** Joining two non-empty runs of parts puts one separator between them. */
  lemma {:induction false} JoinAppend(sep: string, a: seq<string>, b: seq<string>)
    requires a != [] && b != []
    ensures Join(sep, a + b) == Join(sep, a) + sep + Join(sep, b)
  {
    if |a| == 1 {
      assert (a + b)[1..] == b;
    } else {
      assert (a + b)[1..] == a[1..] + b;
      JoinAppend(sep, a[1..], b);
    }
  }

  /** Every part appears verbatim in the joined text, between the joins of
      the parts before it and after it. */
  lemma JoinAt(sep: string, parts: seq<string>, k: nat)
    requires k < |parts|
    ensures Join(sep, parts) ==
      (if k == 0 then "" else Join(sep, parts[..k]) + sep)
      + parts[k]
      + (if k == |parts| - 1 then "" else sep + Join(sep, parts[k + 1..]))
  {
    var front, rest := parts[..k], parts[k..];
    assert parts == front + rest;
    var tail := parts[k + 1..];
    assert rest == [parts[k]] + tail;
    if k > 0 {
      JoinAppend(sep, front, rest);
    }
    if k < |parts| - 1 {
      JoinAppend(sep, [parts[k]], tail);
    }
  }

  /** `c.isspace()`: Python 3's whitespace characters. */
  predicate IsSpace(c: char) {
    var n := c as int;
    (9 <= n <= 13) || (28 <= n <= 32) || n == 0x85 || n == 0xA0 || n == 0x1680
    || (0x2000 <= n <= 0x200A) || n == 0x2028 || n == 0x2029 || n == 0x202F
    || n == 0x205F || n == 0x3000
  }

  predicate IsBlank(s: string) {
    forall i :: 0 <= i < |s| ==> IsSpace(s[i])
  }

  /** `s.lstrip()`: the suffix left once the leading whitespace is gone. */
  function StripLeft(s: string): (r: string)
    ensures |r| <= |s| && r == s[|s| - |r|..]
    ensures forall i :: 0 <= i < |s| - |r| ==> IsSpace(s[i])
    ensures r != [] ==> !IsSpace(r[0])
  {
    if s != [] && IsSpace(s[0]) then
      var r := StripLeft(s[1..]);
      assert forall i :: 1 <= i < |s| - |r| ==> s[i] == s[1..][i - 1];
      r
    else s
  }

  /** `s.rstrip()`: the prefix left once the trailing whitespace is gone. */
  function StripRight(s: string): (r: string)
    ensures |r| <= |s| && r == s[..|r|]
    ensures forall i :: |r| <= i < |s| ==> IsSpace(s[i])
    ensures r != [] ==> !IsSpace(r[|r| - 1])
  {
    if s != [] && IsSpace(s[|s| - 1]) then
      var init := s[..|s| - 1];
      var r := StripRight(init);
      assert forall i :: |r| <= i < |s| - 1 ==> s[i] == init[i];
      r
    else s
  }

  /** `s.strip()`: `lstrip` then `rstrip`, so the result is what is left of
      `s` once the whitespace at both ends is gone (`StripLeft` keeps a
      suffix and `StripRight` a prefix, each dropping only whitespace), and
      neither of its ends is whitespace. */
  function Strip(s: string): (r: string)
    ensures r == StripRight(StripLeft(s))
    ensures |r| <= |s|
    ensures r != [] ==> !IsSpace(r[0]) && !IsSpace(r[|r| - 1])
  {
    var t := StripLeft(s);
    var r := StripRight(t);
    assert r != [] ==> r[0] == t[0];
    r
  }

  lemma {:induction false} StripLeftBlank(s: string)
    ensures StripLeft(s) == [] <==> IsBlank(s)
    ensures StripLeft(s) != [] ==> !IsSpace(StripLeft(s)[0])
  {
    if s != [] && IsSpace(s[0]) {
      StripLeftBlank(s[1..]);
      assert IsBlank(s) <==> IsBlank(s[1..]) by {
        if IsBlank(s[1..]) {
          forall i | 0 <= i < |s| ensures IsSpace(s[i]) {
            if i > 0 { assert s[i] == s[1..][i - 1]; }
          }
        }
      }
    }
  }

  lemma {:induction false} StripRightBlank(s: string)
    ensures StripRight(s) == [] <==> IsBlank(s)
  {
    if s != [] && IsSpace(s[|s| - 1]) {
      var init := s[..|s| - 1];
      StripRightBlank(init);
      assert IsBlank(s) <==> IsBlank(init) by {
        if IsBlank(init) {
          forall i | 0 <= i < |s| ensures IsSpace(s[i]) {
            if i < |s| - 1 { assert s[i] == init[i]; }
          }
        }
      }
    }
  }

  /** `s.strip() == ""` holds exactly when every character of `s` is whitespace. */
  lemma StripEmptyIffBlank(s: string)
    ensures Strip(s) == "" <==> IsBlank(s)
  {
    StripLeftBlank(s);
    var t := StripLeft(s);
    StripRightBlank(t);
    if t != [] {
      assert !IsBlank(t);
    }
  }

  function DigitChar(d: nat): char
    requires d < 10
  {
    ('0' as int + d) as char
  }

  predicate IsDigits(s: string) {
    forall i :: 0 <= i < |s| ==> '0' <= s[i] <= '9'
  }

  /** `str(n)` for a non-negative integer: its decimal digits, with no
      leading zero. */
  function NatStr(n: nat): (r: string)
    ensures r != [] && IsDigits(r)
    ensures |r| > 1 ==> r[0] != '0'
  {
    if n < 10 then [DigitChar(n)] else NatStr(n / 10) + [DigitChar(n % 10)]
  }

  /** The value of a string of decimal digits: the partner of NatStr. */
  function DecimalValue(s: string): nat
    requires IsDigits(s)
  {
    if s == [] then 0
    else DecimalValue(s[..|s| - 1]) * 10 + (s[|s| - 1] as int - '0' as int)
  }

  /** NatStr loses nothing: reading its digits back gives the number. */
  lemma {:induction false} NatStrRoundTrip(n: nat)
    ensures DecimalValue(NatStr(n)) == n
  {
    if n >= 10 {
      NatStrRoundTrip(n / 10);
      var r := NatStr(n);
      assert r[..|r| - 1] == NatStr(n / 10);
    }
  }
}
