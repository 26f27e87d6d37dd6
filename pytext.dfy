/** The Python string operations the scripts rely on: strip(), `in`,
    replace(), split(), join(), isdigit(), upper(), str(int) and int(str). */
module PyText {
  import opened Wrappers

  /** Python's str.isspace(): the characters strip() removes. */
  predicate IsSpace(c: char) {
    c == ' ' || ('\t' <= c <= '\r') || ('\U{1C}' <= c <= '\U{1F}') || c == '\U{85}' || c == '\U{A0}'
    || c == '\U{1680}' || ('\U{2000}' <= c <= '\U{200A}') || c == '\U{2028}' || c == '\U{2029}'
    || c == '\U{202F}' || c == '\U{205F}' || c == '\U{3000}'
  }

  /** No whitespace at either end: what strip() leaves behind. */
  predicate Trimmed(s: string) {
    s == [] || (!IsSpace(s[0]) && !IsSpace(s[|s| - 1]))
  }

  function TrimStart(s: string): (r: string)
    ensures |r| <= |s| && r == s[|s| - |r|..]
    ensures r == [] || !IsSpace(r[0])
    ensures forall i :: 0 <= i < |s| - |r| ==> IsSpace(s[i])
  {
    if s != [] && IsSpace(s[0]) then TrimStart(s[1..]) else s
  }

  function TrimEnd(s: string): (r: string)
    ensures |r| <= |s| && r == s[..|r|]
    ensures r == [] || !IsSpace(r[|r| - 1])
    ensures forall i :: |r| <= i < |s| ==> IsSpace(s[i])
  {
    if s != [] && IsSpace(s[|s| - 1]) then TrimEnd(s[..|s| - 1]) else s
  }

  /** Python's s.strip(): the longest slice of s with no whitespace at its ends;
      StripSlice shows that everything cut away is whitespace. */
  function Strip(s: string): (r: string)
    ensures Trimmed(r) && |r| <= |s|
    ensures r == [] <==> forall i :: 0 <= i < |s| ==> IsSpace(s[i])
  {
    TrimBoth(s);
    TrimEnd(TrimStart(s))
  }

  /** Trimming the start and then the end leaves a trimmed text, empty just
      when the text is all whitespace. */
  lemma TrimBoth(s: string)
    ensures var r := TrimEnd(TrimStart(s));
            Trimmed(r) && |r| <= |s| && (r == [] <==> forall i :: 0 <= i < |s| ==> IsSpace(s[i]))
  {
    var t := TrimStart(s);
    var r := TrimEnd(t);
    if t == [] {
      assert r == [];
    } else {
      assert !IsSpace(t[0]);
      assert r[0] == t[0];
      assert s[|s| - |t|] == t[0];
    }
  }

  /** strip() returns a slice of s, and every character it cuts away is whitespace. */
  lemma StripSlice(s: string)
    ensures exists i, j :: 0 <= i <= j <= |s| && Strip(s) == s[i..j]
              && (forall k :: 0 <= k < i ==> IsSpace(s[k])) && (forall k :: j <= k < |s| ==> IsSpace(s[k]))
  {
    var t := TrimStart(s);
    var i := |s| - |t|;
    var j := i + |TrimEnd(t)|;
    SliceOfSlice(s, i, j);
    CutEnd(s, t, i);
    assert Strip(s) == s[i..j];
    assert 0 <= i <= j <= |s| && Strip(s) == s[i..j]
           && (forall k :: 0 <= k < i ==> IsSpace(s[k])) && (forall k :: j <= k < |s| ==> IsSpace(s[k]));
  }

  /** The prefix of a suffix is a slice. */
  lemma SliceOfSlice(s: string, i: int, j: int)
    requires 0 <= i <= j <= |s|
    ensures s[i..][..j - i] == s[i..j]
  {
  }

  /** What TrimEnd cuts from the suffix t == s[i..] is whitespace of s. */
  lemma CutEnd(s: string, t: string, i: int)
    requires 0 <= i <= |s| && t == s[i..]
    ensures forall k :: i + |TrimEnd(t)| <= k < |s| ==> IsSpace(s[k])
  {
    forall k | i + |TrimEnd(t)| <= k < |s|
      ensures IsSpace(s[k])
    {
      assert s[k] == t[k - i];
    }
  }

  /** A slice has no character its text lacks. */
  lemma SliceAvoids(s: string, i: int, j: int, c: char)
    requires c !in s && 0 <= i <= j <= |s|
    ensures c !in s[i..j]
  {
    forall k | 0 <= k < j - i
      ensures s[i..j][k] != c
    {
      assert s[i..j][k] == s[i + k];
    }
  }

  lemma StripOfTrimmed(s: string)
    requires Trimmed(s)
    ensures Strip(s) == s
  {
  }

  /** strip() only removes characters: one absent from s is absent from the result. */
  lemma StripAvoids(s: string, c: char)
    requires c !in s
    ensures c !in Strip(s)
  {
    var t := TrimStart(s);
    var i := |s| - |t|;
    var j := i + |TrimEnd(t)|;
    SliceOfSlice(s, i, j);
    assert Strip(s) == s[i..j];
    SliceAvoids(s, i, j, c);
  }

  lemma StripIdempotent(s: string)
    ensures Strip(Strip(s)) == Strip(s)
  {
    StripOfTrimmed(Strip(s));
  }

  /** Python's `t in s` for strings. */
  function Contains(s: string, t: string): bool {
    if |t| > |s| then false
    else s[..|t|] == t || Contains(s[1..], t)
  }

  /** s.replace(c, "") for a one-character c. */
  function RemoveChar(s: string, c: char): (r: string)
    ensures c !in r
  {
    if s == [] then [] else (if s[0] == c then [] else [s[0]]) + RemoveChar(s[1..], c)
  }

  /** s.replace(c, d) for one-character c and d. */
  function ReplaceChar(s: string, c: char, d: char): (r: string)
    ensures |r| == |s|
    ensures forall i :: 0 <= i < |s| ==> r[i] == (if s[i] == c then d else s[i])
  {
    if s == [] then [] else [if s[0] == c then d else s[0]] + ReplaceChar(s[1..], c, d)
  }

  /** Python's s.split(sep) for a one-character separator: one piece more than
      there are separators; empty pieces are kept. */
  function Split(s: string, sep: char): (r: seq<string>)
    ensures |r| >= 1
    ensures forall p :: p in r ==> sep !in p
  {
    if s == [] then [""]
    else
      var rest := Split(s[1..], sep);
      if s[0] == sep then [""] + rest else [[s[0]] + rest[0]] + rest[1..]
  }

  /** The pieces of split() hold no character the text does not. */
  lemma {:induction false} SplitAvoids(s: string, sep: char, c: char)
    requires c !in s
    ensures forall p :: p in Split(s, sep) ==> c !in p
  {
    if s != [] {
      SplitAvoids(s[1..], sep, c);
      assert s[0] != c;
    }
  }

  /** Python's sep.join(parts). */
  function Join(sep: string, parts: seq<string>): string {
    if parts == [] then ""
    else if |parts| == 1 then parts[0]
    else parts[0] + sep + Join(sep, parts[1..])
  }

  /** Split and join are inverse: joining the pieces with the separator gives the text back. */
  lemma {:induction false} JoinSplit(s: string, sep: char)
    ensures Join([sep], Split(s, sep)) == s
  {
    if s != [] {
      var rest := Split(s[1..], sep);
      JoinSplit(s[1..], sep);
      if s[0] == sep {
        assert Split(s, sep) == [""] + rest;
      } else {
        var r := [[s[0]] + rest[0]] + rest[1..];
        if |rest| == 1 {
          assert r == [[s[0]] + rest[0]];
        } else {
          assert r[1..] == rest[1..];
          assert Join([sep], r) == [s[0]] + (rest[0] + [sep] + Join([sep], rest[1..]));
        }
      }
    }
  }

  /** An ASCII decimal digit. */
  predicate IsDigit(c: char) {
    '0' <= c <= '9'
  }

  predicate AllDigits(s: string) {
    forall i :: 0 <= i < |s| ==> IsDigit(s[i])
  }

  /** re.sub(r"\D", "", s): the digits of s, in order. */
  function Digits(s: string): (r: string)
    ensures AllDigits(r) && |r| <= |s|
    ensures AllDigits(s) ==> r == s
  {
    if s == [] then [] else (if IsDigit(s[0]) then [s[0]] else []) + Digits(s[1..])
  }

  /** s.upper() on ASCII letters. */
  function UpperAscii(s: string): (r: string)
    ensures |r| == |s|
    ensures forall i :: 0 <= i < |s| ==> r[i] == (if 'a' <= s[i] <= 'z' then (s[i] as int - 32) as char else s[i])
  {
    if s == [] then []
    else [if 'a' <= s[0] <= 'z' then (s[0] as int - 32) as char else s[0]] + UpperAscii(s[1..])
  }

  function EndsWith(s: string, suffix: string): bool {
    |suffix| <= |s| && s[|s| - |suffix|..] == suffix
  }

  function DigitChar(d: nat): char
    requires d < 10
  {
    ('0' as int + d) as char
  }

  /** The value of a digit character (0 for anything else). */
  function DigitOf(c: char): nat {
    if IsDigit(c) then c as int - '0' as int else 0
  }

  /** Decimal text of a natural number (no leading zeros). */
  function NatToStr(n: nat): (r: string)
    ensures |r| >= 1 && AllDigits(r)
  {
    if n < 10 then [DigitChar(n)] else NatToStr(n / 10) + [DigitChar(n % 10)]
  }

  /** Python's str(n) for an int. */
  function IntToStr(n: int): (r: string)
    ensures |r| >= 1
  {
    if n < 0 then "-" + NatToStr(-n) else NatToStr(n)
  }

  /** The value of a string of decimal digits. */
  function DigitsValue(s: string): nat {
    if s == [] then 0 else DigitsValue(s[..|s| - 1]) * 10 + DigitOf(s[|s| - 1])
  }

  /** The body Python's int() accepts after the sign: a digit, then digits,
      each of them optionally preceded by a single underscore. */
  predicate IntBody(b: string) {
    |b| >= 1 && IsDigit(b[0]) && BodyTail(b[1..])
  }

  predicate BodyTail(s: string) {
    || s == []
    || (IsDigit(s[0]) && BodyTail(s[1..]))
    || (|s| >= 2 && s[0] == '_' && IsDigit(s[1]) && BodyTail(s[2..]))
  }

  /** The value of an int() body: its digits with the underscores left out. */
  function BodyValue(b: string): nat {
    DigitsValue(RemoveChar(b, '_'))
  }

  /** Python's int(s) for a str: None where int() raises ValueError. */
  function ParseInt(s: string): Option<int> {
    ParseSigned(Strip(s))
  }

  /** int() after the surrounding whitespace is gone: an optional sign, then a body. */
  function ParseSigned(t: string): Option<int> {
    if |t| >= 1 && (t[0] == '+' || t[0] == '-') then
      if !IntBody(t[1..]) then None
      else Some(if t[0] == '-' then -(BodyValue(t[1..]) as int) else BodyValue(t[1..]) as int)
    else if !IntBody(t) then None
    else Some(BodyValue(t) as int)
  }

  lemma {:induction false} NatToStrValue(n: nat)
    ensures DigitsValue(NatToStr(n)) == n
  {
    if n >= 10 {
      NatToStrValue(n / 10);
      var s := NatToStr(n);
      assert s[..|s| - 1] == NatToStr(n / 10);
    }
  }

  lemma {:induction false} RemoveAbsent(s: string, c: char)
    requires c !in s
    ensures RemoveChar(s, c) == s
  {
    if s != [] {
      RemoveAbsent(s[1..], c);
    }
  }

  /** str(n) of a natural has no thousands separator. */
  lemma {:induction false} NoCommaInNatToStr(n: nat)
    ensures ',' !in NatToStr(n)
  {
    var d := NatToStr(n);
    forall i | 0 <= i < |d| ensures d[i] != ',' {
      assert IsDigit(d[i]);
    }
  }

  lemma NoUnderscoreInDigits(d: string)
    requires AllDigits(d)
    ensures '_' !in d
  {
    forall i | 0 <= i < |d| ensures d[i] != '_' {
      assert IsDigit(d[i]);
    }
  }

  /** An unsigned decimal text is an int() body whose value is its digit value. */
  lemma {:induction false} DigitsTail(d: string)
    requires AllDigits(d)
    ensures BodyTail(d)
  {
    if d != [] {
      DigitsTail(d[1..]);
    }
  }

  lemma DigitsParse(d: string)
    requires |d| >= 1 && AllDigits(d)
    ensures IntBody(d) && BodyValue(d) == DigitsValue(d)
  {
    NoUnderscoreInDigits(d);
    RemoveAbsent(d, '_');
    DigitsTail(d[1..]);
  }

  lemma ParseIntOfTrimmed(t: string)
    requires Trimmed(t)
    ensures ParseInt(t) == ParseSigned(t)
  {
    StripOfTrimmed(t);
  }

  lemma ParseIntOfDigits(b: string)
    requires |b| >= 1 && AllDigits(b)
    ensures ParseInt(b) == Some(DigitsValue(b) as int)
  {
    assert Trimmed(b) by { assert IsDigit(b[0]) && IsDigit(b[|b| - 1]); }
    ParseIntOfTrimmed(b);
    DigitsParse(b);
  }

  lemma ParseSignedNegative(b: string)
    requires |b| >= 1 && AllDigits(b)
    ensures ParseSigned("-" + b) == Some(-(DigitsValue(b) as int))
  {
    DigitsParse(b);
    assert ("-" + b)[1..] == b;
  }

  lemma ParseIntOfNegative(b: string)
    requires |b| >= 1 && AllDigits(b)
    ensures ParseInt("-" + b) == Some(-(DigitsValue(b) as int))
  {
    var t := "-" + b;
    assert Trimmed(t) by { assert IsDigit(b[|b| - 1]) && t[|t| - 1] == b[|b| - 1]; }
    ParseIntOfTrimmed(t);
    ParseSignedNegative(b);
  }

  /** int(str(n)) == n: the decimal text of an integer parses back to it. */
  lemma ParseIntOfIntToStr(n: int)
    ensures ParseInt(IntToStr(n)) == Some(n)
  {
    var m: nat := if n < 0 then -n else n;
    var d := NatToStr(m);
    NatToStrValue(m);
    var t := IntToStr(n);
    assert t == d || t == "-" + d;
    assert IsDigit(d[0]) && IsDigit(d[|d| - 1]);
    if n < 0 { ParseIntOfNegative(d); } else { ParseIntOfDigits(d); }
  }
}
