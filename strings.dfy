/** The handful of Python `str` operations the placer relies on, written over `seq<char>`:
    strip, split on a separator, join, substring and suffix tests, `int(...)`, `str(...)`
    and `str.format` with a single positional argument. */
module Strings {
  import opened Wrappers

  /** Python's `str.isspace`, which `strip()` and `int()` both use: \t \n \v \f \r, the
      separators 0x1C-0x1F, space, and the Unicode spaces and separators 0x85, 0xA0, 0x1680,
      0x2000-0x200A, 0x2028, 0x2029, 0x202F, 0x205F and 0x3000. */
  predicate IsSpace(c: char) {
    var n := c as int;
    (9 <= n <= 13) || (28 <= n <= 32) || n == 0x85 || n == 0xA0 || n == 0x1680 ||
    (0x2000 <= n <= 0x200A) || n == 0x2028 || n == 0x2029 || n == 0x202F || n == 0x205F || n == 0x3000
  }

  /** `s.lstrip()`: drops the leading white space and nothing else. */
  function TrimStart(s: string): (r: string)
    ensures |r| <= |s| && r == s[|s| - |r|..]
    ensures r == [] || !IsSpace(r[0])
    ensures forall i :: 0 <= i < |s| - |r| ==> IsSpace(s[i])
    decreases |s|
  {
    if |s| > 0 && IsSpace(s[0]) then TrimStart(s[1..]) else s
  }

  /** `s.rstrip()`: drops the trailing white space and nothing else. */
  function TrimEnd(s: string): (r: string)
    ensures |r| <= |s| && r == s[..|r|]
    ensures r == [] || !IsSpace(r[|r| - 1])
    ensures forall i :: |r| <= i < |s| ==> IsSpace(s[i])
    decreases |s|
  {
    if |s| > 0 && IsSpace(s[|s| - 1]) then TrimEnd(s[..|s| - 1]) else s
  }

  /** `s.strip()`. */
  function Strip(s: string): string {
    TrimEnd(TrimStart(s))
  }

  /** A string that starts and ends with a non-space character is its own `strip()`. */
  lemma StripUnchanged(s: string)
    requires s != [] && !IsSpace(s[0]) && !IsSpace(s[|s| - 1])
    ensures Strip(s) == s
  {
  }

  /** Every non-space character of `s` survives `strip()`, at the same distance from the first one kept. */
  lemma StripKeepsInner(s: string, i: nat)
    requires i < |s| && !IsSpace(s[i])
    ensures |s| - |TrimStart(s)| <= i < |s| - |TrimStart(s)| + |Strip(s)|
    ensures Strip(s)[i - (|s| - |TrimStart(s)|)] == s[i]
  {
  }

  /** `s.split(sep)` for a non-empty separator: the pieces between the leftmost non-overlapping
      occurrences of `sep`; there is always at least one piece. */
  function Split(s: string, sep: string): (r: seq<string>)
    requires sep != []
    ensures |r| >= 1
    decreases |s|
  {
    if s == [] then [""]
    else if sep <= s then [""] + Split(s[|sep|..], sep)
    else
      var rest := Split(s[1..], sep);
      [[s[0]] + rest[0]] + rest[1..]
  }

  /** `sep.join(parts)`. */
  function Join(parts: seq<string>, sep: string): string
    decreases |parts|
  {
    if |parts| == 0 then ""
    else if |parts| == 1 then parts[0]
    else parts[0] + sep + Join(parts[1..], sep)
  }

  lemma JoinEmptyHead(parts: seq<string>, sep: string)
    requires |parts| >= 1
    ensures Join([""] + parts, sep) == sep + Join(parts, sep)
  {
    assert ([""] + parts)[1..] == parts;
  }

  lemma JoinConsHead(c: char, parts: seq<string>, sep: string)
    requires |parts| >= 1
    ensures Join([[c] + parts[0]] + parts[1..], sep) == [c] + Join(parts, sep)
  {
    var p := [[c] + parts[0]] + parts[1..];
    assert p[1..] == parts[1..];
  }

  /** Joining the pieces of a split with the same separator gives the text back. */
  lemma {:induction false} JoinSplit(s: string, sep: string)
    requires sep != []
    ensures Join(Split(s, sep), sep) == s
    decreases |s|
  {
    if s == [] {
    } else if sep <= s {
      JoinSplit(s[|sep|..], sep);
      JoinSplitAtSep(s, sep);
    } else {
      JoinSplit(s[1..], sep);
      JoinSplitAtChar(s, sep);
    }
  }

  /** The step of `JoinSplit` where the text starts with the separator. */
  lemma JoinSplitAtSep(s: string, sep: string)
    requires sep != [] && s != [] && sep <= s
    requires Join(Split(s[|sep|..], sep), sep) == s[|sep|..]
    ensures Join(Split(s, sep), sep) == s
  {
    var rest := Split(s[|sep|..], sep);
    assert Split(s, sep) == [""] + rest;
    JoinEmptyHead(rest, sep);
    assert s == sep + s[|sep|..];
  }

  /** The step of `JoinSplit` where the text does not start with the separator. */
  lemma JoinSplitAtChar(s: string, sep: string)
    requires sep != [] && s != [] && !(sep <= s)
    requires Join(Split(s[1..], sep), sep) == s[1..]
    ensures Join(Split(s, sep), sep) == s
  {
    var rest := Split(s[1..], sep);
    assert Split(s, sep) == [[s[0]] + rest[0]] + rest[1..];
    JoinConsHead(s[0], rest, sep);
    assert s == [s[0]] + s[1..];
  }

  /** Text without the separator character is a single piece. */
  lemma {:induction false} SplitNoSep(a: string, c: char)
    requires c !in a
    ensures Split(a, [c]) == [a]
    decreases |a|
  {
    if a != [] {
      SplitNoSep(a[1..], c);
      assert [a[0]] + a[1..] == a;
    }
  }

  /** Splitting on a one-character separator cuts at the first occurrence. */
  lemma {:induction false} SplitAtFirst(a: string, c: char, b: string)
    requires c !in a
    ensures Split(a + [c] + b, [c]) == [a] + Split(b, [c])
    decreases |a|
  {
    var s := a + [c] + b;
    if a == [] {
      assert s == [c] + b;
      assert [c] <= s;
      assert s[1..] == b;
    } else {
      assert s[0] == a[0] && a[0] != c;
      assert !([c] <= s);
      assert s[1..] == a[1..] + [c] + b;
      SplitAtFirst(a[1..], c, b);
      assert [a[0]] + a[1..] == a;
    }
  }

  /** Splitting on a one-character separator cuts at the last occurrence, too. */
  lemma {:induction false} SplitAtLast(a: string, c: char, b: string)
    requires c !in b
    ensures Split(a + [c] + b, [c]) == Split(a, [c]) + [b]
    decreases |a|
  {
    var s := a + [c] + b;
    if a == [] {
      SplitAtFirst(a, c, b);
      SplitNoSep(b, c);
    } else if a[0] == c {
      assert [c] <= s && [c] <= a;
      assert s[1..] == a[1..] + [c] + b;
      SplitAtLast(a[1..], c, b);
    } else {
      assert !([c] <= s) && !([c] <= a);
      assert s[1..] == a[1..] + [c] + b;
      SplitAtLast(a[1..], c, b);
      var rest := Split(a[1..], [c]);
      assert Split(s[1..], [c]) == rest + [b];
      assert (rest + [b])[1..] == rest[1..] + [b];
    }
  }

  /** Splitting the join of pieces that do not contain a one-character separator gives the pieces back. */
  lemma {:induction false} SplitJoin(parts: seq<string>, c: char)
    requires |parts| >= 1
    requires forall i :: 0 <= i < |parts| ==> c !in parts[i]
    ensures Split(Join(parts, [c]), [c]) == parts
    decreases |parts|
  {
    if |parts| == 1 {
      SplitNoSep(parts[0], c);
    } else {
      SplitJoin(parts[1..], c);
      SplitAtFirst(parts[0], c, Join(parts[1..], [c]));
      assert parts == [parts[0]] + parts[1..];
    }
  }

  /** Python's `sub in s` on strings: `sub` occurs somewhere in `s`. */
  predicate Contains(s: string, sub: string)
    decreases |s|
  {
    sub <= s || (|s| > 0 && Contains(s[1..], sub))
  }

  /** `sub` occurs in `s` starting at position `i`. */
  predicate OccursAt(s: string, sub: string, i: int) {
    0 <= i <= |s| - |sub| && s[i..i + |sub|] == sub
  }

  /** `Contains` holds exactly when `sub` is a contiguous slice of `s`. */
  lemma {:induction false} ContainsIff(s: string, sub: string)
    ensures Contains(s, sub) <==> exists i :: OccursAt(s, sub, i)
    decreases |s|
  {
    if sub <= s {
      assert OccursAt(s, sub, 0);
    } else if |s| > 0 {
      ContainsIff(s[1..], sub);
      if Contains(s[1..], sub) {
        var i :| OccursAt(s[1..], sub, i);
        assert s[i + 1..i + 1 + |sub|] == s[1..][i..i + |sub|];
        assert OccursAt(s, sub, i + 1);
      }
      if exists i :: OccursAt(s, sub, i) {
        var i :| OccursAt(s, sub, i);
        assert i != 0;
        assert s[1..][i - 1..i - 1 + |sub|] == s[i..i + |sub|];
        assert OccursAt(s[1..], sub, i - 1);
      }
    } else {
      assert forall i :: !OccursAt(s, sub, i);
    }
  }

  /** `s.endswith(suffix)`. */
  predicate EndsWith(s: string, suffix: string) {
    |suffix| <= |s| && s[|s| - |suffix|..] == suffix
  }

  predicate IsDigit(c: char) {
    '0' <= c <= '9'
  }

  predicate AllDigits(s: string) {
    forall i :: 0 <= i < |s| ==> IsDigit(s[i])
  }

  /** The value of a run of decimal digits, most significant first. */
  function DigitsValue(s: string): nat
    requires AllDigits(s)
    decreases |s|
  {
    if s == [] then 0 else DigitsValue(s[..|s| - 1]) * 10 + (s[|s| - 1] as int - '0' as int)
  }

  /** An optional sign followed by at least one decimal digit, and nothing else. */
  function ParseSigned(t: string): Option<int> {
    if |t| > 0 && (t[0] == '-' || t[0] == '+') then
      var d := t[1..];
      if |d| > 0 && AllDigits(d) then
        var v: int := DigitsValue(d);
        Some(if t[0] == '-' then -v else v)
      else None
    else if |t| > 0 && AllDigits(t) then Some(DigitsValue(t))
    else None
  }

  /** Python's `int(text)` on ASCII input: surrounding white space is ignored, one character at a
      time, then an optional sign and at least one decimal digit; anything else raises ValueError,
      here `None`. */
  function ParseInt(s: string): Option<int>
    decreases |s|
  {
    if |s| > 0 && IsSpace(s[0]) then ParseInt(s[1..])
    else if |s| > 0 && IsSpace(s[|s| - 1]) then ParseInt(s[..|s| - 1])
    else ParseSigned(s)
  }

  /** `int(text)` is `int(text.strip())`: the white space dropped one character at a time is exactly
      what `strip()` drops. */
  lemma {:induction false} ParseIntStrips(s: string)
    ensures ParseInt(s) == ParseSigned(Strip(s))
    decreases |s|
  {
    if |s| > 0 && IsSpace(s[0]) {
      ParseIntStrips(s[1..]);
      assert TrimStart(s) == TrimStart(s[1..]);
    } else if |s| > 0 && IsSpace(s[|s| - 1]) {
      var u := s[..|s| - 1];
      ParseIntStrips(u);
      assert |s| >= 2;
      assert TrimStart(s) == s && TrimStart(u) == u;
      assert TrimEnd(s) == TrimEnd(u);
    } else {
      assert TrimStart(s) == s;
      assert TrimEnd(s) == s;
    }
  }

  /** A field holding a character that is neither a digit, a sign nor white space (such as
      `[N/A]` or `[Not Supported]`) is rejected by `int(...)`. */
  lemma ParseIntRejects(s: string, i: nat)
    requires i < |s| && !IsDigit(s[i]) && !IsSpace(s[i]) && s[i] != '-' && s[i] != '+'
    ensures ParseInt(s) == None
  {
    ParseIntStrips(s);
    StripKeepsInner(s, i);
    var t := Strip(s);
    var j := i - (|s| - |TrimStart(s)|);
    assert t[j] == s[i];
    if |t| > 0 && (t[0] == '-' || t[0] == '+') {
      assert j > 0 && t[1..][j - 1] == s[i];
    }
  }

  function DigitChar(d: nat): (c: char)
    requires d < 10
    ensures IsDigit(c) && c as int - '0' as int == d
  {
    ('0' as int + d) as char
  }

  /** `str(n)` for a natural number: its decimal digits, without leading zeros. */
  function NatToString(n: nat): (s: string)
    ensures |s| > 0 && AllDigits(s)
    decreases n
  {
    if n < 10 then [DigitChar(n)] else NatToString(n / 10) + [DigitChar(n % 10)]
  }

  /** `str(n)` for any integer. */
  function IntToString(n: int): string {
    if n < 0 then "-" + NatToString(-n) else NatToString(n)
  }

  lemma {:induction false} DigitsRoundTrip(n: nat)
    ensures DigitsValue(NatToString(n)) == n
    decreases n
  {
    if n >= 10 {
      DigitsRoundTrip(n / 10);
      var s := NatToString(n);
      assert s[..|s| - 1] == NatToString(n / 10);
    }
  }

  /** `int(str(n)) == n`. */
  lemma ParseIntOfIntToString(n: int)
    ensures ParseInt(IntToString(n)) == Some(n)
  {
    var s := IntToString(n);
    var d := NatToString(if n < 0 then -n else n);
    DigitsRoundTrip(if n < 0 then -n else n);
    assert IsDigit(d[0]) && IsDigit(d[|d| - 1]);
    assert s[|s| - 1] == d[|d| - 1];
    assert !IsSpace(s[0]) && !IsSpace(s[|s| - 1]);
    assert ParseInt(s) == ParseSigned(s);
    if n < 0 {
      assert s[1..] == d;
    }
  }

  /** The numbering style seen so far by `str.format`: none, automatic `{}` or manual `{0}`. */
  datatype FieldMode = NoFields | Auto | Manual

  /** Why `str.format` raises: a second `{}` with only one argument (IndexError), mixing `{}` and `{0}`
      (ValueError), a field this model does not support, or an unmatched brace (ValueError). */
  datatype FormatError = IndexOutOfRange | MixedNumbering | UnsupportedField | SingleBrace

  function Prepend(p: string, r: Result<string, FormatError>): Result<string, FormatError> {
    match r
    case Success(v) => Success(p + v)
    case Failure(e) => Failure(e)
  }

  function FormatFrom(t: string, arg: string, mode: FieldMode): Result<string, FormatError>
    decreases |t|
  {
    if t == [] then Success("")
    else if t[0] == '{' then
      if 2 <= |t| && t[1] == '{' then Prepend("{", FormatFrom(t[2..], arg, mode))
      else if 2 <= |t| && t[1] == '}' then
        if mode == Manual then Failure(MixedNumbering)
        else if mode == Auto then Failure(IndexOutOfRange)
        else Prepend(arg, FormatFrom(t[2..], arg, Auto))
      else if 3 <= |t| && t[1] == '0' && t[2] == '}' then
        if mode == Auto then Failure(MixedNumbering)
        else Prepend(arg, FormatFrom(t[3..], arg, Manual))
      else Failure(UnsupportedField)
    else if t[0] == '}' then
      if 2 <= |t| && t[1] == '}' then Prepend("}", FormatFrom(t[2..], arg, mode))
      else Failure(SingleBrace)
    else Prepend([t[0]], FormatFrom(t[1..], arg, mode))
  }

  /** `template.format(arg)` with one positional argument already converted with `str`. */
  function Format(template: string, arg: string): Result<string, FormatError> {
    FormatFrom(template, arg, NoFields)
  }

  predicate BraceFree(s: string) {
    '{' !in s && '}' !in s
  }

  lemma {:induction false} FormatBraceFree(pre: string, rest: string, arg: string, mode: FieldMode)
    requires BraceFree(pre)
    ensures FormatFrom(pre + rest, arg, mode) == Prepend(pre, FormatFrom(rest, arg, mode))
    decreases |pre|
  {
    if pre == [] {
      assert pre + rest == rest;
      match FormatFrom(rest, arg, mode)
      case Success(v) => assert pre + v == v;
      case Failure(_) =>
    } else {
      assert (pre + rest)[1..] == pre[1..] + rest;
      FormatBraceFree(pre[1..], rest, arg, mode);
      match FormatFrom(rest, arg, mode)
      case Success(v) => assert [pre[0]] + (pre[1..] + v) == pre + v;
      case Failure(_) =>
    }
  }

  /** A template with exactly one `{}` and no other brace renders as the text around it with the
      argument in its place. */
  lemma FormatOnePlaceholder(pre: string, post: string, arg: string)
    requires BraceFree(pre) && BraceFree(post)
    ensures Format(pre + "{}" + post, arg) == Success(pre + arg + post)
  {
    assert pre + "{}" + post == pre + ("{}" + post);
    FormatBraceFree(pre, "{}" + post, arg, NoFields);
    FieldThenBraceFree(post, arg);
    assert pre + (arg + post) == pre + arg + post;
  }

  /** An automatic field followed by brace-free text renders as the argument and that text. */
  lemma FieldThenBraceFree(post: string, arg: string)
    requires BraceFree(post)
    ensures FormatFrom("{}" + post, arg, NoFields) == Success(arg + post)
  {
    assert ("{}" + post)[2..] == post;
    FormatBraceFree(post, "", arg, Auto);
    assert post + "" == post;
  }

  /** A second automatic field fails, whatever surrounds the two. */
  lemma FormatTwoPlaceholders(pre: string, mid: string, post: string, arg: string)
    requires BraceFree(pre) && BraceFree(mid)
    ensures Format(pre + "{}" + mid + "{}" + post, arg) == Failure(IndexOutOfRange)
  {
    assert pre + "{}" + mid + "{}" + post == pre + ("{}" + mid + "{}" + post);
    FormatBraceFree(pre, "{}" + mid + "{}" + post, arg, NoFields);
    assert ("{}" + mid + "{}" + post)[2..] == mid + ("{}" + post);
    FormatBraceFree(mid, "{}" + post, arg, Auto);
    assert FormatFrom("{}" + post, arg, Auto) == Failure(IndexOutOfRange);
  }
}
