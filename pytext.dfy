/**
 * The few pieces of Python's text and path handling that the server relies on:
 * `str.isspace`, `int(str)`, `str(int)`, `str.split(sep)[0]`,
 * `os.path.splitext` and `os.path.join` (POSIX flavour).
 */
module PyText {
  import opened Wrappers

  /** A character that Python's `str.isspace` (and `str.strip`) treats as white space. */
  predicate IsSpaceChar(c: char) {
    var n := c as int;
    (9 <= n <= 13) || (28 <= n <= 32) || n == 0x85 || n == 0xA0 || n == 0x1680 ||
    (0x2000 <= n <= 0x200A) || n == 0x2028 || n == 0x2029 || n == 0x202F ||
    n == 0x205F || n == 0x3000
  }

  /** Python's `s.isspace()`: true for a non-empty string of white space only. */
  predicate IsSpace(s: string) {
    |s| > 0 && forall i :: 0 <= i < |s| ==> IsSpaceChar(s[i])
  }

  /** Python truthiness of an optional string: present and non-empty. */
  predicate Truthy(v: Option<string>) {
    v.Some? && v.value != ""
  }

  /** The handlers' test `title == '' or title.isspace()`. */
  predicate IsBlank(s: string) {
    s == "" || IsSpace(s)
  }

  lemma BlankMeansAllSpace(s: string)
    ensures IsBlank(s) <==> forall i :: 0 <= i < |s| ==> IsSpaceChar(s[i])
  {
  }

  predicate IsDigit(c: char) {
    '0' <= c <= '9'
  }

  function DigitValue(c: char): (d: nat)
    requires IsDigit(c)
    ensures d < 10
  {
    c as int - '0' as int
  }

  function DigitChar(d: nat): (c: char)
    requires d < 10
    ensures IsDigit(c) && DigitValue(c) == d
  {
    ('0' as int + d) as char
  }

  /** `s.lstrip()` */
  function StripLeft(s: string): (r: string)
    ensures |r| <= |s| && r == s[|s| - |r|..]
    ensures r == [] || !IsSpaceChar(r[0])
    ensures forall i :: 0 <= i < |s| - |r| ==> IsSpaceChar(s[i])
  {
    if s != [] && IsSpaceChar(s[0]) then StripLeft(s[1..]) else s
  }

  /** `s.rstrip()` */
  function StripRight(s: string): (r: string)
    ensures |r| <= |s| && r == s[..|r|]
    ensures r == [] || !IsSpaceChar(r[|r| - 1])
    ensures forall i :: |r| <= i < |s| ==> IsSpaceChar(s[i])
  {
    if s != [] && IsSpaceChar(s[|s| - 1]) then StripRight(s[..|s| - 1]) else s
  }

  /** `s.strip()` */
  function Strip(s: string): string {
    StripRight(StripLeft(s))
  }

  /**
   * The digit part of a decimal integer literal as `int()` accepts it:
   * ASCII digits, with single underscores allowed between two digits.
   */
  predicate ValidDigits(t: string) {
    && |t| > 0
    && IsDigit(t[0])
    && IsDigit(t[|t| - 1])
    && DigitsOrUnderscores(t)
    && forall i :: 0 < i < |t| - 1 && t[i] == '_' ==> IsDigit(t[i - 1]) && IsDigit(t[i + 1])
  }

  predicate DigitsOrUnderscores(t: string) {
    forall i :: 0 <= i < |t| ==> IsDigit(t[i]) || t[i] == '_'
  }

  /** The value of a digit string, underscores skipped. */
  function DigitsValue(t: string): nat
    requires DigitsOrUnderscores(t)
  {
    if t == [] then 0
    else if t[|t| - 1] == '_' then DigitsValue(t[..|t| - 1])
    else 10 * DigitsValue(t[..|t| - 1]) + DigitValue(t[|t| - 1])
  }

  /** The magnitude part of `int(s)` after the sign, if it is well formed. */
  function Magnitude(t: string): Option<nat> {
    if ValidDigits(t) then Some(DigitsValue(t)) else None
  }

  /**
   * Python's `int(s)` for a string: surrounding white space is ignored, an
   * optional sign, then decimal digits. `None` stands for the `ValueError`
   * that `int` raises on anything else.
   */
  function ParseInt(s: string): (r: Option<int>)
    ensures r.Some? ==> |Strip(s)| > 0
  {
    var t := Strip(s);
    if t != [] && (t[0] == '+' || t[0] == '-') then
      match Magnitude(t[1..])
      case None => None
      case Some(m) =>
        var v: int := m;
        Some(if t[0] == '-' then -v else v)
    else
      match Magnitude(t)
      case None => None
      case Some(m) => Some(m)
  }

  /** Python's `str(n)` for a natural number. */
  function NatToString(n: nat): (r: string)
    ensures |r| > 0
    ensures forall i :: 0 <= i < |r| ==> IsDigit(r[i])
  {
    if n < 10 then [DigitChar(n)] else NatToString(n / 10) + [DigitChar(n % 10)]
  }

  /** Python's `str(n)` (and `f'{n}'`) for an integer. */
  function IntToString(n: int): string {
    if n < 0 then "-" + NatToString(-n) else NatToString(n)
  }

  lemma {:induction false} NatToStringValue(n: nat)
    ensures ValidDigits(NatToString(n))
    ensures DigitsValue(NatToString(n)) == n
  {
    if n >= 10 {
      NatToStringValue(n / 10);
      var s := NatToString(n);
      assert s[..|s| - 1] == NatToString(n / 10);
    }
  }

  lemma StripNoSpace(s: string)
    requires s != [] && !IsSpaceChar(s[0]) && !IsSpaceChar(s[|s| - 1])
    ensures Strip(s) == s
  {
  }

  /** A stripped string made of a minus sign and well-formed digits parses to their negated value. */
  lemma ParseNegative(s: string, m: nat)
    requires |s| > 1 && s[0] == '-' && !IsSpaceChar(s[|s| - 1]) && Magnitude(s[1..]) == Some(m)
    ensures ParseInt(s) == Some(-(m as int))
  {
    StripNoSpace(s);
  }

  /** A stripped string of well-formed digits parses to their value. */
  lemma ParseUnsigned(s: string, m: nat)
    requires s != [] && IsDigit(s[0]) && Strip(s) == s && Magnitude(s) == Some(m)
    ensures ParseInt(s) == Some(m)
  {
  }

  /** `int(str(n)) == n`: the decimal rendering used in messages parses back to the same number. */
  lemma {:induction false} IntToStringRoundTrip(n: int)
    ensures ParseInt(IntToString(n)) == Some(n)
  {
    var m: nat := if n < 0 then -n else n;
    var d := NatToString(m);
    NatToStringValue(m);
    assert Magnitude(d) == Some(m);
    var s := IntToString(n);
    assert !IsSpaceChar(d[|d| - 1]) && !IsSpaceChar(d[0]);
    if n < 0 {
      assert s[1..] == d && s[|s| - 1] == d[|d| - 1];
      ParseNegative(s, m);
    } else {
      StripNoSpace(d);
      ParseUnsigned(d, m);
    }
  }

  /** Text that starts with a letter is not an integer: `int` raises `ValueError`. */
  lemma LetterIsNotInt(s: string)
    requires s != [] && 'a' <= s[0] <= 'z'
    ensures ParseInt(s) == None
  {
    assert !IsSpaceChar(s[0]);
    assert StripLeft(s) == s;
    var t := StripRight(s);
    assert t != [] && t[0] == s[0];
  }

  /** The text before the first occurrence of `sep`: Python's `s.split(sep)[0]`. */
  function BeforeFirst(s: string, sep: char): (r: string)
    ensures |r| <= |s| && r == s[..|r|]
    ensures sep !in r
    ensures |r| < |s| ==> s[|r|] == sep
  {
    if s == [] || s[0] == sep then [] else [s[0]] + BeforeFirst(s[1..], sep)
  }

  /** The index of the last occurrence of `c` in `s`, Python's `s.rfind(c)`. */
  function LastIndexOf(s: string, c: char): (r: Option<nat>)
    ensures r.Some? ==> r.value < |s| && s[r.value] == c && c !in s[r.value + 1..]
    ensures r.None? ==> c !in s
  {
    if s == [] then None
    else if s[|s| - 1] == c then Some(|s| - 1)
    else
      var r := LastIndexOf(s[..|s| - 1], c);
      assert s == s[..|s| - 1] + [s[|s| - 1]];
      r
  }

  /**
   * The extension `os.path.splitext(f)[1]` for a file name without a
   * directory part: from the last dot on, unless every character before that
   * dot is itself a dot (a hidden file such as `.mp3` has no extension).
   */
  function Extension(f: string): string {
    match LastIndexOf(f, '.')
    case None => ""
    case Some(d) =>
      if exists i :: 0 <= i < d && f[i] != '.' then f[d..] else ""
  }

  /** The importer's filter: the extension is exactly `.mp3`. */
  lemma Mp3Extension(f: string)
    ensures Extension(f) == ".mp3" <==>
              |f| >= 4 && f[|f| - 4..] == ".mp3" &&
              exists i :: 0 <= i < |f| - 4 && f[i] != '.'
  {
    var tail := ".mp3";
    if Extension(f) == tail {
      var d := LastIndexOf(f, '.').value;
      assert f[d..] == tail;
      assert d == |f| - 4;
    }
    if |f| >= 4 && f[|f| - 4..] == tail && exists i :: 0 <= i < |f| - 4 && f[i] != '.' {
      var d := LastIndexOf(f, '.');
      assert f[|f| - 4] == '.';
      assert d.Some?;
      assert f[|f| - 4] !in f[d.value + 1..] ==> d.value >= |f| - 4;
      assert forall j :: |f| - 4 < j < |f| ==> f[j] == tail[j - (|f| - 4)] != '.';
    }
  }

  /** POSIX `os.path.join(a, b)` for two components. */
  function PathJoin(a: string, b: string): (r: string)
    ensures |r| >= |b| && r[|r| - |b|..] == b
  {
    if |b| > 0 && b[0] == '/' then b
    else if a == [] || a[|a| - 1] == '/' then a + b
    else a + "/" + b
  }

  /**
   * Joining a file name to a directory puts the file directly inside it:
   * the directory part (`os.path.dirname`) of the joined path is the directory.
   */
  lemma PathJoinPlacesInside(dir: string, name: string)
    requires dir != [] && dir[|dir| - 1] != '/'
    requires name != [] && '/' !in name
    ensures PathJoin(dir, name) == dir + "/" + name
    ensures LastIndexOf(PathJoin(dir, name), '/') == Some(|dir|)
  {
    var p := PathJoin(dir, name);
    assert p[|dir|] == '/';
    assert p[|dir| + 1..] == name;
  }

  /** `s.rstrip('/')` */
  function StripTrailingSlashes(s: string): (r: string)
    ensures |r| <= |s| && r == s[..|r|]
    ensures r == [] || r[|r| - 1] != '/'
  {
    if s != [] && s[|s| - 1] == '/' then StripTrailingSlashes(s[..|s| - 1]) else s
  }

  /** POSIX `os.path.dirname(p)`: everything before the last `/`, trailing slashes removed unless that is all there is. */
  function Dirname(p: string): string {
    match LastIndexOf(p, '/')
    case None => ""
    case Some(i) =>
      var head := p[..i + 1];
      if forall k :: 0 <= k < |head| ==> head[k] == '/' then head else StripTrailingSlashes(head)
  }

  /** The directory part of a file joined onto a directory is that directory. */
  lemma DirnameOfJoin(dir: string, name: string)
    requires dir != [] && dir[|dir| - 1] != '/'
    requires name != [] && '/' !in name
    ensures Dirname(PathJoin(dir, name)) == dir
  {
    PathJoinPlacesInside(dir, name);
    var p := PathJoin(dir, name);
    var head := p[..|dir| + 1];
    assert head == dir + "/";
    assert head[|dir| - 1] != '/';
    assert head[..|dir|] == dir;
    assert StripTrailingSlashes(head) == StripTrailingSlashes(dir);
  }

  /** `s.split(sep)[0]` of a text that has `sep` after a prefix free of it is that prefix. */
  lemma BeforeFirstOfJoined(a: string, sep: char, b: string)
    requires sep !in a
    ensures BeforeFirst(a + [sep] + b, sep) == a
  {
    var s := a + [sep] + b;
    var r := BeforeFirst(s, sep);
    assert s[|a|] == sep;
    assert |r| <= |a| ==> r == s[..|r|] == a[..|r|];
    assert r == a;
  }
}
