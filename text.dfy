/** String helpers with the meaning the node's Python code gives them:
    lower-casing, substring tests, decimal rendering of integers, splitting a
    header block into lines and `os.path.splitext` on a URL path. */
module Text {

  /** Lower-cases the ASCII letters `A`..`Z`; every other character is kept. */
  function LowerChar(c: char): (r: char)
    ensures 'A' <= c <= 'Z' ==> 'a' <= r <= 'z'
    ensures !('A' <= c <= 'Z') ==> r == c
  {
    if 'A' <= c <= 'Z' then (c as int - 'A' as int + 'a' as int) as char else c
  }

  /** `s.lower()`, character by character. */
  function Lower(s: string): (r: string)
    ensures |r| == |s|
    ensures forall i :: 0 <= i < |s| ==> r[i] == LowerChar(s[i])
  {
    seq(|s|, i requires 0 <= i < |s| => LowerChar(s[i]))
  }

  /** `sub in s` for strings: `sub` occurs at some position of `s`. */
  predicate Contains(s: string, sub: string) {
    exists i | 0 <= i <= |s| - |sub| :: OccursAt(s, sub, i)
  }

  /** `sub` occurs in `s` starting at index `i`. */
  predicate OccursAt(s: string, sub: string, i: int) {
    0 <= i <= |s| - |sub| && s[i..i + |sub|] == sub
  }

  function Digit(d: nat): (c: char)
    requires d < 10
    ensures '0' <= c <= '9'
  {
    (d + '0' as int) as char
  }

  predicate IsDigit(c: char) {
    '0' <= c <= '9'
  }

  /** `str(n)` for a natural number: its decimal digits, without leading zeros. */
  function NatToString(n: nat): (s: string)
    ensures s != []
    ensures forall i :: 0 <= i < |s| ==> IsDigit(s[i])
    ensures s[0] == '0' ==> n == 0
    decreases n
  {
    if n < 10 then [Digit(n)] else NatToString(n / 10) + [Digit(n % 10)]
  }

  /** Reads a string of decimal digits back into a number. */
  function ParseDigits(s: string): nat
    requires forall i :: 0 <= i < |s| ==> IsDigit(s[i])
  {
    if s == [] then 0
    else
      assert IsDigit(s[|s| - 1]);
      ParseDigits(s[..|s| - 1]) * 10 + (s[|s| - 1] as int - '0' as int)
  }

  /** Decimal rendering and reading are inverse: the Content-Length header and
      the numbered file names carry the exact number. */
  lemma {:induction false} ParseNatToString(n: nat)
    ensures ParseDigits(NatToString(n)) == n
    decreases n
  {
    var s := NatToString(n);
    if n >= 10 {
      ParseNatToString(n / 10);
      assert s[..|s| - 1] == NatToString(n / 10);
    }
  }

  /** Different numbers have different decimal renderings. */
  lemma NatToStringInjective(m: nat, n: nat)
    requires NatToString(m) == NatToString(n)
    ensures m == n
  {
    ParseNatToString(m);
    ParseNatToString(n);
  }

  /** The length of the run of decimal digits `s` starts with. */
  function LeadingDigits(s: string): (n: nat)
    ensures n <= |s|
  {
    if s != [] && IsDigit(s[0]) then 1 + LeadingDigits(s[1..]) else 0
  }

  /** Digits followed by a dot: the leading run is exactly the digits. */
  lemma {:induction false} LeadingDigitsBeforeDot(d: string, e: string)
    requires forall i :: 0 <= i < |d| ==> IsDigit(d[i])
    requires e != [] && e[0] == '.'
    ensures LeadingDigits(d + e) == |d|
  {
    if d == [] {
      assert d + e == e;
    } else {
      assert (d + e)[0] == d[0];
      assert (d + e)[1..] == d[1..] + e;
      LeadingDigitsBeforeDot(d[1..], e);
    }
  }

  /** `str(i)` for any integer. */
  function IntToString(i: int): (s: string)
    ensures s != []
    ensures i >= 0 ==> s == NatToString(i)
    ensures i < 0 ==> s == "-" + NatToString(-i)
  {
    if i < 0 then "-" + NatToString(-i) else NatToString(i)
  }

  /** Splits `s` at every `sep`, like Python's `s.split(sep)`. */
  function Split(s: string, sep: char): (r: seq<string>)
    ensures |r| >= 1
    decreases |s|
  {
    if s == [] then [[]]
    else
      var rest := Split(s[1..], sep);
      if s[0] == sep then [[]] + rest else [[s[0]] + rest[0]] + rest[1..]
  }

  predicate Free(s: string, c: char) {
    forall i :: 0 <= i < |s| ==> s[i] != c
  }

  lemma FreeConcat(a: string, b: string, c: char)
    requires Free(a, c) && Free(b, c)
    ensures Free(a + b, c)
  {
    forall i | 0 <= i < |a + b| ensures (a + b)[i] != c {
      if i >= |a| { assert (a + b)[i] == b[i - |a|]; }
    }
  }

  /** Splitting a separator-free string yields that string alone. */
  lemma {:induction false} SplitFree(s: string, sep: char)
    requires Free(s, sep)
    ensures Split(s, sep) == [s]
    decreases |s|
  {
    if s != [] {
      SplitFree(s[1..], sep);
      assert [s[0]] + s[1..] == s;
    }
  }

  /** Splitting `a + [sep] + b` where `a` has no separator puts `a` first. */
  lemma {:induction false} SplitCons(a: string, sep: char, b: string)
    requires Free(a, sep)
    ensures Split(a + [sep] + b, sep) == [a] + Split(b, sep)
    decreases |a|
  {
    if a == [] {
      assert a + [sep] + b == [sep] + b;
      assert ([sep] + b)[1..] == b;
    } else {
      var s := a + [sep] + b;
      assert s[0] == a[0];
      assert s[1..] == a[1..] + [sep] + b;
      SplitCons(a[1..], sep, b);
      assert [a[0]] + a[1..] == a;
    }
  }

  /** The lines joined with `sep` between each two, like Python's `sep.join(lines)`. */
  function Join(lines: seq<string>, sep: char): string
    requires |lines| >= 1
  {
    if |lines| == 1 then lines[0] else lines[0] + [sep] + Join(lines[1..], sep)
  }

  /** Splitting undoes joining when no line holds the separator. */
  lemma {:induction false} SplitJoin(lines: seq<string>, sep: char)
    requires |lines| >= 1
    requires forall i :: 0 <= i < |lines| ==> Free(lines[i], sep)
    ensures Split(Join(lines, sep), sep) == lines
  {
    if |lines| == 1 {
      SplitFree(lines[0], sep);
    } else {
      SplitJoin(lines[1..], sep);
      SplitCons(lines[0], sep, Join(lines[1..], sep));
    }
  }

  /** Index of the last occurrence of `c` in `s`, or -1 (Python's `rfind`). */
  function RFind(s: string, c: char): (k: int)
    ensures -1 <= k < |s|
    ensures k >= 0 ==> s[k] == c
    ensures forall j :: k < j < |s| ==> s[j] != c
  {
    if s == [] then -1
    else if s[|s| - 1] == c then |s| - 1
    else RFind(s[..|s| - 1], c)
  }

  /** Whether `s[from..to]` holds a character other than `c`. */
  predicate HasOther(s: string, from: int, to: int, c: char)
    requires 0 <= from && to <= |s|
  {
    exists k :: from <= k < to && s[k] != c
  }

  /** `os.path.splitext(p)` on POSIX: the extension runs from the last `.` that
      comes after the last `/`, provided the name before it is not made only of
      dots; otherwise there is no extension. */
  function SplitExt(p: string): (r: (string, string))
    ensures r.0 + r.1 == p
    ensures r.1 != [] ==> r.1[0] == '.' && Free(r.1, '/') && Free(r.1[1..], '.')
  {
    var sep := RFind(p, '/');
    var dot := RFind(p, '.');
    if dot > sep && HasOther(p, sep + 1, dot, '.') then
      assert p[..dot] + p[dot..] == p;
      (p[..dot], p[dot..])
    else
      (p, "")
  }
}
