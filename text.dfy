/** Python string operations the simulation and issue scripts rely on:
    `strip`, `startswith`, `find`/`rfind`, `replace`, and the regular
    expression `Label:\s*(\d+)` used to read numbers out of a model reply.
    Whitespace is what `str.isspace` accepts, which is also what `\s`
    matches in a text pattern. */
module Text {
  import opened Common

  /** The code points Python counts as whitespace: the ASCII controls 9-13
      and 28-31, the space, U+0085, U+00A0, U+1680, U+2000-U+200A, U+2028,
      U+2029, U+202F, U+205F and U+3000. */
  predicate IsSpace(c: char) {
    var n := c as int;
    || 9 <= n <= 13 || 28 <= n <= 32
    || n == 0x85 || n == 0xA0 || n == 0x1680 || 0x2000 <= n <= 0x200A
    || n == 0x2028 || n == 0x2029 || n == 0x202F || n == 0x205F || n == 0x3000
  }

  /** The separators 28-31 are whitespace, as in Python. */
  lemma SeparatorsAreSpace()
    ensures IsSpace(28 as char) && IsSpace(29 as char) && IsSpace(30 as char) && IsSpace(31 as char)
  {
  }

  predicate IsDigit(c: char) {
    '0' <= c <= '9'
  }

  // ---------------------------------------------------------------------
  // strip
  // ---------------------------------------------------------------------

  /** Number of leading whitespace characters. */
  function LeadingSpaces(s: string): (k: nat)
    ensures k <= |s|
    ensures forall i :: 0 <= i < k ==> IsSpace(s[i])
    ensures k < |s| ==> !IsSpace(s[k])
  {
    if s == [] || !IsSpace(s[0]) then 0 else 1 + LeadingSpaces(s[1..])
  }

  /** Number of trailing whitespace characters. */
  function TrailingSpaces(s: string): (k: nat)
    ensures k <= |s|
    ensures forall i :: |s| - k <= i < |s| ==> IsSpace(s[i])
    ensures k < |s| ==> !IsSpace(s[|s| - k - 1])
  {
    if s == [] || !IsSpace(s[|s| - 1]) then 0 else 1 + TrailingSpaces(s[..|s| - 1])
  }

  /** `r` is `s` with `i` whitespace characters cut from the front and
      only whitespace cut from the back. */
  predicate StripsAt(s: string, r: string, i: int) {
    0 <= i <= |s| - |r| && r == s[i..i + |r|]
    && (forall k :: 0 <= k < i ==> IsSpace(s[k]))
    && (forall k :: i + |r| <= k < |s| ==> IsSpace(s[k]))
  }

  /** `str.strip()`: the middle of `s` between its leading and trailing
      whitespace; a blank string strips to "". */
  function Strip(s: string): (r: string)
    ensures |r| <= |s|
    ensures r == [] || (!IsSpace(r[0]) && !IsSpace(r[|r| - 1]))
    ensures exists i :: StripsAt(s, r, i)
  {
    var i := LeadingSpaces(s);
    var t := s[i..];
    var j := TrailingSpaces(t);
    if t == [] then
      assert StripsAt(s, [], i);
      []
    else
      assert j < |t| by {
        assert !IsSpace(t[0]);
      }
      var r := t[..|t| - j];
      assert r == s[i..i + |r|];
      forall k | i + |r| <= k < |s| ensures IsSpace(s[k]) {
        assert s[k] == t[k - i];
      }
      assert StripsAt(s, r, i);
      r
  }

  /** A string with no whitespace at either end strips to itself. */
  lemma StripTrimmed(s: string)
    requires s == [] || (!IsSpace(s[0]) && !IsSpace(s[|s| - 1]))
    ensures Strip(s) == s
  {
    var r := Strip(s);
    var i :| StripsAt(s, r, i);
    if s != [] {
      assert !IsSpace(s[0]) && !IsSpace(s[|s| - 1]);
    }
  }

  // ---------------------------------------------------------------------
  // find, rfind, the `{...}` span of a reply
  // ---------------------------------------------------------------------

  /** `s.find(c)`: the first index of `c`, or -1. */
  function Find(s: string, c: char): (r: int)
    ensures -1 <= r < |s|
    ensures r == -1 <==> c !in s
    ensures r >= 0 ==> s[r] == c && c !in s[..r]
  {
    if s == [] then -1
    else if s[0] == c then 0
    else
      var k := Find(s[1..], c);
      assert s[1..] == s[1..];
      if k == -1 then
        assert forall i :: 0 <= i < |s| ==> s[i] != c by {
          forall i | 0 <= i < |s| ensures s[i] != c {
            if i > 0 { assert s[i] == s[1..][i - 1]; }
          }
        }
        -1
      else
        assert s[..k + 1] == [s[0]] + s[1..][..k];
        k + 1
  }

  /** `s.rfind(c)`: the last index of `c`, or -1. */
  function RFind(s: string, c: char): (r: int)
    ensures -1 <= r < |s|
    ensures r == -1 <==> c !in s
    ensures r >= 0 ==> s[r] == c && c !in s[r + 1..]
  {
    if s == [] then -1
    else if s[|s| - 1] == c then |s| - 1
    else
      var init := s[..|s| - 1];
      assert s == init + [s[|s| - 1]];
      var k := RFind(init, c);
      if k == -1 then
        -1
      else
        assert s[k + 1..] == init[k + 1..] + [s[|s| - 1]];
        k
  }

  /** `start = s.find('{')`, `end = s.rfind('}') + 1`, and `s[start:end]`
      unless `start == -1 or end <= start`. */
  function BraceSpan(s: string): (r: Option<string>)
  {
    var start := Find(s, '{');
    var end := RFind(s, '}') + 1;
    if start == -1 || end <= start then None else Some(s[start..end])
  }

  /** The span exists exactly when some `}` follows some `{`; it then
      starts at the first `{`, ends at the last `}` and is a slice of `s`. */
  lemma BraceSpanSpec(s: string)
    ensures BraceSpan(s).Some? <==>
              exists i, j :: 0 <= i < j < |s| && s[i] == '{' && s[j] == '}'
    ensures BraceSpan(s).Some? ==>
              var t := BraceSpan(s).value;
              |t| >= 2 && t[0] == '{' && t[|t| - 1] == '}'
              && exists i :: 0 <= i <= |s| - |t| && t == s[i..i + |t|] && '{' !in s[..i]
  {
    var start := Find(s, '{');
    var end := RFind(s, '}') + 1;
    if exists i, j :: 0 <= i < j < |s| && s[i] == '{' && s[j] == '}' {
      var i, j :| 0 <= i < j < |s| && s[i] == '{' && s[j] == '}';
      assert start != -1;
    }
    if BraceSpan(s).Some? {
      assert s[start] == '{' && s[end - 1] == '}';
      var t := s[start..end];
      assert t == s[start..start + |t|];
    }
  }

  // ---------------------------------------------------------------------
  // replace
  // ---------------------------------------------------------------------

  /** `s.replace(pat, rep)`: every non-overlapping occurrence of `pat`,
      scanning left to right, replaced by `rep` (`pat` non-empty). */
  function ReplaceAll(s: string, pat: string, rep: string): string
    requires pat != []
    decreases |s|
  {
    if |s| < |pat| then s
    else if pat <= s then rep + ReplaceAll(s[|pat|..], pat, rep)
    else [s[0]] + ReplaceAll(s[1..], pat, rep)
  }

  /** `s.replace(pat, rep, 1)`: only the first occurrence replaced. */
  function ReplaceFirst(s: string, pat: string, rep: string): (r: string)
    requires pat != []
    decreases |s|
  {
    if |s| < |pat| then s
    else if pat <= s then rep + s[|pat|..]
    else [s[0]] + ReplaceFirst(s[1..], pat, rep)
  }

  // ---------------------------------------------------------------------
  // `Label:\s*(\d+)` with `re.search`
  // ---------------------------------------------------------------------

  /** The maximal run of decimal digits at the start of `s`. */
  function DigitPrefix(s: string): (ds: string)
    ensures ds <= s
    ensures forall i :: 0 <= i < |ds| ==> IsDigit(ds[i])
    ensures |ds| < |s| ==> !IsDigit(s[|ds|])
  {
    if s == [] || !IsDigit(s[0]) then [] else [s[0]] + DigitPrefix(s[1..])
  }

  /** `int(ds)` of a digit string. */
  function DecimalValue(ds: string): nat
    requires forall i :: 0 <= i < |ds| ==> IsDigit(ds[i])
  {
    if ds == [] then 0
    else
      assert IsDigit(ds[|ds| - 1]);
      DecimalValue(ds[..|ds| - 1]) * 10 + (ds[|ds| - 1] as int - '0' as int)
  }

  /** The pattern anchored at the start of `s`: `tag`, then whitespace,
      then at least one digit; the group is the whole digit run. The
      whitespace and the digits cannot overlap, so the greedy `\s*` is the
      only way to match. */
  function DigitsAt(s: string, tag: string): (r: Option<string>)
    ensures r.Some? ==> r.value != [] && |r.value| <= |s|
    ensures r.Some? ==> forall i :: 0 <= i < |r.value| ==> IsDigit(r.value[i])
  {
    if tag <= s then
      var rest := s[|tag|..];
      var ds := DigitPrefix(rest[LeadingSpaces(rest)..]);
      if ds == [] then None else Some(ds)
    else None
  }

  /** `re.search(...).group(1)`: the digits at the first position where the
      pattern matches. */
  function SearchDigits(s: string, tag: string): (r: Option<string>)
    ensures r.Some? ==> r.value != [] && |r.value| <= |s|
    ensures r.Some? ==> forall i :: 0 <= i < |r.value| ==> IsDigit(r.value[i])
    decreases |s|
  {
    if DigitsAt(s, tag).Some? then DigitsAt(s, tag)
    else if s == [] then None
    else SearchDigits(s[1..], tag)
  }

  /** The default of `sys.get_int_max_str_digits()` (Python 3.10.7 and
      later): `int()` of a longer decimal string raises `ValueError`. */
  const IntMaxStrDigits: nat := 4300

  /** What `int(m.group(1))` makes of a search: no match, its value, or the
      `ValueError` of an over-long digit run. */
  datatype IntRead = Absent | Value(v: nat) | TooLong

  function ReadTagged(s: string, tag: string): (r: IntRead)
    ensures r.Absent? <==> SearchDigits(s, tag).None?
    ensures r.TooLong? <==> SearchDigits(s, tag).Some? && |SearchDigits(s, tag).value| > IntMaxStrDigits
    ensures |s| <= IntMaxStrDigits ==> !r.TooLong?
    ensures r.Value? ==> r.v == DecimalValue(SearchDigits(s, tag).value)
  {
    match SearchDigits(s, tag)
    case None => Absent
    case Some(ds) => if |ds| > IntMaxStrDigits then TooLong else Value(DecimalValue(ds))
  }

  /** `SearchDigits` finds a match iff one exists at some position, and then
      returns the match at the earliest such position. */
  lemma {:induction false} SearchDigitsSpec(s: string, tag: string)
    ensures SearchDigits(s, tag).Some? <==>
              exists i :: 0 <= i <= |s| && DigitsAt(s[i..], tag).Some?
    ensures SearchDigits(s, tag).Some? ==>
              exists i :: 0 <= i <= |s| && SearchDigits(s, tag) == DigitsAt(s[i..], tag)
                && forall k :: 0 <= k < i ==> DigitsAt(s[k..], tag).None?
    decreases |s|
  {
    assert s[0..] == s;
    if DigitsAt(s, tag).Some? {
    } else if s == [] {
    } else {
      SearchDigitsSpec(s[1..], tag);
      forall i | 1 <= i <= |s| ensures s[i..] == s[1..][i - 1..] { }
      if exists i :: 0 <= i <= |s| && DigitsAt(s[i..], tag).Some? {
        var i :| 0 <= i <= |s| && DigitsAt(s[i..], tag).Some?;
        assert i >= 1;
        assert DigitsAt(s[1..][i - 1..], tag).Some?;
      }
      if SearchDigits(s, tag).Some? {
        var i :| 0 <= i <= |s| - 1 && SearchDigits(s[1..], tag) == DigitsAt(s[1..][i..], tag)
                 && forall k :: 0 <= k < i ==> DigitsAt(s[1..][k..], tag).None?;
        assert SearchDigits(s, tag) == DigitsAt(s[i + 1..], tag);
        forall k | 0 <= k < i + 1 ensures DigitsAt(s[k..], tag).None? {
          if k > 0 { assert s[k..] == s[1..][k - 1..]; }
        }
      }
    }
  }
}
