/** The JavaScript string operations the core relies on, over `seq<char>`:
    `indexOf`, `split`, `includes`, `startsWith`, `trim`, ASCII
    `toUpperCase` and `Number.prototype.toString(36)`. */
module Text {
  import opened Outcomes

  // ---------------------------------------------------------------- search

  /** `p` occurs in `s` starting at index `i`. */
  predicate OccursAt(s: string, p: string, i: nat) {
    i + |p| <= |s| && s[i..i + |p|] == p
  }

  /** `s.includes(p)`. */
  predicate Contains(s: string, p: string) {
    exists i :: 0 <= i <= |s| && OccursAt(s, p, i)
  }

  /** A string contains what it ends with. */
  lemma ContainsSuffix(s: string, p: string)
    ensures Contains(s + p, p)
  {
    assert (s + p)[|s|..|s| + |p|] == p;
    assert OccursAt(s + p, p, |s|);
  }

  /** Appending to a string keeps what it contains. */
  lemma ContainsExtend(s: string, p: string, t: string)
    requires Contains(s, p)
    ensures Contains(s + t, p)
  {
    var i :| 0 <= i <= |s| && OccursAt(s, p, i);
    assert (s + t)[i..i + |p|] == s[i..i + |p|];
    assert OccursAt(s + t, p, i);
  }

  /** `s.startsWith(p)`. */
  predicate StartsWith(s: string, p: string) {
    OccursAt(s, p, 0)
  }

  /** `s.indexOf(p, k)`: the first occurrence of `p` at or after `k`. */
  function IndexFrom(s: string, p: string, k: nat): (r: Option<nat>)
    decreases |s| - k
    ensures r.Some? ==> k <= r.value && OccursAt(s, p, r.value)
    ensures r.Some? ==> forall j: nat :: k <= j < r.value ==> !OccursAt(s, p, j)
    ensures r.None? ==> forall j: nat :: k <= j ==> !OccursAt(s, p, j)
  {
    if k + |p| > |s| then None
    else if OccursAt(s, p, k) then Some(k)
    else IndexFrom(s, p, k + 1)
  }

  /** `s.indexOf(p)`. */
  function IndexOf(s: string, p: string): (r: Option<nat>)
    ensures r.Some? ==> OccursAt(s, p, r.value)
    ensures r.Some? ==> forall j: nat :: j < r.value ==> !OccursAt(s, p, j)
    ensures r.None? <==> !Contains(s, p)
  {
    IndexFrom(s, p, 0)
  }

  // ----------------------------------------------------------- split, join

  /** `s.split(sep)` for a non-empty separator: the pieces between the
      non-overlapping occurrences of `sep`, scanned from the left. */
  function Split(s: string, sep: string): (parts: seq<string>)
    requires |sep| > 0
    ensures |parts| >= 1
    ensures !Contains(parts[0], sep)
    decreases |s|
  {
    match IndexOf(s, sep)
    case None => [s]
    case Some(i) =>
      assert !Contains(s[..i], sep) by {
        forall j | 0 <= j <= i && OccursAt(s[..i], sep, j) ensures false {
          assert s[..i][j..j + |sep|] == s[j..j + |sep|];
          assert OccursAt(s, sep, j);
        }
      }
      [s[..i]] + Split(s[i + |sep|..], sep)
  }

  /** `parts.join(sep)`. */
  function Join(parts: seq<string>, sep: string): string {
    if |parts| == 0 then ""
    else if |parts| == 1 then parts[0]
    else parts[0] + sep + Join(parts[1..], sep)
  }

  /** Joining a non-empty list behind a first piece puts one separator
      between them. */
  lemma JoinCons(first: string, rest: seq<string>, sep: string)
    requires |rest| >= 1
    ensures Join([first] + rest, sep) == first + sep + Join(rest, sep)
  {
    assert ([first] + rest)[1..] == rest;
  }

  /** Splitting loses nothing: joining the pieces with the separator gives
      back the string that was split. */
  lemma {:induction false} JoinSplit(s: string, sep: string)
    requires |sep| > 0
    ensures Join(Split(s, sep), sep) == s
    decreases |s|
  {
    var found := IndexOf(s, sep);
    if found.Some? {
      var i := found.value;
      var rest := s[i + |sep|..];
      var tail := Split(rest, sep);
      assert Split(s, sep) == [s[..i]] + tail;
      JoinSplit(rest, sep);
      JoinCons(s[..i], tail, sep);
      assert s == s[..i] + sep + rest by {
        assert s[i..i + |sep|] == sep;
        assert s == s[..i] + s[i..i + |sep|] + rest;
      }
    }
  }

  /** A string without the separator is split into itself alone. */
  lemma SplitWithoutSeparator(s: string, sep: string)
    requires |sep| > 0 && !Contains(s, sep)
    ensures Split(s, sep) == [s]
  {
  }

  /** The piece before the first occurrence of `sep` (the whole string when
      there is none): `s.split(sep)[0]`. */
  function BeforeFirst(s: string, sep: string): (r: string)
    requires |sep| > 0
    ensures r == Split(s, sep)[0]
    ensures r <= s && !Contains(r, sep)
    ensures !Contains(s, sep) ==> r == s
  {
    match IndexOf(s, sep)
    case None => s
    case Some(i) => s[..i]
  }

  /** For a string that starts with the separator, `s.split(sep)[1]` is the
      part of the rest before the separator's next occurrence. */
  lemma SplitAfterLeadingSeparator(s: string, sep: string)
    requires |sep| > 0 && StartsWith(s, sep)
    ensures |Split(s, sep)| >= 2
    ensures Split(s, sep)[0] == ""
    ensures Split(s, sep)[1] == BeforeFirst(s[|sep|..], sep)
  {
    assert IndexOf(s, sep) == Some(0);
  }

  // ---------------------------------------------------------------- length

  /** `s.length`: JavaScript counts UTF-16 code units, so a character
      outside the Basic Multilingual Plane counts twice. */
  function Utf16Length(s: string): (n: nat)
    ensures |s| <= n <= 2 * |s|
  {
    if s == [] then 0
    else (if s[0] as int >= 0x10000 then 2 else 1) + Utf16Length(s[1..])
  }

  /** Within the Basic Multilingual Plane the two lengths agree. */
  lemma {:induction false} Utf16LengthOfBmp(s: string)
    requires forall i :: 0 <= i < |s| ==> s[i] as int < 0x10000
    ensures Utf16Length(s) == |s|
    decreases |s|
  {
    if s != [] {
      Utf16LengthOfBmp(s[1..]);
    }
  }

  // ------------------------------------------------------------------ trim

  /** The characters `String.prototype.trim` removes: ECMAScript WhiteSpace
      and LineTerminator code points. */
  predicate IsSpace(c: char) {
    var n := c as int;
    n == 0x09 || n == 0x0A || n == 0x0B || n == 0x0C || n == 0x0D || n == 0x20
    || n == 0xA0 || n == 0x1680 || (0x2000 <= n <= 0x200A)
    || n == 0x2028 || n == 0x2029 || n == 0x202F || n == 0x205F
    || n == 0x3000 || n == 0xFEFF
  }

  /** Every character of `s` is white space (the empty string included). */
  predicate IsBlank(s: string) {
    forall i :: 0 <= i < |s| ==> IsSpace(s[i])
  }

  function TrimStart(s: string): (r: string)
    ensures |r| <= |s| && r == s[|s| - |r|..]
    ensures IsBlank(s[..|s| - |r|])
    ensures r != "" ==> !IsSpace(r[0])
  {
    if |s| > 0 && IsSpace(s[0]) then
      var r := TrimStart(s[1..]);
      assert s[..|s| - |r|] == [s[0]] + s[1..][..|s| - 1 - |r|];
      r
    else s
  }

  function TrimEnd(s: string): (r: string)
    ensures r <= s
    ensures IsBlank(s[|r|..])
    ensures r != "" ==> !IsSpace(r[|r| - 1])
  {
    if |s| > 0 && IsSpace(s[|s| - 1]) then
      var r := TrimEnd(s[..|s| - 1]);
      assert s[|r|..] == s[..|s| - 1][|r|..] + [s[|s| - 1]];
      r
    else s
  }

  /** `s.trim()`. */
  function Trim(s: string): (r: string)
    ensures r != "" ==> !IsSpace(r[0]) && !IsSpace(r[|r| - 1])
  {
    TrimEnd(TrimStart(s))
  }

  /** `!s.trim()` holds exactly when the string is nothing but white space. */
  lemma TrimEmptyIffBlank(s: string)
    ensures Trim(s) == "" <==> IsBlank(s)
  {
    var t := TrimStart(s);
    if Trim(s) == "" {
      assert t[0..] == t;
      assert t == "";
      assert s[..|s|] == s;
    } else {
      var r := Trim(s);
      assert r <= t && t == s[|s| - |t|..];
      assert s[|s| - |t|] == r[0];
    }
  }

  // ------------------------------------------------------------ upper case

  /** `toUpperCase` on one character, for the ASCII letters. */
  function AsciiUpper(c: char): (u: char)
    ensures 'a' <= c <= 'z' ==> 'A' <= u <= 'Z' && u as int == c as int - 32
    ensures !('a' <= c <= 'z') ==> u == c
  {
    if 'a' <= c <= 'z' then (c as int - 32) as char else c
  }

  /** `s.toUpperCase()`, ASCII letters only. */
  function UpperAll(s: string): (r: string)
    ensures |r| == |s|
    ensures forall i :: 0 <= i < |s| ==> r[i] == AsciiUpper(s[i])
  {
    seq(|s|, i requires 0 <= i < |s| => AsciiUpper(s[i]))
  }

  /** `s.charAt(0).toUpperCase() + s.slice(1)`. */
  function CapitalizeFirst(s: string): (r: string)
    ensures |r| == |s|
    ensures s != "" ==> r[0] == AsciiUpper(s[0]) && r[1..] == s[1..]
  {
    if s == "" then "" else [AsciiUpper(s[0])] + s[1..]
  }

  // --------------------------------------------------------------- base 36

  /** The digit `d` as `toString(36)` writes it: 0-9 then lower-case a-z. */
  function Digit36(d: nat): (c: char)
    requires d < 36
    ensures d < 10 ==> '0' <= c <= '9'
    ensures 10 <= d ==> 'a' <= c <= 'z'
  {
    if d < 10 then ('0' as int + d) as char else ('a' as int + d - 10) as char
  }

  /** `n.toString(36)` for a non-negative integer: most significant digit
      first, no leading zeros. */
  function ToBase36(n: nat): (s: string)
    ensures |s| >= 1
    decreases n
  {
    if n < 36 then [Digit36(n)] else ToBase36(n / 36) + [Digit36(n % 36)]
  }

  /** The value of one base-36 digit in either case, -1 for anything else. */
  function DigitValue(c: char): int {
    if '0' <= c <= '9' then c as int - '0' as int
    else if 'A' <= c <= 'Z' then c as int - 'A' as int + 10
    else if 'a' <= c <= 'z' then c as int - 'a' as int + 10
    else -1
  }

  /** Reads a string of base-36 digits back into the number it denotes. */
  function FromBase36(s: string): int {
    if s == [] then 0 else FromBase36(s[..|s| - 1]) * 36 + DigitValue(s[|s| - 1])
  }

  /** Reading back the upper-cased base-36 text of `n` gives `n`. */
  lemma {:induction false} FromBase36UpperToBase36(n: nat)
    ensures FromBase36(UpperAll(ToBase36(n))) == n
    decreases n
  {
    var s := ToBase36(n);
    var u := UpperAll(s);
    if n < 36 {
      assert u == [AsciiUpper(Digit36(n))];
      assert u[..0] == [];
    } else {
      FromBase36UpperToBase36(n / 36);
      var d := Digit36(n % 36);
      assert s == ToBase36(n / 36) + [d];
      assert u[..|u| - 1] == UpperAll(ToBase36(n / 36));
      assert u[|u| - 1] == AsciiUpper(d);
      assert DigitValue(AsciiUpper(d)) == n % 36;
    }
  }

  /** The upper-cased base-36 text of `n` uses only 0-9 and A-Z. */
  lemma {:induction false} UpperBase36Alphabet(n: nat)
    ensures forall i :: 0 <= i < |UpperAll(ToBase36(n))| ==>
      var c := UpperAll(ToBase36(n))[i]; '0' <= c <= '9' || 'A' <= c <= 'Z'
    decreases n
  {
    if n >= 36 {
      UpperBase36Alphabet(n / 36);
      var s := ToBase36(n);
      assert s == ToBase36(n / 36) + [Digit36(n % 36)];
      forall i | 0 <= i < |s| ensures var c := AsciiUpper(s[i]); '0' <= c <= '9' || 'A' <= c <= 'Z' {
        if i < |s| - 1 {
          assert s[i] == ToBase36(n / 36)[i];
          assert UpperAll(ToBase36(n / 36))[i] == AsciiUpper(s[i]);
        }
      }
    }
  }

  /** Different numbers have different upper-cased base-36 texts. */
  lemma UpperBase36Injective(a: nat, b: nat)
    requires UpperAll(ToBase36(a)) == UpperAll(ToBase36(b))
    ensures a == b
  {
    FromBase36UpperToBase36(a);
    FromBase36UpperToBase36(b);
  }
}
