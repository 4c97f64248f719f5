/**
 * Character and string helpers shared by the validators and the list pages:
 * JavaScript's `trim`, `toLowerCase`, `includes`, `split(" ")` and the string
 * comparison used when sorting, all over ASCII.
 */
module Text {

  /** The ASCII members of JavaScript's `\s` class, which are also what `trim` removes. */
  predicate IsSpace(c: char) {
    c == ' ' || c == '\t' || c == '\n' || c == '\U{000B}' || c == '\U{000C}' || c == '\r'
  }

  predicate IsDigit(c: char) {
    '0' <= c <= '9'
  }

  ghost predicate AllSpace(s: string) {
    forall i :: 0 <= i < |s| ==> IsSpace(s[i])
  }

  /** `trimStart`: drops leading whitespace. */
  function TrimStart(s: string): (r: string)
    ensures |r| <= |s| && r == s[|s| - |r|..]
    ensures r == [] <==> AllSpace(s)
    ensures r != [] ==> !IsSpace(r[0])
  {
    if |s| > 0 && IsSpace(s[0]) then TrimStart(s[1..]) else s
  }

  /** `trimEnd`: drops trailing whitespace. */
  function TrimEnd(s: string): (r: string)
    ensures |r| <= |s| && r == s[..|r|]
    ensures r == [] <==> AllSpace(s)
  {
    if |s| > 0 && IsSpace(s[|s| - 1]) then TrimEnd(s[..|s| - 1]) else s
  }

  /** `value.trim()` */
  function Trim(s: string): string {
    TrimEnd(TrimStart(s))
  }

  /** `!value.trim()`: the trimmed value is the empty (falsy) string exactly when every character is whitespace. */
  function IsBlank(s: string): (b: bool)
    ensures b <==> AllSpace(s)
  {
    var t := TrimStart(s);
    assert t != [] ==> !AllSpace(t) by {
      if t != [] { assert !IsSpace(t[0]); }
    }
    Trim(s) == []
  }

  /** ASCII `toLowerCase` of one character. */
  function LowerChar(c: char): char {
    if 'A' <= c <= 'Z' then (c as int - 'A' as int + 'a' as int) as char else c
  }

  /** ASCII `toLowerCase`. */
  function ToLower(s: string): (r: string)
    ensures |r| == |s|
    ensures forall i :: 0 <= i < |s| ==> r[i] == LowerChar(s[i])
  {
    if s == [] then [] else [LowerChar(s[0])] + ToLower(s[1..])
  }

  /** `needle` occurs in `hay` starting at index `i`. */
  ghost predicate OccursAt(hay: string, needle: string, i: int) {
    0 <= i && i + |needle| <= |hay| && hay[i..i + |needle|] == needle
  }

  /** `hay.includes(needle)` */
  function Contains(hay: string, needle: string): (b: bool)
    ensures b <==> exists i :: OccursAt(hay, needle, i)
  {
    if needle <= hay then
      assert OccursAt(hay, needle, 0);
      true
    else if hay == [] then
      assert forall i :: !OccursAt(hay, needle, i);
      false
    else
      var r := Contains(hay[1..], needle);
      assert r ==> exists i :: OccursAt(hay, needle, i) by {
        if r {
          var i :| OccursAt(hay[1..], needle, i);
          assert hay[i + 1..i + 1 + |needle|] == hay[1..][i..i + |needle|];
          assert OccursAt(hay, needle, i + 1);
        }
      }
      assert (exists i :: OccursAt(hay, needle, i)) ==> r by {
        if exists i :: OccursAt(hay, needle, i) {
          var i :| OccursAt(hay, needle, i);
          assert i > 0;
          assert hay[1..][i - 1..i - 1 + |needle|] == hay[i..i + |needle|];
          assert OccursAt(hay[1..], needle, i - 1);
        }
      }
      r
  }

  /** The pages' search test `field.toLowerCase().includes(term.toLowerCase())`. */
  function IncludesIgnoringCase(field: string, term: string): bool {
    Contains(ToLower(field), ToLower(term))
  }

  /** `fields.some((f) => f.toLowerCase().includes(term.toLowerCase()))` */
  function AnyIncludes(fields: seq<string>, term: string): (b: bool)
    ensures b <==> exists i :: 0 <= i < |fields| && IncludesIgnoringCase(fields[i], term)
  {
    if fields == [] then false
    else
      var rest := AnyIncludes(fields[1..], term);
      assert rest ==> exists i :: 0 <= i < |fields| && IncludesIgnoringCase(fields[i], term) by {
        if rest {
          var i :| 0 <= i < |fields[1..]| && IncludesIgnoringCase(fields[1..][i], term);
          assert fields[i + 1] == fields[1..][i];
        }
      }
      assert (exists i :: 0 <= i < |fields| && IncludesIgnoringCase(fields[i], term)) ==>
        IncludesIgnoringCase(fields[0], term) || rest by {
        if exists i :: 0 <= i < |fields| && IncludesIgnoringCase(fields[i], term) {
          var i :| 0 <= i < |fields| && IncludesIgnoringCase(fields[i], term);
          if i > 0 {
            assert fields[1..][i - 1] == fields[i];
          }
        }
      }
      IncludesIgnoringCase(fields[0], term) || rest
  }

  /** Lower-casing twice is lower-casing once. */
  lemma ToLowerIdempotent(s: string)
    ensures ToLower(ToLower(s)) == ToLower(s)
  {
  }

  /** The search ignores the case of the term: typing it in capitals finds the same matches. */
  lemma SearchIgnoresTermCase(field: string, term: string)
    ensures IncludesIgnoringCase(field, ToLower(term)) == IncludesIgnoringCase(field, term)
  {
    ToLowerIdempotent(term);
  }

  /** The empty search term is contained in every field. */
  lemma EmptyTermMatches(field: string)
    ensures IncludesIgnoringCase(field, "")
  {
    assert OccursAt(ToLower(field), "", 0);
  }

  /** `s.split(sep)`: always at least one part; `""` gives `[""]`. */
  function Split(s: string, sep: char): (parts: seq<string>)
    ensures |parts| >= 1
    ensures sep in s <==> |parts| >= 2
  {
    if s == [] then [[]]
    else
      var rest := Split(s[1..], sep);
      if s[0] == sep then [[]] + rest else [[s[0]] + rest[0]] + rest[1..]
  }

  lemma {:induction false} SplitWithoutSeparator(s: string, sep: char)
    requires sep !in s
    ensures Split(s, sep) == [s]
  {
    if s != [] {
      SplitWithoutSeparator(s[1..], sep);
      assert [s[0]] + s[1..] == s;
    }
  }

  /** `(a + sep + b).split(sep)` starts with `a` when `a` holds no separator. */
  lemma {:induction false} SplitAtSeparator(a: string, b: string, sep: char)
    requires sep !in a
    ensures Split(a + [sep] + b, sep) == [a] + Split(b, sep)
  {
    var s := a + [sep] + b;
    if a == [] {
      assert s == [sep] + b;
      assert s[1..] == b;
    } else {
      assert s[1..] == a[1..] + [sep] + b;
      SplitAtSeparator(a[1..], b, sep);
      assert [a[0]] + a[1..] == a;
    }
  }

  /** `part[0]` inside a template join: an empty part contributes nothing (`undefined` joins as ""). */
  function FirstChar(part: string): string {
    if part == [] then [] else [part[0]]
  }

  /** `.map(n => n[0]).join("")` */
  function JoinFirstChars(parts: seq<string>): string {
    if parts == [] then [] else FirstChar(parts[0]) + JoinFirstChars(parts[1..])
  }

  /** The avatar fallback of the list pages: `name.split(" ").map((n) => n[0]).join("")`. */
  function Initials(name: string): string {
    JoinFirstChars(Split(name, ' '))
  }

  /**
   * Independent reading of the initials: every character that is not a space and
   * stands at the start of the name or right after a space, in order.
   * `atWordStart` says whether the previous character was a space (or there was none).
   */
  ghost function WordStarts(s: string, atWordStart: bool): string {
    if s == [] then []
    else (if atWordStart && s[0] != ' ' then [s[0]] else []) + WordStarts(s[1..], s[0] == ' ')
  }

  lemma {:induction false} InitialsAreWordStarts(name: string)
    ensures Initials(name) == WordStarts(name, true)
  {
    if name != [] {
      var rest := Split(name[1..], ' ');
      if name[0] == ' ' {
        assert Split(name, ' ')[1..] == rest;
        InitialsAreWordStarts(name[1..]);
      } else {
        assert Split(name, ' ')[1..] == rest[1..];
        LaterPartsAreWordStarts(name[1..]);
      }
    }
  }

  /** The parts after the first one contribute exactly the word starts that follow a space. */
  lemma {:induction false} LaterPartsAreWordStarts(s: string)
    ensures JoinFirstChars(Split(s, ' ')[1..]) == WordStarts(s, false)
  {
    if s != [] {
      var rest := Split(s[1..], ' ');
      if s[0] == ' ' {
        assert Split(s, ' ')[1..] == rest;
        InitialsAreWordStarts(s[1..]);
      } else {
        assert Split(s, ' ')[1..] == rest[1..];
        LaterPartsAreWordStarts(s[1..]);
      }
    }
  }

  /** Code-unit order of two strings, as `localeCompare` orders the ASCII strings compared here. */
  predicate StrLe(a: string, b: string) {
    if a == [] then true
    else if b == [] then false
    else if a[0] != b[0] then a[0] < b[0]
    else StrLe(a[1..], b[1..])
  }

  lemma {:induction false} StrLeTotal(a: string, b: string)
    ensures StrLe(a, b) || StrLe(b, a)
  {
    if a != [] && b != [] && a[0] == b[0] {
      StrLeTotal(a[1..], b[1..]);
    }
  }

  lemma {:induction false} StrLeTransitive(a: string, b: string, c: string)
    requires StrLe(a, b) && StrLe(b, c)
    ensures StrLe(a, c)
  {
    if a != [] && b != [] && c != [] && a[0] == b[0] && b[0] == c[0] {
      StrLeTransitive(a[1..], b[1..], c[1..]);
    }
  }
}
