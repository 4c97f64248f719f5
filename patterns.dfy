/**
 * The two regular expressions the validators test, as explicit character checks:
 *   email  /^[^\s@]+@[^\s@]+\.[^\s@]+$/
 *   phone  /^\+?[\d\s\-$$$$]+$/   (lib/validation.ts: digits, whitespace, '-', '$')
 *          /^\+?[\d\s\-()]+$/     (the wizard steps: digits, whitespace, '-', '(', ')')
 * Each matcher is proved equal to a direct reading of its regular expression.
 */
module Patterns {
  import Text

  /** `[^\s@]` */
  predicate EmailChar(c: char) {
    !Text.IsSpace(c) && c != '@'
  }

  predicate AllEmailChars(s: string) {
    forall i :: 0 <= i < |s| ==> EmailChar(s[i])
  }

  /** Index of the first `c` in `s`, or -1. */
  function IndexOf(s: string, c: char): (r: int)
    ensures -1 <= r < |s|
    ensures r >= 0 ==> s[r] == c && forall j :: 0 <= j < r ==> s[j] != c
    ensures r == -1 <==> c !in s
  {
    if s == [] then -1
    else if s[0] == c then 0
    else
      var k := IndexOf(s[1..], c);
      assert c in s[1..] ==> c in s;
      assert c in s && s[0] != c ==> c in s[1..];
      if k == -1 then -1 else k + 1
  }

  /**
   * The email test: the part before the first '@' is non-empty and the part after
   * it has a '.' strictly inside it, and neither part holds whitespace or another '@'.
   */
  predicate IsEmailShape(s: string) {
    var at := IndexOf(s, '@');
    at > 0 && AllEmailChars(s[..at]) &&
    var domain := s[at + 1..];
    AllEmailChars(domain) && |domain| >= 3 && '.' in domain[1..|domain| - 1]
  }

  /** The regular expression read literally: `local @ middle . last`, three non-empty runs of `[^\s@]`. */
  ghost predicate EmailSplit(s: string, at: int, dot: int) {
    0 < at && at + 1 < dot && dot + 1 < |s| && s[at] == '@' && s[dot] == '.' &&
    AllEmailChars(s[..at]) && AllEmailChars(s[at + 1..dot]) && AllEmailChars(s[dot + 1..])
  }

  ghost predicate MatchesEmailRegex(s: string) {
    exists at, dot :: EmailSplit(s, at, dot)
  }

  lemma EmailShapeIsRegex(s: string)
    ensures IsEmailShape(s) <==> MatchesEmailRegex(s)
  {
    if IsEmailShape(s) {
      ShapeGivesSplit(s);
    }
    if MatchesEmailRegex(s) {
      var at, dot :| EmailSplit(s, at, dot);
      SplitGivesShape(s, at, dot);
    }
  }

  lemma ShapeGivesSplit(s: string)
    requires IsEmailShape(s)
    ensures MatchesEmailRegex(s)
  {
    var at := IndexOf(s, '@');
    var domain := s[at + 1..];
    var inner := domain[1..|domain| - 1];
    var m :| 0 <= m < |inner| && inner[m] == '.';
    var dot := at + 2 + m;
    assert s[at + 1..dot] == domain[..m + 1];
    assert s[dot + 1..] == domain[m + 2..];
    assert EmailSplit(s, at, dot);
  }

  lemma SplitGivesShape(s: string, at: int, dot: int)
    requires EmailSplit(s, at, dot)
    ensures IsEmailShape(s)
  {
    assert forall j :: 0 <= j < at ==> s[..at][j] == s[j];
    assert IndexOf(s, '@') == at;
    var domain := s[at + 1..];
    assert forall j :: 0 <= j < |domain| ==> domain[j] == s[at + 1 + j];
    assert forall j :: at + 1 <= j < dot ==> s[at + 1..dot][j - at - 1] == s[j];
    assert forall j :: dot < j < |s| ==> s[dot + 1..][j - dot - 1] == s[j];
    assert AllEmailChars(domain);
    var inner := domain[1..|domain| - 1];
    assert inner[dot - at - 2] == '.';
  }

  /** The two phone character classes. */
  datatype PhoneClass = LibClass | StepClass

  predicate PhoneChar(cls: PhoneClass, c: char) {
    Text.IsDigit(c) || Text.IsSpace(c) || c == '-' ||
    match cls
    case LibClass => c == '$'
    case StepClass => c == '(' || c == ')'
  }

  predicate AllPhoneChars(cls: PhoneClass, s: string) {
    forall i :: 0 <= i < |s| ==> PhoneChar(cls, s[i])
  }

  /** The phone test: drop one leading '+', then at least one character, all from the class. */
  predicate IsPhoneShape(cls: PhoneClass, s: string) {
    var body := if |s| > 0 && s[0] == '+' then s[1..] else s;
    |body| > 0 && AllPhoneChars(cls, body)
  }

  /** The regular expression read literally: an optional "+" and then one or more class characters. */
  ghost predicate MatchesPhoneRegex(cls: PhoneClass, s: string) {
    (|s| > 0 && AllPhoneChars(cls, s)) || (|s| > 1 && s[0] == '+' && AllPhoneChars(cls, s[1..]))
  }

  lemma PhoneShapeIsRegex(cls: PhoneClass, s: string)
    ensures IsPhoneShape(cls, s) <==> MatchesPhoneRegex(cls, s)
  {
    if |s| > 0 && s[0] == '+' {
      assert !PhoneChar(cls, s[0]);
    }
  }

  /** Without '(', ')' or '$' the two classes accept the same phone numbers. */
  lemma ClassesAgreeWithoutSpecials(s: string)
    requires forall i :: 0 <= i < |s| ==> s[i] != '(' && s[i] != ')' && s[i] != '$'
    ensures IsPhoneShape(LibClass, s) == IsPhoneShape(StepClass, s)
  {
    var body := if |s| > 0 && s[0] == '+' then s[1..] else s;
    forall i | 0 <= i < |body|
      ensures PhoneChar(LibClass, body[i]) == PhoneChar(StepClass, body[i])
    {
      assert body[i] == s[i + |s| - |body|];
    }
  }

  /** The Toronto number the settings page itself stores passes the steps' class and fails the library's. */
  lemma ParenthesesSplitTheCopies()
    ensures !IsPhoneShape(LibClass, "(416) 555-0100")
    ensures IsPhoneShape(StepClass, "(416) 555-0100")
  {
    assert !PhoneChar(LibClass, "(416) 555-0100"[0]);
  }

  /** The library class accepts '$', which the steps reject. */
  lemma DollarSplitsTheCopies()
    ensures IsPhoneShape(LibClass, "$5") && !IsPhoneShape(StepClass, "$5")
  {
    assert !PhoneChar(StepClass, "$5"[0]);
  }
}
