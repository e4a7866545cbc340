/** The two field validators of the form: the description must be non-blank and
    made of letters and whitespace only, the date must be non-empty. */
module Validation {

  /** What an error field holds. The component stores the French text itself and
      tests it for truthiness; `Text` gives that text, empty exactly for `NoError`. */
  datatype Message = NoError | DescriptionMissing | NotOnlyLetters | DateMissing

  function Text(m: Message): (t: string)
    ensures t == "" <==> m == NoError
  {
    match m
    case NoError => ""
    case DescriptionMissing => "La description est requise"
    case NotOnlyLetters => "La description ne peut contenir que des lettres"
    case DateMissing => "La date est obligatoire"
  }

  /** The characters JavaScript treats as white space, both for `\s` in a regular
      expression and for `String.prototype.trim`: the WhiteSpace and
      LineTerminator code points of ECMA-262 (tab, line tabulation, form feed,
      space, no-break space, byte order mark, the other Unicode "Zs" spaces,
      line feed, carriage return, line and paragraph separators). */
  predicate IsJsWhitespace(c: char) {
    c == '\t' || c == '\n' || c == '\U{000B}' || c == '\U{000C}' || c == '\r' ||
    c == ' ' || c == '\U{00A0}' || c == '\U{1680}' ||
    ('\U{2000}' <= c <= '\U{200A}') ||
    c == '\U{2028}' || c == '\U{2029}' || c == '\U{202F}' || c == '\U{205F}' ||
    c == '\U{3000}' || c == '\U{FEFF}'
  }

  /** Every character is white space (the empty string included). */
  predicate IsBlank(s: string) {
    forall i :: 0 <= i < |s| ==> IsJsWhitespace(s[i])
  }

  /** One character of the class `[a-zA-ZÀ-ÿ\s]`. The Latin-1 range
      also holds the multiplication sign U+00D7 and the division sign U+00F7. */
  predicate IsLetterClassChar(c: char) {
    ('a' <= c <= 'z') || ('A' <= c <= 'Z') || ('\U{00C0}' <= c <= '\U{00FF}') || IsJsWhitespace(c)
  }

  /** Every character is in the class. */
  predicate AllLetterClass(s: string) {
    forall i :: 0 <= i < |s| ==> IsLetterClassChar(s[i])
  }

  /** `/^[a-zA-ZÀ-ÿ\s]+$/.test(s)`: one or more characters, all in the class. */
  predicate MatchesLetterPattern(s: string) {
    |s| >= 1 && AllLetterClass(s)
  }

  /** Index of the first character at or after `i` that is not white space,
      or `|s|` when there is none. */
  function ContentStart(s: string, i: nat): (k: nat)
    requires i <= |s|
    ensures i <= k <= |s|
    ensures forall j :: i <= j < k ==> IsJsWhitespace(s[j])
    ensures k < |s| ==> !IsJsWhitespace(s[k])
    decreases |s| - i
  {
    if i == |s| || !IsJsWhitespace(s[i]) then i else ContentStart(s, i + 1)
  }

  /** Index just past the last character before `j`, and not before `lo`, that
      is not white space, or `lo` when there is none. */
  function ContentEnd(s: string, lo: nat, j: nat): (e: nat)
    requires lo <= j <= |s|
    ensures lo <= e <= j
    ensures forall t :: e <= t < j ==> IsJsWhitespace(s[t])
    ensures e > lo ==> !IsJsWhitespace(s[e - 1])
    decreases j - lo
  {
    if j == lo || !IsJsWhitespace(s[j - 1]) then j else ContentEnd(s, lo, j - 1)
  }

  /** `s.trim()`: white space removed from both ends. The result is the part of
      the input left between a blank prefix and a blank suffix; it is empty
      exactly when the input is blank, and otherwise starts and ends with a
      character that is not white space, so no more could be removed. */
  function Trim(s: string): (r: string)
    ensures exists b, e :: 0 <= b <= e <= |s| && r == s[b..e] && IsBlank(s[..b]) && IsBlank(s[e..])
    ensures r == [] <==> IsBlank(s)
    ensures r != [] ==> !IsJsWhitespace(r[0]) && !IsJsWhitespace(r[|r| - 1])
  {
    var b := ContentStart(s, 0);
    var e := ContentEnd(s, b, |s|);
    assert b < |s| ==> e > b;
    assert IsBlank(s[..b]) && IsBlank(s[e..]);
    s[b..e]
  }

  /** The message `validateDescription` leaves in the description error field:
      "" when it accepts, otherwise why it rejects. */
  function DescriptionError(value: string): (msg: Message)
    ensures msg == NoError <==> !IsBlank(value) && AllLetterClass(value)
    ensures msg == DescriptionMissing <==> IsBlank(value)
    ensures msg == NotOnlyLetters <==> !IsBlank(value) && !AllLetterClass(value)
  {
    if IsBlank(value) then DescriptionMissing
    else if !MatchesLetterPattern(value) then NotOnlyLetters
    else NoError
  }

  /** The message `validateDate` leaves in the date error field: only the empty
      string is rejected; any other text, even one that is not a date, is accepted. */
  function DateError(value: string): (msg: Message)
    ensures msg == NoError <==> value != ""
    ensures msg != NoError ==> msg == DateMissing
  {
    if value == "" then DateMissing else NoError
  }

  /** A description holding a digit anywhere is rejected with the letters-only
      message. */
  lemma DigitRejected(value: string, i: nat)
    requires i < |value| && '0' <= value[i] <= '9'
    ensures DescriptionError(value) == NotOnlyLetters
  {
    assert !IsJsWhitespace(value[i]);
  }

  /** Descriptions the validator accepts: a plain word and, because
      the Latin-1 range is taken whole, the multiplication sign. */
  lemma AcceptedDescriptions()
    ensures DescriptionError("Salaire") == NoError
    ensures DescriptionError("a×b") == NoError
  {
    assert !IsJsWhitespace("Salaire"[0]);
    assert !IsJsWhitespace("a×b"[0]);
  }

  /** Descriptions the validator rejects, each with its message. */
  lemma RejectedDescriptions()
    ensures DescriptionError("123") == NotOnlyLetters
    ensures DescriptionError(" \t ") == DescriptionMissing
    ensures DescriptionError("") == DescriptionMissing
  {
    assert !IsLetterClassChar("123"[0]);
  }
}
