/**
 * The string helpers of the utilities module: `truncateString`, the two
 * regular-expression checks `isValidEmail` and `isStrongPassword` written out as
 * character-class predicates, and `getInitials`.
 */
module Helpers {
  import opened Js

  /** The `length` `truncateString` takes when it is not given. */
  const DefaultTruncateLength := 50

  /** `truncateString(str, length)`: '' stays '', short strings stay, long ones keep `length` characters and gain '...'. */
  function TruncateString(s: string, n: int): (r: string)
    ensures s == "" ==> r == ""
    ensures |s| <= n ==> r == s
    ensures 0 <= n < |s| ==> |r| == n + 3 && r[..n] == s[..n] && r[n..] == "..."
    ensures n < 0 < |s| ==> r == "..."
  {
    if s == "" then ""
    else if |s| <= n then s
    else s[..if n < 0 then 0 else n] + "..."
  }

  /** Truncating a truncated string changes nothing. */
  lemma TruncateIdempotent(s: string, n: nat)
    ensures TruncateString(TruncateString(s, n), n) == TruncateString(s, n)
  {
    var r := TruncateString(s, n);
    if |s| > n {
      assert r[..n] == s[..n];
    }
  }

  // ------------------------------------------------------------ isValidEmail

  /** `[^\s@]`. */
  predicate EmailChar(c: char)
  {
    !IsSpace(c) && c != '@'
  }

  predicate AllEmailChars(s: string, from: int, to: int)
    requires 0 <= from <= to <= |s|
  {
    forall k :: from <= k < to ==> EmailChar(s[k])
  }

  /** `s` splits as `[^\s@]+ @ [^\s@]+ \. [^\s@]+` with the '@' at `at` and the '.' at `dot`. */
  predicate EmailMatchAt(s: string, at: nat, dot: nat)
  {
    0 < at && at + 1 < dot && dot + 1 < |s| &&
    s[at] == '@' && s[dot] == '.' &&
    AllEmailChars(s, 0, at) && AllEmailChars(s, at + 1, dot) && AllEmailChars(s, dot + 1, |s|)
  }

  /** `/^[^\s@]+@[^\s@]+\.[^\s@]+$/.test(s)`. */
  predicate IsValidEmail(s: string)
  {
    exists at: nat, dot: nat | at < |s| && dot < |s| :: EmailMatchAt(s, at, dot)
  }

  /**
   * The pattern holds exactly when there is one '@', something before it, no
   * whitespace anywhere, and a '.' in the domain that is neither its first nor
   * its last character.
   */
  lemma ValidEmailIff(s: string)
    ensures IsValidEmail(s) <==>
      (forall k :: 0 <= k < |s| ==> !IsSpace(s[k])) &&
      exists at: nat, dot: nat | at < |s| && dot < |s| ::
        s[at] == '@' && 0 < at && (forall k :: 0 <= k < |s| && k != at ==> s[k] != '@') &&
        at + 1 < dot < |s| - 1 && s[dot] == '.'
  {
    if IsValidEmail(s) {
      var at: nat, dot: nat :| at < |s| && dot < |s| && EmailMatchAt(s, at, dot);
      forall k | 0 <= k < |s| ensures !IsSpace(s[k]) && (k != at ==> s[k] != '@') {
        if k < at { assert EmailChar(s[k]); }
        else if at < k < dot { assert EmailChar(s[k]); }
        else if dot < k { assert EmailChar(s[k]); }
      }
      assert s[at] == '@' && 0 < at && at + 1 < dot < |s| - 1 && s[dot] == '.';
    } else if (forall k :: 0 <= k < |s| ==> !IsSpace(s[k])) &&
      exists at: nat, dot: nat | at < |s| && dot < |s| ::
        s[at] == '@' && 0 < at && (forall k :: 0 <= k < |s| && k != at ==> s[k] != '@') &&
        at + 1 < dot < |s| - 1 && s[dot] == '.'
    {
      var at: nat, dot: nat :| at < |s| && dot < |s| &&
        s[at] == '@' && 0 < at && (forall k :: 0 <= k < |s| && k != at ==> s[k] != '@') &&
        at + 1 < dot < |s| - 1 && s[dot] == '.';
      assert EmailMatchAt(s, at, dot);
      assert false;
    }
  }

  // --------------------------------------------------------- isStrongPassword

  /** `.*` can reach index `k`: no line terminator before it. */
  predicate DotsUpTo(s: string, k: nat)
    requires k <= |s|
  {
    forall j :: 0 <= j < k ==> !IsLineTerminator(s[j])
  }

  /** The lookahead `(?=.*[class])` at the start of `s`. */
  predicate LookaheadFinds(s: string, cls: char -> bool)
  {
    exists k: nat | k < |s| :: DotsUpTo(s, k) && cls(s[k])
  }

  /** `/^(?=.*[a-z])(?=.*[A-Z])(?=.*\d).{8,}$/.test(s)`. */
  predicate IsStrongPassword(s: string)
  {
    LookaheadFinds(s, IsLowerAscii) && LookaheadFinds(s, IsUpperAscii) && LookaheadFinds(s, IsDigit) &&
    |s| >= 8 && DotsUpTo(s, |s|)
  }

  /** Strong means: at least 8 characters, a lower-case letter, an upper-case letter, a digit, and no line terminator. */
  lemma StrongPasswordIff(s: string)
    ensures IsStrongPassword(s) <==>
      |s| >= 8 && (forall k :: 0 <= k < |s| ==> !IsLineTerminator(s[k])) &&
      (exists k :: 0 <= k < |s| && IsLowerAscii(s[k])) &&
      (exists k :: 0 <= k < |s| && IsUpperAscii(s[k])) &&
      (exists k :: 0 <= k < |s| && IsDigit(s[k]))
  {
    if |s| >= 8 && (forall k :: 0 <= k < |s| ==> !IsLineTerminator(s[k])) {
      if k :| 0 <= k < |s| && IsLowerAscii(s[k]) { assert DotsUpTo(s, k) && IsLowerAscii(s[k]); }
      if k :| 0 <= k < |s| && IsUpperAscii(s[k]) { assert DotsUpTo(s, k) && IsUpperAscii(s[k]); }
      if k :| 0 <= k < |s| && IsDigit(s[k]) { assert DotsUpTo(s, k) && IsDigit(s[k]); }
    }
  }

  // -------------------------------------------------------------- getInitials

  /** `parts.map(part => part[0]).join('')`: an empty part gives undefined, which joins as ''. */
  function FirstChars(parts: seq<string>): (r: string)
    ensures |r| <= |parts|
  {
    if parts == [] then ""
    else (if parts[0] == "" then "" else [parts[0][0]]) + FirstChars(parts[1..])
  }

  /** `getInitials(name)`. */
  function GetInitials(name: string): string
  {
    if name == "" then "" else Upper(FirstChars(Split(name, ' ')))
  }

  lemma {:induction false} FirstCharsOfWords(words: seq<string>)
    requires forall k :: 0 <= k < |words| ==> words[k] != ""
    ensures FirstChars(words) == seq(|words|, k requires 0 <= k < |words| => words[k][0])
  {
    if words != [] {
      FirstCharsOfWords(words[1..]);
    }
  }

  /**
   * For words without spaces joined by single spaces, the initials are the
   * upper-cased first letters of the words, one per word.
   */
  lemma InitialsOfWords(words: seq<string>)
    requires |words| >= 1
    requires forall k :: 0 <= k < |words| ==> words[k] != "" && ' ' !in words[k]
    ensures GetInitials(Join(words, " ")) == seq(|words|, k requires 0 <= k < |words| => UpperChar(words[k][0]))
  {
    SplitJoin(words, ' ');
    FirstCharsOfWords(words);
    assert Join(words, " ")[..|words[0]|] == words[0];
  }

  /** The parts that are not empty, in order. */
  function NonEmptyParts(parts: seq<string>): (r: seq<string>)
    ensures forall k :: 0 <= k < |r| ==> r[k] != ""
  {
    if parts == [] then []
    else if parts[0] == "" then NonEmptyParts(parts[1..])
    else [parts[0]] + NonEmptyParts(parts[1..])
  }

  /** Empty parts contribute nothing: the first characters are those of the non-empty parts. */
  lemma {:induction false} FirstCharsSkipsEmpty(parts: seq<string>)
    ensures FirstChars(parts) == FirstChars(NonEmptyParts(parts))
  {
    if parts != [] {
      FirstCharsSkipsEmpty(parts[1..]);
      if parts[0] != "" {
        var rest := NonEmptyParts(parts[1..]);
        assert ([parts[0]] + rest)[1..] == rest;
      }
    }
  }

  /**
   * The initials are exactly one upper-cased first character per non-empty
   * space-separated part of the name, in order.
   */
  lemma InitialsOfParts(name: string)
    ensures var words := NonEmptyParts(Split(name, ' '));
      GetInitials(name) == Upper(seq(|words|, k requires 0 <= k < |words| => words[k][0]))
  {
    var words := NonEmptyParts(Split(name, ' '));
    FirstCharsSkipsEmpty(Split(name, ' '));
    FirstCharsOfWords(words);
    if name == "" {
      assert Split(name, ' ') == [""];
      assert words == [];
    }
  }

  /** Extra spaces add nothing: the initials never outnumber the space-separated parts. */
  lemma InitialsBound(name: string)
    ensures |GetInitials(name)| <= multiset(name)[' '] + 1
  {
    SplitCount(name, ' ');
  }
}
