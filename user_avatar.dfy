/**
 * The user avatar's derived data: initials from the name, a colour chosen by
 * hashing the name, and the colour of the presence badge.
 */
module UserAvatar {
  import opened Js
  import opened Lists

  /** The theme colours the avatar can take, and the four fixed extra shades. */
  datatype Color = Primary | Secondary | ErrorColor | WarningColor | InfoColor | SuccessColor | Grey | Hex(code: string)

  /** A part whose first character is an ASCII letter; `part[0]` of '' is undefined and is dropped. */
  predicate LetterLed(part: string)
  {
    part != "" && IsAsciiLetter(part[0])
  }

  function LetterLedTest(): string -> bool
  {
    part => LetterLed(part)
  }

  /**
   * `.map(part => part[0]).filter(char => char && /[A-Za-z]/.test(char))`:
   * the first characters of the letter-led parts, in order, one per such part.
   */
  function LetterInitials(parts: seq<string>): (r: string)
    ensures |r| <= |parts|
    ensures forall k :: 0 <= k < |r| ==> IsAsciiLetter(r[k])
    ensures var led := Filter(parts, LetterLedTest());
      |r| == |led| && forall k :: 0 <= k < |led| ==> LetterLed(led[k]) && r[k] == led[k][0]
  {
    if parts == [] then ""
    else
      var rest := LetterInitials(parts[1..]);
      var r := (if LetterLed(parts[0]) then [parts[0][0]] else "") + rest;
      assert LetterLed(parts[0]) ==> Filter(parts, LetterLedTest()) == [parts[0]] + Filter(parts[1..], LetterLedTest());
      r
  }

  /**
   * The default initials: the first letters of the first two letter-led parts
   * of the name, upper-cased; fewer when the name has fewer such parts.
   */
  function DefaultInitials(name: string): (r: string)
    ensures |r| <= 2
    ensures forall k :: 0 <= k < |r| ==> IsUpperAscii(r[k])
    ensures var led := Filter(Split(name, ' '), LetterLedTest());
      |r| == (if |led| < 2 then |led| else 2) &&
      forall k :: 0 <= k < |r| ==> LetterLed(led[k]) && r[k] == UpperChar(led[k][0])
  {
    var letters := LetterInitials(Split(name, ' '));
    Upper(if |letters| <= 2 then letters else letters[..2])
  }

  /** `getInitials`: '' for an empty name, the caller's generator when there is one. */
  function Initials(name: string, generator: Option<string -> string>): (r: string)
    ensures name == "" ==> r == ""
    ensures name != "" && generator.Some? ==> r == generator.value(name)
  {
    if name == "" then ""
    else if generator.Some? then generator.value(name)
    else DefaultInitials(name)
  }

  /** A name of several letter-led words gets the upper-cased first letters of its first two words. */
  lemma {:induction false} InitialsOfFullName(words: seq<string>)
    requires |words| >= 2
    requires forall k :: 0 <= k < |words| ==> words[k] != "" && ' ' !in words[k] && IsAsciiLetter(words[k][0])
    ensures Initials(Join(words, " "), None) == [UpperChar(words[0][0]), UpperChar(words[1][0])]
  {
    var name := Join(words, " ");
    assert name == words[0] + " " + Join(words[1..], " ");
    SplitJoin(words, ' ');
    assert Split(name, ' ') == words;
    assert forall k :: 0 <= k < |words| ==> LetterLedTest()(words[k]);
    FilterAllOrNone(words, LetterLedTest());
    var r := DefaultInitials(name);
    assert |r| == 2 && r[0] == UpperChar(words[0][0]) && r[1] == UpperChar(words[1][0]);
  }

  /** The initials of a name split into parts, read from the parts' letter-led ones. */
  lemma InitialsOfSplit(name: string, led: seq<string>)
    requires name != "" && Filter(Split(name, ' '), LetterLedTest()) == led && |led| >= 2
    ensures Initials(name, None) == [UpperChar(led[0][0]), UpperChar(led[1][0])]
  {
    var r := DefaultInitials(name);
    assert |r| == 2 && r[0] == UpperChar(led[0][0]) && r[1] == UpperChar(led[1][0]);
  }

  /** A part that begins with a digit gives no initial. */
  lemma DigitPartSkipped()
    ensures Initials("Ann 2nd Lee", None) == "AL"
  {
    var words := ["Ann", "2nd", "Lee"];
    assert words[1..][1..] == ["Lee"];
    assert Join(words, " ") == "Ann 2nd Lee";
    assert Filter(words, LetterLedTest()) == ["Ann", "Lee"] by {
      assert words[1..][1..][1..] == [];
    }
    SplitJoin(words, ' ');
    InitialsOfSplit(Join(words, " "), ["Ann", "Lee"]);
  }

  /** A doubled space gives an empty part, which gives no initial. */
  lemma EmptyPartSkipped()
    ensures Initials("Ann  Lee", None) == "AL"
  {
    var words := ["Ann", "", "Lee"];
    assert words[1..][1..] == ["Lee"];
    assert Join(words, " ") == "Ann  Lee";
    assert Filter(words, LetterLedTest()) == ["Ann", "Lee"] by {
      assert words[1..][1..][1..] == [];
    }
    SplitJoin(words, ' ');
    InitialsOfSplit(Join(words, " "), ["Ann", "Lee"]);
  }

  lemma {:induction false} LettersOfWords(words: seq<string>)
    requires forall k :: 0 <= k < |words| ==> words[k] != "" && IsAsciiLetter(words[k][0])
    ensures LetterInitials(words) == seq(|words|, k requires 0 <= k < |words| => words[k][0])
  {
    if words != [] {
      LettersOfWords(words[1..]);
    }
  }

  // ------------------------------------------------------------------ colour

  /** The sum of the name's character codes. */
  function Hash(s: string): (h: nat)
  {
    if s == [] then 0 else s[0] as nat + Hash(s[1..])
  }

  /** The hash of a concatenation is the sum of the hashes. */
  lemma {:induction false} HashAppend(a: string, b: string)
    ensures Hash(a + b) == Hash(a) + Hash(b)
  {
    if a == [] {
      assert a + b == b;
    } else {
      assert (a + b)[0] == a[0] && (a + b)[1..] == a[1..] + b;
      HashAppend(a[1..], b);
    }
  }

  /** The ten colours, indexed by the hash modulo ten. */
  const Palette: seq<Color> := [Primary, Secondary, ErrorColor, WarningColor, InfoColor, SuccessColor,
                                Hex("#9c27b0"), Hex("#009688"), Hex("#ff5722"), Hex("#607d8b")]

  /** `getAvatarColor`. */
  function AvatarColor(name: string, useRandomColor: bool): (r: Color)
    ensures !useRandomColor || name == "" ==> r == Primary
    ensures useRandomColor && name != "" ==> r == Palette[Hash(name) % |Palette|]
    ensures r in Palette
  {
    if !useRandomColor || name == "" then Primary else Palette[Hash(name) % 10]
  }

  /** The colour depends on the characters, not where the name is cut: rotating it keeps the colour. */
  lemma ColorOfRotation(a: string, b: string)
    ensures AvatarColor(a + b, true) == AvatarColor(b + a, true)
  {
    HashAppend(a, b);
    HashAppend(b, a);
  }

  /** `getStatusColor`: online, away and busy have their own colours; anything else is grey. */
  function StatusColor(status: string): (r: Color)
    ensures r == Grey <==> status != "online" && status != "away" && status != "busy"
    ensures status == "online" ==> r == SuccessColor
    ensures status == "away" ==> r == WarningColor
    ensures status == "busy" ==> r == ErrorColor
  {
    if status == "online" then SuccessColor
    else if status == "away" then WarningColor
    else if status == "busy" then ErrorColor
    else Grey
  }
}
