/** The avatar initials the site header shows for the signed-in user
    (`getInitials` in src/components/header.tsx). */
module Header {
  import opened Common
  import opened Text

  /** `s.charAt(0)`: the first character, or the empty text. */
  function CharAt0(s: string): (r: string)
    ensures |r| <= 1
    ensures s != "" ==> r == [s[0]]
  {
    if s == "" then "" else [s[0]]
  }

  /** Initials of a possibly missing name: "U" for a missing or empty name,
      otherwise the uppercased first characters of the first one or two words
      of the trimmed name. */
  function GetInitials(name: Option<string>): (r: string)
    ensures |r| <= 2
    ensures !Truthy(name) ==> r == "U"
  {
    if !Truthy(name) then "U"
    else
      var words := SplitWhitespace(Trim(name.value));
      if |words| == 1 then Upper(CharAt0(words[0]))
      else Upper(CharAt0(words[0]) + CharAt0(words[1]))
  }

  /** A name made of a single word gives that word's first letter, uppercased. */
  lemma InitialsOneWord(w: string)
    requires w != "" && NoWhitespace(w)
    ensures GetInitials(Some(w)) == [UpperChar(w[0])]
  {
    TrimOfTrimmed(w);
    SplitNoWhitespace(w);
  }

  /** A name of two or more words gives the uppercased first letters of the
      first two; whatever follows the second word's first letter is ignored. */
  lemma InitialsTwoWords(w: string, gap: string, rest: string)
    requires w != "" && NoWhitespace(w)
    requires gap != "" && AllWhitespace(gap)
    requires rest != "" && !IsWhitespace(rest[0]) && !IsWhitespace(rest[|rest| - 1])
    ensures GetInitials(Some(w + gap + rest)) == [UpperChar(w[0]), UpperChar(rest[0])]
  {
    var name := w + gap + rest;
    TwoWordsTrimmed(w, gap, rest);
    TwoWordsSplit(w, gap, rest);
    var words := SplitWhitespace(name);
    InitialsOfWords(name, words);
    assert CharAt0(words[0]) == [w[0]];
    assert CharAt0(words[1]) == [rest[0]];
  }

  /** A name that starts with a word and ends with a non-space needs no trimming. */
  lemma TwoWordsTrimmed(w: string, gap: string, rest: string)
    requires w != "" && rest != "" && !IsWhitespace(w[0]) && !IsWhitespace(rest[|rest| - 1])
    ensures Trim(w + gap + rest) == w + gap + rest
  {
    var name := w + gap + rest;
    assert name[0] == w[0];
    assert name[|name| - 1] == rest[|rest| - 1];
    TrimOfTrimmed(name);
  }

  /** The first two words of `w + gap + rest`. */
  lemma TwoWordsSplit(w: string, gap: string, rest: string)
    requires NoWhitespace(w) && gap != "" && AllWhitespace(gap)
    requires rest != "" && !IsWhitespace(rest[0])
    ensures var words := SplitWhitespace(w + gap + rest);
      |words| >= 2 && words[0] == w && |words[1]| > 0 && words[1][0] == rest[0]
  {
    SplitFirstPiece(w, gap, rest);
    SplitFirstChar(rest);
  }

  /** The initials of a name that needs no trimming, from the words it splits into. */
  lemma InitialsOfWords(name: string, words: seq<string>)
    requires name != "" && Trim(name) == name && words == SplitWhitespace(name)
    ensures |words| == 1 ==> GetInitials(Some(name)) == Upper(CharAt0(words[0]))
    ensures |words| > 1 ==> GetInitials(Some(name)) == Upper(CharAt0(words[0]) + CharAt0(words[1]))
  {
  }

  /** A non-empty name made only of whitespace trims to one empty word and so
      gives the empty text, not "U". */
  lemma InitialsWhitespaceOnly(s: string)
    requires s != "" && AllWhitespace(s)
    ensures GetInitials(Some(s)) == ""
  {
    TrimStartAllWhitespace(s);
    SplitNoWhitespace("");
  }

  /** Leading and trailing whitespace around a non-empty name does not change
      its initials. */
  lemma InitialsIgnorePadding(pad: string, s: string, pad': string)
    requires AllWhitespace(pad) && AllWhitespace(pad') && s != ""
    ensures GetInitials(Some(pad + s + pad')) == GetInitials(Some(s))
  {
    TrimPadded(pad, s, pad');
  }
}
