/** The barber picker of the booking page (`components/booking/barber-selector.tsx`):
    each card shows the barber's first name and, without a photo, its first
    letter. */
module BarberSelector {
  import opened Text

  /** The longest prefix of `s` without whitespace: `s.split(/\s+/)[0]` for an
      `s` that does not start with whitespace. */
  function FirstToken(s: string): (r: string)
    ensures |r| <= |s| && r == s[..|r|]
    ensures NoWhitespace(r)
    ensures |r| == |s| || IsWhitespace(s[|r|])
  {
    if s == [] || IsWhitespace(s[0]) then []
    else [s[0]] + FirstToken(s[1..])
  }

  /** `getFirstName`: the first word of the trimmed name; a blank name is
      returned as it was given. */
  function GetFirstName(fullName: string): string {
    var trimmed := Trim(fullName);
    if trimmed == [] then fullName else FirstToken(trimmed)
  }

  /** An empty or whitespace-only name is shown unchanged. */
  lemma BlankNameUnchanged(fullName: string)
    requires AllWhitespace(fullName)
    ensures GetFirstName(fullName) == fullName
  {
    TrimEmptyIffBlank(fullName);
  }

  /** A name with some text gives its first word: non-empty, without
      whitespace, a prefix of the trimmed name, and ended by whitespace or by
      the end of the name. */
  lemma FirstNameIsFirstWord(fullName: string)
    requires !AllWhitespace(fullName)
    ensures var r := GetFirstName(fullName);
      && r != []
      && NoWhitespace(r)
      && StartsWith(Trim(fullName), r)
      && (|r| == |Trim(fullName)| || IsWhitespace(Trim(fullName)[|r|]))
  {
    TrimEmptyIffBlank(fullName);
  }

  /** A one-word name is shown whole, without the spaces around it. */
  lemma OneWordNameIsTrimmedName(fullName: string)
    requires NoWhitespace(Trim(fullName))
    requires !AllWhitespace(fullName)
    ensures GetFirstName(fullName) == Trim(fullName)
  {
    TrimEmptyIffBlank(fullName);
  }

  /** A first name is its own first name. */
  lemma GetFirstNameIdempotent(fullName: string)
    ensures GetFirstName(GetFirstName(fullName)) == GetFirstName(fullName)
  {
    TrimEmptyIffBlank(fullName);
    if !AllWhitespace(fullName) {
      var r := GetFirstName(fullName);
      FirstNameIsFirstWord(fullName);
      TrimOfWord(r);
      OneWordNameIsTrimmedName(r);
    }
  }

  /** `firstName.charAt(0).toUpperCase()`: the avatar's fallback letter. */
  function AvatarInitial(firstName: string): (r: string)
    ensures |r| <= 1
    ensures r == [] <==> firstName == []
  {
    if firstName == [] then [] else [ToUpperAscii(firstName[0])]
  }

  /** For a name with some text, the avatar shows its first non-blank
      character, upper-cased. */
  lemma AvatarShowsFirstLetter(fullName: string)
    requires !AllWhitespace(fullName)
    ensures Trim(fullName) != []
    ensures AvatarInitial(GetFirstName(fullName)) == [ToUpperAscii(Trim(fullName)[0])]
  {
    FirstNameIsFirstWord(fullName);
    assert GetFirstName(fullName)[0] == Trim(fullName)[0];
  }
}
