/** The browser's constraint validation of the two `<form>` elements of the
    model (the signup page and the booking confirmation): a form whose
    controls do not satisfy their `required` and `type="email"` constraints is
    never submitted, so its `onSubmit` handler does not run. The rules are
    those of the HTML Living Standard, section 4.10.5.1.5 ("Email state") for
    a valid e-mail address and section 4.10.5.3.4 for `required`. A control's
    value is the string the component state holds, which the browser has
    already sanitised. */
module FormValidation {
  import opened Text

  predicate IsAsciiAlnum(c: char) {
    IsAsciiLower(c) || IsAsciiUpper(c) || IsDigit(c)
  }

  /** The characters allowed in the part before the `@`. */
  predicate IsLocalChar(c: char) {
    IsAsciiAlnum(c) || c in ".!#$%&'*+/=?^_`{|}~-"
  }

  predicate IsLabelChar(c: char) {
    IsAsciiAlnum(c) || c == '-'
  }

  /** One label of the domain: 1 to 63 letters, digits and hyphens, starting
      and ending with a letter or digit. */
  predicate IsLabel(l: string) {
    && 1 <= |l| <= 63
    && IsAsciiAlnum(l[0]) && IsAsciiAlnum(l[|l| - 1])
    && forall i :: 0 <= i < |l| ==> IsLabelChar(l[i])
  }

  /** The position of the first `c` in `s`, or `|s|` when there is none. */
  function IndexOf(s: string, c: char): (k: nat)
    ensures k <= |s|
    ensures forall i :: 0 <= i < k ==> s[i] != c
    ensures k < |s| ==> s[k] == c
  {
    if s == [] || s[0] == c then 0 else 1 + IndexOf(s[1..], c)
  }

  /** One or more labels separated by dots. A label holds no dot, so the first
      dot ends the first label. */
  predicate IsDomain(d: string)
    decreases |d|
  {
    var k := IndexOf(d, '.');
    IsLabel(d[..k]) && (k < |d| ==> IsDomain(d[k + 1..]))
  }

  /** The part before the `@`: one or more allowed characters. */
  predicate IsLocalPart(l: string) {
    l != [] && forall i :: 0 <= i < |l| ==> IsLocalChar(l[i])
  }

  /** A valid e-mail address: a local part, an `@`, and a domain. */
  predicate IsValidEmailAddress(s: string) {
    var k := IndexOf(s, '@');
    k < |s| && IsLocalPart(s[..k]) && IsDomain(s[k + 1..])
  }

  /** An `<input type="email">` without `multiple` suffers from a type
      mismatch when its value is neither empty nor a valid e-mail address. */
  predicate EmailFieldAccepts(value: string) {
    value == [] || IsValidEmailAddress(value)
  }

  /** A `required` text, e-mail or password control suffers from being missing
      when its value is empty. Whitespace counts as a value. */
  predicate RequiredFieldAccepts(value: string) {
    value != []
  }

  lemma {:induction false} DomainHasNoWhitespace(d: string)
    requires IsDomain(d)
    ensures NoWhitespace(d)
    decreases |d|
  {
    var k := IndexOf(d, '.');
    if k < |d| {
      var rest := d[k + 1..];
      DomainHasNoWhitespace(rest);
      forall i | k < i < |d|
        ensures !IsWhitespace(d[i])
      {
        assert d[i] == rest[i - k - 1];
      }
    }
    forall i | 0 <= i < k
      ensures !IsWhitespace(d[i])
    {
      assert d[i] == d[..k][i];
    }
  }

  /** A valid e-mail address holds no whitespace, so `trim` leaves it as it
      is. */
  lemma ValidEmailIsTrimmed(s: string)
    requires IsValidEmailAddress(s)
    ensures NoWhitespace(s)
    ensures Trim(s) == s
  {
    var k := IndexOf(s, '@');
    var d := s[k + 1..];
    DomainHasNoWhitespace(d);
    forall i | 0 <= i < |s|
      ensures !IsWhitespace(s[i])
    {
      if i < k {
        assert s[i] == s[..k][i];
      } else if k < i {
        assert s[i] == d[i - k - 1];
      }
    }
    TrimOfWord(s);
  }

  /** The search for `c` runs past a prefix that holds no `c`. */
  lemma {:induction false} IndexOfSkips(p: string, c: char, r: string)
    requires forall i :: 0 <= i < |p| ==> p[i] != c
    ensures IndexOf(p + r, c) == |p| + IndexOf(r, c)
  {
    if p != [] {
      assert (p + r)[1..] == p[1..] + r;
      IndexOfSkips(p[1..], c, r);
    } else {
      assert p + r == r;
    }
  }

  /** A label alone is a domain. */
  lemma LabelIsDomain(l: string)
    requires IsLabel(l)
    ensures IsDomain(l)
  {
    IndexOfSkips(l, '.', []);
    assert l + [] == l;
  }

  /** A label, a dot and a domain make a domain. */
  lemma LabelDotDomain(l: string, rest: string)
    requires IsLabel(l) && IsDomain(rest)
    ensures IsDomain(l + "." + rest)
  {
    var d := l + "." + rest;
    assert d == l + ("." + rest);
    IndexOfSkips(l, '.', "." + rest);
    assert d[..|l|] == l;
    assert d[|l| + 1..] == rest;
  }

  /** A non-empty local part, an `@` and a domain make a valid address. */
  lemma LocalAtDomain(local: string, domain: string)
    requires IsLocalPart(local) && IsDomain(domain)
    ensures IsValidEmailAddress(local + "@" + domain)
  {
    var s := local + "@" + domain;
    assert s == local + ("@" + domain);
    IndexOfSkips(local, '@', "@" + domain);
    assert s[..|local|] == local;
    assert s[|local| + 1..] == domain;
  }

  /** An ordinary address passes. */
  lemma ValidEmailExample()
    ensures IsValidEmailAddress("ana@example.com")
  {
    ExampleLocal();
    ExampleDomain();
    LocalAtDomain("ana", "example.com");
    ExampleParts();
  }

  lemma ExampleParts()
    ensures "ana" + "@" + "example.com" == "ana@example.com"
  {
  }

  lemma ExampleLocal()
    ensures IsLocalPart("ana")
  {
    assert "ana"[0] == 'a' && "ana"[1] == 'n' && "ana"[2] == 'a';
  }

  lemma ExampleDomain()
    ensures IsDomain("example.com")
  {
    assert IsLabel("com");
    assert IsLabel("example");
    LabelIsDomain("com");
    LabelDotDomain("example", "com");
    assert "example" + "." + "com" == "example.com";
  }

  /** A bare word has no `@`. */
  lemma BareWordIsNoEmail()
    ensures !IsValidEmailAddress("abc")
  {
    assert IndexOf("abc", '@') == 3;
  }

  /** Both sides of the `@` must be non-empty. */
  lemma EmptySideIsNoEmail()
    ensures !IsValidEmailAddress("ana@")
    ensures !IsValidEmailAddress("@example.com")
  {
    assert IndexOf("ana@", '@') == 3;
    assert "ana@"[4..] == [];
  }
}
