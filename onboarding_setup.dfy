/** The onboarding setup form: slug normalisation, the default opening hours,
    the per-day edits of those hours, and the form's state with its submit
    guard. The request it sends is the one `OnboardingComplete.Post` reads. */
module OnboardingSetup {
  import opened Prelude
  import opened Text
  import opened OnboardingComplete

  // ---------------------------------------------------------------------------
  // slugify
  // ---------------------------------------------------------------------------

  /** `toLowerCase` on ASCII and on the Latin-1 capitals À..Þ (but not ×). */
  function LowerChar(c: char): (r: char)
    ensures IsAsciiUpper(c) ==> IsAsciiLower(r)
    ensures IsSlugAlnum(c) || c == '-' ==> r == c
  {
    if IsAsciiUpper(c) || ('\U{00C0}' <= c <= '\U{00DE}' && c != '\U{00D7}') then (c as int + 32) as char else c
  }

  /** `normalize('NFD')` followed by removing U+0300..U+036F, for one lower-case
      character: a combining mark disappears, a Latin-1 letter with a diacritic
      becomes its base letter, anything else stays. */
  function FoldChar(c: char): (r: string)
    ensures |r| <= 1
    ensures IsSlugAlnum(c) || c == '-' ==> r == [c]
  {
    if '\U{0300}' <= c <= '\U{036F}' then []
    else if '\U{00E0}' <= c <= '\U{00E5}' then "a"
    else if c == '\U{00E7}' then "c"
    else if '\U{00E8}' <= c <= '\U{00EB}' then "e"
    else if '\U{00EC}' <= c <= '\U{00EF}' then "i"
    else if c == '\U{00F1}' then "n"
    else if '\U{00F2}' <= c <= '\U{00F6}' then "o"
    else if '\U{00F9}' <= c <= '\U{00FC}' then "u"
    else if c == '\U{00FD}' || c == '\U{00FF}' then "y"
    else [c]
  }

  /** `.toLowerCase().normalize('NFD').replace(/[\u0300-\u036f]/g, '')`. */
  function Fold(s: string): (r: string)
    ensures |r| <= |s|
  {
    if s == [] then [] else FoldChar(LowerChar(s[0])) + Fold(s[1..])
  }

  /** Drops the leading characters outside `[a-z0-9]`. */
  function SkipSeparators(s: string): (r: string)
    ensures |r| <= |s| && r == s[|s| - |r|..]
    ensures r == [] || IsSlugAlnum(r[0])
  {
    if s == [] || IsSlugAlnum(s[0]) then s else SkipSeparators(s[1..])
  }

  /** `.replace(/[^a-z0-9]+/g, '-')`: every maximal run of characters outside
      `[a-z0-9]` becomes one hyphen. */
  function Collapse(s: string): (r: string)
    ensures |r| <= |s|
    ensures SlugCharsOnly(r) && NoDoubleHyphen(r)
    ensures s != [] && IsSlugAlnum(s[0]) ==> r != [] && r[0] == s[0]
    ensures s == [] ==> r == []
    decreases |s|
  {
    if s == [] then []
    else if IsSlugAlnum(s[0]) then
      var t := Collapse(s[1..]);
      PrependKeepsSlugShape(s[0], t);
      [s[0]] + t
    else
      var t := Collapse(SkipSeparators(s[1..]));
      PrependKeepsSlugShape('-', t);
      "-" + t
  }

  /** A slug character in front of a slug-shaped string keeps the shape, as
      long as a hyphen is not put before another hyphen. */
  lemma PrependKeepsSlugShape(c: char, t: string)
    requires IsSlugAlnum(c) || (c == '-' && (t == [] || t[0] != '-'))
    requires SlugCharsOnly(t) && NoDoubleHyphen(t)
    ensures SlugCharsOnly([c] + t) && NoDoubleHyphen([c] + t)
  {
    var r := [c] + t;
    forall i | 0 < i < |r|
      ensures r[i] == t[i - 1]
    {
    }
  }

  /** `.replace(/^-+|-+$/g, '')`. */
  function StripHyphens(s: string): (r: string)
    ensures SlugCharsOnly(s) && NoDoubleHyphen(s) ==> WellFormedSlug(r)
  {
    if SlugCharsOnly(s) && NoDoubleHyphen(s) then
      StripHyphensShape(s);
      DropTrailingHyphens(DropLeadingHyphens(s))
    else DropTrailingHyphens(DropLeadingHyphens(s))
  }

  lemma StripHyphensShape(s: string)
    requires SlugCharsOnly(s) && NoDoubleHyphen(s)
    ensures WellFormedSlug(DropTrailingHyphens(DropLeadingHyphens(s)))
  {
    var a := DropLeadingHyphens(s);
    var r := DropTrailingHyphens(a);
    SliceKeepsSlugShape(s, |s| - |a|, |s|);
    SliceKeepsSlugShape(a, 0, |r|);
    assert r != [] ==> r[0] == a[0];
  }

  /** A piece of a string keeps its slug alphabet and its absence of double
      hyphens. */
  lemma SliceKeepsSlugShape(s: string, i: int, j: int)
    requires 0 <= i <= j <= |s|
    requires SlugCharsOnly(s) && NoDoubleHyphen(s)
    ensures SlugCharsOnly(s[i..j]) && NoDoubleHyphen(s[i..j])
  {
    var t := s[i..j];
    forall k | 0 <= k < |t|
      ensures t[k] == s[i + k]
    {
    }
  }

  function DropLeadingHyphens(s: string): (r: string)
    ensures |r| <= |s| && r == s[|s| - |r|..]
    ensures r == [] || r[0] != '-'
  {
    if s != [] && s[0] == '-' then DropLeadingHyphens(s[1..]) else s
  }

  function DropTrailingHyphens(s: string): (r: string)
    ensures |r| <= |s| && r == s[..|r|]
    ensures r == [] || r[|r| - 1] != '-'
  {
    if s != [] && s[|s| - 1] == '-' then DropTrailingHyphens(s[..|s| - 1]) else s
  }

  /** `slugify`: trim, lower-case, strip accents, collapse separator runs to one
      hyphen, drop hyphens at both ends. The result is always made of
      `[a-z0-9-]`, never starts or ends with a hyphen and never has two in a row. */
  function Slugify(input: string): (r: string)
    ensures WellFormedSlug(r)
  {
    StripHyphens(Collapse(Fold(Trim(input))))
  }

  /** Every non-empty result of `slugify` passes the server's `isValidSlug`. */
  lemma SlugifyIsValidSlug(input: string)
    requires Slugify(input) != []
    ensures IsValidSlug(Slugify(input))
  {
    IsValidSlugIff(Slugify(input));
  }

  /** A string of the slug shape is left as it is by every stage of `slugify`. */
  lemma SlugifyFixesWellFormed(s: string)
    requires WellFormedSlug(s)
    ensures Slugify(s) == s
  {
    TrimKeepsSlug(s);
    FoldKeepsSlug(s);
    CollapseKeepsSlug(s);
    assert DropLeadingHyphens(s) == s;
    assert DropTrailingHyphens(s) == s;
  }

  /** `slugify` is idempotent. */
  lemma SlugifyIdempotent(input: string)
    ensures Slugify(Slugify(input)) == Slugify(input)
  {
    SlugifyFixesWellFormed(Slugify(input));
  }

  /** The fixed points of `slugify` are exactly the empty string and the valid
      slugs. */
  lemma SlugifyFixedPoints(s: string)
    ensures Slugify(s) == s <==> s == [] || IsValidSlug(s)
  {
    IsValidSlugIff(s);
    if s == [] || IsValidSlug(s) {
      SlugifyFixesWellFormed(s);
    }
  }

  lemma TrimKeepsSlug(s: string)
    requires SlugCharsOnly(s)
    ensures Trim(s) == s
  {
    if s != [] {
      assert !IsWhitespace(s[0]) && !IsWhitespace(s[|s| - 1]);
    }
  }

  lemma {:induction false} FoldKeepsSlug(s: string)
    requires SlugCharsOnly(s)
    ensures Fold(s) == s
  {
    if s != [] {
      FoldKeepsSlug(s[1..]);
    }
  }

  lemma {:induction false} CollapseKeepsSlug(s: string)
    requires SlugCharsOnly(s) && NoDoubleHyphen(s)
    ensures Collapse(s) == s
    decreases |s|
  {
    if s != [] {
      var t := s[1..];
      SlugShapeOfTail(s);
      CollapseKeepsSlug(t);
      if IsSlugAlnum(s[0]) {
        assert Collapse(s) == [s[0]] + Collapse(t);
      } else {
        assert s[0] == '-';
        if t != [] {
          assert !(s[0] == '-' && s[1] == '-');
          assert IsSlugAlnum(t[0]);
        }
        assert SkipSeparators(t) == t;
        assert Collapse(s) == "-" + Collapse(t);
      }
      assert s == [s[0]] + t;
    }
  }

  /** Dropping the first character keeps the slug alphabet and the absence of
      double hyphens. */
  lemma SlugShapeOfTail(s: string)
    requires s != [] && SlugCharsOnly(s) && NoDoubleHyphen(s)
    ensures SlugCharsOnly(s[1..]) && NoDoubleHyphen(s[1..])
  {
    var t := s[1..];
    forall i | 0 <= i < |t|
      ensures IsSlugAlnum(t[i]) || t[i] == '-'
    {
      assert t[i] == s[i + 1];
    }
    forall i | 0 <= i < |t| - 1
      ensures !(t[i] == '-' && t[i + 1] == '-')
    {
      assert t[i] == s[i + 1] && t[i + 1] == s[i + 2];
    }
  }

  /** A shop name with an accented capital, an inner space and spaces around:
      " É Bar " becomes "e-bar", one stage at a time below. */
  lemma SlugifyExample()
    ensures Slugify(" \U{00C9} Bar ") == "e-bar"
  {
    TrimExample();
    FoldExample();
    CollapseEBar();
    StripExample();
  }

  lemma TrimExample()
    ensures Trim(" \U{00C9} Bar ") == "\U{00C9} Bar"
  {
    TrimStartExample();
    TrimEndExample();
  }

  lemma TrimStartExample()
    ensures TrimStart(" \U{00C9} Bar ") == "\U{00C9} Bar "
  {
    assert " \U{00C9} Bar " == [' '] + "\U{00C9} Bar ";
    TrimStartSkips(' ', "\U{00C9} Bar ");
    TrimStartStops("\U{00C9} Bar ");
  }

  lemma TrimEndExample()
    ensures TrimEnd("\U{00C9} Bar ") == "\U{00C9} Bar"
  {
    assert "\U{00C9} Bar " == "\U{00C9} Bar" + [' '];
    TrimEndSkips("\U{00C9} Bar", ' ');
    TrimEndStops("\U{00C9} Bar");
  }

  /** Leading whitespace is cut one character at a time. */
  lemma TrimStartSkips(c: char, s: string)
    requires IsWhitespace(c)
    ensures TrimStart([c] + s) == TrimStart(s)
  {
    assert ([c] + s)[1..] == s;
  }

  /** `TrimStart` stops at the first character that is not whitespace. */
  lemma TrimStartStops(s: string)
    requires s != [] && !IsWhitespace(s[0])
    ensures TrimStart(s) == s
  {
  }

  /** `TrimEnd` stops at the last character that is not whitespace. */
  lemma TrimEndStops(s: string)
    requires s != [] && !IsWhitespace(s[|s| - 1])
    ensures TrimEnd(s) == s
  {
  }

  /** Trailing whitespace is cut one character at a time. */
  lemma TrimEndSkips(s: string, c: char)
    requires IsWhitespace(c)
    ensures TrimEnd(s + [c]) == TrimEnd(s)
  {
    assert (s + [c])[..|s|] == s;
  }

  lemma FoldExample()
    ensures Fold("\U{00C9} Bar") == "e bar"
  {
    calc {
      Fold("\U{00C9} Bar");
      { assert "\U{00C9} Bar" == ['\U{00C9}'] + " Bar"; FoldCons('\U{00C9}', " Bar"); }
      FoldChar(LowerChar('\U{00C9}')) + Fold(" Bar");
      { assert LowerChar('\U{00C9}') == '\U{00E9}'; }
      "e" + Fold(" Bar");
      { assert " Bar" == [' '] + "Bar"; FoldCons(' ', "Bar"); }
      "e" + (" " + Fold("Bar"));
      { assert "Bar" == ['B'] + "ar"; FoldCons('B', "ar"); FoldKeepsSlug("ar"); }
      "e" + (" " + ("b" + "ar"));
    }
  }

  /** `Fold` works one character at a time. */
  lemma FoldCons(c: char, t: string)
    ensures Fold([c] + t) == FoldChar(LowerChar(c)) + Fold(t)
  {
    assert ([c] + t)[1..] == t;
  }

  lemma CollapseBar()
    ensures Collapse("bar") == "bar"
  {
    CollapseKeepsSlug("bar");
  }

  lemma CollapseSpaceBar()
    ensures Collapse(" bar") == "-bar"
  {
    assert " bar"[1..] == "bar";
    assert SkipSeparators("bar") == "bar";
    CollapseBar();
  }

  lemma CollapseEBar()
    ensures Collapse("e bar") == "e-bar"
  {
    calc {
      Collapse("e bar");
      { assert "e bar" == ['e'] + " bar"; }
      Collapse(['e'] + " bar");
      { CollapseKeepsLetter('e', " bar"); }
      ['e'] + Collapse(" bar");
      { CollapseSpaceBar(); }
      ['e'] + "-bar";
      "e-bar";
    }
  }

  /** A leading letter or digit is copied as it is. */
  lemma CollapseKeepsLetter(c: char, s: string)
    requires IsSlugAlnum(c)
    ensures Collapse([c] + s) == [c] + Collapse(s)
  {
    assert ([c] + s)[1..] == s;
  }

  lemma StripExample()
    ensures StripHyphens("e-bar") == "e-bar"
  {
    assert DropLeadingHyphens("e-bar") == "e-bar";
    assert DropTrailingHyphens("e-bar") == "e-bar";
  }

  // ---------------------------------------------------------------------------
  // Opening hours
  // ---------------------------------------------------------------------------

  /** `defaultBusinessHours`: Sunday closed, Monday to Friday 09:00-18:00,
      Saturday 09:00-14:00. */
  function DefaultBusinessHours(): seq<BusinessHour> {
    [ BusinessHour(0, "09:00", "18:00", false),
      BusinessHour(1, "09:00", "18:00", true),
      BusinessHour(2, "09:00", "18:00", true),
      BusinessHour(3, "09:00", "18:00", true),
      BusinessHour(4, "09:00", "18:00", true),
      BusinessHour(5, "09:00", "18:00", true),
      BusinessHour(6, "09:00", "14:00", true) ]
  }

  /** Seven entries, one per day 0..6 in order; only Sunday is closed; every day
      opens at 09:00; Saturday closes at 14:00 and the others at 18:00. */
  lemma DefaultBusinessHoursShape()
    ensures var h := DefaultBusinessHours();
      && |h| == 7
      && (forall i :: 0 <= i < 7 ==> h[i].dayOfWeek == i)
      && (forall i :: 0 <= i < 7 ==> (h[i].isActive <==> i != 0))
      && (forall i :: 0 <= i < 7 ==> h[i].startTime == "09:00")
      && (forall i :: 0 <= i < 7 ==> h[i].endTime == (if i == 6 then "14:00" else "18:00"))
  {
  }

  /** `prev.map((x) => x.dayOfWeek === day ? f(x) : x)`: the one update shape of
      the three handlers. Entries of other days are left alone. */
  function UpdateDay(hours: seq<BusinessHour>, day: int, f: BusinessHour -> BusinessHour): (r: seq<BusinessHour>)
    ensures |r| == |hours|
    ensures forall i :: 0 <= i < |r| && hours[i].dayOfWeek != day ==> r[i] == hours[i]
    ensures forall i :: 0 <= i < |r| && hours[i].dayOfWeek == day ==> r[i] == f(hours[i])
  {
    seq(|hours|, i requires 0 <= i < |hours| => if hours[i].dayOfWeek == day then f(hours[i]) else hours[i])
  }

  function Toggle(h: BusinessHour): BusinessHour { h.(isActive := !h.isActive) }

  /** The day button: flips `isActive` of that day and nothing else. */
  function ToggleDay(hours: seq<BusinessHour>, day: int): (r: seq<BusinessHour>)
    ensures |r| == |hours|
    ensures forall i :: 0 <= i < |r| ==>
      r[i].dayOfWeek == hours[i].dayOfWeek && r[i].startTime == hours[i].startTime && r[i].endTime == hours[i].endTime
    ensures forall i :: 0 <= i < |r| ==> (r[i].isActive <==> (hours[i].isActive != (hours[i].dayOfWeek == day)))
  {
    UpdateDay(hours, day, Toggle)
  }

  /** The opening-time input: sets `startTime` of that day and nothing else. */
  function SetStartTime(hours: seq<BusinessHour>, day: int, value: string): (r: seq<BusinessHour>)
    ensures |r| == |hours|
    ensures forall i :: 0 <= i < |r| ==>
      r[i].dayOfWeek == hours[i].dayOfWeek && r[i].endTime == hours[i].endTime && r[i].isActive == hours[i].isActive
    ensures forall i :: 0 <= i < |r| ==> r[i].startTime == (if hours[i].dayOfWeek == day then value else hours[i].startTime)
  {
    UpdateDay(hours, day, (h: BusinessHour) => h.(startTime := value))
  }

  /** The closing-time input: sets `endTime` of that day and nothing else. */
  function SetEndTime(hours: seq<BusinessHour>, day: int, value: string): (r: seq<BusinessHour>)
    ensures |r| == |hours|
    ensures forall i :: 0 <= i < |r| ==>
      r[i].dayOfWeek == hours[i].dayOfWeek && r[i].startTime == hours[i].startTime && r[i].isActive == hours[i].isActive
    ensures forall i :: 0 <= i < |r| ==> r[i].endTime == (if hours[i].dayOfWeek == day then value else hours[i].endTime)
  {
    UpdateDay(hours, day, (h: BusinessHour) => h.(endTime := value))
  }

  /** Pressing a day button twice restores the hours. */
  lemma ToggleDayTwice(hours: seq<BusinessHour>, day: int)
    ensures ToggleDay(ToggleDay(hours, day), day) == hours
  {
    var r := ToggleDay(ToggleDay(hours, day), day);
    assert forall i :: 0 <= i < |r| ==> r[i] == hours[i];
  }

  /** The last opening time typed for a day is the one kept. */
  lemma SetStartTimeLastWins(hours: seq<BusinessHour>, day: int, first: string, second: string)
    ensures SetStartTime(SetStartTime(hours, day, first), day, second) == SetStartTime(hours, day, second)
  {
    var a := SetStartTime(SetStartTime(hours, day, first), day, second);
    var b := SetStartTime(hours, day, second);
    assert forall i :: 0 <= i < |a| ==> a[i] == b[i];
  }

  /** Editing one day's opening and another day's closing commute. */
  lemma EditsOfDifferentDaysCommute(hours: seq<BusinessHour>, d1: int, v1: string, d2: int, v2: string)
    requires d1 != d2
    ensures SetEndTime(SetStartTime(hours, d1, v1), d2, v2) == SetStartTime(SetEndTime(hours, d2, v2), d1, v1)
  {
    var a := SetEndTime(SetStartTime(hours, d1, v1), d2, v2);
    var b := SetStartTime(SetEndTime(hours, d2, v2), d1, v1);
    assert forall i :: 0 <= i < |a| ==> a[i] == b[i];
  }

  /** On the default hours, whose days are distinct, a day button changes
      exactly one entry: opening Sunday leaves every day open. */
  lemma OpenSundayExample()
    ensures forall i :: 0 <= i < 7 ==> ToggleDay(DefaultBusinessHours(), 0)[i].isActive
  {
    DefaultBusinessHoursShape();
  }

  // ---------------------------------------------------------------------------
  // The form
  // ---------------------------------------------------------------------------

  /** What the form sends to `/api/onboarding/complete`. */
  datatype SetupRequest = SetupRequest(
    authorization: string,
    tenantId: string,
    name: string,
    slug: string,
    logoUrl: Option<string>,
    phone: Option<string>,
    address: Option<string>,
    timezone: string,
    businessHours: seq<BusinessHour>)

  /** `value.trim() || null`. */
  function TrimmedOrNull(s: string): (r: Option<string>)
    ensures r.None? <==> Trim(s) == []
    ensures r.Some? ==> r.value == Trim(s)
  {
    if Trim(s) == [] then None else Some(Trim(s))
  }

  /** The JSON body the server parses from a request. */
  function AsBody(req: SetupRequest): RequestBody {
    RequestBody(Some(req.tenantId), Some(req.name), Some(req.slug), req.logoUrl, req.phone, req.address,
                Some(req.timezone), Some(req.businessHours))
  }

  /** The values the form holds, one per `useState`. */
  datatype FormState = FormState(
    name: string,
    slug: string,
    logoUrl: string,
    phone: string,
    address: string,
    timezone: string,
    businessHours: seq<BusinessHour>,
    isSubmitting: bool,
    error: Option<string>)

  /** The checks of the submit handler, in order: a blank trimmed name or an
      empty normalised slug first, then a missing signed-in user. None means
      the request goes out; then the name and slug it carries are non-empty and
      the slug is a valid slug. */
  function SubmitError(name: string, slug: string, signedIn: bool): Option<string> {
    if Trim(name) == [] || Slugify(slug) == [] then Some("Informe o nome e o slug.")
    else if !signedIn then Some("Você precisa estar logado para concluir o setup.")
    else None
  }

  /** The form sends only a non-blank name, a slug the server's grammar
      accepts and a signed-in user's token, and refuses exactly the other cases. */
  lemma SubmitErrorMeaning(name: string, slug: string, signedIn: bool)
    ensures SubmitError(name, slug, signedIn).None? ==>
      Trim(name) != [] && IsValidSlug(Slugify(slug)) && signedIn
    ensures SubmitError(name, slug, signedIn).Some? <==>
      Trim(name) == [] || Slugify(slug) == [] || !signedIn
  {
    if SubmitError(name, slug, signedIn).None? {
      SlugifyIsValidSlug(slug);
    }
  }

  /** The body and header of the request: trimmed name, normalised slug,
      optional fields as `trim() || null`. */
  function SetupRequestFor(tenantId: string, s: FormState, idToken: string): SetupRequest {
    SetupRequest("Bearer " + idToken, tenantId, Trim(s.name), Slugify(s.slug),
      TrimmedOrNull(s.logoUrl), TrimmedOrNull(s.phone), TrimmedOrNull(s.address), s.timezone, s.businessHours)
  }

  /** Blank fields are reported before a missing user. */
  lemma BlankFieldsReportedFirst(name: string, slug: string, signedIn: bool)
    requires Trim(name) == [] || Slugify(slug) == []
    ensures SubmitError(name, slug, signedIn) == Some("Informe o nome e o slug.")
  {
  }

  /** What a press of the submit button does to the form. While a request is
      pending the button is disabled and a press does nothing. Otherwise, when
      `SubmitError` reports a problem the form shows it and sends nothing, and
      when it does not the form is marked submitting and the request is
      returned for sending. */
  function SubmitOutcome(tenantId: string, s: FormState, idToken: Option<string>): (FormState, Option<SetupRequest>) {
    var problem := SubmitError(s.name, s.slug, idToken.Some?);
    if s.isSubmitting then (s, None)
    else if problem.Some? then (s.(error := problem), None)
    else (s.(isSubmitting := true, error := None), Some(SetupRequestFor(tenantId, s, idToken.value)))
  }

  /** Submitting changes the submitting flag and the error message only. */
  lemma SubmitOutcomeChangesFlags(tenantId: string, s: FormState, idToken: Option<string>)
    ensures var next := SubmitOutcome(tenantId, s, idToken).0;
      next == s.(isSubmitting := next.isSubmitting, error := next.error)
  {
  }

  /** A request leaves the form only when none is pending, with a non-blank
      name, a slug the server accepts and the user's token in the header; a
      press while a request is pending changes nothing; either way only the
      submitting flag and the error message change. */
  lemma SubmitOutcomeMeaning(tenantId: string, s: FormState, idToken: Option<string>)
    ensures var (next, request) := SubmitOutcome(tenantId, s, idToken);
      && next.(isSubmitting := s.isSubmitting, error := s.error) == s
      && (s.isSubmitting ==> next == s && request.None?)
      && (request.Some? <==> !s.isSubmitting && Trim(s.name) != [] && Slugify(s.slug) != [] && idToken.Some?)
      && (request.Some? ==>
            && request.value.authorization == "Bearer " + idToken.value
            && request.value.name == Trim(s.name) != []
            && IsValidSlug(request.value.slug)
            && next.isSubmitting && next.error.None?)
      && (request.None? && !s.isSubmitting ==> !next.isSubmitting && next.error.Some?)
  {
    SubmitErrorMeaning(s.name, s.slug, idToken.Some?);
  }

  /** The `SetupClient` component's state. `tenantId` is a prop. */
  class SetupForm {
    const tenantId: string
    var name: string
    var slug: string
    var logoUrl: string
    var phone: string
    var address: string
    var timezone: string
    var businessHours: seq<BusinessHour>
    var isSubmitting: bool
    var error: Option<string>

    function State(): FormState
      reads this
    {
      FormState(name, slug, logoUrl, phone, address, timezone, businessHours, isSubmitting, error)
    }

    constructor(tenantId: string)
      ensures this.tenantId == tenantId
      ensures State() == FormState("Minha Barbearia", [], [], [], [], "America/Sao_Paulo", DefaultBusinessHours(), false, None)
    {
      this.tenantId := tenantId;
      name := "Minha Barbearia";
      slug := [];
      logoUrl := [];
      phone := [];
      address := [];
      timezone := "America/Sao_Paulo";
      businessHours := DefaultBusinessHours();
      isSubmitting := false;
      error := None;
    }

    /** The slug preview under the input. */
    function NormalizedSlug(): string
      reads this
    {
      Slugify(slug)
    }

    /** Typing in the name input: the name is copied into the slug only while
        the slug is blank. */
    method EditName(value: string)
      modifies this
      ensures State() == old(State()).(name := value, slug := if AllWhitespace(old(slug)) then value else old(slug))
    {
      name := value;
      if AllWhitespace(slug) {
        slug := value;
      }
    }

    method EditSlug(value: string)
      modifies this
      ensures State() == old(State()).(slug := value)
    {
      slug := value;
    }

    method EditPhone(value: string)
      modifies this
      ensures State() == old(State()).(phone := value)
    {
      phone := value;
    }

    method EditTimezone(value: string)
      modifies this
      ensures State() == old(State()).(timezone := value)
    {
      timezone := value;
    }

    method EditAddress(value: string)
      modifies this
      ensures State() == old(State()).(address := value)
    {
      address := value;
    }

    method EditLogoUrl(value: string)
      modifies this
      ensures State() == old(State()).(logoUrl := value)
    {
      logoUrl := value;
    }

    method PressDay(day: int)
      modifies this
      ensures State() == old(State()).(businessHours := ToggleDay(old(businessHours), day))
    {
      businessHours := ToggleDay(businessHours, day);
    }

    /** The start-time input of `day`. The input is disabled while the day is
        inactive, so the page only calls this for an active day; the state it
        reaches from an inactive day is also reached by opening the day, editing
        and closing it again. */
    method EditStartTime(day: int, value: string)
      modifies this
      ensures State() == old(State()).(businessHours := SetStartTime(old(businessHours), day, value))
    {
      businessHours := SetStartTime(businessHours, day, value);
    }

    /** The end-time input of `day`. The input is disabled while the day is
        inactive, so the page only calls this for an active day; the state it
        reaches from an inactive day is also reached by opening the day, editing
        and closing it again. */
    method EditEndTime(day: int, value: string)
      modifies this
      ensures State() == old(State()).(businessHours := SetEndTime(old(businessHours), day, value))
    {
      businessHours := SetEndTime(businessHours, day, value);
    }

    /** The submit button, up to the request. `idToken` is the signed-in user's
        token, None when nobody is signed in. */
    method Submit(idToken: Option<string>) returns (request: Option<SetupRequest>)
      modifies this
      ensures (State(), request) == SubmitOutcome(tenantId, old(State()), idToken)
      ensures old(isSubmitting) ==> State() == old(State()) && request.None?
    {
      var outcome := SubmitOutcome(tenantId, State(), idToken);
      SubmitOutcomeChangesFlags(tenantId, State(), idToken);
      error := outcome.0.error;
      isSubmitting := outcome.0.isSubmitting;
      request := outcome.1;
    }

    /** The answer to the request. A success navigates away and leaves the form
        submitting; a failure shows the server's error, or a fixed message when
        the body carries none, and re-enables the button. */
    method ReceiveReply(ok: bool, bodyError: Option<string>)
      modifies this
      ensures ok ==> State() == old(State())
      ensures !ok ==> State() == old(State()).(isSubmitting := false,
        error := Some(if bodyError.Some? then bodyError.value else "Não foi possível salvar o setup."))
    {
      if !ok {
        error := Some(if bodyError.Some? then bodyError.value else "Não foi possível salvar o setup.");
        isSubmitting := false;
      }
    }
  }

  /** What the form sends survives the server's trimming unchanged, and its slug
      passes the server's grammar: a submitted name and slug never draw
      "Slug inválido." and never count as missing. */
  lemma SubmittedSlugAndNameAccepted(name: string, slug: string)
    requires Trim(name) != [] && Slugify(slug) != []
    ensures Cleaned(Some(Trim(name))) == Trim(name) != []
    ensures Cleaned(Some(Slugify(slug))) == Slugify(slug)
    ensures IsValidSlug(Slugify(slug))
  {
    TrimIdempotent(name);
    TrimKeepsSlug(Slugify(slug));
    SlugifyIsValidSlug(slug);
  }

  /** The optional fields arrive as the server stores them: `trim() || null` on
      the client and "non-empty after trim" on the server agree. */
  lemma OptionalFieldRoundTrip(s: string)
    ensures NonEmpty(Cleaned(TrimmedOrNull(s))) == TrimmedOrNull(s)
  {
    TrimIdempotent(s);
  }

  /** A request the form sends is read back by the server as the form meant it:
      the server's trimming leaves the name and slug unchanged, the slug passes
      its grammar, the optional fields come back as the form sent them, and
      the body counts as complete exactly when the tenant id and the timezone
      are not blank. */
  lemma SentRequestPassesServerChecks(tenantId: string, s: FormState, idToken: Option<string>)
    requires SubmitOutcome(tenantId, s, idToken).1.Some?
    ensures var req := SubmitOutcome(tenantId, s, idToken).1.value;
      var c := Clean(Some(AsBody(req)));
      && c.name == req.name && c.slug == req.slug && IsValidSlug(c.slug)
      && (IsComplete(c) <==> Trim(tenantId) != [] && Trim(s.timezone) != [])
      && NonEmpty(c.phone) == req.phone && NonEmpty(c.address) == req.address
      && NonEmpty(c.logoUrl) == req.logoUrl
      && c.businessHours == req.businessHours
  {
    SubmitOutcomeMeaning(tenantId, s, idToken);
    SubmittedSlugAndNameAccepted(s.name, s.slug);
    OptionalFieldRoundTrip(s.phone);
    OptionalFieldRoundTrip(s.address);
    OptionalFieldRoundTrip(s.logoUrl);
  }

  /** The Authorization header the form builds yields back its token. */
  lemma SubmittedTokenAccepted(idToken: string)
    requires idToken != [] && ' ' !in idToken
    ensures BearerToken(Some("Bearer " + idToken)) == Some(idToken)
  {
    BearerTokenIff("Bearer " + idToken, idToken);
    assert ("Bearer " + idToken)[..7 + |idToken|] == "Bearer " + idToken;
  }
}
