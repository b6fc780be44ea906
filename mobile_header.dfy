/** The admin area's mobile header (`components/admin/mobile-header.tsx`): the
    page title chosen by path prefix, and the two-letter initials shown in the
    avatar. */
module MobileHeader {
  import opened Prelude
  import opened Text

  /** `getTitle`: the first matching prefix wins, so the billing page is
      checked before the settings pages that contain it. */
  function GetTitle(pathname: string): string {
    if StartsWith(pathname, "/admin/dashboard") then "Dashboard"
    else if StartsWith(pathname, "/admin/schedule") then "Agenda"
    else if StartsWith(pathname, "/admin/pos") then "PDV"
    else if StartsWith(pathname, "/admin/services") then "Serviços"
    else if StartsWith(pathname, "/admin/barbers") then "Equipe"
    else if StartsWith(pathname, "/admin/settings/billing") then "Assinatura"
    else if StartsWith(pathname, "/admin/settings") then "Configurações"
    else "Painel"
  }

  /** Two prefixes that differ at position `k` cannot both start one path. */
  lemma PrefixesExclude(pathname: string, a: string, b: string, k: nat)
    requires k < |a| && k < |b| && a[k] != b[k]
    requires StartsWith(pathname, a)
    ensures !StartsWith(pathname, b)
  {
    assert pathname[k] == pathname[..|a|][k] == a[k];
  }

  /** Each section of the admin area has its own title, whatever follows the
      section's prefix. */
  lemma SectionTitles(pathname: string)
    ensures StartsWith(pathname, "/admin/dashboard") ==> GetTitle(pathname) == "Dashboard"
    ensures StartsWith(pathname, "/admin/schedule") ==> GetTitle(pathname) == "Agenda"
    ensures StartsWith(pathname, "/admin/pos") ==> GetTitle(pathname) == "PDV"
    ensures StartsWith(pathname, "/admin/services") ==> GetTitle(pathname) == "Serviços"
    ensures StartsWith(pathname, "/admin/barbers") ==> GetTitle(pathname) == "Equipe"
  {
    if StartsWith(pathname, "/admin/schedule") {
      PrefixesExclude(pathname, "/admin/schedule", "/admin/dashboard", 7);
    }
    if StartsWith(pathname, "/admin/pos") {
      PrefixesExclude(pathname, "/admin/pos", "/admin/dashboard", 7);
      PrefixesExclude(pathname, "/admin/pos", "/admin/schedule", 7);
    }
    if StartsWith(pathname, "/admin/services") {
      PrefixesExclude(pathname, "/admin/services", "/admin/dashboard", 7);
      PrefixesExclude(pathname, "/admin/services", "/admin/schedule", 8);
      PrefixesExclude(pathname, "/admin/services", "/admin/pos", 7);
    }
    if StartsWith(pathname, "/admin/barbers") {
      PrefixesExclude(pathname, "/admin/barbers", "/admin/dashboard", 7);
      PrefixesExclude(pathname, "/admin/barbers", "/admin/schedule", 7);
      PrefixesExclude(pathname, "/admin/barbers", "/admin/pos", 7);
      PrefixesExclude(pathname, "/admin/barbers", "/admin/services", 7);
    }
  }

  /** A settings path is not any of the five sections above it. */
  lemma SettingsIsNoOtherSection(pathname: string)
    requires StartsWith(pathname, "/admin/settings")
    ensures !StartsWith(pathname, "/admin/dashboard") && !StartsWith(pathname, "/admin/schedule")
    ensures !StartsWith(pathname, "/admin/pos") && !StartsWith(pathname, "/admin/services")
    ensures !StartsWith(pathname, "/admin/barbers")
  {
    PrefixesExclude(pathname, "/admin/settings", "/admin/dashboard", 7);
    PrefixesExclude(pathname, "/admin/settings", "/admin/schedule", 8);
    PrefixesExclude(pathname, "/admin/settings", "/admin/pos", 7);
    PrefixesExclude(pathname, "/admin/settings", "/admin/services", 9);
    PrefixesExclude(pathname, "/admin/settings", "/admin/barbers", 7);
  }

  /** The billing page is titled 'Assinatura', although its path also starts
      with the settings prefix; every other settings page is 'Configurações'. */
  lemma SettingsTitles(pathname: string)
    requires StartsWith(pathname, "/admin/settings")
    ensures StartsWith(pathname, "/admin/settings/billing") ==> GetTitle(pathname) == "Assinatura"
    ensures !StartsWith(pathname, "/admin/settings/billing") ==> GetTitle(pathname) == "Configurações"
  {
    SettingsIsNoOtherSection(pathname);
  }

  /** Every billing path is a settings path. */
  lemma BillingIsUnderSettings(pathname: string)
    requires StartsWith(pathname, "/admin/settings/billing")
    ensures StartsWith(pathname, "/admin/settings")
  {
    assert pathname[..15] == pathname[..23][..15];
  }

  /** 'Painel' is the title exactly of the paths outside every known section. */
  lemma DefaultTitle(pathname: string)
    ensures GetTitle(pathname) == "Painel" <==>
      && !StartsWith(pathname, "/admin/dashboard") && !StartsWith(pathname, "/admin/schedule")
      && !StartsWith(pathname, "/admin/pos") && !StartsWith(pathname, "/admin/services")
      && !StartsWith(pathname, "/admin/barbers") && !StartsWith(pathname, "/admin/settings")
  {
    if StartsWith(pathname, "/admin/settings/billing") {
      BillingIsUnderSettings(pathname);
    }
  }

  /** `name || email || 'FS'`, with both already trimmed: the first one present
      and non-empty. */
  function InitialsSource(displayName: Option<string>, email: Option<string>): (raw: string)
    ensures raw != []
  {
    if displayName.Some? && Trim(displayName.value) != [] then Trim(displayName.value)
    else if email.Some? && Trim(email.value) != [] then Trim(email.value)
    else "FS"
  }

  /** `s.slice(0, 2)`. */
  function FirstTwo(s: string): (r: string)
    ensures |r| <= 2 && |r| <= |s| && r == s[..|r|]
    ensures |r| == 2 || r == s
  {
    s[..if |s| < 2 then |s| else 2]
  }

  /** `raw.slice(0, 2).toUpperCase()`. */
  function Initials(displayName: Option<string>, email: Option<string>): (r: string)
    ensures 1 <= |r| <= 2
    ensures forall i :: 0 <= i < |r| ==> !IsAsciiLower(r[i])
  {
    UpperAscii(FirstTwo(InitialsSource(displayName, email)))
  }

  /** The initials come from the trimmed display name when it has any
      non-blank text, else from the trimmed e-mail, else they are 'FS'. */
  lemma InitialsOrigin(displayName: Option<string>, email: Option<string>)
    ensures displayName.Some? && !AllWhitespace(displayName.value) ==>
      Initials(displayName, email) == UpperAscii(FirstTwo(Trim(displayName.value)))
    ensures (displayName.None? || AllWhitespace(displayName.value)) && email.Some? && !AllWhitespace(email.value) ==>
      Initials(displayName, email) == UpperAscii(FirstTwo(Trim(email.value)))
    ensures (displayName.None? || AllWhitespace(displayName.value)) && (email.None? || AllWhitespace(email.value)) ==>
      Initials(displayName, email) == "FS"
  {
    if displayName.Some? {
      TrimEmptyIffBlank(displayName.value);
    }
    if email.Some? {
      TrimEmptyIffBlank(email.value);
    }
    if (displayName.None? || AllWhitespace(displayName.value)) && (email.None? || AllWhitespace(email.value)) {
      assert InitialsSource(displayName, email) == "FS";
      assert FirstTwo("FS") == "FS";
    }
  }
}
