/** The server side of onboarding: the slug grammar, the Bearer header, and the
    POST handler that validates the setup form and saves it on the tenant.
    Firebase is abstracted: the ID-token check is a function parameter and the
    tenants collection is a map from document id to the fields read here. */
module OnboardingComplete {
  import opened Prelude
  import opened Text

  // ---------------------------------------------------------------------------
  // Slug grammar
  // ---------------------------------------------------------------------------

  /** A character of `[a-z0-9]`. */
  predicate IsSlugAlnum(c: char) {
    IsAsciiLower(c) || IsDigit(c)
  }

  /** `isValidSlug`: the regular expression `^[a-z0-9]+(?:-[a-z0-9]+)*$`, read as
      its automaton: a letter or digit, then `SlugTail`. */
  predicate IsValidSlug(s: string) {
    |s| > 0 && IsSlugAlnum(s[0]) && SlugTail(s[1..])
  }

  /** What may follow a letter or digit: more of the same group, or a hyphen
      that opens a new group with at least one letter or digit. */
  predicate SlugTail(t: string)
    decreases |t|
  {
    || t == []
    || (IsSlugAlnum(t[0]) && SlugTail(t[1..]))
    || (|t| >= 2 && t[0] == '-' && IsSlugAlnum(t[1]) && SlugTail(t[2..]))
  }

  /** Only `[a-z0-9-]`. */
  predicate SlugCharsOnly(s: string) {
    forall i :: 0 <= i < |s| ==> IsSlugAlnum(s[i]) || s[i] == '-'
  }

  predicate NoDoubleHyphen(s: string) {
    forall i, j :: 0 <= i < |s| && 0 <= j < |s| && j == i + 1 ==> !(s[i] == '-' && s[j] == '-')
  }

  predicate NoEdgeHyphen(s: string) {
    s != [] ==> s[0] != '-' && s[|s| - 1] != '-'
  }

  /** The shape the grammar describes, stated character by character. */
  predicate WellFormedSlug(s: string) {
    SlugCharsOnly(s) && NoDoubleHyphen(s) && NoEdgeHyphen(s)
  }

  lemma {:induction false} SlugTailShape(t: string)
    ensures SlugTail(t) <==> SlugCharsOnly(t) && NoDoubleHyphen(t) && (t != [] ==> t[|t| - 1] != '-')
    decreases |t|
  {
    if t != [] {
      SlugTailShape(t[1..]);
      if |t| >= 2 {
        SlugTailShape(t[2..]);
        assert t[1..][1..] == t[2..];
      }
      if SlugCharsOnly(t) && NoDoubleHyphen(t) && t[|t| - 1] != '-' {
        assert SlugCharsOnly(t[1..]) && NoDoubleHyphen(t[1..]);
        if |t| >= 2 {
          assert SlugCharsOnly(t[2..]) && NoDoubleHyphen(t[2..]);
        }
      }
      if SlugTail(t) {
        if IsSlugAlnum(t[0]) && SlugTail(t[1..]) {
          assert forall i :: 1 <= i < |t| ==> t[i] == t[1..][i - 1];
        } else {
          assert forall i :: 2 <= i < |t| ==> t[i] == t[2..][i - 2];
        }
      }
    }
  }

  /** `isValidSlug` accepts exactly the non-empty strings of `[a-z0-9-]` that
      neither start nor end with a hyphen and have no two hyphens in a row. */
  lemma IsValidSlugIff(s: string)
    ensures IsValidSlug(s) <==> s != [] && WellFormedSlug(s)
  {
    if s != [] {
      SlugTailShape(s[1..]);
      assert forall i :: 1 <= i < |s| ==> s[i] == s[1..][i - 1];
      if s != [] && WellFormedSlug(s) {
        assert SlugCharsOnly(s[1..]) && NoDoubleHyphen(s[1..]);
      }
    }
  }

  /** Concrete verdicts: a hyphenated slug and a one-group slug pass. */
  lemma ValidSlugExamples()
    ensures IsValidSlug("do-joao") && IsValidSlug("a1")
  {
  }

  /** One rejected string per kind of rejection: empty, a hyphen at either end,
      a double hyphen, an uppercase letter, a space, an underscore. */
  lemma InvalidSlugExamples()
    ensures !IsValidSlug("") && !IsValidSlug("-abc") && !IsValidSlug("abc-") && !IsValidSlug("a--b")
    ensures !IsValidSlug("Abc") && !IsValidSlug("a b") && !IsValidSlug("a_b")
  {
    RejectAt("abc-", 3);
    RejectAt("a--b", 1);
  }

  lemma RejectAt(s: string, i: int)
    requires 0 < i < |s| && s[i] == '-'
    requires i == |s| - 1 || s[i + 1] == '-'
    ensures !IsValidSlug(s)
  {
    IsValidSlugIff(s);
  }

  // ---------------------------------------------------------------------------
  // The Authorization header
  // ---------------------------------------------------------------------------

  /** The text before the first space (all of `s` when it has none). */
  function UpToSpace(s: string): (r: string)
    ensures |r| <= |s| && r == s[..|r|]
    ensures ' ' !in r
    ensures |r| < |s| ==> s[|r|] == ' '
  {
    if s == [] || s[0] == ' ' then [] else [s[0]] + UpToSpace(s[1..])
  }

  /** `verifyBearerToken` up to the Firebase call: `header.split(' ')` gives the
      kind and the token, the first two pieces; the token is undefined when the
      header has no space. Accepted only when the kind is exactly "Bearer" and
      the token is non-empty. */
  function BearerToken(authorization: Option<string>): Option<string> {
    var header := if authorization.None? then "" else authorization.value;
    var kind := UpToSpace(header);
    if |kind| == |header| then None
    else
      var token := UpToSpace(header[|kind| + 1..]);
      if kind == "Bearer" && token != "" then Some(token) else None
  }

  /** The header yields token `t` exactly when it reads "Bearer ", then `t`,
      then nothing or a space; `t` is non-empty and has no space. */
  lemma BearerTokenIff(h: string, t: string)
    ensures BearerToken(Some(h)) == Some(t) <==>
      && t != [] && ' ' !in t
      && StartsWith(h, "Bearer " + t)
      && (|h| == 7 + |t| || h[7 + |t|] == ' ')
  {
    if BearerToken(Some(h)) == Some(t) {
      AcceptedHeaderShape(h, t);
    }
    if t != [] && ' ' !in t && StartsWith(h, "Bearer " + t) && (|h| == 7 + |t| || h[7 + |t|] == ' ') {
      WellFormedHeaderAccepted(h, t);
    }
  }

  /** An accepted header reads "Bearer ", the token, then a space or nothing. */
  lemma AcceptedHeaderShape(h: string, t: string)
    requires BearerToken(Some(h)) == Some(t)
    ensures StartsWith(h, "Bearer " + t) && (|h| == 7 + |t| || h[7 + |t|] == ' ')
  {
    var kind := UpToSpace(h);
    var rest := h[|kind| + 1..];
    assert h[..7 + |t|] == kind + " " + rest[..|t|];
  }

  /** A header reading "Bearer ", a space-free token, then a space or nothing,
      yields that token. */
  lemma WellFormedHeaderAccepted(h: string, t: string)
    requires t != [] && ' ' !in t
    requires StartsWith(h, "Bearer " + t) && (|h| == 7 + |t| || h[7 + |t|] == ' ')
    ensures BearerToken(Some(h)) == Some(t)
  {
    assert h[..6] == "Bearer";
    assert h[6] == ' ';
    UpToSpaceOfPrefix(h, 6);
    var rest := h[7..];
    assert rest[..|t|] == h[..7 + |t|][7..] == ("Bearer " + t)[7..] == t;
    UpToSpaceOfPrefix(rest, |t|);
  }

  /** A space-free prefix ended by a space, or by the end of `s`, is what
      `UpToSpace` returns. */
  lemma {:induction false} UpToSpaceOfPrefix(s: string, n: nat)
    requires n <= |s| && ' ' !in s[..n]
    requires n == |s| || s[n] == ' '
    ensures UpToSpace(s) == s[..n]
  {
    if n > 0 {
      assert s[0] == s[..n][0];
      assert s[1..][..n - 1] == s[..n][1..];
      UpToSpaceOfPrefix(s[1..], n - 1);
    }
  }

  // ---------------------------------------------------------------------------
  // The request, the tenants, the reply
  // ---------------------------------------------------------------------------

  datatype BusinessHour = BusinessHour(dayOfWeek: int, startTime: string, endTime: string, isActive: bool)

  /** The JSON body; an absent key is None. A body that does not parse is a
      None body. */
  datatype RequestBody = RequestBody(
    tenantId: Option<string>,
    name: Option<string>,
    slug: Option<string>,
    logoUrl: Option<string>,
    phone: Option<string>,
    address: Option<string>,
    timezone: Option<string>,
    businessHours: Option<seq<BusinessHour>>)

  /** `body?.field?.trim() ?? ''` and `(body?.field ?? '').trim()`, which agree. */
  function Cleaned(field: Option<string>): (r: string)
    ensures field.None? ==> r == []
    ensures field.Some? ==> r == Trim(field.value)
  {
    if field.None? then [] else Trim(field.value)
  }

  /** What the handler reads from a parsed body, trimmed. */
  datatype CleanRequest = CleanRequest(
    tenantId: string, name: string, slug: string, timezone: string,
    address: string, phone: string, logoUrl: string, businessHours: seq<BusinessHour>)

  function Clean(body: Option<RequestBody>): CleanRequest {
    if body.None? then CleanRequest([], [], [], [], [], [], [], [])
    else
      var b := body.value;
      CleanRequest(
        Cleaned(b.tenantId), Cleaned(b.name), Cleaned(b.slug), Cleaned(b.timezone),
        Cleaned(b.address), Cleaned(b.phone), Cleaned(b.logoUrl),
        if b.businessHours.None? then [] else b.businessHours.value)
  }

  predicate IsComplete(c: CleanRequest) {
    c.tenantId != [] && c.name != [] && c.slug != [] && c.timezone != []
  }

  /** The answer of `verifyIdToken` for a token. */
  datatype IdCheck = Verified(uid: string) | Rejected(message: string)

  /** The fields of a tenant document the handler reads. */
  datatype TenantRecord = TenantRecord(ownerUid: Option<string>, slug: Option<string>, onboarded: bool, name: Option<string>)

  /** `slugQuery.docs.some((doc) => doc.id !== tenantId)` over the tenants whose
      slug equals `slug`. */
  predicate HasSlugConflict(tenants: map<string, TenantRecord>, slug: string, tenantId: string) {
    exists id :: id in tenants && tenants[id].slug == Some(slug) && id != tenantId
  }

  /** `!tenant.ownerUid || tenant.ownerUid !== decoded.uid`. */
  predicate OwnedBy(t: TenantRecord, uid: string) {
    t.ownerUid.Some? && t.ownerUid.value != [] && t.ownerUid.value == uid
  }

  datatype Settings = Settings(
    timezone: string,
    businessHours: seq<BusinessHour>,
    address: Option<string>,
    phone: Option<string>,
    logoUrl: Option<string>)

  /** The merge written to the tenant document. */
  datatype TenantWrite = TenantWrite(name: string, slug: string, isOnboardingComplete: bool, settings: Settings, updatedAt: int)

  datatype Reply = ErrorReply(status: int, message: string) | OkReply

  /** `{ ...x }` of a `.map` that keeps the four known fields. */
  function CopyHours(hours: seq<BusinessHour>): (r: seq<BusinessHour>)
    ensures |r| == |hours|
    ensures forall i :: 0 <= i < |r| ==>
      && r[i].dayOfWeek == hours[i].dayOfWeek && r[i].startTime == hours[i].startTime
      && r[i].endTime == hours[i].endTime && r[i].isActive == hours[i].isActive
  {
    seq(|hours|, i requires 0 <= i < |hours| => BusinessHour(hours[i].dayOfWeek, hours[i].startTime, hours[i].endTime, hours[i].isActive))
  }

  /** An optional settings key: present only when non-empty. */
  function NonEmpty(s: string): (r: Option<string>)
    ensures r.Some? <==> s != []
    ensures r.Some? ==> r.value == s
  {
    if s == [] then None else Some(s)
  }

  /** `POST /api/onboarding/complete`: the checks run in this order, each with its
      own reply, and only a request that passes all of them is written.
      `now` is the handler's `new Date()`. */
  method Post(authorization: Option<string>, body: Option<RequestBody>, verify: string -> IdCheck,
              tenants: map<string, TenantRecord>, now: int)
    returns (reply: Reply, write: Option<TenantWrite>)
    ensures write.Some? <==> reply == OkReply
    ensures BearerToken(authorization).None? ==> reply == ErrorReply(401, "Não autenticado.")
    ensures BearerToken(authorization).Some? && verify(BearerToken(authorization).value).Rejected? ==>
      reply == ErrorReply(401, verify(BearerToken(authorization).value).message)
    ensures BearerToken(authorization).Some? && verify(BearerToken(authorization).value).Verified? ==>
      var uid := verify(BearerToken(authorization).value).uid;
      var c := Clean(body);
      && (!IsComplete(c) ==> reply == ErrorReply(400, "Dados incompletos."))
      && (IsComplete(c) && !IsValidSlug(c.slug) ==> reply == ErrorReply(400, "Slug inválido."))
      && (IsComplete(c) && IsValidSlug(c.slug) && c.tenantId !in tenants ==>
            reply == ErrorReply(404, "Tenant não encontrado."))
      && (IsComplete(c) && IsValidSlug(c.slug) && c.tenantId in tenants && !OwnedBy(tenants[c.tenantId], uid) ==>
            reply == ErrorReply(403, "Sem permissão."))
      && (IsComplete(c) && IsValidSlug(c.slug) && c.tenantId in tenants && OwnedBy(tenants[c.tenantId], uid)
          && HasSlugConflict(tenants, c.slug, c.tenantId) ==>
            reply == ErrorReply(409, "Slug já está em uso."))
      && (IsComplete(c) && IsValidSlug(c.slug) && c.tenantId in tenants && OwnedBy(tenants[c.tenantId], uid)
          && !HasSlugConflict(tenants, c.slug, c.tenantId) ==>
            && reply == OkReply
            && write.value.name == c.name && write.value.slug == c.slug
            && write.value.isOnboardingComplete && write.value.updatedAt == now
            && write.value.settings.timezone == c.timezone
            && write.value.settings.businessHours == CopyHours(c.businessHours)
            && write.value.settings.address == NonEmpty(c.address)
            && write.value.settings.phone == NonEmpty(c.phone)
            && write.value.settings.logoUrl == NonEmpty(c.logoUrl))
  {
    var token := BearerToken(authorization);
    if token.None? {
      return ErrorReply(401, "Não autenticado."), None;
    }
    var decoded := verify(token.value);
    if decoded.Rejected? {
      return ErrorReply(401, decoded.message), None;
    }

    var c := Clean(body);
    if c.tenantId == [] || c.name == [] || c.slug == [] || c.timezone == [] {
      return ErrorReply(400, "Dados incompletos."), None;
    }
    if !IsValidSlug(c.slug) {
      return ErrorReply(400, "Slug inválido."), None;
    }
    if c.tenantId !in tenants {
      return ErrorReply(404, "Tenant não encontrado."), None;
    }
    var tenant := tenants[c.tenantId];
    if tenant.ownerUid.None? || tenant.ownerUid.value == [] || tenant.ownerUid.value != decoded.uid {
      return ErrorReply(403, "Sem permissão."), None;
    }
    if HasSlugConflict(tenants, c.slug, c.tenantId) {
      return ErrorReply(409, "Slug já está em uso."), None;
    }

    var settings := Settings(c.timezone, CopyHours(c.businessHours), None, None, None);
    if c.address != [] {
      settings := settings.(address := Some(c.address));
    }
    if c.phone != [] {
      settings := settings.(phone := Some(c.phone));
    }
    if c.logoUrl != [] {
      settings := settings.(logoUrl := Some(c.logoUrl));
    }
    return OkReply, Some(TenantWrite(c.name, c.slug, true, settings, now));
  }

  // ---------------------------------------------------------------------------
  // Slug uniqueness across tenants
  // ---------------------------------------------------------------------------

  /** No two tenants hold the same slug. */
  predicate UniqueSlugs(tenants: map<string, TenantRecord>) {
    forall a, b :: a in tenants && b in tenants && a != b && tenants[a].slug.Some? ==> tenants[a].slug != tenants[b].slug
  }

  /** `tenantRef.set(..., { merge: true })` on the fields this model tracks. */
  function ApplyWrite(tenants: map<string, TenantRecord>, tenantId: string, w: TenantWrite): (r: map<string, TenantRecord>)
    requires tenantId in tenants
    ensures r.Keys == tenants.Keys
    ensures r[tenantId].slug == Some(w.slug) && r[tenantId].ownerUid == tenants[tenantId].ownerUid
    ensures forall id :: id in tenants && id != tenantId ==> r[id] == tenants[id]
  {
    tenants[tenantId := tenants[tenantId].(slug := Some(w.slug), onboarded := w.isOnboardingComplete, name := Some(w.name))]
  }

  /** A tenant re-saving the slug it already holds is not in conflict with itself. */
  lemma OwnSlugIsNoConflict(tenants: map<string, TenantRecord>, slug: string, tenantId: string)
    requires UniqueSlugs(tenants)
    requires tenantId in tenants && tenants[tenantId].slug == Some(slug)
    ensures !HasSlugConflict(tenants, slug, tenantId)
  {
  }

  /** The 409 check is what keeps slugs unique: a write the handler lets
      through, merged into a store with unique slugs, leaves them unique. */
  lemma WriteKeepsSlugsUnique(tenants: map<string, TenantRecord>, tenantId: string, w: TenantWrite)
    requires UniqueSlugs(tenants)
    requires tenantId in tenants
    requires !HasSlugConflict(tenants, w.slug, tenantId)
    ensures UniqueSlugs(ApplyWrite(tenants, tenantId, w))
  {
    var r := ApplyWrite(tenants, tenantId, w);
    forall a, b | a in r && b in r && a != b && r[a].slug.Some?
      ensures r[a].slug != r[b].slug
    {
      if a == tenantId {
        assert r[b] == tenants[b];
      } else if b == tenantId {
        assert r[a] == tenants[a];
      } else {
        assert r[a] == tenants[a] && r[b] == tenants[b];
      }
    }
  }

  /** Without the 409 check uniqueness can break: another tenant already holds
      the slug and the write would give it to a second one. */
  lemma ConflictWouldBreakUniqueness(tenants: map<string, TenantRecord>, tenantId: string, w: TenantWrite)
    requires tenantId in tenants
    requires HasSlugConflict(tenants, w.slug, tenantId)
    ensures !UniqueSlugs(ApplyWrite(tenants, tenantId, w))
  {
    var other :| other in tenants && tenants[other].slug == Some(w.slug) && other != tenantId;
    var r := ApplyWrite(tenants, tenantId, w);
    assert r[other].slug == r[tenantId].slug;
  }
}
