# fadeShop core, modelled in Dafny

fadeShop is a booking and management web application for barbershops. A shop
signs up for a subscription plan, completes an onboarding form (name, public
slug, opening hours) and then takes bookings from clients, who choose a barber,
a service and a free time slot.

This project models the part of the application that decides things:

- **The slot-availability calculator** (`apps/web/lib/availability.ts`). For one
  barber and one day it generates candidate start times on a fixed grid inside
  the barber's shift. It then marks each slot unavailable when the slot is
  sooner than "now + lead time", or when it overlaps an active appointment or
  an approved schedule block. Overlap is exclusive at the boundaries.
  `getOnlyAvailableSlots` keeps only the free slots. `groupSlotsByPeriod` splits
  slots into morning, afternoon and evening.
- **Onboarding.**
  - On the client: the slug normaliser, the default opening hours, the
    per-day edits of those hours and the form's submit guard.
  - On the server: the slug grammar, the Bearer header, the ordered
    validation of the request, the slug-conflict check and the settings
    record that is written.
- **Billing.**
  - The plan table and its lookup.
  - The signup page: plan-id normalisation, the selected plan and the
    password checks.
  - The Stripe webhook: the mapping from Stripe subscription statuses to
    tenant statuses, and the tenant update each event makes.
- **Small UI decisions.**
  - The booking confirmation form's phone normalisation and submit guard.
  - The admin header's title and initials.
  - The admin tab bar's active tab.
  - The barber picker's first name and avatar letter.

Time is counted in whole minutes from midnight of the target day, on the shop's
wall clock. "Now" is a parameter and is never read from a clock. Components
whose handlers update React state are classes. Each class exposes its state as
a datatype through `State()`, and each handler states the new state in terms of
the old one. A submit handler is specified by a pure `SubmitOutcome` function,
and lemmas prove what that function guarantees. A press on a disabled submit
button does nothing. The two pages that submit a real `<form>` (signup and
booking confirmation) also go through the browser's constraint validation
first: `required` inputs must be non-empty and a `type="email"` input must be
empty or hold a valid e-mail address in the sense of the HTML Living Standard,
section 4.10.5.1.5. The `FormValidation` module defines that address syntax.
The onboarding form submits from a button's click handler without a
`<form>`, so its `required` attributes stop nothing. Firestore collections are
maps. Calls to Firebase and Stripe are parameters or abstracted results.

`getAvailableSlots` has no guard against a non-positive service duration.
With a duration of zero or less, its loop never breaks early and emits a slot
at every grid point of the shift, each ending at or before its own start. The
model follows the code. It also takes the default parameter values from the
code: a 30-minute interval and a two-hour lead.

## Model

| member | source | states |
|---|---|---|
| Availability.HourOf | apps/web/lib/availability.ts:200 | the wall-clock hour of any instant is in 0..23 |
| Availability.FormatHHMM | apps/web/lib/availability.ts:122 | a slot label is always two digits, a colon and two digits |
| Availability.ParseHHMM | apps/web/lib/availability.ts:60-66 | defines the "HH:MM" parse of a working-hours bound; stated by `FormatThenParse` and `ParseThenFormat` |
| Availability.FormatThenParse | apps/web/lib/availability.ts:60-66 | reading a slot label back as "HH:MM" gives the instant's hour and minute, which name the same minute of the day |
| Availability.ParseThenFormat | apps/web/lib/availability.ts:60-66 | an in-range well-formed "HH:MM" string is exactly the label of the minute it parses to |
| Availability.GetAvailableSlots | apps/web/lib/availability.ts:80-179 | the guard, the generation loop and the marking pass return exactly `AvailableSlots(q, now)`, the function the lemmas below are about |
| Availability.AvailableSlots | apps/web/lib/availability.ts:80-179 | defines the slot list `getAvailableSlots` returns; stated by `AvailabilityDecision`, `SlotsOnShiftGrid` and `ClosedDayHasNoSlots`, and the loop of `GetAvailableSlots` is proved equal to it |
| Availability.CandidateStarts | apps/web/lib/availability.ts:109-129 | defines the start minutes the candidate loop produces; stated by `CandidateStartsOnGrid` and `CandidateStartsStop` |
| Availability.MarkSlot | apps/web/lib/availability.ts:143-178 | defines the availability decision for one candidate; stated by `AvailabilityDecision` |
| Availability.Overlaps | apps/web/lib/availability.ts:152-158 | defines `areIntervalsOverlapping` with `inclusive: false`; stated by `OverlapsIffSharedMinute` and `TouchingIntervalsDoNotOverlap` |
| Availability.GetOnlyAvailableSlots | apps/web/lib/availability.ts:184-186 | the result is the calculator's output filtered to free slots, in order, and every returned slot is bookable |
| Availability.GroupSlotsByPeriod | apps/web/lib/availability.ts:197-208 | each bucket is the input filtered to its period (hour < 12, 12 to 17, 18 and later), in input order |
| Availability.CandidateStartsOnGrid | apps/web/lib/availability.ts:109-129 | the k-th generated start is cursor + k * interval and each generated slot fits before the shift end |
| Availability.CandidateStartsStop | apps/web/lib/availability.ts:112-119 | generation stops at the first grid point whose slot would overrun the shift |
| Availability.ClosedDayHasNoSlots | apps/web/lib/availability.ts:91-101 | no rule, an inactive rule, or an end at or before the start gives an empty result |
| Availability.SlotsOnShiftGrid | apps/web/lib/availability.ts:109-129 | on an open day, slot k starts at workStart + k * interval, lies inside the shift, lasts the service duration, is labelled with its "HH:mm"; starts strictly ascend; the first grid point left out does not fit |
| Availability.AvailabilityDecision | apps/web/lib/availability.ts:143-178 | a slot is marked available exactly when it starts no sooner than now + lead and overlaps no scheduled or confirmed appointment and no approved block |
| Availability.ActiveConflictIff | apps/web/lib/availability.ts:133-135 | a slot collides with the filtered appointment list exactly when it overlaps some scheduled or confirmed appointment |
| Availability.ApprovedConflictIff | apps/web/lib/availability.ts:138-140 | a slot collides with the filtered block list exactly when it overlaps some approved block |
| Availability.OnlyActiveBookingsMatter | apps/web/lib/availability.ts:133-140 | two queries whose active appointments and approved blocks agree give the same slots |
| Availability.InactiveAppointmentIgnored | apps/web/lib/availability.ts:133-135 | a completed, no-show or canceled appointment inserted anywhere in the list changes nothing |
| Availability.UnapprovedBlockIgnored | apps/web/lib/availability.ts:138-140 | a pending or rejected block inserted anywhere in the list changes nothing |
| Availability.SlotGridIgnoresBookings | apps/web/lib/availability.ts:109-129 | apart from the flags, the slots depend only on the working hours, the duration and the interval |
| Availability.EarlierClockKeepsAvailability | apps/web/lib/availability.ts:105-106 | a slot free with the clock at a later reading is still free at an earlier one |
| Availability.ShorterLeadKeepsAvailability | apps/web/lib/availability.ts:146-149 | lowering the lead time never takes a free slot away |
| Availability.OverlapsIffSharedMinute | apps/web/lib/availability.ts:152-158 | for proper intervals, the exclusive overlap test holds exactly when the intervals share a minute |
| Availability.TouchingIntervalsDoNotOverlap | apps/web/lib/availability.ts:152-158 | intervals that only touch at an end point do not overlap, in either order |
| Availability.BoundaryBookingLeavesSlotFree | apps/web/lib/availability.ts:151-162 | adding an active appointment that ends where a slot starts, or starts where it ends, leaves that slot unchanged |
| Availability.BoundaryBlockLeavesSlotFree | apps/web/lib/availability.ts:164-175 | adding an approved block that ends where a slot starts, or starts where it ends, leaves that slot unchanged |
| Availability.OneAppointmentDecision | apps/web/lib/availability.ts:151-162 | with one active appointment and no blocks, a slot late enough is free exactly when it does not overlap that appointment |
| Availability.PeriodsAreExclusive | apps/web/lib/availability.ts:200-203 | every slot belongs to exactly one period |
| Availability.PeriodPartition | apps/web/lib/availability.ts:197-208 | the three buckets together hold exactly the input slots, each as many times as it occurs |
| Availability.FreeDayScenario | apps/web/lib/availability.ts:80-179 | a free 09:00-18:00 day with 30-minute services offers 18 slots, 09:00 to 17:30, all available |
| Availability.BookedNoonScenario | apps/web/lib/availability.ts:143-178 | a confirmed 12:00-13:00 booking takes the 12:00 and 12:30 slots and leaves 11:30 and 13:00 free |
| Availability.LongServiceScenario | apps/web/lib/availability.ts:112-119 | 45-minute services on a 30-minute grid give 17 slots, the last at 17:00 ending 17:45 |
| Availability.LeadTimeScenario | apps/web/lib/availability.ts:146-149 | at 10:00 with a two-hour lead every slot before 12:00 is taken and 12:00 is free |
| OnboardingComplete.IsValidSlugIff | apps/web/app/api/onboarding/complete/route.ts:16-18 | the slug pattern accepts exactly the non-empty strings of [a-z0-9-] with no hyphen at either end and no two hyphens in a row |
| OnboardingComplete.IsValidSlug | apps/web/app/api/onboarding/complete/route.ts:16-18 | defines `isValidSlug` as an automaton; stated by `IsValidSlugIff` |
| OnboardingComplete.ValidSlugExamples | apps/web/app/api/onboarding/complete/route.ts:17 | "do-joao" and "a1" are valid slugs |
| OnboardingComplete.InvalidSlugExamples | apps/web/app/api/onboarding/complete/route.ts:17 | the empty string, edge hyphens, a double hyphen, an upper-case letter, a space and an underscore are each rejected |
| OnboardingComplete.RejectAt | apps/web/app/api/onboarding/complete/route.ts:17 | a hyphen at the end, or followed by another hyphen, makes a string invalid |
| OnboardingComplete.UpToSpace | apps/web/app/api/onboarding/complete/route.ts:8 | the first piece of a split on ' ' is the longest space-free prefix |
| OnboardingComplete.BearerTokenIff | apps/web/app/api/onboarding/complete/route.ts:6-11 | a header yields token t exactly when it reads "Bearer ", then a non-empty space-free t, then a space or nothing |
| OnboardingComplete.BearerToken | apps/web/app/api/onboarding/complete/route.ts:6-11 | defines the Bearer-token extraction; stated by `BearerTokenIff`, `AcceptedHeaderShape` and `WellFormedHeaderAccepted` |
| OnboardingComplete.AcceptedHeaderShape | apps/web/app/api/onboarding/complete/route.ts:8-9 | an accepted header starts with "Bearer " and the token, followed by a space or the end |
| OnboardingComplete.WellFormedHeaderAccepted | apps/web/app/api/onboarding/complete/route.ts:8-9 | a header of that shape is accepted and yields that token |
| OnboardingComplete.Cleaned | apps/web/app/api/onboarding/complete/route.ts:41-44 | a missing field reads as empty and a present one as its trimmed value |
| OnboardingComplete.CopyHours | apps/web/app/api/onboarding/complete/route.ts:75-80 | the stored hours have the same length and order and the same four fields per entry |
| OnboardingComplete.NonEmpty | apps/web/app/api/onboarding/complete/route.ts:82-87 | an optional setting is present exactly when its trimmed value is non-empty, and then it is that value |
| OnboardingComplete.Post | apps/web/app/api/onboarding/complete/route.ts:20-104 | 401 without a Bearer token or with a rejected token, then 400 incomplete, 400 invalid slug, 404, 403, 409, in that order; only a request passing all of them is written, with the trimmed name and slug, the copied hours and the non-empty optional settings |
| OnboardingComplete.ApplyWrite | apps/web/app/api/onboarding/complete/route.ts:89-98 | the merge sets the tenant's slug, keeps its owner and leaves every other tenant alone |
| OnboardingComplete.OwnSlugIsNoConflict | apps/web/app/api/onboarding/complete/route.ts:66-70 | a tenant re-saving the slug it holds is not in conflict |
| OnboardingComplete.WriteKeepsSlugsUnique | apps/web/app/api/onboarding/complete/route.ts:66-70 | a write that passes the conflict check keeps slugs unique across tenants |
| OnboardingComplete.ConflictWouldBreakUniqueness | apps/web/app/api/onboarding/complete/route.ts:66-70 | a write the conflict check refuses would give two tenants the same slug |
| OnboardingSetup.LowerChar | apps/web/app/onboarding/setup/setup-client.tsx:35 | ASCII capitals become lower-case letters and slug characters are kept |
| OnboardingSetup.FoldChar | apps/web/app/onboarding/setup/setup-client.tsx:36-37 | one character folds to at most one, and slug characters to themselves |
| OnboardingSetup.Fold | apps/web/app/onboarding/setup/setup-client.tsx:35-37 | folding never lengthens the text |
| OnboardingSetup.Collapse | apps/web/app/onboarding/setup/setup-client.tsx:38 | the result has only slug characters and no two hyphens in a row, and keeps a leading letter or digit |
| OnboardingSetup.StripHyphens | apps/web/app/onboarding/setup/setup-client.tsx:39 | on collapsed text the result is a well-formed slug |
| OnboardingSetup.Slugify | apps/web/app/onboarding/setup/setup-client.tsx:32-40 | the result has only [a-z0-9-], no hyphen at either end and no two hyphens in a row |
| OnboardingSetup.SlugifyIsValidSlug | apps/web/app/onboarding/setup/setup-client.tsx:32-40 | every non-empty result passes the server's slug pattern |
| OnboardingSetup.SlugifyFixesWellFormed | apps/web/app/onboarding/setup/setup-client.tsx:32-40 | a string already of the slug shape is left unchanged |
| OnboardingSetup.SlugifyIdempotent | apps/web/app/onboarding/setup/setup-client.tsx:32-40 | normalising twice is normalising once |
| OnboardingSetup.SlugifyFixedPoints | apps/web/app/onboarding/setup/setup-client.tsx:32-40 | the strings left unchanged are exactly the empty string and the valid slugs |
| OnboardingSetup.TrimKeepsSlug | apps/web/app/onboarding/setup/setup-client.tsx:34 | trimming leaves a string of slug characters unchanged |
| OnboardingSetup.FoldKeepsSlug | apps/web/app/onboarding/setup/setup-client.tsx:35-37 | lower-casing and accent removal leave a string of slug characters unchanged |
| OnboardingSetup.CollapseKeepsSlug | apps/web/app/onboarding/setup/setup-client.tsx:38 | run collapsing leaves slug characters without double hyphens unchanged |
| OnboardingSetup.SlugifyExample | apps/web/app/onboarding/setup/setup-client.tsx:32-40 | " É Bar " becomes "e-bar" |
| OnboardingSetup.FoldExample | apps/web/app/onboarding/setup/setup-client.tsx:35-37 | "É Bar" folds to "e bar" |
| OnboardingSetup.CollapseEBar | apps/web/app/onboarding/setup/setup-client.tsx:38 | the inner space of "e bar" becomes one hyphen |
| OnboardingSetup.DefaultBusinessHoursShape | apps/web/app/onboarding/setup/setup-client.tsx:42-52 | seven entries for days 0..6 in order, only Sunday closed, every day from 09:00, Saturday to 14:00 and the others to 18:00 |
| OnboardingSetup.DefaultBusinessHours | apps/web/app/onboarding/setup/setup-client.tsx:42-52 | defines `DEFAULT_BUSINESS_HOURS`; stated by `DefaultBusinessHoursShape` |
| OnboardingSetup.UpdateDay | apps/web/app/onboarding/setup/setup-client.tsx:189-235 | same length; entries of the chosen day are updated and every other entry is unchanged |
| OnboardingSetup.ToggleDay | apps/web/app/onboarding/setup/setup-client.tsx:189-195 | only the open flag of the chosen day flips; times and other days stay |
| OnboardingSetup.SetStartTime | apps/web/app/onboarding/setup/setup-client.tsx:209-216 | only the opening time of the chosen day changes |
| OnboardingSetup.SetEndTime | apps/web/app/onboarding/setup/setup-client.tsx:228-235 | only the closing time of the chosen day changes |
| OnboardingSetup.ToggleDayTwice | apps/web/app/onboarding/setup/setup-client.tsx:189-195 | pressing a day button twice restores the hours |
| OnboardingSetup.SetStartTimeLastWins | apps/web/app/onboarding/setup/setup-client.tsx:209-216 | the last opening time typed for a day is the one kept |
| OnboardingSetup.EditsOfDifferentDaysCommute | apps/web/app/onboarding/setup/setup-client.tsx:209-235 | edits of two different days can be made in either order |
| OnboardingSetup.OpenSundayExample | apps/web/app/onboarding/setup/setup-client.tsx:189-195 | opening Sunday on the default hours leaves every day open |
| OnboardingSetup.TrimmedOrNull | apps/web/app/onboarding/setup/setup-client.tsx:286-288 | an optional field is sent as null exactly when it is blank, and trimmed otherwise |
| OnboardingSetup.SubmitErrorMeaning | apps/web/app/onboarding/setup/setup-client.tsx:259-271 | the form refuses exactly a blank name, an empty normalised slug or no signed-in user; what it lets through has a slug the server accepts |
| OnboardingSetup.SubmitError | apps/web/app/onboarding/setup/setup-client.tsx:259-271 | defines the handler's checks in order; stated by `SubmitErrorMeaning` and `BlankFieldsReportedFirst` |
| OnboardingSetup.BlankFieldsReportedFirst | apps/web/app/onboarding/setup/setup-client.tsx:262-265 | blank fields are reported before a missing user |
| OnboardingSetup.SubmitOutcomeChangesFlags | apps/web/app/onboarding/setup/setup-client.tsx:258-273 | a submit changes only the submitting flag and the error |
| OnboardingSetup.SubmitOutcomeMeaning | apps/web/app/onboarding/setup/setup-client.tsx:257-292 | a press while a request is pending (the button is disabled) changes nothing; a request goes out exactly when none is pending, with a non-blank name, a non-empty slug and a signed-in user; it carries "Bearer " and the token, the trimmed name and a valid slug, and marks the form submitting; otherwise an error shows |
| OnboardingSetup.SubmitOutcome | apps/web/app/onboarding/setup/setup-client.tsx:257-292 | defines what a press does to the form and which request leaves; stated by `SubmitOutcomeMeaning`, `SubmitOutcomeChangesFlags` and `SentRequestPassesServerChecks` |
| OnboardingSetup.SetupForm.constructor | apps/web/app/onboarding/setup/setup-client.tsx:56-64 | the form opens with "Minha Barbearia", empty fields, São Paulo time, the default hours and no error |
| OnboardingSetup.SetupForm.EditName | apps/web/app/onboarding/setup/setup-client.tsx:95-99 | the name is set, and copied into the slug only while the slug is blank |
| OnboardingSetup.SetupForm.EditSlug | apps/web/app/onboarding/setup/setup-client.tsx:110 | only the slug changes |
| OnboardingSetup.SetupForm.EditPhone | apps/web/app/onboarding/setup/setup-client.tsx:126 | only the phone changes |
| OnboardingSetup.SetupForm.EditTimezone | apps/web/app/onboarding/setup/setup-client.tsx:136 | only the timezone changes |
| OnboardingSetup.SetupForm.EditAddress | apps/web/app/onboarding/setup/setup-client.tsx:151 | only the address changes |
| OnboardingSetup.SetupForm.EditLogoUrl | apps/web/app/onboarding/setup/setup-client.tsx:162 | only the logo URL changes |
| OnboardingSetup.SetupForm.PressDay | apps/web/app/onboarding/setup/setup-client.tsx:189-195 | only the hours change, by toggling that day |
| OnboardingSetup.SetupForm.EditStartTime | apps/web/app/onboarding/setup/setup-client.tsx:209-216 | only the hours change, by that day's new opening time; the input is disabled while the day is inactive (:217) |
| OnboardingSetup.SetupForm.EditEndTime | apps/web/app/onboarding/setup/setup-client.tsx:228-235 | only the hours change, by that day's new closing time; the input is disabled while the day is inactive (:236) |
| OnboardingSetup.SetupForm.Submit | apps/web/app/onboarding/setup/setup-client.tsx:257-292 | the new state and the request are those of `SubmitOutcome`; a press while submitting leaves the form as it was and sends nothing |
| OnboardingSetup.SetupForm.ReceiveReply | apps/web/app/onboarding/setup/setup-client.tsx:294-302 | a success leaves the form as it is; a failure shows the server's error or the fixed message and enables the button again |
| OnboardingSetup.SubmittedSlugAndNameAccepted | apps/web/app/onboarding/setup/setup-client.tsx:282-291 | the name and slug the form sends survive the server's trimming, are non-empty and pass its slug pattern |
| OnboardingSetup.OptionalFieldRoundTrip | apps/web/app/onboarding/setup/setup-client.tsx:286-288 | the client's "trim or null" and the server's "non-empty after trim" agree on every optional field |
| OnboardingSetup.SubmittedTokenAccepted | apps/web/app/onboarding/setup/setup-client.tsx:280 | the header the form builds yields its token back on the server |
| OnboardingSetup.SentRequestPassesServerChecks | apps/web/app/onboarding/setup/setup-client.tsx:276-291 | a request the form sends is read by the server with its name and slug unchanged and a valid slug, its optional fields as sent, and counts as complete exactly when the tenant id and timezone are not blank |
| StripeWebhook.MapStripeSubStatusCases | apps/web/app/api/webhooks/stripe/route.ts:7-14 | each tenant status comes from exactly its listed Stripe statuses; 'unpaid' joins 'past_due' and every unknown status gives 'paused' |
| StripeWebhook.MapStripeSubStatus | apps/web/app/api/webhooks/stripe/route.ts:7-14 | defines `mapStripeSubStatus`; stated by `MapStripeSubStatusCases` and `MapStripeSubStatusIdempotent` |
| StripeWebhook.MapStripeSubStatusIdempotent | apps/web/app/api/webhooks/stripe/route.ts:8-12 | every tenant status, written out, maps back to itself |
| StripeWebhook.Coalesce | apps/web/app/api/webhooks/stripe/route.ts:61 | `??` falls through only on a missing value, not on an empty string |
| StripeWebhook.InvoiceFields | apps/web/app/api/webhooks/stripe/route.ts:123-126 | an invoice event writes only the status and the time |
| StripeWebhook.PlanIdWrittenOnlyWhenPresent | apps/web/app/api/webhooks/stripe/route.ts:77 | the plan id is written exactly when the event carries a non-empty one, and nothing else is changed |
| StripeWebhook.CheckoutPlanIdSource | apps/web/app/api/webhooks/stripe/route.ts:68 | a checkout takes the subscription's plan id when it has one, even an empty one, and the session's otherwise |
| StripeWebhook.InvoiceStatuses | apps/web/app/api/webhooks/stripe/route.ts:114-142 | a failed payment writes 'past_due' and a paid invoice writes 'active' |
| StripeWebhook.MergeInto | apps/web/app/api/webhooks/stripe/route.ts:79-82 | a merge-write creates the document when missing and touches no other document id |
| StripeWebhook.MergeKeepsOtherFields | apps/web/app/api/webhooks/stripe/route.ts:79-82 | the written fields take their new values and every other field and document is kept |
| StripeWebhook.MissingPlanIdKeepsPlan | apps/web/app/api/webhooks/stripe/route.ts:106-111 | an update without a plan id leaves the tenant's plan as it was |
| StripeWebhook.RedeliveryIsHarmless | apps/web/app/api/webhooks/stripe/route.ts:79-82 | merging one update twice leaves what merging it once leaves (a redelivered event carries a new `updatedAt`, so it is a different update) |
| StripeWebhook.CheckoutTarget | apps/web/app/api/webhooks/stripe/route.ts:57-64 | a checkout writes only in subscription mode with a subscription, on the metadata tenant id, else on the client reference id; an empty metadata id blocks the fallback |
| StripeWebhook.TenantStore.FindTenantIdBySubscriptionId | apps/web/app/api/webhooks/stripe/route.ts:16-24 | the id found holds the subscription, and none is found only when no tenant holds it |
| StripeWebhook.TenantStore.SetMerge | apps/web/app/api/webhooks/stripe/route.ts:79-82 | the collection becomes the merge of the update into that document |
| StripeWebhook.HandleWebhook | apps/web/app/api/webhooks/stripe/route.ts:26-147 | 500 without a secret, 400 for a bad signature, 200 otherwise; a verified event makes at most one write, the one its type allows, and the collection changes by that write only |
| StripeWebhook.UpdateSubscription | apps/web/app/api/webhooks/stripe/route.ts:85-112 | the status, period end, time and any plan id are merged into the tenant holding the subscription, or nothing is written when none holds it |
| StripeWebhook.MarkInvoice | apps/web/app/api/webhooks/stripe/route.ts:114-142 | the new status and time are merged into the tenant holding the subscription, or nothing is written |
| StripePlans.Plans | apps/web/lib/stripe.ts:17-42 | every entry is filed under its own id |
| StripePlans.GetPlan | apps/web/lib/stripe.ts:44-49 | a found plan is the table entry whose key is the requested string |
| StripePlans.GetPlanFindsEveryKey | apps/web/lib/stripe.ts:44-47 | every plan key finds its own entry |
| StripePlans.GetPlanNullIffUnknown | apps/web/lib/stripe.ts:44-49 | the lookup is null exactly for strings that are no plan key |
| StripePlans.PlanKeyInjective | apps/web/lib/stripe.ts:17-42 | distinct tiers have distinct keys |
| StripePlans.HigherTierCostsMoreAndAllowsMore | apps/web/lib/stripe.ts:21-40 | a higher tier costs strictly more per month and allows at least as many barbers |
| StripePlans.OnlyEliteIsUnlimited | apps/web/lib/stripe.ts:24-40 | only the Elite tier has no barber limit |
| Signup.NormalizePlanId | apps/web/app/signup/page.tsx:45-49 | the result is Starter exactly for 'starter' and Elite exactly for 'elite'; anything else, missing included, gives Pro |
| Signup.NormalizePlanIdIdempotent | apps/web/app/signup/page.tsx:45-49 | normalising the key of a normalised id gives the same id |
| Signup.NormalizePlanIdOfKey | apps/web/app/signup/page.tsx:46-48 | every plan's own key normalises to that plan |
| Signup.NormalizedPlanIsKnownToServer | apps/web/app/signup/page.tsx:45-49 | the plan id the page sends is always one the server's plan lookup finds |
| Signup.PlanCards | apps/web/app/signup/page.tsx:17-43 | the page shows three plan cards |
| Signup.FindCard | apps/web/app/signup/page.tsx:63 | the index found is the first card with that id, and none is found only when no card has it |
| Signup.SelectedPlanIsChosenPlan | apps/web/app/signup/page.tsx:62-65 | every id has a card, so the selection is always the chosen plan and the fallback is never used |
| Signup.CheckSignupMeaning | apps/web/app/signup/page.tsx:155-164 | the handler goes on exactly with a non-blank e-mail and a password of at least 6 characters equal to its confirmation; blank input returns silently, and a short password is reported before a mismatch |
| Signup.CheckSignup | apps/web/app/signup/page.tsx:155-164 | defines the handler's checks in order; stated by `CheckSignupMeaning` |
| Signup.SubmitOutcomeMeaning | apps/web/app/signup/page.tsx:151-243 | a press while a request is pending (the button is disabled) or while the browser refuses the form changes nothing; a request leaves exactly when none is pending, the e-mail is a valid address and the password has at least 6 characters and matches its confirmation; it carries the e-mail as typed and the chosen plan and marks the form submitting; the typed fields never change |
| Signup.SubmitOutcome | apps/web/app/signup/page.tsx:151-243 | defines what a press does to the page, including the disabled button and the browser's validation; stated by `SubmitOutcomeMeaning` |
| Signup.BrowserAccepts | apps/web/app/signup/page.tsx:199-231 | defines the browser's validation of the `required` and `type="email"` inputs; stated by `SubmitOutcomeMeaning` and `BrowserPreemptsSilentReturn` |
| Signup.BrowserPreemptsSilentReturn | apps/web/app/signup/page.tsx:155-156 | once the browser accepts the form, the handler's silent return for a blank e-mail or empty password cannot happen |
| Signup.BareWordEmailSendsNothing | apps/web/app/signup/page.tsx:201 | the e-mail "abc" with matching six-character passwords sends nothing and leaves the page as it was |
| Signup.SignupForm.constructor | apps/web/app/signup/page.tsx:53-60 | the page opens on the normalised plan parameter with empty fields and no error |
| Signup.SignupForm.ChoosePlan | apps/web/app/signup/page.tsx:100 | only the plan changes |
| Signup.SignupForm.EditEmail | apps/web/app/signup/page.tsx:203 | only the e-mail changes |
| Signup.SignupForm.EditPassword | apps/web/app/signup/page.tsx:215 | only the password changes |
| Signup.SignupForm.EditConfirmation | apps/web/app/signup/page.tsx:227 | only the confirmation changes |
| Signup.SignupForm.Submit | apps/web/app/signup/page.tsx:151-243 | the new state and the request are those of `SubmitOutcome`; a press while submitting or while the browser refuses the form leaves the page as it was and sends nothing |
| Signup.SignupForm.ReceiveFailure | apps/web/app/signup/page.tsx:184-193 | a failure shows its message and enables the button again |
| BookingConfirm.NormalizePhone | apps/web/components/booking/confirm-form.tsx:44 | the normalised phone has only digits and is no longer than the input |
| BookingConfirm.DigitsAreKept | apps/web/components/booking/confirm-form.tsx:44 | a digits-only phone is its own normal form |
| BookingConfirm.NormalizePhoneIdempotent | apps/web/components/booking/confirm-form.tsx:44 | normalising twice is normalising once |
| BookingConfirm.NormalizePhoneKeepsDigits | apps/web/components/booking/confirm-form.tsx:44 | a character is in the result exactly when it is a digit of the input |
| BookingConfirm.EmptyPhoneIsInvalid | apps/web/components/booking/confirm-form.tsx:114 | the empty-phone test of the guard is covered by the validity test |
| BookingConfirm.OptionalEmailMeaning | apps/web/components/booking/confirm-form.tsx:119 | the e-mail is left out exactly when it is blank, and is sent trimmed otherwise |
| BookingConfirm.ConfirmPayloadMeaning | apps/web/components/booking/confirm-form.tsx:111-121 | the booking is confirmed exactly with a non-blank name and at least ten phone digits; it carries the trimmed name, the digits only and the optional e-mail |
| BookingConfirm.ConfirmPayload | apps/web/components/booking/confirm-form.tsx:111-121 | defines the handler's guard and payload; stated by `ConfirmPayloadMeaning` |
| BookingConfirm.IsPhoneValid | apps/web/components/booking/confirm-form.tsx:44-45 | defines `isPhoneValid`; stated by `EmptyPhoneIsInvalid` and `ConfirmPayloadMeaning` |
| BookingConfirm.BrowserAccepts | apps/web/components/booking/confirm-form.tsx:128-176 | defines the browser's validation of the `required` name and phone and the optional `type="email"` input; stated by `SubmitOutcomeMeaning` |
| BookingConfirm.SubmitOutcome | apps/web/components/booking/confirm-form.tsx:110-187 | defines what a press does given the `isSubmitting` prop and the browser's validation; stated by `SubmitOutcomeMeaning` |
| BookingConfirm.SubmitOutcomeMeaning | apps/web/components/booking/confirm-form.tsx:110-187 | `onConfirm` is called exactly when no booking is in flight, the name has text, the phone is valid and the e-mail is empty or a valid address; the e-mail goes out as typed or not at all; the attempt is recorded exactly when the handler runs; a disabled or refused press changes nothing |
| BookingConfirm.BareWordEmailBlocksConfirm | apps/web/components/booking/confirm-form.tsx:168-176 | a valid name and phone with the e-mail "abc" send nothing and leave the form as it was, with no field message |
| BookingConfirm.ConfirmForm.constructor | apps/web/components/booking/confirm-form.tsx:39-42 | the form opens empty and untried |
| BookingConfirm.ConfirmForm.EditName | apps/web/components/booking/confirm-form.tsx:131 | only the name changes |
| BookingConfirm.ConfirmForm.EditPhone | apps/web/components/booking/confirm-form.tsx:149 | only the phone changes |
| BookingConfirm.ConfirmForm.EditEmail | apps/web/components/booking/confirm-form.tsx:171 | only the e-mail changes |
| BookingConfirm.ConfirmForm.Submit | apps/web/components/booking/confirm-form.tsx:110-187 | the new state and the payload are those of `SubmitOutcome` for the given `isSubmitting`; a disabled or refused press changes nothing; when the handler runs, nothing is sent exactly when a field message shows |
| MobileHeader.SectionTitles | apps/web/components/admin/mobile-header.tsx:10-14 | each of the five section prefixes gives its own title |
| MobileHeader.SettingsIsNoOtherSection | apps/web/components/admin/mobile-header.tsx:10-16 | a settings path matches none of the five earlier prefixes |
| MobileHeader.SettingsTitles | apps/web/components/admin/mobile-header.tsx:15-16 | billing pages are 'Assinatura' and every other settings page is 'Configurações' |
| MobileHeader.BillingIsUnderSettings | apps/web/components/admin/mobile-header.tsx:15-16 | every billing path is a settings path, so the order of the two tests matters |
| MobileHeader.DefaultTitle | apps/web/components/admin/mobile-header.tsx:9-18 | 'Painel' is the title exactly of the paths outside every known section |
| MobileHeader.GetTitle | apps/web/components/admin/mobile-header.tsx:9-18 | defines `getTitle`; stated by `SectionTitles`, `SettingsTitles` and `DefaultTitle` |
| MobileHeader.InitialsSource | apps/web/components/admin/mobile-header.tsx:25-27 | the source of the initials is never empty |
| MobileHeader.FirstTwo | apps/web/components/admin/mobile-header.tsx:28 | the first two characters, or the whole text when shorter |
| MobileHeader.Initials | apps/web/components/admin/mobile-header.tsx:24-29 | the initials are one or two characters with no lower-case ASCII letter |
| MobileHeader.InitialsOrigin | apps/web/components/admin/mobile-header.tsx:24-29 | the initials come from the trimmed name when it has text, else from the trimmed e-mail, else they are 'FS' |
| MobileBottomNav.Tabs | apps/web/components/admin/mobile-bottom-nav.tsx:24-34 | the bar has four tabs |
| MobileBottomNav.MenuIsActiveElsewhere | apps/web/components/admin/mobile-bottom-nav.tsx:36-41 | the menu tab is active exactly outside the three linked sections |
| MobileBottomNav.GetActiveTab | apps/web/components/admin/mobile-bottom-nav.tsx:36-41 | defines `getActiveTab`; stated by `MenuIsActiveElsewhere`, `ExactlyOneTabActive` and `ActiveTabMatchesTitle` |
| MobileBottomNav.ExactlyOneTabActive | apps/web/components/admin/mobile-bottom-nav.tsx:36-41 | exactly one tab carries the active id |
| MobileBottomNav.IndexOf | apps/web/components/admin/mobile-bottom-nav.tsx:24-34 | every tab id has its position in the bar |
| MobileBottomNav.ActiveTabLinksToCurrentSection | apps/web/components/admin/mobile-bottom-nav.tsx:37-39 | an active linked tab links to a prefix of the current path |
| MobileBottomNav.ActiveTabMatchesTitle | apps/web/components/admin/mobile-bottom-nav.tsx:36-41 | when a linked tab is active, the header's title is that tab's label |
| BarberSelector.FirstToken | apps/web/components/booking/barber-selector.tsx:23 | the first token is a whitespace-free prefix ended by whitespace or by the end |
| BarberSelector.BlankNameUnchanged | apps/web/components/booking/barber-selector.tsx:22 | a blank name is shown unchanged |
| BarberSelector.FirstNameIsFirstWord | apps/web/components/booking/barber-selector.tsx:20-24 | a name with text gives a non-empty, whitespace-free prefix of the trimmed name, ended by whitespace or by the end |
| BarberSelector.GetFirstName | apps/web/components/booking/barber-selector.tsx:20-24 | defines `getFirstName`; stated by `BlankNameUnchanged`, `FirstNameIsFirstWord` and `GetFirstNameIdempotent` |
| BarberSelector.OneWordNameIsTrimmedName | apps/web/components/booking/barber-selector.tsx:23 | a one-word name is shown whole, trimmed |
| BarberSelector.GetFirstNameIdempotent | apps/web/components/booking/barber-selector.tsx:20-24 | a first name is its own first name |
| BarberSelector.AvatarInitial | apps/web/components/booking/barber-selector.tsx:80 | the avatar letter is empty exactly for an empty name and is at most one character |
| BarberSelector.AvatarShowsFirstLetter | apps/web/components/booking/barber-selector.tsx:80 | for a name with text the avatar shows its first non-blank character, upper-cased |
| FormValidation.IsValidEmailAddress | apps/web/app/signup/page.tsx:201 | defines the HTML standard's valid e-mail address that a `type="email"` input requires; stated by `ValidEmailIsTrimmed` and the examples |
| FormValidation.ValidEmailIsTrimmed | apps/web/app/signup/page.tsx:155 | a valid e-mail address holds no whitespace, so the handler's `trim` leaves it unchanged |
| FormValidation.ValidEmailExample | apps/web/components/booking/confirm-form.tsx:172 | "ana@example.com" is a valid e-mail address |
| FormValidation.BareWordIsNoEmail | apps/web/components/booking/confirm-form.tsx:172 | "abc" is not a valid e-mail address |
| FormValidation.EmptySideIsNoEmail | apps/web/components/booking/confirm-form.tsx:172 | "ana@" and "@example.com" are not valid e-mail addresses |

## Left out

- Time zones and the clock: `toZonedTime(new Date(), timezone)` and the host-local `Date` setters depend on the time-zone database, daylight saving and the real clock. All instants are minutes on one wall-clock line, and "now" is a parameter. Stored instants (appointment and block bounds, "now") are taken to be whole minutes; seconds and milliseconds are not modelled, so a booking that ends a few seconds into a slot's first minute is not distinguished from one that ends on the minute.
- Availability.GetAvailableSlots: the lead time is a whole number of hours; a fractional `leadHours` (the source accepts any number and multiplies it by 60) is not modelled.
- Availability.GetAvailableSlots: requires a positive slot interval. With any other interval the loop never ends, so there is nothing to return.
- Availability.ParseHHMM: covers only well-formed "HH:MM" strings. `Number` on other text gives NaN, which has no meaningful result, so working hours are already-parsed hour and minute numbers.
- The note that the interval should divide the service duration is not modelled, because the code does not enforce it.
- OnboardingSetup.Slugify: lower-cases ASCII and the Latin-1 capitals, and folds accents only on Latin-1 letters and the combining marks U+0300 to U+036F. Full Unicode case mapping and NFD decomposition are out of scope, so other non-ASCII letters are treated as separators.
- MobileHeader.Initials: upper-cases ASCII letters only, and `slice` counts characters rather than UTF-16 code units.
- BarberSelector.AvatarInitial: upper-cases ASCII letters only.
- Signup.CheckSignupMeaning: password length is counted in characters rather than UTF-16 code units.
- Firestore and Firebase are abstracted away. Collections are maps. `verifyIdToken` is a function parameter. The account creation on the signup page and its outcome arrive through `ReceiveFailure`.
- OnboardingComplete.Post: an exception from Firestore, answered with 401 and its message, is not modelled. Only the rejection of the ID token takes that path.
- OnboardingSetup.SetupForm.ReceiveReply: models the reply that is not OK. An exception from `getIdToken` or `fetch` shows its own message, or 'Erro ao concluir setup.' for a non-Error value, and is not modelled.
- Stripe calls are abstracted away. Signature verification becomes an already-parsed event, `None` when the signature is invalid. The subscription returned by `subscriptions.retrieve` is a parameter.
- StripeWebhook.HandleWebhook: assumes every write succeeds. In the source an exception during processing still answers 200, possibly with no write made.
- StripeWebhook.TenantStore.FindTenantIdBySubscriptionId: returns some tenant holding the subscription. Which one Firestore's `limit(1)` picks when several do is not modelled.
- JSON fields of an unexpected type, such as a number where a string is expected, are not modelled: every field is a string or missing.
- `formatPlanPrice` and the price and date labels are not modelled, because they come from `Intl.NumberFormat` and date-fns locale formatting.
- Rendering, routing and navigation after success (`router.push`, `window.location`) are not modelled. Neither is the tab bar's menu-sheet flag, which only drives rendering.
- Browser form validation: the value of each input is taken to be the string the component state holds, as already sanitised by the browser. Stripping newlines, and trimming an e-mail input's value, happen before that string reaches the state and are not modelled. Neither are the browser's validation messages.
- Reserving a slot is not part of this code. The calculator only advises which slots are free.
