# Themed Medusa storefront and admin: a Dafny model

This project models the small pieces of logic inside a themed Medusa shop: the admin
theme definition and the CSS custom properties it generates, the admin theme API, and a
number of storefront components. The storefront parts are the colour-theme context, the
toggle hook, the testimonial carousel, the contact and newsletter forms, the header, the
filter radio group, the product showcase, the team section and the animated-text helpers.
It also covers the order-placed email template.

Each source file becomes one module:

| module | source file | form |
|---|---|---|
| `AdminThemeConfig` | backend/src/admin/theme-config.ts | functions over a constant configuration |
| `AdminThemeRoute` | backend/src/api/admin/theme/route.ts | request → `(status, body)` functions |
| `ThemeContext` | storefront/src/lib/theme-context.tsx | class `ThemeContextProvider` updating its theme and the document's `data-theme` |
| `UseToggleState` | storefront/src/hooks/use-toggle-state.ts | class `ToggleState` with `Open`/`Close`/`Toggle` |
| `TestimonialsCarousel` | storefront/src/components/testimonials-carousel.tsx | class `Carousel` plus pure window, star and initials functions |
| `ContactSection` | storefront/src/components/contact-section.tsx | class `ContactForm` driven by a transition function |
| `NewsletterSection` | storefront/src/components/newsletter-section.tsx | class `NewsletterForm` driven by a transition function |
| `ProductInsights` | backend/src/admin/widgets/themed-product-insights.tsx | functions over a conversion-rate bucket |
| `Header` | storefront/src/components/header.tsx | class `HeaderComponent` plus the pure highlight and icon rules |
| `FilterRadioGroup` | storefront/src/modules/common/components/filter-radio-group/index.tsx | a row per item |
| `ProductShowcase` | storefront/src/components/sections/product-showcase.tsx | list selection and fallbacks |
| `TeamSection` | storefront/src/components/team-section.tsx | social buttons and initials over the constant team |
| `AnimatedText` | storefront/src/components/animated-text.tsx | class lookup, offsets, typewriter spans |
| `OrderPlacedEmail` | backend/src/modules/email-notifications/templates/themed-order-placed.tsx | row parity, line totals, formatter input, link |

Helper modules:

- `Wrappers` has `Option` and `Result`.
- `Flags` counts true flags, which gives the "exactly one" and "at most one" facts.
- `Names` models JavaScript's `split(' ')`, `map(n => n[0])` and `join('')` on names.
- `SubmitStatus` has the `idle | loading | success | error` status both forms declare.
- `HtmlInput` has what the browser does with the forms' native inputs, following the HTML
  Living Standard (section 4.10.5.1, the states of the `type` attribute, and section 4.10.21.2,
  constraint validation). A `type="text"` value has its line breaks removed. A `type="email"`
  value also loses leading and trailing ASCII whitespace. A form without `novalidate` is not
  submitted while an email input holds a non-empty value that is not a valid email address.

JavaScript behaviour the model writes out explicitly:

- `undefined` is `None`. A missing query parameter or property is `None`, and so is an
  index into a `{light, dark}` object with any other string.
- `||` falls back on every falsy value: `""`, `0`, `false`, `null`, `undefined`. An empty
  array or object counts as truthy (`AdminThemeRoute.Truthy`).
- `split(' ')` keeps empty pieces. `n[0]` of an empty piece is `undefined`, which `join('')`
  writes as nothing.
- `JSON.stringify` leaves out properties whose value is `undefined` (`AdminThemeRoute.WireVariables`).
- `amount / 100 || 99` shows 99 when the amount is missing or zero.

Timers are explicit events: the carousel's `Tick`, and the forms' `TimerFired`. The clock
(`new Date().toISOString()`) is a `now` parameter. The browser's side of the forms is part of
each form's transition function (`ContactSection.Deliver`, `NewsletterSection.Deliver`). A
change event carries the sanitized value. A submit is not fired while the email is non-empty
and invalid. The disabled inputs and buttons make changes and submits have no effect while
the status is `loading`. As a consequence, the handlers' own "valid email address" messages
can never be shown: every address without an `@` is already stopped by the browser.

## Model

| member | source | states |
|---|---|---|
| AdminThemeConfig.GenerateThemeVariables | backend/src/admin/theme-config.ts:55-70 | Whatever the mode, the result has the same eleven variable names as keys. |
| AdminThemeConfig.ByMode | backend/src/admin/theme-config.ts:60-66 | `c[mode]` on a `{light, dark}` colour: `light` gives the light colour, `dark` the dark one, and any other mode no value. |
| AdminThemeConfig.FixedVariables | backend/src/admin/theme-config.ts:59-69 | `--admin-primary` is `primary[500]` (`#d04f99`) in every mode. Radius and font family are the configuration's values. |
| AdminThemeConfig.RolesFollowMode | backend/src/admin/theme-config.ts:55-66 | Each of the seven role variables is that role's colour looked up by the effective mode, where an omitted mode means `light`. |
| AdminThemeConfig.ElevenVariables | backend/src/admin/theme-config.ts:58-70 | The generated table has exactly 11 entries for every mode. |
| AdminThemeConfig.KeyListIsVariableKeys | backend/src/admin/theme-config.ts:59-69 | The eleven names written by the generator are exactly the role keys plus the four mode-independent keys. |
| AdminThemeConfig.KeyListDistinct | backend/src/admin/theme-config.ts:59-69 | The eleven variable names are pairwise different. |
| AdminThemeConfig.DistinctKeys | backend/src/admin/theme-config.ts:58-70 | A list of pairwise different names gives a set of the same size. |
| AdminThemeConfig.KnownModeReadsRoles | backend/src/admin/theme-config.ts:60-66 | For `light` and `dark`, every role variable is that role's light or dark colour. |
| AdminThemeConfig.ShadowFollowsLight | backend/src/admin/theme-config.ts:68 | The shadow is `shadows.card` exactly when the effective mode is `light`. Every other string, recognised or not, gets `shadows.cardDark`. |
| AdminThemeConfig.UnknownModeLeavesRolesUndefined | backend/src/admin/theme-config.ts:60-66 | A mode other than `light` or `dark` leaves all seven role variables undefined. |
| AdminThemeConfig.FixedVariablesIgnoreMode | backend/src/admin/theme-config.ts:59-69 | Primary, radius and font family are the same for any two modes. |
| AdminThemeConfig.DefaultModeIsLight | backend/src/admin/theme-config.ts:55 | Calling with no mode gives the same table as `light`. |
| AdminThemeConfig.VariablesDetermineMode | backend/src/admin/theme-config.ts:58-70 | The light and dark tables are equal only when the modes are equal. |
| AdminThemeRoute.HandleGet | backend/src/api/admin/theme/route.ts:4-22 | GET always gives 200 with the fixed configuration, version `1.0.0` and the given timestamp. A missing or empty `mode` becomes `light`; any other mode is echoed unchanged. The variables are the generator's output for that mode. |
| AdminThemeRoute.HandlePost | backend/src/api/admin/theme/route.ts:31-55 | POST gives 400 exactly when `userId` or `themePreferences` is falsy, with `Missing required fields` and the required list `["userId","themePreferences"]`. Otherwise it gives 200 with the fixed message and the given `userId`. `mode` is the given mode if truthy, else `light`. `colorScheme` is the given scheme if truthy, else `bubblegum`. `updatedAt` is the timestamp. |
| AdminThemeRoute.RequestedMode | backend/src/api/admin/theme/route.ts:7 | The mode is never empty: a set, non-empty query mode is used as given, and a missing or empty one becomes `light`. |
| AdminThemeRoute.HandleAll | backend/src/api/admin/theme/route.ts:4-55 | Serving a sequence of requests gives one response per request. |
| AdminThemeRoute.HandleAllPointwise | backend/src/api/admin/theme/route.ts:4-55 | The i-th response of a sequence is the answer to the i-th request served on its own, so neither handler keeps anything between requests. |
| AdminThemeRoute.GetIgnoresHistory | backend/src/api/admin/theme/route.ts:7-44 | A GET served after any history of requests, POSTs included, is answered as if nothing came before it. |
| AdminThemeRoute.WireVariables | backend/src/api/admin/theme/route.ts:22 | The serialised variables hold exactly the defined entries, with their values. |
| AdminThemeRoute.KnownModeSendsAllVariables | backend/src/api/admin/theme/route.ts:7-22 | For `light` and `dark` the response carries all eleven variables. |
| AdminThemeRoute.UnknownModeSendsFixedVariables | backend/src/api/admin/theme/route.ts:7-22 | For any other non-empty mode the response echoes the mode but carries only the four mode-independent variables. |
| ThemeContext.UseThemeContext | storefront/src/lib/theme-context.tsx:15-21 | Outside a provider the result is the error `useThemeContext must be used within a ThemeContextProvider`. Inside one it is the provider's value. |
| ThemeContext.SetColorTheme | storefront/src/lib/theme-context.tsx:28-32 | The state becomes the given theme and the attribute its name, so state and attribute agree. |
| ThemeContext.AvailableThemesComplete | storefront/src/lib/theme-context.tsx:24-26 | `availableThemes` has five pairwise different entries, contains the initial `bubblegum`, and lists every theme. |
| ThemeContext.NamesDistinct | storefront/src/lib/theme-context.tsx:28-32 | Two themes write the same attribute value only if they are the same theme. |
| ThemeContext.SetColorThemeIdempotent | storefront/src/lib/theme-context.tsx:28-32 | Setting a theme twice is the same as setting it once. |
| ThemeContext.SetAllFromInitial | storefront/src/lib/theme-context.tsx:24-32 | From mount, the attribute stays unset until the first call. After any non-empty sequence of calls, state and attribute both hold the last theme, so the two always agree once the attribute is written. |
| ThemeContext.DocumentElement.constructor | storefront/src/lib/theme-context.tsx:31 | A fresh document element has no `data-theme` attribute. |
| ThemeContext.ThemeContextProvider.constructor | storefront/src/lib/theme-context.tsx:24-26 | Mounting gives `bubblegum` and the fixed theme list, and does not touch the attribute. |
| ThemeContext.ThemeContextProvider.Value | storefront/src/lib/theme-context.tsx:35-40 | The context value carries the current theme and the theme list. |
| ThemeContext.ThemeContextProvider.HandleSetColorTheme | storefront/src/lib/theme-context.tsx:28-32 | Both the in-memory theme and the document's `data-theme` become the given theme. The theme list is a constant field and cannot change. |
| UseToggleState.StepLaws | storefront/src/hooks/use-toggle-state.ts:13-23 | `open` gives true and `close` gives false, each idempotent. Two `toggle`s cancel. |
| UseToggleState.RunConcat | storefront/src/hooks/use-toggle-state.ts:13-23 | Running two call sequences one after the other is running their concatenation. |
| UseToggleState.Step | storefront/src/hooks/use-toggle-state.ts:13-23 | `open` gives true, `close` gives false, and `toggle` gives the opposite of the state. |
| UseToggleState.RunToggles | storefront/src/hooks/use-toggle-state.ts:21-23 | An even number of toggles keeps the state, and an odd number negates it. |
| UseToggleState.LastSetDecides | storefront/src/hooks/use-toggle-state.ts:13-23 | After the last `open` or `close` and any toggles after it, the state depends only on that call and the toggle count, not on earlier history or the initial state. |
| UseToggleState.ToggleState.constructor | storefront/src/hooks/use-toggle-state.ts:10-11 | The initial state is `defaultState`, or `false` when it is omitted. |
| UseToggleState.ToggleState.Open | storefront/src/hooks/use-toggle-state.ts:13-15 | The state becomes true. |
| UseToggleState.ToggleState.Close | storefront/src/hooks/use-toggle-state.ts:17-19 | The state becomes false. |
| UseToggleState.ToggleState.Toggle | storefront/src/hooks/use-toggle-state.ts:21-23 | The state is negated. |
| TestimonialsCarousel.NextIndex | storefront/src/components/testimonials-carousel.tsx:71-74 | A tick goes to 0 exactly when `prev + 1` reaches `len - cardsToShow + 1`, and otherwise to `prev + 1`. It keeps the index in `[0, len - cardsToShow]`. |
| TestimonialsCarousel.TicksFromZero | storefront/src/components/testimonials-carousel.tsx:66-74 | After k ticks from 0 the index is `k mod 3`. |
| TestimonialsCarousel.TickPeriod | storefront/src/components/testimonials-carousel.tsx:72-73 | Exactly three ticks from 0 return to 0, and no fewer do. |
| TestimonialsCarousel.Visible | storefront/src/components/testimonials-carousel.tsx:80 | The window is the testimonials from the index on, in order, at most four of them. An index in range gives exactly four. |
| TestimonialsCarousel.Indicators | storefront/src/components/testimonials-carousel.tsx:164-169 | There are `len - cardsToShow + 1` indicators, and indicator i is active exactly when i is the index. |
| TestimonialsCarousel.OneActiveIndicator | storefront/src/components/testimonials-carousel.tsx:164-169 | With the index in range, exactly one indicator is active. |
| TestimonialsCarousel.RenderStars | storefront/src/components/testimonials-carousel.tsx:82-92 | There are five stars, and star i is filled exactly when `i < rating`. |
| TestimonialsCarousel.FilledStars | storefront/src/components/testimonials-carousel.tsx:83-90 | A rating from 0 to 5 fills exactly that many stars. |
| TestimonialsCarousel.FallbackOfFullName | storefront/src/components/testimonials-carousel.tsx:143 | A testimonial named "first last" shows the initials of first and last. |
| TestimonialsCarousel.AvatarFallbacks | storefront/src/components/testimonials-carousel.tsx:143 | Every testimonial's avatar fallback has two characters. |
| TestimonialsCarousel.AvatarFallbacksLow | storefront/src/components/testimonials-carousel.tsx:143 | The same for the first three testimonials. |
| TestimonialsCarousel.AvatarFallbacksHigh | storefront/src/components/testimonials-carousel.tsx:143 | The same for the last three testimonials. |
| TestimonialsCarousel.Carousel.constructor | storefront/src/components/testimonials-carousel.tsx:66 | The index starts at 0, in range. |
| TestimonialsCarousel.Carousel.Tick | storefront/src/components/testimonials-carousel.tsx:70-75 | The interval callback applies the wrap rule and keeps the range invariant. |
| TestimonialsCarousel.Carousel.SelectGroup | storefront/src/components/testimonials-carousel.tsx:167 | Clicking indicator i sets the index to i and keeps the range invariant. |
| TestimonialsCarousel.Carousel.VisibleCards | storefront/src/components/testimonials-carousel.tsx:80 | While the invariant holds, the window is exactly four consecutive testimonials starting at the index. |
| Names.SplitOnSpace | storefront/src/components/team-section.tsx:120 | `split(' ')` gives one more piece than there are spaces, and no piece contains a space. |
| Names.FirstChars | storefront/src/components/team-section.tsx:120 | `map(n => n[0]).join('')` yields at most one character per piece. |
| Names.JoinSplit | storefront/src/components/team-section.tsx:120 | Joining the pieces of `split(' ')` with spaces gives back the name. |
| Names.SplitNoSpace | storefront/src/components/team-section.tsx:120 | A string without spaces splits into itself alone. |
| Names.SplitAfterWord | storefront/src/components/team-section.tsx:120 | Splitting "word rest" gives the word followed by the pieces of the rest. |
| Names.SplitJoin | storefront/src/components/team-section.tsx:120 | Splitting space-free pieces joined by spaces gives back the pieces. |
| Names.FirstCharsOfWords | storefront/src/components/team-section.tsx:120 | For non-empty pieces, the initials are their first characters in order. |
| Names.InitialsOfWords | storefront/src/components/testimonials-carousel.tsx:143 | The initials of words joined by single spaces are the words' first characters in order. |
| Names.InitialsOfFullName | storefront/src/components/testimonials-carousel.tsx:143 | The initials of "first last" are the first characters of first and last. |
| ContactSection.WithField | storefront/src/components/contact-section.tsx:34-38 | The named field takes the value, and every other field is unchanged. |
| ContactSection.HandleInputChange | storefront/src/components/contact-section.tsx:34-38 | An input change sets only the named field, and status and message are unchanged. |
| ContactSection.HandleSubmit | storefront/src/components/contact-section.tsx:41-57 | The form is never changed. The status is `error` exactly when a required field (name, email, message) is empty or the email has no `@`. The required-field message takes precedence. Otherwise the status becomes `loading`. |
| ContactSection.Complete | storefront/src/components/contact-section.tsx:60-64 | The timer clears all four fields and sets `success` with the thank-you message. |
| ContactSection.Deliver | storefront/src/components/contact-section.tsx:117-187 | While loading only the timer has an effect. An invalid non-empty email makes a submit do nothing. The timer completes exactly a pending submission. A change outside loading sets the field to the browser's sanitized value. An accepted submit (not loading, the email allowed by the browser) is exactly the handler's outcome: the missing-fields error, or loading. |
| ContactSection.RequiredCheckBeforeEmailCheck | storefront/src/components/contact-section.tsx:45-55 | With a required field empty and a bad email, the message is the required-fields one. |
| ContactSection.LoneAtSignAccepted | storefront/src/components/contact-section.tsx:51 | The handler's check lets the email `"@"` through, but the browser never submits it: a submit leaves that state unchanged. |
| ContactSection.SubmitStartsLoadingIff | storefront/src/components/contact-section.tsx:41-57 | Outside `loading`, a submit starts loading exactly when name, email and message are non-empty and the email is a valid address. |
| ContactSection.LoadingIgnoresInput | storefront/src/components/contact-section.tsx:130-187 | While loading, input changes and submits have no effect. |
| ContactSection.SubmitThenComplete | storefront/src/components/contact-section.tsx:57-64 | A submit of a filled form with a valid address, followed by the timer, ends in `success` with the thank-you message and all four fields empty. |
| ContactSection.DeliverKeepsConsistent | storefront/src/components/contact-section.tsx:22-64 | Every event keeps the state consistent: the email is a sanitized value, an error shows the missing-fields message, and `loading` carries filled required fields and a valid address. |
| ContactSection.ChangeKeepsConsistent | storefront/src/components/contact-section.tsx:34-38 | A change event keeps the state consistent. |
| ContactSection.SubmitKeepsConsistent | storefront/src/components/contact-section.tsx:41-57 | A submit keeps the state consistent. |
| ContactSection.EmptyEmailSanitized | storefront/src/components/contact-section.tsx:142 | The empty email is its own sanitized value. |
| ContactSection.RunKeepsConsistent | storefront/src/components/contact-section.tsx:22-64 | Every event sequence from the initial state keeps it consistent. |
| ContactSection.ConsistentHidesInvalidEmailMessage | storefront/src/components/contact-section.tsx:51-55 | A state whose message fits its status does not show the invalid-email message. |
| ContactSection.InvalidEmailMessageNeverShown | storefront/src/components/contact-section.tsx:51-55 | After any sequence of events from the initial state, the message is not `Please enter a valid email address.` |
| ContactSection.ContactForm.constructor | storefront/src/components/contact-section.tsx:22-29 | Initially all four fields are empty, the status is `idle` and the message is empty. |
| ContactSection.ContactForm.OnInputChange | storefront/src/components/contact-section.tsx:34-38 | The new state is the transition function applied to a change event. |
| ContactSection.ContactForm.OnSubmit | storefront/src/components/contact-section.tsx:41-57 | The new state is the transition function applied to a submit. |
| ContactSection.ContactForm.OnTimerFired | storefront/src/components/contact-section.tsx:60-64 | The new state is the transition function applied to the timer. |
| NewsletterSection.HandleSubmit | storefront/src/components/newsletter-section.tsx:14-29 | The email is never changed. The status is `error` exactly when the email has no `@`. An empty email gives `Please enter your email address`, and a non-empty one without `@` gives `Please enter a valid email address`. Otherwise the status becomes `loading`. |
| NewsletterSection.Complete | storefront/src/components/newsletter-section.tsx:32-36 | The timer clears the email and sets `success` with the thank-you message. |
| NewsletterSection.Deliver | storefront/src/components/newsletter-section.tsx:60-75 | While loading only the timer has an effect. An invalid non-empty email makes a submit do nothing. The timer completes exactly a pending submission. An accepted submit (not loading, the email allowed by the browser) is exactly the handler's outcome: the missing-email error, or loading. A change outside loading stores the sanitized value and nothing else. |
| NewsletterSection.MessagesDifferByPeriod | storefront/src/components/newsletter-section.tsx:25 | The invalid-email message is the contact form's one without its final period. |
| NewsletterSection.ChangeSetsEmail | storefront/src/components/newsletter-section.tsx:63-68 | Outside loading, typing sets the email to the browser's sanitized value and changes nothing else. |
| NewsletterSection.LoadingIgnoresInput | storefront/src/components/newsletter-section.tsx:68-75 | While loading, typing and submitting have no effect. |
| NewsletterSection.SubmitStartsLoadingIff | storefront/src/components/newsletter-section.tsx:14-29 | Outside `loading`, a submit starts loading exactly when the email is a valid address. |
| NewsletterSection.SubmitOfValidAddressLoads | storefront/src/components/newsletter-section.tsx:29 | Outside `loading`, a submit of a valid address sets `loading` and changes nothing else. |
| NewsletterSection.RunSnoc | storefront/src/components/newsletter-section.tsx:10-36 | Delivering one more event after a run is running the longer sequence. |
| NewsletterSection.RunChangeSubmitTimer | storefront/src/components/newsletter-section.tsx:10-36 | A change, a submit and the timer are delivered in that order. |
| NewsletterSection.SubscribeFlow | storefront/src/components/newsletter-section.tsx:29-36 | Typing text whose sanitized value is a valid address, submitting, and the timer end in `success` with the fixed message and an empty email. |
| NewsletterSection.DeliverKeepsConsistent | storefront/src/components/newsletter-section.tsx:10-36 | Every event keeps the state consistent: the email is a sanitized value, an error shows the missing-email message, and `loading` carries a valid address. |
| NewsletterSection.EmptyEmailSanitized | storefront/src/components/newsletter-section.tsx:64 | The empty email is its own sanitized value. |
| NewsletterSection.RunKeepsConsistent | storefront/src/components/newsletter-section.tsx:10-36 | Every event sequence from the initial state keeps it consistent. |
| NewsletterSection.MessageFitsHidesInvalidEmailMessage | storefront/src/components/newsletter-section.tsx:24-25 | A state whose message fits its status does not show the invalid-email message. |
| NewsletterSection.InvalidEmailMessageNeverShown | storefront/src/components/newsletter-section.tsx:24-25 | After any sequence of events from the initial state, the message is not `Please enter a valid email address`. |
| NewsletterSection.NewsletterForm.constructor | storefront/src/components/newsletter-section.tsx:10-12 | Initially the email is empty, the status is `idle` and the message is empty. |
| NewsletterSection.NewsletterForm.OnChange | storefront/src/components/newsletter-section.tsx:63-68 | The new state is the transition function applied to a change event. |
| NewsletterSection.NewsletterForm.OnSubmit | storefront/src/components/newsletter-section.tsx:14-29 | The new state is the transition function applied to a submit. |
| NewsletterSection.NewsletterForm.OnTimerFired | storefront/src/components/newsletter-section.tsx:32-36 | The new state is the transition function applied to the timer. |
| HtmlInput.StripNewlines | storefront/src/components/contact-section.tsx:126 | The text input's value has no line feed or carriage return. It keeps every other character, and a value without line breaks is unchanged. |
| HtmlInput.TrimStart | storefront/src/components/newsletter-section.tsx:64 | The result is a suffix of the value, everything removed is whitespace, and it is empty or starts with a non-blank. |
| HtmlInput.TrimEnd | storefront/src/components/newsletter-section.tsx:64 | The result is a prefix of the value, everything removed is whitespace, and it is empty or ends with a non-blank. |
| HtmlInput.EmailValue | storefront/src/components/newsletter-section.tsx:64-67 | The email input's value has no line break and neither starts nor ends with whitespace. |
| HtmlInput.EmailValueIdempotent | storefront/src/components/newsletter-section.tsx:64-67 | Sanitizing an email value twice gives what sanitizing it once gives. |
| HtmlInput.ValidAddressHasAt | storefront/src/components/newsletter-section.tsx:22-26 | A valid email address contains an `@`, so it passes the handlers' own check. |
| HtmlInput.LabelHasNoWhitespace | storefront/src/components/newsletter-section.tsx:64 | A domain label contains no whitespace. |
| HtmlInput.DomainHasNoWhitespace | storefront/src/components/newsletter-section.tsx:64 | A domain contains no whitespace. |
| HtmlInput.LocalCharIsNotWhitespace | storefront/src/components/newsletter-section.tsx:64 | A character allowed before the `@` is not whitespace. |
| HtmlInput.ValidAddressHasNoWhitespace | storefront/src/components/newsletter-section.tsx:64 | A valid email address contains no whitespace. |
| HtmlInput.UnspacedValueIsSanitized | storefront/src/components/newsletter-section.tsx:64-67 | A value without whitespace is left unchanged by sanitization. |
| HtmlInput.ValidAddressIsSanitized | storefront/src/components/newsletter-section.tsx:64-67 | A valid email address is left unchanged by sanitization. |
| HtmlInput.TypeMismatchExamples | storefront/src/components/contact-section.tsx:142 | Example: the browser blocks submitting `@`, `a@` and `abc`. |
| HtmlInput.ExampleDomain | storefront/src/components/contact-section.tsx:142 | Example: `example.com` is a valid domain. |
| HtmlInput.ExampleLocalPart | storefront/src/components/contact-section.tsx:142 | Example: the characters of `user` are allowed before the `@`. |
| HtmlInput.ValidAddressExamples | storefront/src/components/contact-section.tsx:142 | Example: the empty value, `a@b` and `user@example.com` do not block submission. |
| ProductInsights.GetStatusColor | backend/src/admin/widgets/themed-product-insights.tsx:15-19 | The colour is the colour of the rate's bucket. |
| ProductInsights.GetStatusText | backend/src/admin/widgets/themed-product-insights.tsx:21-25 | The text is the text of the rate's bucket. |
| ProductInsights.StatusRanges | backend/src/admin/widgets/themed-product-insights.tsx:15-25 | A rate of at least 4 gives `#8acfd1`/`Excellent`, from 2 up to 4 gives `#fbe2a7`/`Good`, and below 2 gives `#f96f70`/`Needs Attention`. Both boundaries are inclusive. |
| ProductInsights.ColorAndTextAgree | backend/src/admin/widgets/themed-product-insights.tsx:15-25 | Two rates get the same colour exactly when they get the same text. |
| ProductInsights.BucketMonotone | backend/src/admin/widgets/themed-product-insights.tsx:15-25 | A higher rate never gets a worse bucket. |
| ProductInsights.MockIsExcellentAndTrending | backend/src/admin/widgets/themed-product-insights.tsx:11-12 | The mock rate 4.9 is `Excellent` in `#8acfd1`, and the trending badge shows. |
| Header.Highlighted | storefront/src/components/header.tsx:72-130 | There is one flag per navigation item, set exactly when the location equals the item's href. |
| Header.HrefsDistinct | storefront/src/components/header.tsx:20-25 | The four hrefs are pairwise different. |
| Header.AtMostOneHighlighted | storefront/src/components/header.tsx:20-25 | At most one item is highlighted. |
| Header.ItemLocationHighlightsItem | storefront/src/components/header.tsx:72-130 | At an item's own href, that item and only that item is highlighted. |
| Header.NextTheme | storefront/src/components/header.tsx:109 | The toggle gives `dark` exactly from `light`, and `light` from everything else. |
| Header.ToggleTwice | storefront/src/components/header.tsx:109 | Two toggles return `light` or `dark` to itself. Any other theme ends at `dark`, not at itself. |
| Header.ThemeIcon | storefront/src/components/header.tsx:112 | The Moon shows exactly when the theme is `light` (the toggle would go to `dark`); otherwise the Sun shows. |
| Header.HeaderComponent.constructor | storefront/src/components/header.tsx:28-31 | The menu starts closed and the search query empty. |
| Header.HeaderComponent.HandleSearchChange | storefront/src/components/header.tsx:33-36 | The search query becomes the input value, and nothing else changes. |
| Header.HeaderComponent.ToggleTheme | storefront/src/components/header.tsx:109 | The theme becomes the toggle of the old theme, and nothing else changes. |
| Header.HeaderComponent.SetMobileOpen | storefront/src/components/header.tsx:116 | The sheet's open handler sets the menu flag, and nothing else changes. |
| Header.HeaderComponent.ClickNavItem | storefront/src/components/header.tsx:77 | A desktop link click moves the location to the item's href, and nothing else changes. |
| Header.HeaderComponent.ClickMobileNavItem | storefront/src/components/header.tsx:134-136 | A mobile link click moves to the href and closes the menu, and nothing else changes. |
| FilterRadioGroup.Rows | storefront/src/modules/common/components/filter-radio-group/index.tsx:29-55 | Undefined items give no rows. Otherwise there is one row per item, in order, keyed by its value. A row is checked exactly when its value equals the selected one. The marker, offset class, base text class and `data-active` appear on exactly the checked rows. |
| FilterRadioGroup.CheckedFlags | storefront/src/modules/common/components/filter-radio-group/index.tsx:38 | There is one flag per row, equal to its checked state. |
| FilterRadioGroup.AtMostOneChecked | storefront/src/modules/common/components/filter-radio-group/index.tsx:38 | With distinct item values, at most one row is checked. |
| FilterRadioGroup.NoMatchNoneChecked | storefront/src/modules/common/components/filter-radio-group/index.tsx:38 | A selected value that matches no item checks no row. |
| FilterRadioGroup.SelectingItemChecksIt | storefront/src/modules/common/components/filter-radio-group/index.tsx:38 | Selecting an item's value checks that row and only it. |
| ProductShowcase.DisplayProducts | storefront/src/components/sections/product-showcase.tsx:21-50 | A missing or empty list shows the three fallback products. A non-empty list shows its first min(6, n) products in order. The result always has 1 to 6 items. |
| ProductShowcase.DisplayPrice | storefront/src/components/sections/product-showcase.tsx:133 | A missing or zero first calculated amount shows 99. Otherwise the price is the amount divided by 100. |
| ProductShowcase.Cards | storefront/src/components/sections/product-showcase.tsx:84-146 | There is one card per shown product. Each card has the image and alt fallbacks, the badge only on index 0, the price, and the `/{country}/products/{handle}` link. |
| ProductShowcase.OneFeaturedBadge | storefront/src/components/sections/product-showcase.tsx:91 | The first card has the `Featured` badge, and no other card has it. |
| ProductShowcase.ImageFallbacks | storefront/src/components/sections/product-showcase.tsx:85-86 | A missing or empty thumbnail uses the placeholder. A missing or empty title uses alt `Product`, and otherwise the title. |
| ProductShowcase.ProductHref | storefront/src/components/sections/product-showcase.tsx:136 | A card link is `/`, the country code, `/products/`, then the handle. |
| ProductShowcase.StoreHref | storefront/src/components/sections/product-showcase.tsx:151 | The single "View All Products" link below the cards is `/`, the country code, then `/store`. |
| ProductShowcase.StoreHrefIsNoProductHref | storefront/src/components/sections/product-showcase.tsx:136-151 | The store link differs from every product link of the same country. |
| ProductShowcase.ProductHrefDeterminesHandle | storefront/src/components/sections/product-showcase.tsx:136 | Within one country, different handles give different product links. |
| ProductShowcase.FallbackPrices | storefront/src/components/sections/product-showcase.tsx:133 | The fallback amounts 299, 199 and 129 display as 2.99, 1.99 and 1.29. |
| TeamSection.ButtonIf | storefront/src/components/team-section.tsx:139-174 | One social link renders at most one button. |
| TeamSection.SocialButtons | storefront/src/components/team-section.tsx:139-174 | Buttons come in the fixed order twitter, linkedin, github. Each button links to its network's address. A network gets a button exactly when its link is present and non-empty. |
| TeamSection.IdsDistinct | storefront/src/components/team-section.tsx:10-81 | The member ids used as render keys are pairwise different. |
| TeamSection.ButtonCounts | storefront/src/components/team-section.tsx:139-174 | Members 3 and 5 (no github) get two buttons, and all others get three. |
| TeamSection.InitialsOfMember | storefront/src/components/team-section.tsx:120 | A member named "first last" shows the initials of first and last. |
| TeamSection.TwoLetterInitials | storefront/src/components/team-section.tsx:120 | Every member shows two-letter initials. |
| TeamSection.TwoLetterInitialsLow | storefront/src/components/team-section.tsx:120 | The same for the first three members. |
| TeamSection.TwoLetterInitialsHigh | storefront/src/components/team-section.tsx:120 | The same for the last three members. |
| AnimatedText.GetAnimationClass | storefront/src/components/animated-text.tsx:17-27 | A known variant gives its class. The result is empty exactly for an unknown variant. |
| AnimatedText.SpanClass | storefront/src/components/animated-text.tsx:31 | The class is the animation class of the variant (default `gradient`), one space, then `className` (default empty). |
| AnimatedText.SpanClassDeterminesClassName | storefront/src/components/animated-text.tsx:31 | For one variant, equal span classes come from equal caller classes. |
| AnimatedText.DefaultSpanClass | storefront/src/components/animated-text.tsx:13-31 | With the defaults the class is `text-gradient ` (with a trailing space). An unknown variant leaves only the leading space. |
| AnimatedText.InitialOffset | storefront/src/components/animated-text.tsx:50-59 | The offset is the table entry of the direction, where an omitted direction means `up`. An unknown direction gives no offset. |
| AnimatedText.OffsetTable | storefront/src/components/animated-text.tsx:50-59 | The default is `up` (y = 30). Each direction moves along one axis by 30. `up`/`down` and `left`/`right` are opposite. |
| AnimatedText.TypewriterSpans | storefront/src/components/animated-text.tsx:99-110 | There is one span per character, keyed by its index and showing that character. |
| AnimatedText.TypewriterShowsText | storefront/src/components/animated-text.tsx:99-110 | Reading the spans in order gives back the text. |
| OrderPlacedEmail.FormatCurrencyInput | backend/src/modules/email-notifications/templates/themed-order-placed.tsx:19-24 | The formatter receives the amount divided by 100 and the currency code upper-cased character by character. |
| OrderPlacedEmail.Preview | backend/src/modules/email-notifications/templates/themed-order-placed.tsx:17 | A given preview is used, even an empty one. Only an omitted preview falls back to `Your order has been placed successfully!`. |
| OrderPlacedEmail.RowBackground | backend/src/modules/email-notifications/templates/themed-order-placed.tsx:108 | The background is `#f6e6ee` exactly at even indices, and `#ffffff` otherwise. |
| OrderPlacedEmail.ToUpper | backend/src/modules/email-notifications/templates/themed-order-placed.tsx:22 | Upper-casing keeps the length and maps each letter a–z to A–Z. |
| OrderPlacedEmail.ToUpperIdempotent | backend/src/modules/email-notifications/templates/themed-order-placed.tsx:22 | Upper-casing twice equals upper-casing once. |
| OrderPlacedEmail.OrderTotalInput | backend/src/modules/email-notifications/templates/themed-order-placed.tsx:90 | The total line passes the raw order total divided by 100 and the upper-cased currency. |
| OrderPlacedEmail.ItemBlocks | backend/src/modules/email-notifications/templates/themed-order-placed.tsx:106-146 | There is one block per item, in order, keyed by the item id. The background is `#f6e6ee` at even indices and `#ffffff` at odd ones. The formatted amount is `unit_price * quantity`, in the order's currency upper-cased. |
| OrderPlacedEmail.Block | backend/src/modules/email-notifications/templates/themed-order-placed.tsx:107-146 | A block carries its item's id, the parity background, the line total and the order's currency upper-cased. |
| OrderPlacedEmail.ItemCurrencyIsTotalCurrency | backend/src/modules/email-notifications/templates/themed-order-placed.tsx:90-146 | Every item line is formatted in the same currency as the order total line. |
| OrderPlacedEmail.BackgroundsAlternate | backend/src/modules/email-notifications/templates/themed-order-placed.tsx:108 | Neighbouring blocks never share a background. |
| OrderPlacedEmail.ConfirmationUrl | backend/src/modules/email-notifications/templates/themed-order-placed.tsx:188 | The link starts with the configured base URL, or with `http://localhost:3000` when it is unset or empty. Then comes `/order/confirmed/`, and the link ends with the display id. |
| OrderPlacedEmail.ConfirmationUrlDeterminesOrder | backend/src/modules/email-notifications/templates/themed-order-placed.tsx:188 | Under one base URL, different display ids give different links. |

## Left out

- The 500 branches of both theme handlers are not modelled. Nothing in the handlers shown has an identifiable throwing cause.
- `Intl.NumberFormat` is a library call, so the currency text is not modelled. Only the value and currency code passed to it are (`OrderPlacedEmail.FormatterInput`).
- The clock is not modelled. `new Date().toISOString()` becomes the `now` parameter of each handler.
- Real timers are not modelled. The carousel interval is the `Tick` method, and the forms' `setTimeout` completions are the `TimerFired` event. The form timer is taken to be pending exactly while the status is `loading`, so `TimerFired` outside `loading` does nothing.
- The forms do not clear the old message when they enter `loading`. The model keeps the message, as the source does.
- The typewriter delay arithmetic, framer-motion parameters, JSX markup, CSS and Tailwind class strings, and `cva`/`clx` composition are rendering details.
- `CountUpAnimation`, the dashboard stats, the static marketing sections and the base email template have no logic beyond rendering literals and library calls.
- Widget registration (`defineWidgetConfig`) and async data fetching belong to the host framework.
- `Header`: the theme provider behind `useTheme` (storefront/src/components/theme-provider) is not part of this model. Its theme is a field that `setTheme` overwrites. The wouter router is not modelled either: a link click is modelled as setting the location to the href.
- `Header.HeaderComponent.SetMobileOpen`: the sheet component that calls `onOpenChange` is a library. When it fires is left open; only its effect is modelled.
- Strings are sequences of characters, not UTF-16 code units. `n[0]` takes a whole character even where JavaScript would take half a surrogate pair.
- `AnimatedText.GetAnimationClass` and `AnimatedText.InitialOffset`: JavaScript object lookups also find inherited properties such as `constructor`. The model treats every name outside the table as absent.
- `AdminThemeConfig.ByMode`: `c[mode]` also finds properties that every object inherits, such as `constructor` or `__proto__`. The model treats every mode other than `light` and `dark` as reading nothing.
- `AdminThemeConfig.UnknownModeLeavesRolesUndefined`: holds for every mode that is not an inherited property name. For such names the source reads the inherited value instead of `undefined`.
- `AdminThemeRoute.UnknownModeSendsFixedVariables`: holds for every mode that is not an inherited property name. With `__proto__`, for example, the seven role variables are sent as `{}`.
- `ProductInsights.GetStatusColor`: rates are exact rationals. A `NaN` rate, which fails both comparisons and gets `#f96f70`, is not modelled.
- `ProductInsights.GetStatusText`: rates are exact rationals. A `NaN` rate, which fails both comparisons and gets `Needs Attention`, is not modelled.
- `ContactSection.InputValue`: the message textarea's value is taken as typed. The textarea's line-break normalisation is not modelled.
- The `Input` component (storefront/src/components/ui/input) is not part of this model. It is taken to pass `type` through to the native input, as the browser behaviour in `HtmlInput` assumes.
- `HtmlInput.IsValidEmailAddress`: addresses are checked by the standard's ASCII grammar. A browser's conversion of non-ASCII domain names before the check is not modelled, and neither is the message the browser shows when it blocks a submit.
- `TestimonialsCarousel.RenderStars`: ratings are integers. Fractional ratings are not modelled.
- `ProductShowcase.DisplayPrice`: amounts are exact rationals. `NaN` and floating-point rounding of `amount / 100` are not modelled.
- `OrderPlacedEmail.ToUpper`: only ASCII letters are upper-cased. JavaScript's `toUpperCase` also maps other scripts, which currency codes do not use.
- `OrderPlacedEmail.ItemBlocks`: prices and quantities are exact rationals, not floating point.
- `AdminThemeRoute.HandleGet`: a repeated query parameter, which makes `req.query.mode` an array, is not modelled. The mode is an optional string.
- `FilterRadioGroup.Rows`: `handleChange` is passed through to a library radio group and is not modelled.
