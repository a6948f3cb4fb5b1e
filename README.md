# Counterspell Taiwan site: the components that decide something

The site is a single promotional page built from React components. Almost all
of it is markup and styling; five components carry decision or state logic,
and this project models those five and proves what they promise:

- **FAQ toggle table** (`QASection`): a map from question index to an
  "expanded" flag. A click copies the map with one key negated; the render
  reads a missing key as collapsed and shows the answer and the `active` class
  exactly for expanded questions.
- **Auto-hiding header** (`AutoHideHeader`): a class whose fields are the
  component's React state (`show`, `lastScrollY`, `isScrolling`,
  `scrollTimeout`) plus the browser timers it has scheduled. Its event methods
  are the throttled scroll sample, the raw scroll event, the idle timer firing
  and the unmount cleanup. Each method is specified by a pure step function
  on `NavState`. Lemmas over whole event sequences show that at most one idle
  timer is ever pending, that no timer survives teardown, and that
  `lastScrollY` is always the latest sample.
- **Registration button** (`Registration`): the click handler's choice between
  no action, scrolling to the registration section, navigating to the
  configured path, and the TypeError the code raises when the registration ref
  object itself is missing. Also the paragraph text with its fallback.
- **Navigation dots** (`NavDots`): one dot per section, in order, keyed by id;
  a dot is active iff its id is the active section; its click hands over that
  section's ref; its spring targets depend on `isActive` alone.
- **Contact links** (`ContactInfo`): the e-mail address and Instagram handle
  resolved from an optional `contactInfo` record with JavaScript `?.` and `||`
  (a missing record, a missing field and the empty string all fall back), and
  the `mailto:` and profile links built from the same resolved values.

`JsValues` holds the small vocabulary these share: an optional field value and
the truthiness `||` tests.

Effects are returned as values, never performed: `handleScrollTo(ref)` is the
ref a dot's click yields, `window.location.href = …` is `Navigate(url)`.
The content object, the `sectionRefs` prop and the active-section id are
parameters.

### Behaviour of the code worth noting

- With a mounted registration section, every `#` path scrolls to it, whatever follows the `#`.
- A `#` path whose registration section is not mounted navigates to the path itself.
- A `#` path throws a TypeError when `sectionRefs.registration` is undefined or null, or when `sectionRefs` itself is.
- The lodash throttle is never cancelled on unmount. The model treats every event after unmount as having no effect, because React drops state updates to an unmounted component.

## Model

| member | source | states |
|---|---|---|
| JsValues.Or | src/components/ContactInfo.js:52 | `v \|\| d` on an optional string is the value when present and non-empty, the fallback otherwise; never empty when the fallback is not |
| JsValues.StartsWith | src/components/Registration.js:75 | `s.startsWith(prefix)` holds iff the prefix is no longer than `s` and agrees with `s` character by character |
| ContactInfo.EmailField | src/components/ContactInfo.js:52 | `contactInfo?.email`: missing when the record is missing, otherwise the record's field |
| ContactInfo.InstagramField | src/components/ContactInfo.js:64 | `contactInfo?.instagram`: missing when the record is missing, otherwise the record's field |
| ContactInfo.EmailLabel | src/components/ContactInfo.js:52 | the displayed e-mail is `contactInfo.email` when the record and a non-empty field exist, otherwise `contact@hackathon2024.com`; never empty |
| ContactInfo.MailtoHref | src/components/ContactInfo.js:50 | the href starts with `mailto:` and the rest is exactly the displayed address |
| ContactInfo.Handle | src/components/ContactInfo.js:60-64 | the handle is `contactInfo.instagram` when present and non-empty, otherwise `hackathon2024`; never empty |
| ContactInfo.ProfileHref | src/components/ContactInfo.js:60 | the link starts with `https://instagram.com/` and the rest is exactly the resolved handle |
| ContactInfo.ProfileLabel | src/components/ContactInfo.js:64 | the label is `@` followed by exactly the resolved handle |
| ContactInfo.LinksAgreeWithLabels | src/components/ContactInfo.js:50-64 | each link is its prefix followed by exactly the text shown beside it, so the two never disagree |
| ContactInfo.MissingContactUsesDefaults | src/components/ContactInfo.js:50-64 | a wholly missing `contactInfo` gives both defaults, their `mailto:`/profile links and `@hackathon2024`, with no failure |
| ContactInfo.EmptyFieldsFallBack | src/components/ContactInfo.js:52-64 | an empty-string field falls back exactly like a missing one |
| ContactInfo.ShippedContactResolves | src/components/content.js:113-116 | with the shipped content the address is `counterspell@hackit.tw` and the handle `hackit.tw`, with their links and label |
| Registration.OnClick | src/components/Registration.js:72-83 | falsy path: nothing; non-`#` path: navigate to it; `#` path: scroll if the ref is mounted, navigate to the path if the ref exists but is unmounted, throw if the ref object is missing |
| Registration.RegistrationText | src/components/Registration.js:65-66 | the body text is `participantInfo.registrationProcess` when present and non-empty, otherwise `報名流程資訊尚未更新。`, also when `participantInfo` is missing |
| Registration.ScrollIff | src/components/Registration.js:74-78 | a click scrolls iff the path is non-empty, starts with `#` and the registration ref is mounted (both directions) |
| Registration.NavigateIsVerbatim | src/components/Registration.js:79-80 | a navigation target is exactly the configured path, non-empty, and is a `#` path only when the section is unmounted |
| Registration.FragmentIgnored | src/components/Registration.js:75-78 | with a mounted registration section, every `#` path scrolls to it, whatever follows the `#` |
| Registration.ThrowsOnlyForAnchor | src/components/Registration.js:75-76 | the TypeError happens iff the path is a non-empty `#` path and `sectionRefs.registration` is undefined |
| Registration.RoutingScenarios | src/components/Registration.js:72-83 | `#registration` with a mounted section scrolls; an https URL navigates to itself; an empty or missing path does nothing |
| Registration.ShippedButtonNavigates | src/components/content.js:117 | with the shipped `registrationPath` the button navigates to the sign-up URL |
| NavDots.Dots | src/components/NavDots.js:81-92 | one dot per section in section order, keyed by its id, active iff its id equals `activeSection`, targeting its ref, with its name as tooltip |
| NavDots.IsActive | src/components/NavDots.js:84 | `activeSection === id` holds iff the active section is set and equals the id; an unset active section matches no id |
| NavDots.Click | src/components/NavDots.js:89-91 | the click of the k-th rendered dot hands `handleScrollTo` the k-th section's ref |
| NavDots.StyleOf | src/components/NavDots.js:54-70 | active: `scale(1.5)`, opacity 1, `#feca57`; inactive: `scale(1)`, opacity 0.7, `white` |
| NavDots.ClickTargetsItsSection | src/components/NavDots.js:89-91 | a dot's click target does not depend on which section is active, and with distinct refs it is no other section's ref |
| NavDots.SomeDotActiveIff | src/components/NavDots.js:84 | some dot is active iff the active section is set and some section has that id; none is active otherwise |
| NavDots.AtMostOneActive | src/components/NavDots.js:84 | with unique ids, two active dots are the same dot |
| NavDots.KeysAreUnique | src/components/NavDots.js:87 | unique section ids give unique React keys |
| NavDots.StyleDistinguishesActive | src/components/NavDots.js:68-70 | the active and inactive targets differ, the active dot being more opaque |
| QASection.Expanded | src/components/QASection.js:98 | the reading `activeQAIndices[index]`: an absent key reads as collapsed, a present key reads as its flag |
| QASection.Toggled | src/components/QASection.js:82-85 | the updated map has the old keys plus `i`, holds the negated reading at `i`, and keeps every other entry |
| QASection.QAState.constructor | src/components/QASection.js:79 | the state starts as the empty map, so every question reads as collapsed |
| QASection.QAState.Toggle | src/components/QASection.js:81-86 | the new state is the old one toggled at `i`; the reading at `i` flips and every other reading is unchanged |
| QASection.ToggleFlipsOnlyItsIndex | src/components/QASection.js:84 | toggling `i` flips the reading at `i` and leaves the reading at every other index |
| QASection.ToggleTwiceRestores | src/components/QASection.js:84 | toggling twice restores every reading; the key then holds its old reading explicitly |
| QASection.ToggleAllParity | src/components/QASection.js:81-86 | after any click sequence, an index reads as expanded iff its initial reading was flipped an odd number of times |
| QASection.DistinctClicksExpandAll | src/components/QASection.js:81-86 | from the initial state, clicking distinct questions leaves all of them expanded at once (no auto-collapse) |
| QASection.Items | src/components/QASection.js:94 | `content.qa \|\| []`: the entries when `qa` is present, none when it is missing |
| QASection.RenderOne | src/components/QASection.js:95-104 | one entry keyed by its index: class `active` and the answer shown when expanded, class `""` and no answer when collapsed |
| QASection.Render | src/components/QASection.js:94-103 | the items are `content.qa` in order (none when `qa` is missing), each keyed by its index; class `active` iff expanded and `""` otherwise; answer shown iff expanded, and then it is that item's answer |
| QASection.InitialRenderCollapsed | src/components/QASection.js:79-103 | before any click no question is marked active and no answer is shown |
| AutoHideHeader.ClearSlot | src/components/Header.js:102-104 | `if (scrollTimeout) clearTimeout(scrollTimeout)` removes the slot's timer from the pending ones, leaves them alone when the slot is empty, and under the invariant leaves no idle timer pending |
| AutoHideHeader.OnSample | src/components/Header.js:80-86 | a sample shows the nav iff it is above the last offset (equal or below hides), records the offset, and keeps every other field and the timer table |
| AutoHideHeader.OnRawScroll | src/components/Header.js:100-109 | a raw scroll sets `isScrolling`, clears the previous timer and arms a fresh one, which is then the only pending timer |
| AutoHideHeader.OnTimerFire | src/components/Header.js:105-108 | a pending idle timer firing sets `show` and clears `isScrolling` whatever the last direction; only the fired timer leaves the table; a cleared timer does nothing |
| AutoHideHeader.OnTeardown | src/components/Header.js:113-117 | unmounting clears the slot's timer and keeps every other field |
| AutoHideHeader.NavTransform | src/components/Header.js:22 | the nav is at `translateY(0)` iff `show`, at `translateY(-100%)` iff not |
| AutoHideHeader.Step | src/components/Header.js:78-118 | each event runs its handler; every event keeps the timer invariant, only teardown unmounts |
| AutoHideHeader.Run | src/components/Header.js:78-118 | a sequence of events applies the handlers in order, keeping the timer invariant and never remounting |
| AutoHideHeader.StepPreservesInv | src/components/Header.js:100-117 | every event keeps the pending timers within the one `scrollTimeout` names, and none after unmount |
| AutoHideHeader.RunPreservesInv | src/components/Header.js:100-117 | after any event sequence from a valid state at most one idle timer is pending |
| AutoHideHeader.UnmountedIsInert | src/components/Header.js:112-117 | once unmounted, no sequence of events schedules a timer or changes what is shown |
| AutoHideHeader.NoTimerSurvivesTeardown | src/components/Header.js:112-117 | after a teardown, whatever events come before or after, no timer is pending |
| AutoHideHeader.LastScrollYIsLastSample | src/components/Header.js:86 | while mounted, `lastScrollY` is always the offset of the latest sample (the initial offset if none) |
| AutoHideHeader.DirectionScenario | src/components/Header.js:80-108 | from the initial state: a sample at the same or a larger offset hides, a smaller one shows, an idle timer shows again, a second raw scroll replaces the first timer |
| AutoHideHeader.Header.constructor | src/components/Header.js:73-76 | `show` true, `lastScrollY` 0, `isScrolling` false, no timer slot, no pending timer |
| AutoHideHeader.Header.ThrottledSample | src/components/Header.js:78-88 | the fields change exactly as `OnSample` says and the invariant is kept |
| AutoHideHeader.Header.RawScroll | src/components/Header.js:100-110 | the fields change exactly as `OnRawScroll` says; while mounted the only pending timer is the one just armed |
| AutoHideHeader.Header.TimerFire | src/components/Header.js:105-108 | the fields change exactly as `OnTimerFire` says and the invariant is kept |
| AutoHideHeader.Header.Teardown | src/components/Header.js:112-118 | the fields change exactly as `OnTeardown` says; no timer is pending afterwards |
| AutoHideHeader.Header.Transform | src/components/Header.js:22 | the rendered transform is `translateY(0)` iff `show`, and `translateY(-100%)` iff not |

## Left out

- Real time in the header: the 200 ms lodash throttle and the 300 ms idle delay. A throttled sample and a timer firing are abstract events, so the model says nothing about which raw events a throttle window keeps.
- Fractional scroll offsets: `window.scrollY` is a floating-point number and is modelled as an integer. Only `<` between two offsets matters.
- React re-render timing: each `handleScroll` closure captures the `scrollTimeout` of the render that installed it. If several raw scroll events arrived before a re-render, each could arm a timer without clearing its siblings. The model assumes every handler sees the latest slot. Likewise `controlNavbar` is re-created on each render, so a trailing throttled call from an older render compares `window.scrollY` with that render's stale `lastScrollY`; `OnSample` assumes the comparison is always with the latest `lastScrollY`.
- Events after unmount: a trailing throttled call that fires after unmount is modelled as having no effect. The code never cancels it; React discards its state updates.
- Listener registration (`addEventListener`/`removeEventListener`) is modelled only as the `mounted` flag.
- The scrolling and navigation themselves (`handleScrollTo`, `window.location.href`, smooth scrolling) are effects in the browser. The model returns them as values.
- The spring animation of the dots (`config.wobbly`), hover styles and all other styling are cosmetic or floating-point animation.
- SectionAnimation.js and the copy in Goal.js are thin wrappers over intersection-observer and spring libraries, which are not part of this model.
- Home.js is not modelled. Its parallax and layout code is DOM geometry and floating-point springs.
- Hero opacity and the active-section computation are not modelled. The code that computes them is not part of this model; NavDots receives `activeSection` as a parameter.
- App.js routing, the content objects (used only through their shipped values cited above) and the presentational components hold no further logic.
