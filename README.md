# AquaSentinel components: a verified Dafny model

AquaSentinel is a React front end for tracking water pollution. Its decision logic sits in small
functions and state handlers inside seven components. This project models that logic in Dafny and
proves what the components promise:

- **Aqua AI chat assistant** (`assistant.dfy`, module `AIAssistant`). The keyword intent router
  lower-cases the message and tries an ordered table of substring rules. The first rule that fires
  picks the reply, and a capability summary is returned when none fires. The chat window
  (`ChatSession`) keeps an append-only transcript that opens with a greeting. It ignores blank
  input. A non-blank message appends the user turn now and the assistant's reply after a delay.
- **Pollution map** (`pollution_map.dfy`): the marker colour for a plastic density index, the
  trend icon and the water-clarity badge.
- **Community reporting hub** (`community_reporting.dfy`):
  - the record a submission inserts;
  - the form's busy, success and reset states;
  - the geolocation fill-in;
  - the category and status badges.
- **Responder directory** (`corporations.dfy`): the organization-type filter, its buttons, the
  empty-result message and the type badge.
- **AI insights** (`ai_insights.dfy`): each prediction's risk colour and icon, and which factor
  panels it shows.
- **Walkthrough** (`tutorial.dfy`): the four-step walkthrough with a stored "seen" flag, its
  progress dots and its button caption.
- **Prevention guide** (`prevention.dfy`): the single-open accordion and the colour-class lookup.

There are three shared modules:

- `Wrappers` holds `Option`.
- `Text` stands in for the JavaScript built-ins: ASCII `toLowerCase`, `includes`, the
  whitespace set of `trim`, and the `record[key] || fallback` lookup.
- `Schema` holds the store's row shapes from `src/lib/supabase.ts`.

Component state that the source changes in place is a class:

- `ChatSession`, `ReportForm`, `Walkthrough` and `CardList` are classes with `modifies` clauses.
- A `setTimeout` callback is its own method (`ReplyTimerFires`, `ResetTimerFires`,
  `CompletionTimerFires`). It may run only while such a callback is outstanding.
- Everything else is a pure function.

Three behaviours of the code are easy to misread:

- A submitted report is never rejected, and its density is never clamped. The code spreads the
  form into the row as it is.
- The reporter name falls back to "Anonymous" only when it is the empty string. A name made of
  spaces is kept, because `||` treats only `""` as false.
- "Resolved" has its own status badge entry. That entry is the same gray as the default.

## Model

| member | source | states |
|---|---|---|
| `Text.ToLowerIdempotent` | src/components/AIAssistant.tsx:29 | Lower-casing twice is lower-casing once, so an already lower-cased message is left as it is |
| `Text.ContainsIff` | src/components/AIAssistant.tsx:31 | `Contains(s, sub)` holds exactly when `sub` occurs in `s` at some index, which is what `includes` tests |
| `Text.TrimEmptyIffBlank` | src/components/AIAssistant.tsx:76 | `trim` gives `""` exactly when every character of the input is JavaScript whitespace |
| `Text.LookupOr` | src/components/CommunityReporting.tsx:90 | A record lookup with `\|\| fallback` gives the entry for a present, non-empty key, and the fallback for a missing key or an empty entry |
| `AIAssistant.FirstMatch` | src/components/AIAssistant.tsx:31-72 | The chosen rule fires and no earlier rule fires; no rule is chosen exactly when none fires |
| `AIAssistant.GenerateResponse` | src/components/AIAssistant.tsx:28-73 | Every message, including empty input and gibberish, gets a non-empty reply; the fallback summary comes back exactly when no rule fires on the lower-cased text |
| `AIAssistant.RepliesDistinct` | src/components/AIAssistant.tsx:31-72 | The seven replies are pairwise different, so the reply identifies the rule that chose it |
| `AIAssistant.RuleRows` | src/components/AIAssistant.tsx:31-70 | Each table row fires exactly when the matching `includes` test of the chain succeeds: both words for pollution/level, either word for the other five rules |
| `AIAssistant.ClassifyIsChain` | src/components/AIAssistant.tsx:31-72 | For every text, the first-match table picks the same intent as the source's if-chain |
| `AIAssistant.ResponseSelection` | src/components/AIAssistant.tsx:28-70 | Each of the six replies is returned exactly when its test succeeds on the lower-cased message and every earlier test fails |
| `AIAssistant.ReplyOf` | src/components/AIAssistant.tsx:28-73 | A message gets an intent's reply exactly when the router selects that intent |
| `AIAssistant.FallbackIff` | src/components/AIAssistant.tsx:72 | The fallback is returned exactly when "pollution" and "level" are not both present and none of the other ten keywords occurs |
| `AIAssistant.CaseInsensitive` | src/components/AIAssistant.tsx:29 | A message and its lower-cased form get the same reply |
| `AIAssistant.ComplaintPlaceholdersUnfilled` | src/components/AIAssistant.tsx:36-53 | The complaint template contains [Location], [Authority Name], [Date] and [Your Name] literally |
| `AIAssistant.LowerCasesPollutionLevel` | src/components/AIAssistant.tsx:29 | "POLLUTION LEVEL" lower-cases to "pollution level" |
| `AIAssistant.PollutionLevelPairExample` | src/components/AIAssistant.tsx:31-33 | "pollution level" selects the pollution-level rule |
| `AIAssistant.UpperCaseExample` | src/components/AIAssistant.tsx:29-33 | "POLLUTION LEVEL" and "pollution level" both get the pollution-level reply |
| `AIAssistant.PollutionLevelShadowsReporting` | src/components/AIAssistant.tsx:31-66 | "report the pollution level" contains "report" yet selects the pollution-level rule |
| `AIAssistant.ComplaintShadowsReporting` | src/components/AIAssistant.tsx:35-66 | "submit a complaint" contains "submit" yet selects the complaint rule |
| `AIAssistant.SubstringExample` | src/components/AIAssistant.tsx:60 | "already" contains "read", so matching by substring selects the metrics rule |
| `AIAssistant.GibberishFallsBack` | src/components/AIAssistant.tsx:31-72 | "asdkjhasd" selects no rule |
| `AIAssistant.EmptyFallsBack` | src/components/AIAssistant.tsx:31-72 | The empty message selects no rule |
| `AIAssistant.PollutionAloneFallsBack` | src/components/AIAssistant.tsx:31-33 | "pollution" without "level" selects no rule |
| `AIAssistant.LevelAloneFallsBack` | src/components/AIAssistant.tsx:31-33 | "level" without "pollution" selects no rule |
| `AIAssistant.GreetingConsistent` | src/components/AIAssistant.tsx:11-17 | The initial transcript of one greeting, with no replies pending, satisfies the transcript invariant |
| `AIAssistant.ConsistentAfterSend` | src/components/AIAssistant.tsx:75-82 | Appending a non-blank user turn and queueing its reply keeps the invariant: greeting first, user turns non-blank, answered turns replied to in order, the rest pending |
| `AIAssistant.ConsistentAfterReply` | src/components/AIAssistant.tsx:83-88 | Appending `GenerateResponse` of the oldest pending input as an assistant turn keeps the invariant |
| `AIAssistant.ChatSession.constructor` | src/components/AIAssistant.tsx:10-19 | The window starts closed, with exactly the greeting, an empty input box, no typing indicator and the quick actions shown |
| `AIAssistant.ChatSession.ToggleOpen` | src/components/AIAssistant.tsx:99 | The launcher flips `isOpen` and changes nothing else |
| `AIAssistant.ChatSession.SetInput` | src/components/AIAssistant.tsx:187 | Typing replaces the input box's text only |
| `AIAssistant.ChatSession.SendMessage` | src/components/AIAssistant.tsx:75-82 | Blank input changes nothing. Other input appends one user turn with the raw text, clears the box, turns on the typing indicator, queues the reply and hides the quick actions. Earlier turns stay unchanged |
| `AIAssistant.ChatSession.ReplyTimerFires` | src/components/AIAssistant.tsx:83-88 | The delayed half appends one assistant turn holding `GenerateResponse` of the input it was scheduled for and turns the typing indicator off |
| `AIAssistant.ChatSession.SendAndAwaitReply` | src/components/AIAssistant.tsx:75-88 | With nothing pending, a non-blank send plus its delay appends exactly [user turn, assistant reply to it], clears the box and ends with the typing indicator off; a blank send changes nothing. The window stays open or closed as it was |
| `AIAssistant.ChatSession.QuickActionAsWritten` | src/components/AIAssistant.tsx:91-94 | A quick-action click sends the input box's earlier text rather than the action, clearing the box and turning the typing indicator on. With an empty box it sends nothing, leaves the typing indicator as it was and leaves the action in the box |
| `AIAssistant.ChatSession.QuickAction` | src/components/AIAssistant.tsx:91-94 | Corrected: a quick action appends the action itself as the user turn and queues its reply |
| `AIAssistant.QuickActionsNotBlank` | src/components/AIAssistant.tsx:21-26 | None of the four quick actions is blank, so each would be sent if it reached the send |
| `AIAssistant.FreshQuickActionAsWritten` | src/components/AIAssistant.tsx:91-94 | As written, clicking the first quick action in a fresh chat leaves the transcript as the lone greeting |
| `AIAssistant.FreshQuickAction` | src/components/AIAssistant.tsx:91-94 | As intended, the same click gives the greeting followed by the action as a user turn |
| `AIAssistant.QuickActionsUntilFirstSend` | src/components/AIAssistant.tsx:165 | The quick actions, shown while the transcript is the lone greeting, are shown exactly while the user has sent nothing |
| `PollutionMap.ColorByDensity` | src/components/PollutionMap.tsx:120-125 | Red exactly for density ≥ 70, amber exactly for 50–69, yellow exactly for 30–49 and green exactly below 30 |
| `PollutionMap.ColorIsPaletteBand` | src/components/PollutionMap.tsx:120-125 | The threshold chain picks the palette entry whose index is the number of thresholds (30, 50, 70) the density reaches |
| `PollutionMap.ColorMonotone` | src/components/PollutionMap.tsx:120-125 | Raising the density never moves a marker to a cleaner band |
| `PollutionMap.PaletteDistinct` | src/components/PollutionMap.tsx:121-124 | The four marker colours are pairwise different, so each density has exactly one colour |
| `PollutionMap.ColorBoundaries` | src/components/PollutionMap.tsx:121-124 | 70 is red and 69 amber; 50 is amber and 49 yellow; 30 is yellow and 29 green |
| `PollutionMap.TrendIconOf` | src/components/PollutionMap.tsx:127-136 | The up icon appears exactly for "Rising", the down icon exactly for "Declining", and the dash for anything else; the icons are red `text-red-500`, green `text-green-500` and yellow `text-yellow-500` respectively |
| `PollutionMap.StableIsDefault` | src/components/PollutionMap.tsx:133-135 | "Stable" and every unrecognised trend get the same yellow dash |
| `PollutionMap.TrendColorFollowsSymbol` | src/components/PollutionMap.tsx:127-136 | Two trends with the same symbol get the same icon colour |
| `PollutionMap.ClarityColor` | src/components/PollutionMap.tsx:138-149 | Clear, Moderate and Poor give their green, yellow and red classes; gray comes back exactly for any other string |
| `CommunityReporting.SubmittedRecord` | src/components/CommunityReporting.tsx:55-61 | The row has status "New" and a non-empty reporter: "Anonymous" for an empty name, the name as entered otherwise. All other fields are copied |
| `CommunityReporting.RecordRoundTrip` | src/components/CommunityReporting.tsx:55-61 | The form fields of the row are the form, except that an empty name reads "Anonymous" |
| `CommunityReporting.AnonymousIff` | src/components/CommunityReporting.tsx:58 | The row says "Anonymous" exactly when the name was empty or was "Anonymous" already |
| `CommunityReporting.WithLocation` | src/components/CommunityReporting.tsx:36-46 | A fix replaces the two coordinates and nothing else; a denial or missing support leaves the form unchanged |
| `CommunityReporting.ReportForm.constructor` | src/components/CommunityReporting.tsx:7-17 | The form starts at (19.0760, 72.8777), Plastic, "", 50, Moderate, "", not busy and not submitted |
| `CommunityReporting.ReportForm.HandleGeolocation` | src/components/CommunityReporting.tsx:34-49 | The geolocation callbacks update the form as `WithLocation` says and leave the flags alone |
| `CommunityReporting.ReportForm.BeginSubmit` | src/components/CommunityReporting.tsx:51-61 | Submitting marks the form busy and hands the store `SubmittedRecord` of the form |
| `CommunityReporting.ReportForm.FinishSubmit` | src/components/CommunityReporting.tsx:63-80 | Afterwards the form is not busy; `submitted` equals the insert's success; the form is unchanged |
| `CommunityReporting.ReportForm.ResetTimerFires` | src/components/CommunityReporting.tsx:66-77 | The delayed reset hides the success panel and restores exactly the default form |
| `CommunityReporting.ReportForm.SubmitAndSettle` | src/components/CommunityReporting.tsx:51-81 | A whole submission sends `SubmittedRecord` of the form; after success and the delay the form is the default one, and after a failure it is unchanged |
| `CommunityReporting.CategoryColor` | src/components/CommunityReporting.tsx:83-91 | Plastic, Chemical, Oil and Sewage get their own classes; gray comes back exactly for any other category |
| `CommunityReporting.StatusColor` | src/components/CommunityReporting.tsx:93-100 | New is yellow and Verified is green; every other status, Resolved included, is gray |
| `CommunityReporting.ResolvedLooksUnknown` | src/components/CommunityReporting.tsx:97-99 | A resolved report's badge is the same as an unknown status's badge |
| `Corporations.OfType` | src/components/Corporations.tsx:28 | The result has exactly the organizations of the type, and it is no longer than the input |
| `Corporations.FilteredOrganizations` | src/components/Corporations.tsx:25-28 | "All" shows the full list; any other filter shows exactly the organizations of that type |
| `Corporations.InitialFilterShowsAll` | src/components/Corporations.tsx:7 | The filter starts at "All", so the first render lists every fetched organization |
| `Corporations.OfTypeSubsequence` | src/components/Corporations.tsx:28 | The filtered list is an order-preserving subsequence of the input |
| `Corporations.FilteredIsSubsequence` | src/components/Corporations.tsx:25-28 | Whatever the filter, the displayed list is an order-preserving subsequence of the fetched list |
| `Corporations.OfTypeCounts` | src/components/Corporations.tsx:28 | The filter keeps each organization of the type as many times as it occurs and drops every other one |
| `Corporations.EmptyMessageIff` | src/components/Corporations.tsx:185 | "No organizations found" shows exactly when the list is empty under "All", or when no organization has the chosen type |
| `Corporations.FilterButtonsAgree` | src/components/Corporations.tsx:80-83 | Each type button other than "All" shows only organizations of that type |
| `Corporations.TypeColor` | src/components/Corporations.tsx:30-37 | Authority, Corporation and NGO get their own classes; gray comes back exactly for any other type |
| `Corporations.FilterTypesHaveBadges` | src/components/Corporations.tsx:80 | Every type button other than "All" names a type with its own badge |
| `AIInsights.RiskColor` | src/components/AIInsights.tsx:24-35 | High, Moderate and Low get red, yellow-orange and green gradients; gray comes back exactly for any other level |
| `AIInsights.RiskIconOf` | src/components/AIInsights.tsx:37-48 | High, Moderate and Low get AlertCircle, TrendingUp and CheckCircle; any other level gets no icon |
| `AIInsights.IconAndColorAgree` | src/components/AIInsights.tsx:24-48 | A level has no icon exactly when its gradient is the gray default |
| `AIInsights.IconFollowsColor` | src/components/AIInsights.tsx:24-48 | Two levels with the same gradient have the same icon |
| `AIInsights.FactorPanels` | src/components/AIInsights.tsx:144-172 | The weather panel shows exactly when weather text is present and non-empty; hotspots whenever the count is defined; the trend panel exactly when trend text is present and non-empty; no panel twice |
| `AIInsights.ZeroHotspotsShown` | src/components/AIInsights.tsx:145-152 | A hotspot count of 0 still shows its panel, while empty weather text hides its panel |
| `AIInsights.CardPanels` | src/components/AIInsights.tsx:144-173 | A card shows at most three panels, and none exactly when no factor qualifies |
| `Tutorial.DotState` | src/components/Tutorial.tsx:104-111 | A dot is current exactly at `currentStep`, done exactly before it and pending exactly after it |
| `Tutorial.DotsShape` | src/components/Tutorial.tsx:101-113 | On every step the dots read: the done steps, then one current dot, then the pending steps |
| `Tutorial.NextButtonLabel` | src/components/Tutorial.tsx:127 | The button reads "Get Started" exactly on the last step and "Next" before it |
| `Tutorial.Walkthrough.constructor` | src/components/Tutorial.tsx:9-10 | The walkthrough starts on step 0 and shown, with storage as an earlier visit left it |
| `Tutorial.Walkthrough.CheckSeenFlag` | src/components/Tutorial.tsx:61-67 | A stored flag hides the walkthrough and calls `onComplete` immediately; without the flag nothing changes |
| `Tutorial.Walkthrough.HandleClose` | src/components/Tutorial.tsx:54-59 | Closing hides the walkthrough now and schedules one `onComplete` |
| `Tutorial.Walkthrough.HandleNext` | src/components/Tutorial.tsx:46-52 | "Next" advances exactly one step; "Get Started" closes in place without writing the flag; the step stays a valid index and never decreases |
| `Tutorial.Walkthrough.SaveTutorialComplete` | src/components/Tutorial.tsx:69-72 | Skip and the close cross store the flag, then close |
| `Tutorial.Walkthrough.CompletionTimerFires` | src/components/Tutorial.tsx:56-58 | A scheduled `onComplete` runs once |
| `Prevention.ColorClasses` | src/components/Prevention.tsx:66-94 | blue, teal, green and orange have a record; any other name gives `undefined` |
| `Prevention.ColorClassesAreShades` | src/components/Prevention.tsx:67-92 | Each record is the bg-…-50, text-…-900, text-…-600 and border-…-200 shades of its colour name |
| `Prevention.EveryCardHasColors` | src/components/Prevention.tsx:7-64 | Every prevention card's colour is a key of the table |
| `Prevention.Toggle` | src/components/Prevention.tsx:124 | The clicked card becomes the expanded one unless it already was, in which case none is expanded |
| `Prevention.AtMostOneExpanded` | src/components/Prevention.tsx:116 | At most one card shows expanded, in every state |
| `Prevention.ToggleTwice` | src/components/Prevention.tsx:124 | From all collapsed, two clicks on one card return to all collapsed |
| `Prevention.ToggleSwitches` | src/components/Prevention.tsx:124 | Clicking another card while one is open leaves only the clicked card open |
| `Prevention.CardList.constructor` | src/components/Prevention.tsx:5 | No card is expanded at first |
| `Prevention.CardList.Click` | src/components/Prevention.tsx:124 | A click applies `Toggle`, so afterwards either no card is expanded or only the clicked one is |

## Left out

- `Text.ToLower` folds only ASCII A–Z. JavaScript's `toLowerCase` also folds other Unicode
  letters, so a message whose keywords are spelled with non-ASCII capitals is not covered.
- Store access is not modelled: the fetches, their ordering and limits, and the insert. An
  insert's outcome is the `insertOk` input of `FinishSubmit`.
- Google Maps is not modelled: script loading, markers, info windows and click handlers. These
  are a foreign API.
- The haversine distance in `src/components/Corporations.tsx` is not modelled. It is
  floating-point trigonometry.
- Number formatting is not modelled: `toFixed`, percentages and date display.
- Timers are steps, not delays. The model does not capture how the reply, reset and completion
  delays interleave with other events beyond their order.
- The walkthrough's step descriptions, the prevention cards' bullet lists and tips, and all JSX
  and CSS are presentation.
- The form's per-field `onChange` edits are not modelled. Each replaces one field of the form.
- `src/components/LandingPage.tsx`, `src/components/Navigation.tsx` and `src/App.tsx` are not
  part of this model. They hold no decision logic.
- JavaScript object-prototype keys are not modelled. A badge lookup with a key such as
  `"constructor"` would give a non-string value there. Here every key outside the table gets the
  default.
- `AIInsights.FactorPanels` treats a missing factor as absent (`None`). A stored `null` hotspot
  count, which `!== undefined` would let through, is not modelled.
- `CommunityReporting.ReportForm.BeginSubmit` requires an idle form that shows no success panel.
  The source guarantees this by hiding the form and disabling its button, so the model does not
  cover a second submission racing the first.
- Validation and clamping that the code does not perform are not modelled. Bad coordinates or
  categories are not rejected, and density is not clamped to 0–100.

## Findings

| source | as written | input that shows it | evidently intended | confidence | as-written member | corrected member |
|---|---|---|---|---|---|---|
| src/components/AIAssistant.tsx:91-94 | `handleQuickAction` queues the action into the input box, then calls `handleSendMessage`. That call still reads the input box's value from before the click. With an empty box nothing is sent. With typed text, that text is sent instead of the action | A fresh chat (input box empty); click "Explain my area's pollution level" | Send the clicked action as the user's message and answer it | high — follows from React state updates not being visible until the next render; not executed | `AIAssistant.FreshQuickActionAsWritten` | `AIAssistant.FreshQuickAction` |
