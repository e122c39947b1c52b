# SAFECLICK in Dafny

A model of the client-side logic of SAFECLICK, a cybersecurity-awareness web
application. It covers:

- the application shell: sign-in state, theme, learning progress, the
  download library, the tab router and its Cyber Expert gate;
- the start-up rules that restore the user, the theme and the progress
  record from browser storage;
- the navigation bar's role-dependent tab list and download badge;
- the assistant chat window's transcript and busy flag;
- the safety scanner's input guard, loading lifecycle, caption cycle and
  risk-level styling;
- the digital library's catalogue filter and confirm-before-remove dialog;
- the simulated sign-in dialog's mock user;
- the pure transforms around the hosted language model: fallback verdict,
  history replay, citation-link extraction and the chat apology.

Every component is a set of pure functions over immutable records. Each event
handler is one function from the old state to the new one. The external
model, the clock, the random user id and the timer are inputs.

Modules, one per source file: `Types` (types.ts), `Text` (the JavaScript
`trim` and `split(sep)[0]` the components use), `Seqs` (the array idioms of
App.tsx), `Catalog` (constants.tsx), `Gemini` (gemini.ts), `Chatbot`,
`Detection`, `Navbar`, `Downloads`, `Auth` (the components), and `Persist`
plus `App` (App.tsx).

Three behaviours of the code shape the model:

- Malformed stored JSON is not replaced by defaults. The initialisers of the
  user and the progress record call `JSON.parse` outside any `try`
  (App.tsx:20 and 33), so start-up throws. `Persist.RestoreUser`,
  `Persist.RestoreProgress` and `App.Boot` return `None` for that case.
- A gateway call can reject. Both gateway functions construct the SDK client
  before their `try` (gemini.ts:9 and 76), so a throwing constructor rejects
  the promise. `Gemini.Call.ClientThrew` models this. It is the one path
  that reaches the `catch` blocks of the chat window and the scanner.
- Nothing checks the shape of an analysis. Whatever the reply text parses to
  is cast and returned (gemini.ts:54-56): a score outside 0..100, a level
  outside the four values, or an object with no fields at all. An empty
  reply becomes `{}`, and the scanner's verdict panel then throws at
  `result.suspiciousPatterns.map` (DetectionModule.tsx:163).

## Model

| member | source | states |
|---|---|---|
| Types.ParseRiskLevel | types.ts:2-7 | a recognised string is the run-time text of the level it yields |
| Types.RiskLevelRoundTrip | types.ts:2-7 | printing then parsing a level returns it; exactly the four enum strings are recognised |
| Text.BlankIffAllWhitespace | Chatbot.tsx:30 | the `!input.trim()` guard holds exactly when every character is JavaScript whitespace |
| Seqs.RemoveAll | App.tsx:93 | `filter(id => id !== x)` removes every copy of x and keeps every other element's multiplicity |
| Seqs.RemoveAllAppend | App.tsx:93 | the filter distributes over concatenation, so survivors keep their order |
| Seqs.AppendIfAbsent | App.tsx:112-114 | the id ends up present, is appended at the end only if it was missing, and no duplicate is introduced |
| Seqs.Toggle | App.tsx:91-94 | the toggled id's membership flips, every other id's membership is kept, an absent id is appended at the end |
| Seqs.ToggleTwice | App.tsx:90-94 | toggling twice restores the set of ids, and the exact list when the id was absent |
| Gemini.AnalysisText | gemini.ts:54 | missing or empty reply text is parsed as "{}"; other text is parsed unchanged |
| Gemini.AnalyzeContent | gemini.ts:7-68 | rejects only if the client throws; on a failed request or a parse error it returns the fallback verdict; otherwise it returns exactly what the text parsed to, and anything but the fallback came from a successful parse |
| Gemini.FallbackShape | gemini.ts:59-67 | the fallback says safe, score 0, level Low, attack type "Unknown", with 1 reasoning, 1 pattern and 2 recommendations |
| Gemini.AnalyzeDoesNotValidate | gemini.ts:54-56 | for every parser, a verdict the reply parses to reaches the caller unchanged, whatever its score and level |
| Gemini.EmptyReplyParsedAsEmptyObject | gemini.ts:54-56 | a missing or empty reply is parsed as "{}" and that field-less object is returned: neither a verdict nor the fallback |
| Gemini.HistoryContents | gemini.ts:91-94 | replayed history has the same length and order; user turns stay 'user', all others become 'model'; the text is the content |
| Gemini.HistoryForwardsOnlyContent | gemini.ts:91-94 | transcripts that differ only in timestamps or links replay identically |
| Gemini.ToLink | gemini.ts:106-109 | the title is the chunk's title, or 'Source' when it is missing or empty; the uri is copied |
| Gemini.ExtractLinks | gemini.ts:101-109 | one link per web chunk, none invented, every chunk's link present, every title non-empty |
| Gemini.ExtractLinksAppend | gemini.ts:104-109 | extraction distributes over concatenation, so links keep chunk order |
| Gemini.ExtractLinksKeepsAll | gemini.ts:104-109 | no truncation: all-web chunks give as many links, position by position |
| Gemini.ChatWithAssistant | gemini.ts:74-118 | rejects only if the client throws; a failed request gives the apology with no links; an answer gives its text (or "") and all extracted links |
| Gemini.BuildChatRequest | gemini.ts:80-97 | the SDK gets the new message and, per history message in order, a turn with its content, 'user' iff the message is the user's |
| Chatbot.Initial | Chatbot.tsx:8-17 | the window starts closed and idle, with an empty input and only the greeting from the model |
| Chatbot.CanSendIff | Chatbot.tsx:30 | sending is enabled iff no reply is pending and the input has a non-whitespace character |
| Chatbot.BeginSend | Chatbot.tsx:28-43 | blank input or a pending reply is a no-op with no call; otherwise it appends the raw input as a user message, clears the field, sets busy, and asks with the earlier transcript |
| Chatbot.AnswerContent | Chatbot.tsx:46 | the reply content is never empty: the answer text, or exactly "I'm sorry, I couldn't process that request." when it is empty |
| Chatbot.SendReplaysEarlierTranscript | Chatbot.tsx:28-43 | an accepted send asks with the raw input and replays, turn by turn, the transcript from before the user's message |
| Chatbot.CompleteSend | Chatbot.tsx:42-55 | a reply appends one model message carrying its links and keeps the earlier transcript; a rejection appends nothing; busy is cleared either way |
| Chatbot.ShownLinks | Chatbot.tsx:100-103 | at most the first three links of a message are displayed |
| Chatbot.SendExchange | Chatbot.tsx:28-56 | a full exchange appends the user message, then the answer, and ends idle with an empty input |
| Chatbot.RunAppendOnly | Chatbot.tsx:38-50 | any event sequence only appends to the transcript, keeps the greeting first, and a pending reply always follows a user message |
| Chatbot.GreetingStaysFirst | Chatbot.tsx:10-16 | the initial greeting remains the first message forever |
| Detection.Initial | DetectionModule.tsx:8-12 | the scanner starts on the URL tab, empty, idle, with no verdict |
| Detection.CanAnalyzeIff | DetectionModule.tsx:117 | the analyze button is enabled iff not loading and the input has a non-whitespace character |
| Detection.BeginAnalyze | DetectionModule.tsx:35-40 | blank input changes nothing and makes no call; otherwise loading starts at stage 0, the old verdict is cleared, and the tab's kind and raw input are sent |
| Detection.CompleteAnalyze | DetectionModule.tsx:39-46 | loading ends in every outcome; whatever the gateway resolved to is stored; a rejection stores nothing |
| Detection.ScanLifecycle | DetectionModule.tsx:35-47 | after a scan, loading is off and the verdict is exactly the gateway's outcome, so a rejection leaves none |
| Detection.SwitchTab | DetectionModule.tsx:80-84 | switching tabs sets the tab and clears both verdict and input; a running scan is not stopped |
| Detection.SwitchDuringScanShowsLateVerdict | DetectionModule.tsx:35-84 | a scan in flight during a tab switch delivers its verdict into the new, empty tab |
| Detection.NextStage | DetectionModule.tsx:28 | the stage stays below 5, advances by one, and wraps from the last stage to 0 |
| Detection.Tick | DetectionModule.tsx:22-33 | only the stage can change, and it advances exactly while loading |
| Detection.TicksFromFirstStage | DetectionModule.tsx:25-30 | a running scan ticked n times from the first caption shows caption n mod 5 |
| Detection.StageCycles | DetectionModule.tsx:22-33 | after n ticks of a fresh scan the stage is n mod 5 |
| Detection.VerdictPanel | DetectionModule.tsx:136-206 | the area is empty iff the result is null, false or ""; shows the text "0" iff it is the number zero; shows the panel iff it is a full verdict; and throws iff it is a value without the verdict's lists |
| Detection.ZeroReplyShowsStrayZero | DetectionModule.tsx:35-136 | a reply "0" parses to zero, and the result area shows the bare text "0" |
| Detection.FailedScanShowsFallback | DetectionModule.tsx:35-46 | a failed request fills the panel with the fallback verdict |
| Detection.EmptyReplyBreaksPanel | DetectionModule.tsx:35-163 | an empty model reply makes the panel's render throw; a rejected call leaves the area empty |
| Detection.RiskColor | DetectionModule.tsx:55-62 | each of the four levels gets its own style; any other string gets the neutral one |
| Detection.RiskColorDistinct | DetectionModule.tsx:55-62 | distinct levels never share a style; the neutral style appears iff the string is not a level |
| Navbar.NavItems | Navbar.tsx:30-40 | the base tabs are hero, awareness, detection, legal, downloads in that order; downloads carries the count; admin is appended last iff the user is a Cyber Expert |
| Navbar.AdminOfferedIff | Navbar.tsx:38-40 | the admin tab is offered iff the user is a Cyber Expert; the first five items never depend on the user |
| Navbar.BadgeAsWritten | Navbar.tsx:67-71 | as written, a badge of 0 renders the text "0"; a positive one renders a badge; a missing one renders nothing |
| Navbar.EmptyLibraryShowsStrayZero | Navbar.tsx:35-71 | with no downloads, the downloads tab shows a stray "0" |
| Navbar.BadgeIntended | Navbar.tsx:67-71 | corrected: a badge appears iff the count is positive, shows that count, and no stray text appears |
| Navbar.DownloadBadgeShownIff | Navbar.tsx:35-71 | the downloads badge shows the count iff it is positive; no other tab shows anything |
| Navbar.FirstName | Navbar.tsx:93 | the label is the prefix of the name up to, not including, its first space |
| Navbar.LogoClick | Navbar.tsx:46 | the logo always selects 'hero' and leaves the menus alone |
| Navbar.DesktopSelect | Navbar.tsx:58 | a desktop button selects its own tab |
| Navbar.MobileSelect | Navbar.tsx:147-150 | a mobile entry selects its tab and closes the mobile menu |
| Navbar.ToggleMenu | Navbar.tsx:131 | the menu button flips the mobile menu, leaves the profile menu alone and requests nothing |
| Navbar.ToggleProfileMenu | Navbar.tsx:89 | the avatar button flips the profile menu and requests nothing |
| Navbar.DesktopSignIn | Navbar.tsx:114 | the desktop Sign In button requests the dialog and leaves the menus alone |
| Navbar.MobileSignIn | Navbar.tsx:186 | the mobile Sign In button requests the dialog and closes the menu |
| Navbar.ProfileSignOut | Navbar.tsx:103 | profile sign-out requests logout and closes the profile menu |
| Navbar.MobileSignOut | Navbar.tsx:178 | mobile sign-out requests logout and closes the mobile menu |
| Downloads.Shown | DownloadsModule.tsx:15 | shows exactly the catalogue entries whose id was downloaded, never more than the catalogue holds |
| Downloads.ShownAppend | DownloadsModule.tsx:15 | shown entries keep catalogue order |
| Downloads.ShownDependsOnlyOnMembership | DownloadsModule.tsx:15 | only which ids were downloaded matters: duplicates and order do not |
| Downloads.UnknownIdIgnored | DownloadsModule.tsx:15 | an id that names no catalogue entry changes nothing |
| Downloads.ShownDistinct | DownloadsModule.tsx:15 | with distinct catalogue ids, no entry is shown twice |
| Downloads.LibraryPanels | DownloadsModule.tsx:26-104 | the empty state shows iff no downloaded id is in the catalogue; "Stay Updated" shows iff the empty state does not |
| Downloads.AskRemove | DownloadsModule.tsx:58 | the trash button only marks the entry pending and removes nothing |
| Downloads.Cancel | DownloadsModule.tsx:119-120 | cancel clears the pending entry without removing anything |
| Downloads.Confirm | DownloadsModule.tsx:125-129 | confirm removes exactly the pending entry's id and clears it; with nothing pending nothing happens |
| Downloads.RemovalNeedsConfirmation | DownloadsModule.tsx:58-129 | ask then confirm removes the asked entry; ask then cancel, even followed by confirm, removes nothing |
| Auth.Initial | AuthOverlay.tsx:12-18 | the dialog starts in sign-in mode, role Student, empty fields |
| Auth.ToggleMode | AuthOverlay.tsx:147 | switching mode keeps the role and every field |
| Auth.ChooseRole | AuthOverlay.tsx:110-122 | choosing a tier changes only the role |
| Auth.DisplayName | AuthOverlay.tsx:25 | a non-empty name is used as is; else sign-in uses the email up to its first '@'; else sign-up uses 'New User' |
| Auth.BuildUser | AuthOverlay.tsx:20-31 | the mock user has the given id, the display name, the email as typed, the chosen role, and the dicebear URL followed by the email |
| Auth.AvatarDeterminesEmail | AuthOverlay.tsx:28 | different emails give different avatars |
| Auth.LoginNameFromEmail | AuthOverlay.tsx:25 | an email without '@' is used whole; text after the first '@' never matters |
| Persist.RestoreUser | App.tsx:18-21 | no entry or an empty one restores no user; a record restores that user; malformed text throws |
| Persist.RestoreTheme | App.tsx:24-28 | a non-empty stored value means dark iff it is "dark"; otherwise the system preference decides |
| Persist.RestoreProgress | App.tsx:30-41 | no record gives user id '' and empty lists stamped now; a record keeps its fields, with a missing downloads list read as []; malformed text throws |
| Persist.SaveUser | App.tsx:55-61 | a user is written as its record, and the key is removed iff there is no user |
| Persist.SaveTheme | App.tsx:44-52 | the stored theme is "dark" iff dark mode is on, and "light" otherwise |
| Persist.SaveProgress | App.tsx:64-66 | every progress field is written, the downloads list included |
| Persist.RoundTrips | App.tsx:18-66 | what the effects write for user, theme and progress is what the initialisers read back |
| Persist.LegacyProgress | App.tsx:37 | a record without downloads loads with an empty library and all else as stored |
| App.Boot | App.tsx:17-41 | start-up fails iff a stored user or progress is malformed; otherwise it shows the home tab with no dialog and the restored records |
| App.FirstVisit | App.tsx:17-41 | with empty storage the user is logged out with empty progress and the system theme |
| App.ToggleTheme | App.tsx:73 | only the theme flag flips |
| App.Login | App.tsx:75-78 | the user is set and the dialog closed; tab, theme and progress are untouched |
| App.Logout | App.tsx:80-83 | the user is cleared and the tab becomes 'hero'; progress, theme and dialog are untouched |
| App.Navigate | App.tsx:17 | only the active tab changes |
| App.OpenAuth | App.tsx:201 | only the dialog flag is raised |
| App.CloseAuth | App.tsx:214 | only the dialog flag is lowered |
| App.ToggleTopic | App.tsx:85-102 | logged out it only raises the dialog; logged in it flips the topic's membership, stamps now, and keeps downloads and user id |
| App.Download | App.tsx:104-119 | logged out it only raises the dialog; logged in the id is appended iff absent and no other field changes |
| App.RemoveDownload | App.tsx:121-126 | needs no login; every copy of the id goes, other ids keep their multiplicity, and nothing else changes |
| App.DownloadIdempotent | App.tsx:110-115 | downloading twice equals downloading once |
| App.ToggleTopicTwice | App.tsx:90-94 | toggling twice while logged in restores the completed set, and the exact list when the topic was absent |
| App.RemoveUndoesDownload | App.tsx:110-126 | removing after a fresh download restores the state exactly |
| App.Render | App.tsx:128-191 | each known tab shows its own module with the progress it reads: 'hero' the hero with completed and total topic counts over the knowledge hub and scanner, 'awareness' the hub with the completed ids, 'downloads' the library with the downloaded ids; admin shows the panel iff the user is a Cyber Expert, else Access Denied, even when logged out; unknown tabs show the hero alone with the same counts |
| App.NavAgreesWithRouter | App.tsx:176-181 | the bar offers admin iff the router grants it, so no offered tab leads to Access Denied |
| App.LogoutRevokesAdmin | App.tsx:176-181 | after logout the home view shows, and selecting admin is denied |
| App.ApplyNavRequest | App.tsx:195-203 | a bar click navigates, logs out, opens the sign-in dialog, or does nothing, as requested |
| App.SignInButtonsOpenDialog | Navbar.tsx:114-188 | both Sign In buttons raise the dialog without changing the tab or the user; the mobile one closes the menu |
| App.MobileSelectAndLogo | Navbar.tsx:46-150 | a mobile entry activates its tab with the menu closed; the logo activates 'hero' |
| App.ConfirmedRemovalHidesResource | DownloadsModule.tsx:125-129 | a confirmed removal hides the resource from the library; a cancelled one removes nothing |
| App.RunKeepsSetLike | App.tsx:85-126 | from duplicate-free lists, no event sequence introduces a duplicate, and the progress user id never changes |
| App.LoggedOutProgressFrozen | App.tsx:85-108 | logged out, toggles and downloads never change progress, and they raise the dialog |

## Left out

- The SDK requests, the prompt texts and the model itself: a call's outcome
  is an input (`Gemini.Call`). `JSON.parse` of the model's reply is a
  function parameter.
- Browser storage reads and writes, the `dark` class on the document,
  `matchMedia`, `scrollTo`, `alert`, `console.error` and `scrollIntoView`.
  Stored keys arrive already classified (`Persist.Stored`), and the system
  colour preference is a parameter.
- The random user id, `Date` timestamps and the 2.5-second timer are inputs:
  an id argument, a `now` argument, and a `Tick` step.
- Async interleaving. Each handler is a start step plus a completion step.
  The chat model lets a reply settle only while one is pending. The scanner
  model allows a tab switch in between, as the source does.
- The home view's completion percentage (float division and rounding,
  dividing by zero for an empty topic list). Only the two counts are
  modelled.
- Presentation-only content: the awareness, legal, admin, footer and hero
  components, and catalogue fields other than id, title, category and size.
- Types.AnalysisResult: `riskScore` is an integer, though JSON numbers may
  be fractional.
- Persist.RestoreUser: non-record JSON such as `null` is treated as
  malformed, though the source would restore it as "no user".
- Persist.RestoreProgress: records missing `completedTopicIds` or other
  required fields are treated as malformed. The source would load them and
  fail later.
- Gemini.HistoryContents: message roles are the two-valued enum of the
  message type, so the "every other role becomes model" branch cannot be
  exercised with other strings.
- Auth.DisplayName: the browser's form validation is not modelled. The
  `required` name field stops a sign-up with an empty name, so 'New User'
  is reachable only through the handler itself. The `type="email"` field
  (AuthOverlay.tsx:79) rejects an email without '@', so the first clause of
  `Auth.LoginNameFromEmail` describes the handler, not input the form lets
  through.
- Detection.Tick: the caption text before the first scan is '' in the
  source. The model keeps only the stage index, and the caption is shown
  only while loading.
- The library's re-download button, which only raises an alert.
- Detection.VerdictPanel: a truthy parsed value that lacks some verdict
  field is classed as throwing. A value that has all three lists but lacks
  other fields renders with blanks instead; the model has no case for it.
- Gemini.Analysis: the kind of a parsed value is decided by the `parse`
  parameter. JSON itself is not modelled, so that `{}` parses to a
  field-less value is a precondition of the lemmas that use it.

## Findings

| source | as written | input that shows it | evidently intended | confidence | as-written member | corrected member |
|---|---|---|---|---|---|---|
| Navbar.tsx:67 | `{item.badge && item.badge > 0 && (<span>…)}`: with a badge of 0 the expression evaluates to the number 0, which React renders as the text "0" (the same at line 159) | `downloadCount` = 0, as on a first visit: the downloads tab shows "Downloads0" | no badge and no text when the count is 0 | high; not executed | Navbar.BadgeAsWritten, Navbar.EmptyLibraryShowsStrayZero | Navbar.BadgeIntended, Navbar.DownloadBadgeShownIff |
