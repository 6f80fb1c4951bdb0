# AI interview coach: the client-side state machines, in Dafny

The application is a React single-page app: a landing page and mocked
candidate and coach screens for interview practice. Nearly all of it is
markup. This project models the small amount of logic behind the markup. Each
piece is verified against its own specification.

- **Live interview session** (`LiveInterview`, the main component). A fixed
  list of eight questions is walked in order. A microphone toggle appends a
  simulated utterance to the transcript when recording stops. A pause-gated
  one-second counter is shown as `MM:SS` by `formatTime`. The Next button
  has an asymmetric guard: an empty transcript blocks it on every question
  except the first. Finishing the last question and ending the session both
  navigate to `/reports/latest`. The state is the class `Session`, with one
  method per handler; its invariant `Valid` keeps the question index in
  [0, 8).
- **Language context** (`Language`, `Translations`). The translation tables
  are transcribed entry by entry. `t` looks a key up in the current
  language, then in English, then returns the key itself. English is the
  only left-to-right language. A stored preference is restored only when it
  is "en", "he" or "ar". `useLanguage` fails outside its provider. The
  lookup is stated over any `Tables` record. It is proved once that the
  shipped tables are well formed: every Hebrew and Arabic key is an English
  key, and no English value is empty. Every consequence of the lookup
  follows from that fact.
- **CV upload** (`Upload`). A file is accepted only with one of two MIME
  types and a size of at most 5 MiB. The status moves
  idle → uploading → success, or to error. Remove and Try again are
  handled, as are drag highlighting and the two submit rules. The button
  rule needs more than 50 characters after trimming. The handler accepts
  any non-blank description.
- **Interview set-up** (`StartInterview`). It holds the four selections and
  the microphone permission, which is unknown, granted or denied. The Start
  handler navigates only when permission is already granted; otherwise it
  runs the check.
- **Feedback report** (`FeedbackReport`). Two threshold helpers map scores
  to colour and background classes, with bands at 85 and 70. A
  single-open accordion controls which question's suggested answer is
  shown.
- **Navigation bar** (`Navbar`). It chooses a link set from the props,
  applies the hash-link versus route-link active test, and opens and closes
  the mobile menu.
- **Coach dashboard** (`CoachDashboard`). It computes initials with
  `split(' ').map(n => n[0]).join('')` and picks the score colour with a
  nested ternary.

`JsString` models the JavaScript string built-ins these components use:
`toString`, `padStart`, `trim` with the ECMAScript white-space set,
`startsWith` and `split`. `Wrappers` holds `Option` and `Result`.

Events outside the component become explicit inputs:
- A timer firing is a method call: `Session.Tick` and
  `UploadForm.UploadTimerFires`.
- The random language detection is the boolean argument of
  `HandleMicClick`.
- The settled `getUserMedia` promise is the boolean argument of
  `CheckMicPermission`.
- The `document.querySelector` hit is `HandleNavClick`'s `elementFound`.
- `localStorage` is the provider's `stored` field.
- Navigation is a `navigatedTo` field that the handlers set.

Behaviour of the code that the proofs make explicit:

- Upload timers are never cancelled. `SubmitWithoutCv` proves the
  consequence. Choose two valid files within 1.5 s, let the first timer
  fire, press Remove, and let the second timer fire. The status is then
  "success" with no file, the button is enabled, and submit navigates.
- Under the text area, the hint counts untrimmed characters against a
  "minimum 50". The rule requires more than 50 characters after trimming,
  so a description of exactly 50 characters meets the hint but never the
  rule (`HintBelowRule`).
- On the set-up page, the Start click that obtains microphone access does
  not itself start the interview. A second click does (`StartTakesTwoClicks`).
- A microphone denial only disables the set-up page's Start button. The live
  page's microphone toggle reads no permission, so `HandleMicClick` has no
  permission input.
- Because of the Next guard, walking all eight questions needs an answer on
  each one after the first, which is how `AnswerEveryQuestion` drives it.

## Model

| member | source | states |
|---|---|---|
| LiveInterview.Session.constructor | src/pages/LiveInterviewPage.tsx:22-27 | starts on question 0, not recording, not paused, empty transcript, detected tags ["EN"], clock 0, no navigation; the invariant holds |
| LiveInterview.Session.Tick | src/pages/LiveInterviewPage.tsx:74-82 | the clock advances by one second exactly when not paused; nothing else changes |
| LiveInterview.Session.TogglePause | src/pages/LiveInterviewPage.tsx:141 | flips only the pause flag; clock, question, transcript and recording are untouched |
| LiveInterview.Session.HandleMicClick | src/pages/LiveInterviewPage.tsx:90-102 | stopping appends the fixed utterance, so the transcript strictly grows; starting leaves the transcript and either keeps the tags or sets ["EN","HE"]; works while paused |
| LiveInterview.Session.HandleNextQuestion | src/pages/LiveInterviewPage.tsx:104-113 | before the last question: index + 1, transcript cleared, recording off; on the last: index kept, navigation to /reports/latest; the clock is never reset and the index stays below 8 |
| LiveInterview.Session.HandleEndSession | src/pages/LiveInterviewPage.tsx:115-117 | always navigates to /reports/latest, whatever the session state, and changes nothing else |
| LiveInterview.AnswerEveryQuestion | src/pages/LiveInterviewPage.tsx:104-119 | answering each question and pressing Next shows all 8 questions, each once and in order, and the eighth press navigates to the report |
| LiveInterview.PausedTicksScenario | src/pages/LiveInterviewPage.tsx:74-88 | five ticks running, a pause and three paused ticks leave the clock at 5 seconds, shown as "00:05" |
| LiveInterview.FieldValue | src/pages/LiveInterviewPage.tsx:87 | a zero-padded field is at least two digits, exactly two below 100, and reads back as the number printed |
| LiveInterview.FormatTimeFields | src/pages/LiveInterviewPage.tsx:84-88 | the clock text is a digit field, ':' and a two-digit field, holding seconds / 60 and seconds % 60 |
| LiveInterview.FormatTimeReadsBack | src/pages/LiveInterviewPage.tsx:84-88 | reading the clock text back (minutes * 60 + two-digit seconds) gives the elapsed seconds |
| LiveInterview.FormatTimeShort | src/pages/LiveInterviewPage.tsx:84-88 | below 6000 seconds the text is exactly five characters, digits around a ':' at position 2 |
| LiveInterview.NextGuardAsymmetry | src/pages/LiveInterviewPage.tsx:288 | the first question can be skipped with an empty transcript, no later one can, and any non-empty transcript enables Next |
| LiveInterview.Field | src/pages/LiveInterviewPage.tsx:87 | one clock field: `toString()` of the number, padded on the left with "0" to two characters |
| LiveInterview.FormatTime | src/pages/LiveInterviewPage.tsx:84-88 | formatTime: whole minutes and remaining seconds, each zero-padded to two digits, joined by ":" |
| LiveInterview.NextEnabled | src/pages/LiveInterviewPage.tsx:288 | the Next button is enabled unless the transcript is empty on a question after the first |
| LiveInterview.Session.Current | src/pages/LiveInterviewPage.tsx:119 | the question the page shows: the list entry at the current index |
| LiveInterview.Session.Clock | src/pages/LiveInterviewPage.tsx:129 | the clock the page renders: formatTime of the elapsed seconds |
| LiveInterview.NextLabel | src/pages/LiveInterviewPage.tsx:290 | the caption is "Finish Interview" exactly on the last question (index 7 of the 8), otherwise "Next Question" |
| Language.Code | src/contexts/LanguageContext.tsx:3 | the string code of each language: "en", "he", "ar" |
| Language.ParseSaved | src/contexts/LanguageContext.tsx:311-316 | a stored value yields a language exactly when it is "en", "he" or "ar", and that language's code is the stored value |
| Language.SavedCodeRoundTrip | src/contexts/LanguageContext.tsx:302-316 | storing a language's code and restoring gives that language, and only its own code restores it |
| Language.DirectionOf | src/contexts/LanguageContext.tsx:295 | left-to-right exactly for English |
| Language.Entry | src/contexts/LanguageContext.tsx:308 | a table entry counts exactly when the key is present and its value is not the empty string |
| Language.Table | src/contexts/LanguageContext.tsx:308 | `translations[language]`: the table of the given language in the record |
| Language.Translate | src/contexts/LanguageContext.tsx:307-309 | t over a given set of tables: the current language's entry, else the English entry, else the key, each tested for JavaScript truthiness |
| Language.TranslateCurrent | src/contexts/LanguageContext.tsx:307-309 | a usable entry of the current language is returned |
| Language.TranslateEnglishFallback | src/contexts/LanguageContext.tsx:308 | without a usable entry of its own, the English entry is returned |
| Language.TranslateKeyFallback | src/contexts/LanguageContext.tsx:308 | with no usable entry in either table, the key itself is returned |
| Language.TranslateTotal | src/contexts/LanguageContext.tsx:307-309 | the result is always a current-table value, an English value or the key, and empty only for the empty key |
| Language.EnglishCoversAllKeys | src/contexts/LanguageContext.tsx:13-288 | in well-formed tables every key any table defines is an English key |
| Language.TranslateKnownKey | src/contexts/LanguageContext.tsx:307-309 | in well-formed tables an English key yields the current language's usable entry or else the English one, never the empty string |
| Language.TranslateUnknownKey | src/contexts/LanguageContext.tsx:307-309 | in well-formed tables a key English lacks is shown as itself in every language |
| Language.LanguageProvider.constructor | src/contexts/LanguageContext.tsx:293 | a new provider starts in English over the given tables and storage |
| Language.LanguageProvider.RestoreSaved | src/contexts/LanguageContext.tsx:311-316 | a supported stored value becomes the language; anything else leaves the language unchanged |
| Language.LanguageProvider.SetLanguage | src/contexts/LanguageContext.tsx:302-305 | sets the language and stores the same language's code |
| Language.LanguageProvider.CurrentDirection | src/contexts/LanguageContext.tsx:295 | the provider's direction is left-to-right exactly when its language is English |
| Language.LanguageProvider.T | src/contexts/LanguageContext.tsx:307-309 | the provider's t: Translate over its tables in its current language |
| Language.TextAfterSwitch | src/contexts/LanguageContext.tsx:302-309 | after setLanguage(l), t shows an English key as l's usable entry or else the English text, never "", and any other key as itself |
| Language.ReloadAfterSetLanguage | src/contexts/LanguageContext.tsx:302-316 | a language set in one provider is the language a new provider restores from the same storage |
| Language.UseLanguage | src/contexts/LanguageContext.tsx:325-331 | fails with the provider error message exactly when there is no context, else returns the context |
| Translations.HebrewKeysInEnglish | src/contexts/LanguageContext.tsx:176-231 | every Hebrew key is also an English key |
| Translations.ArabicKeysInEnglish | src/contexts/LanguageContext.tsx:232-287 | every Arabic key is also an English key |
| Translations.EnglishNonEmpty | src/contexts/LanguageContext.tsx:14-175 | no English value is the empty string |
| Translations.AllWellFormed | src/contexts/LanguageContext.tsx:13-288 | the shipped record meets the premise of TranslateKnownKey and TranslateUnknownKey: Hebrew and Arabic keys are English keys and no English text is empty |
| Language.ShippedEnglishKey | src/contexts/LanguageContext.tsx:13-309 | with the shipped tables, every English key shows a non-empty text in every language |
| Language.ShippedUnknownKey | src/contexts/LanguageContext.tsx:13-309 | with the shipped tables, a key the English table lacks is shown as itself in every language |
| Upload.IsAcceptedFile | src/pages/UploadPage.tsx:55-66 | handleFile accepts a file whose MIME type is PDF or DOCX and whose size is at most 5 MiB |
| Upload.FormValid | src/pages/UploadPage.tsx:90 | isValid: a successful upload and a trimmed description longer than 50 characters |
| Upload.SubmitGuard | src/pages/UploadPage.tsx:84 | handleSubmit's guard: a successful upload and a non-blank description |
| Upload.SizeLimitInclusive | src/pages/UploadPage.tsx:56-66 | with an accepted type, 5*1024*1024 bytes passes and one byte more is rejected |
| Upload.TypeChecked | src/pages/UploadPage.tsx:55-61 | only the PDF and DOCX MIME types are accepted, whatever the size |
| Upload.ButtonStricterThanHandler | src/pages/UploadPage.tsx:83-90 | whenever the button rule holds the handler's guard holds, and the guard alone admits a description the button refuses |
| Upload.RulesIgnoreSurroundingWhitespace | src/pages/UploadPage.tsx:84-90 | trimming the description never changes either rule |
| Upload.HintBelowRule | src/pages/UploadPage.tsx:90 | a description of exactly 50 characters, optionally followed by spaces, never makes the form valid |
| Upload.UploadForm.constructor | src/pages/UploadPage.tsx:25-32 | no file, idle, empty fields, no highlight, no pending timer |
| Upload.UploadForm.HandleDrag | src/pages/UploadPage.tsx:34-42 | dragenter/dragover set the highlight, dragleave clears it, any other event leaves it; nothing else changes |
| Upload.UploadForm.HandleFile | src/pages/UploadPage.tsx:54-75 | a rejected file sets error and keeps the previous file; an accepted one becomes the file, status uploading, one more pending timer |
| Upload.UploadForm.HandleDrop | src/pages/UploadPage.tsx:44-52 | clears the highlight and handles the first dropped file, if any, as HandleFile does |
| Upload.UploadForm.HandleFileInput | src/pages/UploadPage.tsx:77-81 | handles the first chosen file, if any, as HandleFile does |
| Upload.UploadForm.UploadTimerFires | src/pages/UploadPage.tsx:71-74 | a pending timer sets success whatever the status has become, keeping the file |
| Upload.UploadForm.Remove | src/pages/UploadPage.tsx:179-183 | no file and status idle; the fields are untouched |
| Upload.UploadForm.TryAgain | src/pages/UploadPage.tsx:203-206 | status idle with the file kept |
| Upload.UploadForm.Edit | src/pages/UploadPage.tsx:224-289 | sets exactly the field edited; upload state and the other fields are unchanged |
| Upload.UploadForm.HandleSubmit | src/pages/UploadPage.tsx:83-88 | navigates to /interview/start exactly when the status is success and the trimmed description is non-empty |
| Upload.UploadAndContinue | src/pages/UploadPage.tsx:44-90 | dropping a valid PDF, letting its timer fire and entering a long description keeps the file and submits |
| Upload.UploadForm.HintCount | src/pages/UploadPage.tsx:231 | the character count under the text area: the untrimmed description length |
| Upload.UploadForm.IsValid | src/pages/UploadPage.tsx:90 | isValid read from the form state: FormValid of its status and description |
| Upload.HintMetButDisabled | src/pages/UploadPage.tsx:90-231 | with an uploaded file and exactly 50 characters typed, the hint shows 50 and the submit button stays disabled |
| Upload.SubmitWithoutCv | src/pages/UploadPage.tsx:68-88 | two accepted files, a Remove between their timers: the form is valid with no file and submit navigates |
| StartInterview.AppLanguagesOffered | src/pages/StartInterviewPage.tsx:47-52 | every application language is an offered interview language, so the initial choice is listed |
| StartInterview.MultiIsInterviewOnly | src/pages/StartInterviewPage.tsx:47-52 | "multi" is offered but is no application language and is not restored as one |
| StartInterview.InterviewSetup.constructor | src/pages/StartInterviewPage.tsx:24-28 | cv-1, jd-1, mixed, the application's current language code, permission unknown |
| StartInterview.InterviewSetup.StartEnabled | src/pages/StartInterviewPage.tsx:272 | the Start button is disabled exactly when access was denied |
| StartInterview.InterviewSetup.CheckAccessShown | src/pages/StartInterviewPage.tsx:258 | the Check Access button shows unless access was granted |
| StartInterview.InterviewSetup.SelectCv | src/pages/StartInterviewPage.tsx:103 | sets the CV choice only |
| StartInterview.InterviewSetup.SelectJd | src/pages/StartInterviewPage.tsx:127 | sets the job-description choice only |
| StartInterview.InterviewSetup.SelectInterviewType | src/pages/StartInterviewPage.tsx:150 | sets the interview type only |
| StartInterview.InterviewSetup.SelectInterviewLanguage | src/pages/StartInterviewPage.tsx:176 | sets the interview language only |
| StartInterview.InterviewSetup.CheckMicPermission | src/pages/StartInterviewPage.tsx:54-62 | granted when the request succeeds, denied when it fails |
| StartInterview.InterviewSetup.HandleStartInterview | src/pages/StartInterviewPage.tsx:64-70 | navigates to /interview/live only if permission was already granted; otherwise only runs the check |
| StartInterview.StartTakesTwoClicks | src/pages/StartInterviewPage.tsx:64-70 | on a fresh page the first click obtains access without navigating, the second navigates |
| StartInterview.RecoverFromDenial | src/pages/StartInterviewPage.tsx:258-272 | after a denial Start is disabled and Check Access is offered; once access is granted Check Access is gone and Start reaches the live session |
| FeedbackReport.ScoreColor | src/pages/FeedbackReportPage.tsx:80-84 | getScoreColor: success from 85, primary from 70, warning below |
| FeedbackReport.ScoreBg | src/pages/FeedbackReportPage.tsx:86-90 | getScoreBg: the same thresholds with the /10 backgrounds |
| FeedbackReport.SuggestedAnswerShown | src/pages/FeedbackReportPage.tsx:230-237 | the suggested-answer box renders under the open question when its answer is a non-empty string |
| FeedbackReport.BandOf | src/pages/FeedbackReportPage.tsx:80-90 | the high band is 85 and up, the middle 70 to 84, the low band below 70 |
| FeedbackReport.ScoreColorIsBandTone | src/pages/FeedbackReportPage.tsx:80-84 | the text colour is the tone of the score's band |
| FeedbackReport.ScoreBgIsBandTone | src/pages/FeedbackReportPage.tsx:86-90 | the background is the tone of the same band |
| FeedbackReport.ColorAgreesWithBackground | src/pages/FeedbackReportPage.tsx:80-90 | two scores share a colour exactly when they share a background |
| FeedbackReport.BandMonotone | src/pages/FeedbackReportPage.tsx:80-90 | a higher score never falls in a lower band |
| FeedbackReport.Toggled | src/pages/FeedbackReportPage.tsx:211 | clicking the open question closes it, clicking another opens exactly that one; at most one is open |
| FeedbackReport.ToggleTwiceCloses | src/pages/FeedbackReportPage.tsx:211 | two clicks on a closed question leave nothing open |
| FeedbackReport.ToggleTwiceRestoresOpen | src/pages/FeedbackReportPage.tsx:211 | two clicks on the open question reopen it |
| FeedbackReport.SuggestedAnswerVisibility | src/pages/FeedbackReportPage.tsx:230-237 | a suggested answer shows only under the open question, never when it is null, always when it is non-empty |
| FeedbackReport.ReportView.constructor | src/pages/FeedbackReportPage.tsx:24 | the first question starts open |
| FeedbackReport.ReportView.ToggleQuestion | src/pages/FeedbackReportPage.tsx:211 | the open question becomes the toggled one |
| FeedbackReport.OpenThenClose | src/pages/FeedbackReportPage.tsx:211 | from a fresh page, clicking question 2 opens it alone and clicking it again closes all |
| Navbar.AuthenticatedProp | src/components/Navbar.tsx:14 | an absent isAuthenticated prop reads as not authenticated |
| Navbar.UserTypeProp | src/components/Navbar.tsx:14 | an absent userType prop reads as a candidate |
| Navbar.Links | src/components/Navbar.tsx:50-52 | the public links when signed out, else the coach or candidate links by user type |
| Navbar.IsHashLink | src/components/Navbar.tsx:69 | a link is a hash link when its target starts with "#" |
| Navbar.IsActive | src/components/Navbar.tsx:70-72 | a hash link is active when it is the location's hash, a route link when it is the pathname |
| Navbar.SignedOutSeesPublicLinks | src/components/Navbar.tsx:19-52 | unless authenticated, the three public hash links, whatever the user type |
| Navbar.SignedInLinks | src/components/Navbar.tsx:37-52 | authenticated: the four coach links, exactly the coach list, exactly for a coach, the candidate links otherwise (also by default), all route links |
| Navbar.LinkSetsDistinct | src/components/Navbar.tsx:19-48 | no link set repeats a target |
| Navbar.AtMostOneActiveIn | src/components/Navbar.tsx:69-72 | in a same-kind set with distinct targets at most one link is active |
| Navbar.AtMostOneActive | src/components/Navbar.tsx:50-72 | for any props and location at most one shown link is highlighted |
| Navbar.LabelsHaveEnglishText | src/components/Navbar.tsx:19-48 | every label key shown is an entry of the English navigation table |
| Navbar.Intercepts | src/components/Navbar.tsx:27 | handleNavClick takes over a click only for a hash link while on the home page |
| Navbar.MobileMenu.constructor | src/components/Navbar.tsx:17 | the mobile menu starts closed |
| Navbar.MobileMenu.ToggleMenu | src/components/Navbar.tsx:133 | flips the menu |
| Navbar.MobileMenu.HandleNavClick | src/components/Navbar.tsx:25-35 | prevents the default exactly for a hash link on "/", and then scrolls and closes the menu only if the element is found |
| Navbar.MobileMenu.RouteLinkClick | src/components/Navbar.tsx:172 | a mobile route link closes the menu |
| Navbar.HashLinkAwayFromHome | src/components/Navbar.tsx:25-35 | off the home page a hash-link click is not intercepted and the open menu stays open |
| CoachDashboard.FirstChar | src/pages/CoachDashboard.tsx:130 | `n[0]` as join renders it: the first character, or nothing for an empty piece |
| CoachDashboard.JoinFirstChars | src/pages/CoachDashboard.tsx:130 | `.map(n => n[0]).join('')`: those first characters concatenated in order |
| CoachDashboard.Initials | src/pages/CoachDashboard.tsx:130 | the candidate's initials: the first character of each space-separated piece, joined |
| CoachDashboard.ScoreClass | src/pages/CoachDashboard.tsx:139-143 | the score cell's colour class by the 85 and 70 thresholds |
| CoachDashboard.JoinFirstCharsOfWords | src/pages/CoachDashboard.tsx:130 | the joined first characters are exactly the first characters of the non-empty pieces, in order |
| CoachDashboard.InitialsAreWordStarts | src/pages/CoachDashboard.tsx:130 | the initials have one character per non-empty word, each the word's first character, in word order |
| CoachDashboard.InitialsHaveNoSpace | src/pages/CoachDashboard.tsx:130 | initials never contain a space |
| CoachDashboard.InitialsOfTwoWords | src/pages/CoachDashboard.tsx:130 | "First Last" gives the two first letters |
| CoachDashboard.ScoreClassIsReportColor | src/pages/CoachDashboard.tsx:139-143 | the dashboard's score class equals the report page's getScoreColor for every score |
| JsString.NatToString | src/pages/LiveInterviewPage.tsx:87 | the decimal text is non-empty digits without a leading zero |
| JsString.DecimalRoundTrip | src/pages/LiveInterviewPage.tsx:87 | reading the decimal text back gives the number |
| JsString.NatToStringLength | src/pages/LiveInterviewPage.tsx:87 | one digit exactly below 10, two digits from 10 to 99 |
| JsString.PadStart | src/pages/LiveInterviewPage.tsx:87 | the result is the longer of the width and the input, ends with the input and is padded on the left |
| JsString.Trim | src/pages/UploadPage.tsx:84-90 | String.prototype.trim: cuts ECMAScript white space and line terminators from both ends |
| JsString.TrimSpec | src/pages/UploadPage.tsx:84 | trim returns a slice of the input with only white space cut at either end, and no white space at its ends |
| JsString.TrimEmptyIff | src/pages/UploadPage.tsx:84 | trim is empty exactly for all-white-space input |
| JsString.TrimIdempotent | src/pages/UploadPage.tsx:90 | trimming twice is trimming once |
| JsString.TrimUntouched | src/pages/UploadPage.tsx:84 | a string with no white space at either end trims to itself |
| JsString.TrimBoundedByBlankTail | src/pages/UploadPage.tsx:90 | white space from position k on bounds the trimmed length by k |
| JsString.StartsWith | src/components/Navbar.tsx:27 | `s.startsWith(prefix)` with no position argument: the prefix fits and equals `s`'s first `|prefix|` characters |
| JsString.StartsWithConcat | src/components/Navbar.tsx:69 | a string starts with a prefix exactly when it is that prefix followed by some rest |
| JsString.Split | src/pages/CoachDashboard.tsx:130 | split gives at least one piece and no piece contains the separator |
| JsString.JoinSplit | src/pages/CoachDashboard.tsx:130 | joining the pieces with the separator gives the string back |
| JsString.SplitCount | src/pages/CoachDashboard.tsx:130 | there is one piece more than there are separators |
| JsString.SplitAtFirstSeparator | src/pages/CoachDashboard.tsx:130 | the text before the first separator is the first piece |

## Left out

- JSX markup, CSS class strings other than the score classes, icons and animations, including the random waveform heights of the live page and the hero section.
- Timing: one-second intervals, the 1.5 s upload delay and effect clean-up are modelled as discrete events, not as durations.
- `Math.random() > 0.7` in the language detection is a free boolean choice, not a probability.
- `getUserMedia` is collapsed into its outcome. The permission check's asynchrony is not modelled, nor is stopping the stream's tracks.
- `document.documentElement.dir`/`lang`: the direction is modelled by `DirectionOf`, but the DOM effect that applies it is not.
- `document.querySelector` and `scrollIntoView` are represented by the `elementFound` input and `scrolledTo`.
- `localStorage` is the provider's `stored` field: one key, always available, never throwing.
- Language.Translate: JavaScript object lookup also finds inherited properties such as "constructor"; the tables are modelled as plain maps without them.
- Strings are sequences of Unicode scalar values. JavaScript's UTF-16 code units are not modelled, so `n[0]` of a word starting with a surrogate pair differs, and `length` is counted per scalar.
- JavaScript numbers are modelled as integers. Scores, sizes and seconds are never fractional here, and the file-size text `(size/1024/1024).toFixed(2)` (floating point) is not modelled.
- LiveInterview.Session.HandleNextQuestion: the disabled Next button is a rendering rule (`NextEnabled`), not a precondition of the handler, which is what the source does.
- Navigation ends the page in the browser; in the model, methods stay callable after `navigatedTo` is set.
- The mock report, session, candidate, CV and job-description data beyond the option ids and the eight questions; the landing sections, footer, index page, CTA section, candidate dashboard, authentication page and the route table in App.tsx are not part of this model.
- The interview-language choice is never passed on to the live page (the source does not pass it either); only its initial value and the offered ids are modelled.
