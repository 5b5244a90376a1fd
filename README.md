# Health tracker front end: a verified model

This project models the logic of a single-page health tracker, a React front
end whose risk scoring, health content and chat answers come from a large
language model. The model covers the sequential logic inside the
components' event handlers. That logic includes:

- the session kept in browser storage: startup restore, sign-up, login and
  logout, and which screen is shown;
- the credential check of the login form;
- the sign-up form and the patient record it builds, including the
  comma-separated list normalisation;
- the prediction service: calendar age, the request parts and the
  validation of the model's reply;
- the request/response state of the dashboard analysis, the ad-hoc
  predictor, the resources page and the chat widget;
- the pure transforms of the profile and chart panels.

Layout, one module per source file plus two shared ones:

| file | module | models |
|---|---|---|
| `types.dfy` | `Types` | the records of `types.ts`; Option, Outcome and Result wrappers; form change events |
| `text.dfy` | `Text` | the JavaScript string built-ins used: `trim`, `split` on one character, `join` |
| `storage.dfy` | `Storage` | browser storage as a map; the three keys; JSON conversions as functions |
| `prediction_service.dfy` | `PredictionService` | `services/predictionService.ts` |
| `app.dfy` | `App` | `App.tsx` |
| `login.dfy` | `Login` | `components/Login.tsx` |
| `sign_up.dfy` | `SignUp` | `components/SignUp.tsx` |
| `dashboard.dfy` | `Dashboard` | `components/Dashboard.tsx` |
| `predictor.dfy` | `Predictor` | `components/Predictor.tsx` |
| `chatbot_widget.dfy` | `ChatbotWidget` | `components/ChatbotWidget.tsx` |
| `resources.dfy` | `Resources` | `components/Resources.tsx` |
| `patient_profile.dfy` | `PatientProfile` | `components/PatientProfile.tsx` |
| `vitals_chart.dfy` | `VitalsChart` | `components/VitalsChart.tsx` |

How the model is built:

- **Stateful components are classes.** Each one is a class whose fields are the
  component's state. The two halves of an async handler are two methods:
  `Begin…` runs up to the `await` and `Finish…` is the continuation. The awaited
  call's result is an `Outcome` argument (`Success(value)` or `Failure`). A
  combined method runs the whole handler to completion against the service's
  modelled reply.
- **The application shell is modelled twice.** Transition functions on an
  `AppState` value carry the stated properties. The class `App.AppShell` runs the
  same handlers statement by statement and is proved equal to those functions.
- **Storage and JSON are abstract.** Storage is `map<string, string>`. JSON
  parsing and stringifying are function parameters. A parse returns `None`
  exactly where `JSON.parse` would throw.
- **JavaScript numbers.** A number read with `parseFloat` is modelled as a
  finite real number or `NaN`; infinities are not represented (see
  "Left out"). The BMI division and its rounding are function parameters.

## Model

| member | source | states |
|---|---|---|
| Types.ValueOf | components/Predictor.tsx:44-53 | a checkbox's change event contributes the flag `checked`, and any other input's contributes the text `value` |
| Text.Trim | components/ChatbotWidget.tsx:23 | the result is a contiguous slice of the input with only whitespace removed around it, it has no whitespace at either end, and it is empty exactly when the input is all whitespace |
| Text.TrimIdempotent | components/ChatbotWidget.tsx:23 | trimming twice gives the same string as trimming once |
| Text.Split | components/SignUp.tsx:52 | splitting gives at least one piece, no piece contains the separator, and joining the pieces with the separator gives back the input |
| Text.SplitJoin | components/SignUp.tsx:52 | splitting undoes joining when no piece contains the separator |
| Text.SplitCount | components/Dashboard.tsx:23 | a string splits into more than one piece exactly when it contains the separator |
| PredictionService.CalculateAge | services/predictionService.ts:4-13 | the result is the number of completed years (the last anniversary reached, the next not yet), and on the birthday itself it is the full year difference |
| PredictionService.AgeUnique | services/predictionService.ts:4-13 | the completed-years age on a given day is unique |
| PredictionService.AgeMonotone | services/predictionService.ts:4-13 | age never decreases as today advances |
| PredictionService.AgeNonNegative | services/predictionService.ts:4-13 | a birth date on or before today gives a non-negative age |
| PredictionService.GeneratePrediction | services/predictionService.ts:43-67 | a failed call is the service error; a reply is accepted exactly when its trimmed text parses and has a truthy disease, a truthy risk label and recommendations present; every other reply is the one parse error; an accepted reply's fields are passed on unchanged |
| PredictionService.UncheckedFieldsIgnored | services/predictionService.ts:58-60 | acceptance does not depend on the probability or the contributors, although the schema marks them required |
| PredictionService.AnalysisParts | services/predictionService.ts:69-99 | the first part is the text prompt with the patient's age, sex, BMI, the joined conditions (or "None") and the query (or the fixed default query); a second part carrying the file's type and data unchanged is present exactly when a file is given |
| PredictionService.Metres | services/predictionService.ts:103 | the metre height is positive exactly when the centimetre height is |
| PredictionService.AdHocBmi | services/predictionService.ts:103-105 | the BMI text is the formatted value when height and weight are both positive and "N/A" otherwise |
| PredictionService.AdHocParts | services/predictionService.ts:102-126 | the ad-hoc request is a single text part; empty symptoms, conditions and family history read "None"; every other value is the form's text |
| PatientProfile.CalculateAge | components/PatientProfile.tsx:10-19 | the component's copy of the age computation also yields the completed-years age |
| PatientProfile.AgeCopiesAgree | components/PatientProfile.tsx:10-19 | the component's copy and the service's copy compute the same age |
| PatientProfile.FirstIndex | components/PatientProfile.tsx:30 | the first position of an element: it holds the element and no earlier position does |
| PatientProfile.Dedup | components/PatientProfile.tsx:30 | `Array.from(new Set(xs))` has the same members as `xs`, no duplicates, and keeps them in order of first occurrence |
| PatientProfile.Flatten | components/PatientProfile.tsx:30 | the flattened symptoms are exactly those appearing in some log |
| PatientProfile.RecentSymptoms | components/PatientProfile.tsx:30 | every symptom of every log appears once, in order of first occurrence; the list is empty ("None reported") exactly when no log has a symptom |
| PatientProfile.ActivityLabel | components/PatientProfile.tsx:23-28 | a non-empty label exists exactly for the four activity levels |
| VitalsChart.Reverse | components/VitalsChart.tsx:16 | element `i` of the reversed series is element `n-1-i` of the original |
| VitalsChart.ReverseReverse | components/VitalsChart.tsx:16 | reversing twice gives the original series |
| VitalsChart.ChartData | components/VitalsChart.tsx:11-16 | one point per log; point `i` comes from log `n-1-i` and copies its glucose and blood pressures unchanged |
| VitalsChart.TrendNeedsTwoLogs | components/VitalsChart.tsx:21 | the trend is drawn exactly when there are at least two logs |
| Resources.ReplaceNewlines | components/Resources.tsx:99 | the result has no newline, content without newlines is unchanged, and each newline grows the text by the five extra characters of `<br />` |
| Resources.ReplaceNewlinesAppend | components/Resources.tsx:99 | the replacement distributes over concatenation |
| Resources.ReplaceNewlinesCons | components/Resources.tsx:99 | a newline becomes exactly `<br />` and any other character stays itself, in front of the replaced rest |
| Resources.ResourcesPage.constructor | components/Resources.tsx:15-18 | empty topic and content, not loading, no error |
| Resources.ResourcesPage.SetTopic | components/Resources.tsx:58 | the search box sets the topic and nothing else |
| Resources.ResourcesPage.BeginFetch | components/Resources.tsx:20-24 | the empty topic changes nothing and sends nothing; any other topic, whitespace-only included, is sent, with loading set and error and content cleared |
| Resources.ResourcesPage.FinishFetch | components/Resources.tsx:25-33 | success sets the content, failure sets the fixed message; loading ends either way |
| Resources.ResourcesPage.HandleTopicClick | components/Resources.tsx:36-39 | the topic becomes the clicked one and that same topic is fetched: a non-empty one starts loading with error and content cleared, an empty one changes nothing else |
| Resources.ResourcesPage.HandleSearch | components/Resources.tsx:41-44 | an empty topic leaves the page unchanged and sends nothing; any other topic is sent as it stands, loading starts and error and content are cleared |
| Resources.ResourcesPage.DisplayedHtml | components/Resources.tsx:97-99 | HTML is shown exactly for non-empty content, and it is the content with every newline replaced |
| ChatbotWidget.BotReply | components/ChatbotWidget.tsx:30-34 | the bot entry is the reply on success and the fixed apology on failure |
| ChatbotWidget.Chat.constructor | components/ChatbotWidget.tsx:7-12 | the log starts as exactly the one greeting |
| ChatbotWidget.Chat.SetOpen | components/ChatbotWidget.tsx:44 | the open and close buttons set the open flag |
| ChatbotWidget.Chat.SetInput | components/ChatbotWidget.tsx:93 | the input box sets the input |
| ChatbotWidget.Chat.BeginSend | components/ChatbotWidget.tsx:21-28 | blank input changes nothing; otherwise the untrimmed text is appended as a user entry and sent, the input is cleared and loading starts |
| ChatbotWidget.Chat.FinishSend | components/ChatbotWidget.tsx:30-37 | exactly one bot entry is appended and loading ends |
| ChatbotWidget.Chat.HandleSendMessage | components/ChatbotWidget.tsx:21-38 | blank input changes nothing; an accepted send extends the log by exactly the user entry and one bot entry, clears the input and ends loading; earlier entries are never changed and the widget stays open or closed as it was |
| ChatbotWidget.Chat.SendDisabled | components/ChatbotWidget.tsx:98 | the send button is disabled exactly while loading or when the input is all whitespace |
| Predictor.Get | components/Predictor.tsx:44-53 | a form field reads as a flag exactly for the two checkbox fields |
| Predictor.Set | components/Predictor.tsx:44-53 | the named field takes the new value and every other field keeps its own |
| Predictor.ShownBmi | components/Predictor.tsx:32-41 | the BMI is shown exactly when the parsed height and weight are both positive, and then it is the value the request carries |
| Predictor.PredictorPage.constructor | components/Predictor.tsx:26-29 | the form starts from its fixed initial values, with no prediction, no loading and no error |
| Predictor.PredictorPage.HandleChange | components/Predictor.tsx:44-53 | the named field becomes `checked` or `value`; every other field is unchanged |
| Predictor.PredictorPage.BeginSubmit | components/Predictor.tsx:55-59 | loading starts and error and prediction are cleared before the call; the form is the request |
| Predictor.PredictorPage.FinishSubmit | components/Predictor.tsx:60-68 | success sets the prediction, failure sets the fixed message; loading ends either way |
| Predictor.PredictorPage.HandleSubmit | components/Predictor.tsx:55-69 | the request is the single ad-hoc text part; the page ends with the prediction exactly when the reply is accepted and with the message otherwise |
| SignUp.Get | components/SignUp.tsx:27-34 | a form field reads as a flag exactly for the two checkbox fields |
| SignUp.Set | components/SignUp.tsx:27-34 | the named field takes the new value and every other field keeps its own |
| SignUp.DropEmpty | components/SignUp.tsx:52-54 | `filter(Boolean)` keeps exactly the non-empty strings, and a list without empty strings is kept whole |
| SignUp.DropEmptyAppend | components/SignUp.tsx:52-54 | filtering distributes over concatenation, so order is kept |
| SignUp.TrimEach | components/SignUp.tsx:52-54 | each piece is trimmed in place |
| SignUp.NormalizeListItems | components/SignUp.tsx:52-54 | every entry of a normalised list is non-empty, has no comma and has no surrounding whitespace |
| SignUp.NormalizeSingle | components/SignUp.tsx:52-54 | text without commas gives its trimmed self, or the empty list when it is blank |
| SignUp.NormalizeJoin | components/SignUp.tsx:52-54 | proper list entries joined with commas normalise back to the same list |
| SignUp.NormalizeConcat | components/SignUp.tsx:52-54 | text joined at a comma normalises to the two normalised lists in order: entries keep their left-to-right order |
| SignUp.NormalizeStable | components/SignUp.tsx:52-54 | normalising is idempotent through the comma-joined text |
| SignUp.NewPatient | components/SignUp.tsx:36-63 | the id is `user_` plus the clock suffix; credentials, name, birth date, sex and food summary are copied verbatim; height and weight are parsed; the three lists are normalised; the lifestyle flags are the form's |
| SignUp.NewPatientListsAreClean | components/SignUp.tsx:52-54 | every list of a new patient holds proper entries only |
| SignUp.NoneNormalizes | components/SignUp.tsx:18-20 | the default "None" gives the one-entry list `["None"]`, not the empty list |
| SignUp.UntouchedListsAreNone | components/SignUp.tsx:18-20 | a patient signed up with the list fields untouched lists "None" in each |
| SignUp.SignUpPage.constructor | components/SignUp.tsx:10-25 | the form starts from its fixed initial values |
| SignUp.SignUpPage.HandleChange | components/SignUp.tsx:27-34 | the named field becomes `checked` or `value`; every other field is unchanged |
| SignUp.SignUpPage.HandleSubmit | components/SignUp.tsx:36-63 | the submit hands over the patient built from the current form |
| Dashboard.FileToBase64 | components/Dashboard.tsx:23 | a payload is extracted exactly when the data URL contains a comma, and it contains no comma |
| Dashboard.DataUrlRoundTrip | components/Dashboard.tsx:16-27 | the extraction gives back exactly the payload of a `data:<type>;base64,<payload>` URL |
| Dashboard.RequestFile | components/Dashboard.tsx:54-61 | file data is sent exactly when a file is selected, with the file's type and the payload extracted from what was read |
| Dashboard.RequestFileCarriesPayload | components/Dashboard.tsx:54-61 | a file read as a data URL of its own type reaches the service with exactly its payload |
| Dashboard.DashboardPage.constructor | components/Dashboard.tsx:30-34 | nothing selected, nothing loaded; the form shows with its button disabled |
| Dashboard.DashboardPage.HandleFileChange | components/Dashboard.tsx:36-40 | the first chosen file replaces the selection; an empty choice keeps it |
| Dashboard.DashboardPage.ClearFile | components/Dashboard.tsx:133 | the remove button clears the selection only |
| Dashboard.DashboardPage.SetManualInput | components/Dashboard.tsx:118 | the query box sets the query only |
| Dashboard.DashboardPage.BeginAnalysis | components/Dashboard.tsx:42-51 | with neither query nor file only the validation message is set, under exactly the condition that disables the button; otherwise loading starts, error and result are cleared and the spinner shows |
| Dashboard.DashboardPage.FinishAnalysis | components/Dashboard.tsx:53-69 | success sets the result, failure sets the fixed message; loading ends either way |
| Dashboard.DashboardPage.View | components/Dashboard.tsx:83-107 | the spinner exactly while loading; otherwise the error panel exactly for a non-empty error; otherwise the result exactly when there is one; otherwise the form, its button disabled exactly when there is neither query nor file |
| Dashboard.DashboardPage.HandleAnalysisSubmit | components/Dashboard.tsx:42-70 | a request is sent exactly when there is input and any selected file was read; it is the analysis request with the query as typed and the file's extracted payload; an accepted reply leaves the result set and no error, anything else leaves the fixed message and no result; loading ends and the area shows the result or the error panel accordingly |
| Dashboard.DashboardPage.ResetAnalysis | components/Dashboard.tsx:72-77 | result, query, file and error are cleared, whatever they were, so a second reset changes nothing; the empty form then shows |
| Login.CredentialsMatch | components/Login.tsx:25 | a match needs both stored credentials present and equal to the entered ones |
| Login.LoginDecision | components/Login.tsx:13-30 | no stored profile gives the no-account message; an unparsable profile throws; the callback runs exactly when both credentials match, and the invalid-credentials message is given exactly when they do not |
| Login.NoProfileNoLogin | components/Login.tsx:17-21 | a store without a profile rejects every login with the no-account message |
| Login.LoginForm.constructor | components/Login.tsx:9-11 | empty username, password and error |
| Login.LoginForm.SetUsername | components/Login.tsx:54 | the username box sets the username only |
| Login.LoginForm.SetPassword | components/Login.tsx:66 | the password box sets the password only |
| Login.LoginForm.HandleSubmit | components/Login.tsx:13-30 | the result is the login decision; the error is reset and then holds the rejection's message, or stays empty |
| App.Initial | App.tsx:18-22 | at mount nothing is loaded and the app is not initialised |
| App.Startup | App.tsx:24-47 | a restorable session loads the parsed profile and logs without touching storage; a parse failure loads nothing and removes all three keys; a flag other than "true" or a missing entry changes nothing; initialisation is reached on every path |
| App.SeedLogs | App.tsx:50-55 | exactly two seed logs, L01 and L02, both carrying the new patient's id |
| App.AfterSignUp | App.tsx:49-65 | the profile and then the seed logs are written; the page turns to login only when both writes succeed; the session flag and the loaded patient and logs never change |
| App.AfterLogin | App.tsx:67-77 | with both entries present and parsed, they are loaded as stored and the flag is set to "true"; otherwise nothing changes |
| App.AfterLogout | App.tsx:79-83 | the loaded patient and logs are cleared and only the session flag is removed |
| App.AfterLoginSubmit | App.tsx:93-95 | a login submit runs the login handler exactly when the form's decision calls it |
| App.ScreenOf | App.tsx:85-98 | the spinner shows exactly before initialisation; the main page shows exactly when a patient is loaded, and it is the current page; otherwise the login or sign-up page |
| App.SignUpThenLogin | App.tsx:49-77 | a successful sign-up followed by a login with the same credentials loads exactly that patient and its two seed logs and activates the session |
| App.SignUpFormThenLogin | components/SignUp.tsx:42-62 | the account a sign-up form creates accepts that form's own username and password |
| App.LoginSurvivesReload | App.tsx:24-77 | a login that loaded a session is restored unchanged by a reload |
| App.LogoutSurvivesReload | App.tsx:24-83 | after logout a reload shows the login page with nothing loaded, and the same credentials meet the same stored profile |
| App.CorruptedStorageRecovered | App.tsx:38-43 | after a parse failure at startup no application key is left, the next reload restores nothing, and login reports no account |
| App.MissingEntryRestoresNothing | App.tsx:27-37 | a session flag with a stored entry missing restores nothing and removes nothing |
| App.AppShell.constructor | App.tsx:18-22 | the component mounts in the initial state over the given storage |
| App.AppShell.RunStartup | App.tsx:24-47 | the startup effect, statement by statement, ends in the state `Startup` gives |
| App.AppShell.HandleSignUp | App.tsx:49-65 | the sign-up handler ends in the state `AfterSignUp` gives |
| App.AppShell.HandleLogin | App.tsx:67-77 | the login handler ends in the state `AfterLogin` gives, and it throws exactly when a stored entry does not parse |
| App.AppShell.HandleLogout | App.tsx:79-83 | the logout handler ends in the state `AfterLogout` gives |
| App.AppShell.Navigate | App.tsx:119 | navigation sets the current page only |
| App.AppShell.ShowAuthPage | App.tsx:95-97 | the links between the login and sign-up pages set the auth page only |
| App.AppShell.SubmitLogin | App.tsx:95 | the login form's decision is the form's own, the form keeps its credentials and shows the rejection's message or no error, and the shell ends in the state `AfterLoginSubmit` gives |
| App.AppShell.SubmitSignUp | App.tsx:97 | the sign-up form's patient is passed to the sign-up handler |

## Left out

- Infinite numbers: `parseFloat` yields `Infinity` for inputs such as "Infinity" or "1e999"; the model's `parseFloat` parameter returns a finite number or `NaN`, so a height or weight read as infinite is not modelled.
- BMI arithmetic and rounding: the `toFixed(1)` BMI of the predictor and of the ad-hoc request, and the parsed-and-rounded `baseline_BMI` of sign-up, are function parameters. Only the positivity guard is modelled.
- Model calls: the prediction, chat and content services are outcomes supplied to the handlers. The prompt prose is reduced to the values interpolated into it.
- JSON: the syntax is not modelled; parse and stringify are function parameters. JSON.stringify writes NaN as null, so a patient whose height or weight did not parse does not survive a round trip. The session lemmas therefore require the round trip only for the records they store.
- JSON values that are not objects: a stored text that parses to `null` or a number is not modelled. The model's parse yields a patient or fails.
- Storage exceptions: `getItem` and `removeItem` are taken never to throw. The two `setItem` calls of sign-up may fail, and that is modelled. The `setItem` of login is taken to succeed.
- FileReader: reading the file is an outcome carrying the data URL text. Base64 encoding is not modelled; only the `split(',')[1]` step is.
- Dates: `new Date(dob)` and the clock are parameters (`parseDate`, `today`), and time zones are not modelled. The chart's `toLocaleDateString` is a parameter too.
- Patient id: the clock-derived suffix of `patient_id` is a parameter.
- Async interleaving: each handler runs to completion with its awaited outcome supplied. The chat's continuation appends to the captured `newMessages`; that is the same as appending to the current log only when nothing else ran in between.
- Browser behaviour: form validation of the `required` sign-up and login inputs is not modelled. Neither is the chat input being disabled while loading, nor scrolling.
- PatientProfile.ActivityLabel: an activity level that names a property inherited by every JavaScript object (such as `toString`) is treated as having no label.
- Markup: Header.tsx, About.tsx, Spinner.tsx, PredictionCard.tsx, Recommendations.tsx and DailyLogList.tsx render markup only and are not part of this model. The `HealthInfo` record of types.ts is unused by the code modelled.
- Features the code does not have: re-dating logs at login, a credential check inside the App's login handler, a theme storage key, Markdown-to-markup conversion of health content and a CSV export. Some descriptions of this application mention them. The model follows the code, which has none of them.
