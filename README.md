# LifeAlert emergency alert — a Dafny model

LifeAlert is a small Next.js application. A signed-in user presses one button; the browser reads the
device position and posts `{ lat, lng, userId }` to the route `POST /api/send-alert`. The route
looks up the user's row in the `user_contacts` table, splits its comma-separated phone numbers and
email addresses, sends one SMS (Twilio) and one email (nodemailer) per recipient, logs one row in
the `alerts` table and answers. A settings page edits the contact row, and a dashboard lists the
logged alerts and prepends new ones as they arrive. Two stand-alone scripts read `.env.local`,
check the Twilio and mail credentials, and send one test message each.

The model covers:

- **`SendAlert`** (`send_alert.dfy`): the route as a method `Post` that returns the response and
  a trace of the calls it makes to the contacts table, the two transports and the alerts table.
  The collaborators are oracles in a `Services` value. `ExpectedTrace` and `ExpectedResponse`
  specify the route, and lemmas derive what it promises from them:
  - validation;
  - the "no contacts" refusal;
  - one attempt per recipient in list order, failures not stopping the loops;
  - one message body for every SMS;
  - the fixed order lookup → SMS → email → insert;
  - success however many sends fail.
- **`Contacts`** (`contacts.dfy`): parsing a contact column (`split(',')`, `trim`, drop empty
  pieces), with its order and idempotence, and the example `"+1555, +1556 ,  "`.
- **`JsText`** (`js_text.dfy`): the JavaScript string and value semantics the code relies on:
  - `trim` with ECMAScript's whitespace set;
  - `split` and `join` on one character;
  - `startsWith`, `includes` and `substring(0, n)`;
  - the truthiness of a decoded JSON value and its text in a template literal.
- **`EnvFile`** (`env_file.dfy`): the `.env.local` reader both scripts carry, as a loop that
  fills a map, specified by a fold over the lines.
- **`TwilioCheck`** and **`EmailCheck`** (`twilio_check.dfy`, `email_check.dfy`): each script
  as a method returning what it shows, what it asks of the service, the hint it adds
  and its exit code.
- **`HomePage`** (`home_page.dfy`): the home page as a class whose fields are the React state
  (`status`, `details`, `user`, `loading`) plus the effects it issues. `sendEmergency` is a method
  checked against `PressEffects`, the list of effects one press causes.
- **`SettingsPage`** (`settings_page.dfy`): the `user_contacts` table as a class holding a map,
  with `upsert`. The settings page is a class with `loadSettings`, the text-area edits and
  `handleSave`.
- **`Dashboard`** (`dashboard_page.dfy`): the alert list, set by the fetch and prepended to by
  each realtime INSERT.
- **`Scenarios`** (`scenarios.dfy`): examples on concrete values: the column
  `"+1555, +1556 ,  "`, and alerts from a user with and a user without a contact row.

Points where the route and the pages behave differently from what one might expect:

- **What counts as missing.** The route tests JavaScript truthiness (route.ts:19), so besides a
  missing or null field, a coordinate of exactly `0` and an empty `userId` are rejected too (`PostedAlertValidation`, `MissingFieldsRejected`).
- **Lookup errors.** A failing lookup query is answered like a missing row.
- **Insert errors.** An insert the table refuses is ignored, and the reply stays 200.
- **Saving settings.** supabase-js reports a refused upsert by returning an error, not by
  throwing. The settings page therefore shows "✅ Settings saved!" unless the call itself threw.

## Model

| member | source | states |
|---|---|---|
| SendAlert.HasRequiredFields | emergency-alert/app/api/send-alert/route.ts:19 | Defines what passes the route's check: `lat`, `lng` and `userId` all truthy |
| SendAlert.FindContacts | emergency-alert/app/api/send-alert/route.ts:27-33 | Defines the lookup with `.single()`: the row stored under the user's key, or nothing when the query fails or no row exists |
| SendAlert.MapsLink | emergency-alert/app/api/send-alert/route.ts:40 | Defines `https://maps.google.com/?q=${lat},${lng}` from the template-literal texts of the coordinates |
| SendAlert.MessageBody | emergency-alert/app/api/send-alert/route.ts:41 | Defines the SMS text: "EMERGENCY! Help needed immediately → " followed by the link |
| SendAlert.ExpectedTrace | emergency-alert/app/api/send-alert/route.ts:9-121 | Defines the calls the route makes for a request: none when the body is unreadable or a field falsy; the lookup alone without a row; otherwise lookup, the sends and the insert |
| SendAlert.ExpectedResponse | emergency-alert/app/api/send-alert/route.ts:9-121 | Defines the route's reply: 500 with the error's message, 400 "Missing data", 400 "No emergency contacts configured", or 200 "Alerts sent" |
| SendAlert.Post | emergency-alert/app/api/send-alert/route.ts:9-121 | The response and the call trace are exactly `ExpectedResponse` and `ExpectedTrace` of the request and the services' answers |
| SendAlert.SmsAttempts | emergency-alert/app/api/send-alert/route.ts:51-66 | Defines the SMS loop's calls: one attempt per phone, in list order, each with the shared body and the outcome of that position |
| SendAlert.EmailAttempts | emergency-alert/app/api/send-alert/route.ts:69-103 | Defines the email loop's calls: one attempt per address, in list order, each with the alert subject, the maps link and the outcome of that position |
| SendAlert.Dispatched | emergency-alert/app/api/send-alert/route.ts:51-103 | Defines the calls of both loops: all SMS attempts, then all email attempts |
| SendAlert.Dispatch | emergency-alert/app/api/send-alert/route.ts:51-103 | The two loops make the SMS attempts for the phones in order, then the email attempts for the addresses in order, whatever each attempt's outcome |
| SendAlert.UnreadableRequest | emergency-alert/app/api/send-alert/route.ts:114-120 | A body that cannot be read gives 500 with that error's message, and no call is made |
| SendAlert.MissingFieldsRejected | emergency-alert/app/api/send-alert/route.ts:19-24 | A falsy `lat`, `lng` or `userId` gives 400 "Missing data" with no lookup, no send and no insert |
| SendAlert.NoContactsRejected | emergency-alert/app/api/send-alert/route.ts:27-38 | A valid request without a contact row gives 400 "No emergency contacts configured"; the only call is the lookup: zero SMS, zero email, zero inserts |
| SendAlert.FoundTrace | emergency-alert/app/api/send-alert/route.ts:27-111 | With a contact row, the calls are the lookup, then the sends for the parsed lists, then the alert insert |
| SendAlert.FanOut | emergency-alert/app/api/send-alert/route.ts:44-113 | With a contact row, the SMS targets are exactly the parsed phones and the email targets the parsed addresses, in order. One record `{userId, lat, lng}` is inserted and the reply is 200 "Alerts sent" |
| SendAlert.DispatchedTargets | emergency-alert/app/api/send-alert/route.ts:51-103 | The sends reach exactly the given phones (SMS) and addresses (email), in order, and insert nothing |
| SendAlert.SmsAttemptsAt | emergency-alert/app/api/send-alert/route.ts:51-66 | There is one SMS attempt per phone; the i-th goes to the i-th phone with the shared body |
| SendAlert.EmailAttemptsAt | emergency-alert/app/api/send-alert/route.ts:69-103 | There is one email attempt per address; the i-th goes to the i-th address with the alert subject and the maps link |
| SendAlert.DispatchedCalls | emergency-alert/app/api/send-alert/route.ts:40-103 | The sends number phones + addresses. Every SMS comes before every email; each SMS carries the message body and each email the link and subject |
| SendAlert.SameMessageForAll | emergency-alert/app/api/send-alert/route.ts:40-97 | Every SMS of a request carries `"EMERGENCY! Help needed immediately → " + mapsLink`. Every email carries the same maps link and the alert subject |
| SendAlert.EventOrder | emergency-alert/app/api/send-alert/route.ts:27-111 | The trace is in stage order: lookup, all SMS, all email, insert. The lookup comes first and only there; the insert comes last and only there |
| SendAlert.OutcomesDoNotChangeAttempts | emergency-alert/app/api/send-alert/route.ts:51-113 | How the sends and the insert turn out changes neither which calls are made, nor their order, nor the response |
| SendAlert.SmsAttemptsErased | emergency-alert/app/api/send-alert/route.ts:52-65 | A failed SMS is caught: the outcomes do not change the SMS attempts made |
| SendAlert.EmailAttemptsErased | emergency-alert/app/api/send-alert/route.ts:70-102 | A failed email is caught: the outcomes do not change the email attempts made |
| Contacts.ColumnText | emergency-alert/app/api/send-alert/route.ts:44 | Defines the `or ''` fallback: a null or absent column reads as the empty text |
| Contacts.Recipients | emergency-alert/app/api/send-alert/route.ts:44 | Trimming and dropping empty pieces keeps at most as many pieces; each is non-empty with no surrounding whitespace |
| Contacts.ParseList | emergency-alert/app/api/send-alert/route.ts:44-45 | Every parsed entry is non-empty, trimmed and free of commas |
| Contacts.RecipientsKeepOut | emergency-alert/app/api/send-alert/route.ts:44 | A character absent from the pieces is absent from the recipients |
| Contacts.RecipientsAppend | emergency-alert/app/api/send-alert/route.ts:44 | Filtering keeps input order: the recipients of two runs of pieces are the recipients of each, concatenated |
| Contacts.RecipientsOfRecipients | emergency-alert/app/api/send-alert/route.ts:44 | Pieces that are already non-empty and trimmed pass through unchanged |
| Contacts.RecipientsMembership | emergency-alert/app/api/send-alert/route.ts:44 | `x` is a recipient iff it is non-empty and is the trim of some piece |
| Contacts.ParseMissing | emergency-alert/app/api/send-alert/route.ts:44 | A null or empty column parses to no recipients |
| Contacts.ParseAround | emergency-alert/app/api/send-alert/route.ts:44 | Parsing `a + "," + b` gives the entries of `a` followed by those of `b` |
| Contacts.RecipientsOfJoin | emergency-alert/app/api/send-alert/route.ts:44 | Joining clean, comma-free entries with ',' and parsing again gives them back |
| Contacts.ParseIdempotent | emergency-alert/app/api/send-alert/route.ts:44-45 | Parsing the ','-join of a parsed list gives the same list |
| Contacts.ParseThree | emergency-alert/app/api/send-alert/route.ts:44 | A column of three comma-free pieces parses to their trimmed non-empty pieces, in order |
| Contacts.ParseSingle | emergency-alert/app/api/send-alert/route.ts:44 | One clean entry without a comma parses to itself alone |
| Scenarios.TrimPadded | emergency-alert/app/api/send-alert/route.ts:44 | A clean entry with one space on each side trims back to the entry |
| JsText.IsWhitespace | emergency-alert/app/api/send-alert/route.ts:44 | Defines the characters `trim` removes: the WhiteSpace and LineTerminator code points of ECMAScript |
| JsText.Falsy | emergency-alert/app/api/send-alert/route.ts:19 | Defines JavaScript falsiness of a decoded JSON value: undefined, null, false, 0 and the empty string |
| JsText.Text | emergency-alert/app/api/send-alert/route.ts:40 | Defines the text `${v}` gives for a decoded JSON value |
| JsText.TrimStart | emergency-alert/app/api/send-alert/route.ts:44 | The result does not start with whitespace |
| JsText.TrimEnd | emergency-alert/app/api/send-alert/route.ts:44 | The result does not end with whitespace |
| JsText.Trim | emergency-alert/app/api/send-alert/route.ts:44 | The result has no whitespace at either end |
| JsText.TrimStartSuffix | emergency-alert/app/api/send-alert/route.ts:44 | `trimStart` keeps a suffix and what it drops is all whitespace |
| JsText.TrimEndPrefix | emergency-alert/app/api/send-alert/route.ts:44 | `trimEnd` keeps a prefix and what it drops is all whitespace |
| JsText.TrimInfix | emergency-alert/app/api/send-alert/route.ts:44 | `trim(s)` is an infix of `s` with only whitespace before and after it |
| JsText.TrimOfTrimmed | emergency-alert/app/api/send-alert/route.ts:44 | Trimming text without whitespace at its ends changes nothing |
| JsText.TrimKeepsOut | emergency-alert/app/api/send-alert/route.ts:44 | Trimming adds no character |
| JsText.Split | emergency-alert/app/api/send-alert/route.ts:44 | `split` gives at least one piece and no piece contains the separator |
| JsText.Join | emergency-alert/test-twilio.js:13 | Defines `parts.join(sep)`: the parts with one separator between neighbours, "" for no parts |
| JsText.JoinSplit | emergency-alert/test-twilio.js:12-13 | Joining the pieces of a split with the same separator gives the text back |
| JsText.SplitWithoutSeparator | emergency-alert/test-twilio.js:12 | Text without the separator splits into itself alone |
| JsText.SplitAround | emergency-alert/app/api/send-alert/route.ts:44 | Splitting `a + sep + b` gives the pieces of `a` followed by those of `b` |
| JsText.SplitJoin | emergency-alert/app/api/send-alert/route.ts:44 | Splitting the join of separator-free pieces gives the pieces back |
| JsText.SplitAtFirst | emergency-alert/test-twilio.js:12-13 | The first piece is the text before the first separator; the rest joined back is everything after it |
| JsText.StartsWith | emergency-alert/test-twilio.js:11 | Defines `s.startsWith(prefix)`: `prefix` is no longer than `s` and equals its first characters |
| JsText.Includes | emergency-alert/test-email.js:65 | `includes` holds iff the text occurs at some position |
| JsText.Prefix | emergency-alert/test-twilio.js:23-24 | `substring(0, n)` is a prefix of length min(n, length) |
| EnvFile.Lines | emergency-alert/test-twilio.js:10 | Defines `envContent.split('\n')` |
| EnvFile.IsSkipped | emergency-alert/test-twilio.js:11 | Defines the skipped lines: empty, or starting with '#' |
| EnvFile.KeyOf | emergency-alert/test-twilio.js:12-13 | Defines the key: the first '=' piece, trimmed |
| EnvFile.ValueOf | emergency-alert/test-twilio.js:12-13 | Defines the value: the other '=' pieces joined with '=', trimmed |
| EnvFile.IsEntry | emergency-alert/test-twilio.js:11-13 | Defines the lines that set an entry: not skipped, and a key other than `__proto__`, whose inherited setter ignores a string |
| EnvFile.Assign | emergency-alert/test-twilio.js:11-13 | Defines one step of the loop: an entry line sets its key to its value, overwriting any earlier one; any other line leaves the dictionary as it was |
| EnvFile.EnvOf | emergency-alert/test-twilio.js:10-13 | Defines the dictionary after the lines, taken first to last, each entry line setting its key |
| EnvFile.Setting | emergency-alert/test-twilio.js:17-20 | Reading a key gives a value exactly when the file set that key, and the value is the one stored |
| EnvFile.Truthy | emergency-alert/test-twilio.js:23-28 | Defines the truthiness of a setting: present and not the empty string |
| EnvFile.OrMissing | emergency-alert/test-twilio.js:25-26 | A truthy setting shows as itself; an absent or empty one shows as "MISSING" |
| EnvFile.ParseEnvFile | emergency-alert/test-twilio.js:9-15 | The loop builds the same dictionary as the fold `EnvOf` of the file's lines |
| EnvFile.KeyValueAtFirstEquals | emergency-alert/test-twilio.js:12-13 | The key is the trimmed text before the first '=', the value the trimmed text after it, later '=' kept |
| EnvFile.LineWithoutEquals | emergency-alert/test-twilio.js:12-13 | A line without '=' gives its trimmed text as the key and the empty value |
| EnvFile.SkippedLineAddsNothing | emergency-alert/test-twilio.js:11 | An empty line or one starting with '#' leaves the dictionary unchanged |
| EnvFile.LineSetsItsKey | emergency-alert/test-email.js:10-13 | Every non-empty line not starting with '#', spaces before a '#' included, sets its trimmed key to its value; a `__proto__` key is the one never set, since assigning a string to it runs the inherited setter |
| EnvFile.EnvKeys | emergency-alert/test-email.js:10-13 | A key is set iff some entry line has it as its key |
| EnvFile.LastAssignmentWins | emergency-alert/test-email.js:10-13 | When several lines set a key, the value of the last of them wins |
| TwilioCheck.MaskedPrefix | emergency-alert/test-twilio.js:23-24 | A present secret shows at most its first five characters and then "..."; an absent one shows "MISSING" |
| TwilioCheck.ErrorHint | emergency-alert/test-twilio.js:64-70 | Exactly the codes 20003, 21614 and 21211 give a hint: 20003 the invalid-credentials hint, 21614 the invalid-number hint, 21211 the number-format hint; no other code gives one |
| TwilioCheck.HasCredentials | emergency-alert/test-twilio.js:28 | Defines the credential check: `TWILIO_SID` and `TWILIO_TOKEN` both set and non-empty |
| TwilioCheck.RunTwilioCheck | emergency-alert/test-twilio.js:9-72 | SID and token are shown masked, the phones or "MISSING". Missing credentials exit 1 with no call. Otherwise the account fetch comes first and the test SMS is sent only if the fetch succeeds. A rejection is shown with the hint for its code. Exit is 0 iff nothing failed |
| EmailCheck.HiddenPassword | emergency-alert/test-email.js:23 | The password is never shown: "***" iff it is set, else "MISSING" |
| EmailCheck.LoginFailureHint | emergency-alert/test-email.js:65-68 | The two-line hint is added iff the error message contains "Invalid login" |
| EmailCheck.HasCredentials | emergency-alert/test-email.js:26 | Defines the credential check: `EMAIL_USER` and `EMAIL_PASS` both set and non-empty |
| EmailCheck.RunEmailCheck | emergency-alert/test-email.js:9-70 | The user and recipient are shown or "MISSING", the password hidden. Missing credentials exit 1 before any mail. Otherwise exactly one test mail is sent, from the user to the recipient. A refusal is shown with its hint. Exit is 0 iff the mail was accepted |
| HomePage.AlertRequest | emergency-alert/app/page.tsx:55-59 | Defines the posted body `{ lat: latitude, lng: longitude, userId: user.id }` |
| HomePage.PressEffects | emergency-alert/app/page.tsx:32-81 | Defines what one press does: nothing without a user; only the unsupported status without geolocation; otherwise the two announcements, the location request and the callbacks' effects |
| HomePage.PositionEffects | emergency-alert/app/page.tsx:44-78 | Defines the callbacks' effects: the denied texts, or the position and sending texts, the post and the reply's effects |
| HomePage.ReplyEffects | emergency-alert/app/page.tsx:62-73 | Defines the status and details set for an ok reply, a refused reply and a thrown error |
| HomePage.Home.constructor | emergency-alert/app/page.tsx:13-16 | The page starts with empty status and details, no user, loading |
| HomePage.Home.CheckUser | emergency-alert/app/page.tsx:19-30 | No session redirects to /login and changes nothing else; a session sets the user and ends loading |
| HomePage.Home.SetStatus | emergency-alert/app/page.tsx:13 | `setStatus` replaces the status and is recorded |
| HomePage.Home.SetDetails | emergency-alert/app/page.tsx:14 | `setDetails` replaces the details and is recorded |
| HomePage.Home.SendEmergency | emergency-alert/app/page.tsx:32-81 | A press issues exactly `PressEffects`; status and details end as the last values those effects set |
| HomePage.Home.OnPosition | emergency-alert/app/page.tsx:45-78 | The geolocation callbacks issue exactly `PositionEffects`, and status and details follow them |
| HomePage.Home.OnReply | emergency-alert/app/page.tsx:62-73 | The reply handling issues exactly `ReplyEffects`, and status and details follow them |
| HomePage.LastStatusAppend | emergency-alert/app/page.tsx:37-77 | The status after two runs of effects is the status after the second, started from the first's |
| HomePage.LastDetailsAppend | emergency-alert/app/page.tsx:42-77 | The same for the details |
| HomePage.ReplyShown | emergency-alert/app/page.tsx:62-73 | ok → "✅ ALERT SENT SUCCESSFULLY!"; not ok → "❌ Failed to send" with "Error: " + data.error; thrown → "❌ Network error" with the message |
| HomePage.ReplyStatus | emergency-alert/app/page.tsx:62-72 | Defines the status the answer leaves: "✅ ALERT SENT SUCCESSFULLY!" when ok, "❌ Failed to send" when refused, "❌ Network error" when thrown |
| HomePage.ReplyDetails | emergency-alert/app/page.tsx:62-73 | Defines the details the answer leaves: "SMS & Email sent to your contacts", "Error: " + `data.error`, or the error's message |
| HomePage.FinalStatus | emergency-alert/app/page.tsx:62-77 | Defines the status a press with geolocation ends on: "❌ Location access denied" for a denied position, else the answer's status |
| HomePage.FinalDetails | emergency-alert/app/page.tsx:62-77 | Defines the details a press with geolocation ends on: "Please allow location access" for a denied position, else the answer's details |
| HomePage.PositionShown | emergency-alert/app/page.tsx:44-78 | A denied position shows "❌ Location access denied"; a position ends as its reply says |
| HomePage.PressOutcome | emergency-alert/app/page.tsx:41-78 | A press by a user on a device with geolocation ends with the status and details of its position and reply |
| HomePage.NoUserNoEffect | emergency-alert/app/page.tsx:33 | Without a user a press has no effect and leaves status and details as they were |
| HomePage.NoGeolocation | emergency-alert/app/page.tsx:36-39 | Without geolocation the status becomes "❌ Geolocation not supported"; no location request, no post, details unchanged |
| HomePage.AnnounceBeforeRequest | emergency-alert/app/page.tsx:41-44 | "📍 Getting location..." and "Requesting location access..." are set before the one location request |
| HomePage.DeniedPostsNothing | emergency-alert/app/page.tsx:75-78 | A denied position posts nothing and ends with "❌ Location access denied" / "Please allow location access" |
| HomePage.LocatedPostsOnce | emergency-alert/app/page.tsx:45-73 | A position posts exactly one alert `{lat, lng, userId}` to `/api/send-alert`; the final status and details follow the reply |
| HomePage.PositionPostsOnce | emergency-alert/app/page.tsx:48-60 | The success callback first sets details to "Lat: …, Lng: …" and status to "📤 Sending alert to server...", then its third effect is a post of `{lat, lng, userId}` to `/api/send-alert`, and it posts nothing else |
| HomePage.PostedAlertValidation | emergency-alert/app/page.tsx:55-59 | The posted body passes the route's check iff neither coordinate is 0 and the user id is non-empty; a zero coordinate gets 400 "Missing data" |
| SettingsPage.Upserted | emergency-alert/app/settings/page.tsx:52-59 | After the upsert the user maps to the edited texts exactly; every other row is unchanged and no other key appears |
| SettingsPage.Stored | emergency-alert/app/settings/page.tsx:35-39 | `.single()` finds a row iff the query works and the user has a row, and then it is that row |
| SettingsPage.Loaded | emergency-alert/app/settings/page.tsx:41-44 | A found row sets both texts, an absent column becoming ''; no row leaves them as they were |
| SettingsPage.ContactTable.constructor | emergency-alert/app/settings/page.tsx:52-53 | The table starts with the given rows |
| SettingsPage.ContactTable.Upsert | emergency-alert/app/settings/page.tsx:52-59 | The table's rows become `Upserted` of the old rows |
| SettingsPage.Settings.constructor | emergency-alert/app/settings/page.tsx:13-17 | No user, loading, empty texts, not saving |
| SettingsPage.Settings.LoadSettings | emergency-alert/app/settings/page.tsx:34-45 | The texts become what `Loaded` gives for the stored row |
| SettingsPage.Settings.CheckUser | emergency-alert/app/settings/page.tsx:20-32 | No session redirects to /login and loads nothing; a session sets the user, loads its row and ends loading |
| SettingsPage.Settings.EditPhones | emergency-alert/app/settings/page.tsx:82 | The phones text becomes the typed text |
| SettingsPage.Settings.EditEmails | emergency-alert/app/settings/page.tsx:92 | The emails text becomes the typed text |
| SettingsPage.Settings.HandleSave | emergency-alert/app/settings/page.tsx:47-66 | Without a user nothing happens. Otherwise the save goes through `SaveEffects` and `saving` ends false. The table is upserted with the texts exactly as edited when the write succeeds, and is unchanged otherwise |
| SettingsPage.SaveEffects | emergency-alert/app/settings/page.tsx:47-66 | Defines a save by a signed-in user: `saving` true, the upsert, the notice for the outcome, `saving` false |
| SettingsPage.SaveBracketed | emergency-alert/app/settings/page.tsx:49-65 | `saving` is set true before the upsert and false after the notice on every path; the notice is "✅ Settings saved!" iff the call did not throw |
| SettingsPage.LoadAfterSave | emergency-alert/app/settings/page.tsx:34-59 | Loading after a save shows exactly the saved texts |
| SettingsPage.SaveKeepsOthers | emergency-alert/app/settings/page.tsx:52-59 | A save leaves every other user's stored row as it was |
| SettingsPage.SavedContactsReachRoute | emergency-alert/app/settings/page.tsx:52-59 | After a save, an alert by that user goes to exactly the parsed saved phones and addresses |
| Dashboard.AfterFetch | emergency-alert/app/dashboard/page.tsx:14-22 | A fetch error leaves the list; null data gives the empty list; rows replace the list in the order returned |
| Dashboard.Prepend | emergency-alert/app/dashboard/page.tsx:32 | The new row is element 0, the length grows by one and the old rows follow in order |
| Dashboard.AlertList.constructor | emergency-alert/app/dashboard/page.tsx:11 | The list starts empty |
| Dashboard.AlertList.OnFetch | emergency-alert/app/dashboard/page.tsx:14-22 | The list becomes `AfterFetch` of the old list |
| Dashboard.AlertList.OnInsert | emergency-alert/app/dashboard/page.tsx:31-33 | The list becomes the new row prepended to the old list |
| Dashboard.AfterInserts | emergency-alert/app/dashboard/page.tsx:32 | Defines the list after several INSERT events, each prepending its row |
| Dashboard.InsertsNewestFirst | emergency-alert/app/dashboard/page.tsx:32 | After several inserts the new rows come in reverse arrival order ahead of the earlier list |
| Dashboard.InsertsKeepRows | emergency-alert/app/dashboard/page.tsx:32 | Inserts keep the earlier list as the tail, grow the length by the number of arrivals and lose no arrival |
| Dashboard.FetchAfterInserts | emergency-alert/app/dashboard/page.tsx:14-33 | A failed fetch after inserts keeps them; a successful one replaces the whole list |
| Scenarios.ExamplePieces | emergency-alert/app/api/send-alert/route.ts:44 | The pieces "+1555", " +1556 ", "  " give ["+1555", "+1556"] |
| Scenarios.ParseExample | emergency-alert/app/api/send-alert/route.ts:44 | `"+1555, +1556 ,  "` parses to ["+1555", "+1556"] |
| Scenarios.ScenarioPhones | emergency-alert/app/api/send-alert/route.ts:44 | "+15551111111" parses to itself alone |
| Scenarios.ScenarioEmails | emergency-alert/app/api/send-alert/route.ts:45 | "a@x.com,b@x.com" parses to the two addresses |
| Scenarios.ScenarioLink | emergency-alert/app/api/send-alert/route.ts:40 | Position 28.7041, 77.1025 gives `https://maps.google.com/?q=28.7041,77.1025` |
| Scenarios.ScenarioAlertSent | emergency-alert/app/api/send-alert/route.ts:40-113 | For "u1" with one phone and two addresses: one SMS carrying that link, two emails, one alert row and 200 |
| Scenarios.ScenarioNoContacts | emergency-alert/app/api/send-alert/route.ts:33-38 | For "u2" without a row: 400 "No emergency contacts configured", no send, no insert |

## Left out

- Numbers: coordinates are not floating point. A JSON number carries its value as a `real` and
  its JavaScript text as given; number-to-string formatting is not modelled.
- Email HTML: the markup of the email bodies is left out. An email attempt records its recipient,
  subject and maps link only. The "Latitude: ${lat}" and "Longitude: ${lng}" lines of the body
  (route.ts:91-92) are not recorded. The link does not determine them, because the route accepts
  any truthy JSON value: lat "1,2" with lng "3" and lat "1" with lng "2,3" give the same link.
- Side output and time: console logging and `new Date().toISOString()` (`created_at`,
  `updated_at`). `alert(...)` dialogs are modelled only as the notice text (`SaveEffects`).
- Rendering: JSX and the `Loading...` screen.
- Collaborators as oracles:
  - Supabase, Twilio, nodemailer, `fetch` and `navigator.geolocation` are given as answers
    (`Services`, `Location`, `Reply`, `SaveOutcome`, `CallResult`, `SendResult`).
  - The n-th SMS and n-th email outcome is looked up by its position in the loop, not by the
    recipient.
  - The transports' credentials and sender addresses from `process.env` are not modelled.
- Files and exiting: `fs.readFileSync` becomes the file text as a parameter; `process.exit`
  becomes the report's exit code.
- Twilio account details: the account fields that test-twilio.js prints (status, name, type) and
  the message fields after a send are not modelled.
- Concurrency:
  - The scheduling of `async` callbacks, React's effect lifecycle and re-renders are not modelled.
  - The race between the dashboard's fetch and its realtime subscription is not modelled. Each
    event is a separate method; `FetchAfterInserts` states both orders.
  - The settings page does not await `loadSettings`; the model runs it to completion inside
    `CheckUser`.
- The dashboard's channel clean-up (`removeChannel`) on unmount is left out.
- The geolocation options (`enableHighAccuracy`, `timeout`, `maximumAge`) are left out; a timeout
  is one of the error-callback outcomes (`Denied`).
- emergency-alert/app/login/page.tsx is not part of this model: it only calls Supabase's
  sign-up, sign-in and sign-out.
- TwilioCheck.MaskedPrefix: counts Unicode characters where `substring` counts UTF-16 code units;
  the two differ only for secrets with characters outside the Basic Multilingual Plane.
- JsText.Text: gives the text of a template literal only for the JSON values a decoded body can
  hold; objects and arrays carry their text as given.
