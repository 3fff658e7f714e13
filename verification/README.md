# medibot, modelled in Dafny

This project models the core of medibot, a tool that watches the Medicover
patient portal for free appointment slots and reports them. It models four
parts.

- **The API client** (`src/medicover_client/client.py`):
  - the `with_login_retry` decorator, which signs in or refreshes the token
    before every call, signs in again after a 401 and gives up after three
    attempts;
  - the token and header properties;
  - the token refresh;
  - the OAuth sign-in with its PKCE verifier and S256 challenge (RFC 7636,
    using the base64url alphabet of section 5 of RFC 4648);
  - the parameters of the slot search and the catalog lookups.
- **The monitoring app** (`src/app.py`):
  - case-insensitive matching of typed text against catalog entries;
  - choosing a region, specialization, clinic or doctor by id or by text,
    with zero, one or many matches;
  - the time-window filter on slots;
  - the notification text;
  - the `while True` polling loop with its error back-off.
- **The legacy hunter** (`medihunter.py`):
  - the duplicate checker, a closure over a list, modelled as a class;
  - `process_appointments` and `notify_external_device`;
  - argument validation and the `show_params` checks;
  - the nested loops of `find_appointment`: day-by-day pages inside repeated
    passes.
- **The Telegram error handler** (`src/telegram_interface/error_handler.py`):
  - how `default_error_handler` routes each kind of error;
  - the HTML escaping and `str.format` it relies on;
  - the JSON encoder hook `SkipMedicoverClientEncoder.default`.

Code that works step by step is written as methods. This covers the client
object, the retry loop, the duplicate checker, the filter loops, the polling
loop and the hunter's loops. Each method is proved against a specification
function, and the properties are proved about those functions as lemmas.
Servers, sign-in pages, SHA-256 and random UUIDs are parameters: a function
from the attempt index to the reply.

Files:
- `wrappers.dfy`: `Option`.
- `seqs.dfy`: `Filter` and its lemmas.
- `pkce.dfy`: the verifier, base64url, the challenge.
- `client.dfy`: the client and the retry policy.
- `app.dfy`: matching, resolution, window, text, poll loop.
- `medihunter.dfy`: the hunter.
- `error_handler.dfy`: the error handler and the encoder.

## Model

| member | source | states |
|---|---|---|
| Seqs.Filter | src/app.py:346-350 | The kept items are exactly the items of the input that satisfy the predicate, and there are no more of them than in the input. |
| Seqs.FilterAppend | src/app.py:25-30 | Filtering a concatenation is the concatenation of the filtered parts, so a loop can build the result item by item. |
| Seqs.FilterKeepsAll | src/app.py:346-350 | When every item passes, filtering returns the input unchanged. |
| Seqs.FilterSnoc | src/app.py:27-29 | Appending one item adds that item to the result exactly when it passes. |
| Pkce.HexDigits | src/medicover_client/client.py:109 | `uuid.hex` is a fixed-width string of lower-case hexadecimal digits. |
| Pkce.CodeVerifier | src/medicover_client/client.py:109 | The verifier is 32 characters per UUID, each a hex digit and an RFC 7636 unreserved character. |
| Pkce.HexDigitsValue | src/medicover_client/client.py:109 | Reading the hex digits back gives the number that was written, for every value below 16^width. |
| Pkce.UuidHexRoundTrip | src/medicover_client/client.py:109 | `uuid.hex` loses nothing: the 128-bit value can be read back from its 32 digits. |
| Pkce.VerifierMeetsRfc7636 | src/medicover_client/client.py:109 | Three UUIDs give a 96-character verifier, inside RFC 7636's 43 to 128 range and made only of unreserved characters. |
| Pkce.Symbol | src/medicover_client/client.py:110-112 | Every base64url symbol is URL-safe, is not the pad character, and decodes back to its 6-bit value. |
| Pkce.EncodeUnpadded | src/medicover_client/client.py:110-112 | Unpadded base64url has ceil(4n/3) symbols, all from the URL-safe alphabet. |
| Pkce.RegroupBits | src/medicover_client/client.py:110-112 | Splitting three bytes into four sextets and joining them again gives back the bytes. |
| Pkce.DecodeEncodeUnpadded | src/medicover_client/client.py:110-112 | Decoding unpadded base64url gives back the encoded bytes. |
| Pkce.RStrip | src/medicover_client/client.py:111 | `rstrip("=")` returns the longest prefix that does not end in "=", and it removes only "=" characters. |
| Pkce.RStripSuffix | src/medicover_client/client.py:110-112 | Stripping "=" from padded output removes exactly the padding. |
| Pkce.ChallengeOfDigest | src/medicover_client/client.py:110-112 | For a 32-byte digest, the challenge is the 43-character unpadded base64url of the digest. It contains no "=" and decodes back to the digest. |
| Pkce.AsciiBytes | src/medicover_client/client.py:111 | `.encode()` of an ASCII string maps each character to its code. |
| Client.LoginEffect | src/medicover_client/client.py:140-157 | Sign-in fails exactly when the final URL has no `code`. Otherwise both tokens are replaced and the cookie is kept. |
| Client.RefreshEffect | src/medicover_client/client.py:99-105 | A reply other than 200 leaves the session unchanged. A 200 stores the new access token and refresh token. The cookie is never touched. |
| Client.PreCall | src/medicover_client/client.py:44-48 | With no token the client signs in: the session becomes `LoginEffect` of that sign-in, and the step fails exactly when the final URL has no "code". With a token it refreshes, and the session becomes `RefreshEffect`. The wrapped operation is not counted as called. |
| Client.Attempt | src/medicover_client/client.py:43-62 | One pass of the loop. Another attempt follows only after a 401 and a successful new sign-in, with the cookie cleared. A returned value or a non-401 status is the operation's own reply. A rejected pre-call sign-in becomes `AuthenticationError` without running the operation. `IncorrectLoginError` escapes only from the sign-in after a 401. An `AuthenticationError` comes only from a rejected pre-call sign-in or from an `IncorrectLoginError` raised by the operation. The converse also holds (`AttemptFollowsReply`): after a successful pre-call step, the reply decides the outcome. A value is returned. A non-401 status is re-raised as it is. A 401 gives another attempt exactly when the new sign-in succeeds, with the session `LoginEffect` of that sign-in on a cleared cookie. |
| Client.RetryFromCalls | src/medicover_client/client.py:42-64 | The operation runs at most once per remaining attempt, and every run but the last got a 401. Running out of attempts uses every attempt, and each one got a 401. |
| Client.RetryFromLastReply | src/medicover_client/client.py:42-64 | The value returned, or the status re-raised, is what the last run of the operation gave. An escaping `IncorrectLoginError` comes from a rejected sign-in after a 401. An `AuthenticationError("")` comes from the last sign-in being rejected, or from the last run raising `IncorrectLoginError`. Every `AuthenticationError` leaves the cookie cleared, including "Failed to sign in after 3 attempts.", because every attempt after the first follows a 401 handler that dropped it. |
| Client.AtMostThreeCalls | src/medicover_client/client.py:34-64 | A wrapped call runs the operation at most `MAX_RETRY_ATTEMPTS` = 3 times. "Failed to sign in after 3 attempts." is raised only after three 401 replies. |
| Client.OtherStatusReRaised | src/medicover_client/client.py:50-56 | When the pre-call step succeeds and the first run raises a status other than 401, the wrapper re-raises that status after one run. |
| Client.IncorrectLoginShortCircuit | src/medicover_client/client.py:44-60 | With no token and a rejected sign-in, the call makes one sign-in, never runs the operation, clears the cookie and raises `AuthenticationError`. |
| Client.PersistentUnauthorizedExhausts | src/medicover_client/client.py:50-64 | When every reply is 401 and every sign-in succeeds, there are three runs and the attempts run out. Because the 401 handler does not clear `_token`, the count of sign-ins and refreshes is exact. |
| Client.MedicoverClient.constructor | src/medicover_client/client.py:69-75 | A new client stores the credentials, has an empty token and holds no refresh token or cookie. |
| Client.MedicoverClient.Authorization | src/medicover_client/client.py:77-79 | The `token` property is "Bearer " followed by the stored token, which can be read back from it. |
| Client.MedicoverClient.RequestHeaders | src/medicover_client/client.py:81-83 | The authorization header is exactly the `token` property, "Bearer " followed by the stored token, and the host is the API gateway. |
| Client.MedicoverClient.DoRefreshToken | src/medicover_client/client.py:85-105 | The refresh grant sends the stored refresh token, the scope, the client id and the bearer header. The new state is `RefreshEffect` of the old state. |
| Client.MedicoverClient.LogIn | src/medicover_client/client.py:107-157 | The authorization query carries the S256 challenge of the verifier made from the drawn UUIDs. The form carries the credentials. `IncorrectLoginError` is raised exactly when the URL has no code, and then the state is unchanged. Otherwise the code and the same verifier are exchanged, and the state becomes `LoginEffect`. |
| Client.MedicoverClient.SignInAgain | src/medicover_client/client.py:50-54 | After a 401 the cookie is gone and a fresh login either updates the tokens or lets IncorrectLoginError escape, as `AfterUnauthorized` specifies. |
| Client.MedicoverClient.TryOnce | src/medicover_client/client.py:43-62 | The loop body does to the object what `Attempt` specifies. |
| Client.MedicoverClient.WithLoginRetry | src/medicover_client/client.py:37-66 | The result, the final session and the counters are those of the `Retry` specification, so the lemmas above hold for the object. |
| Client.SlotSearchParams | src/medicover_client/client.py:184-192 | The search asks for page 1 of 5000 for the given region and specialty from the given day. A clinic or doctor id that is missing or the empty string is sent as an empty list; otherwise it is sent as a one-element list. |
| Client.ListUnder | src/medicover_client/client.py:212 | `response_json.get(key, [])`: the list under the key, or an empty list when the key is absent. |
| Client.CatalogRequest | src/medicover_client/client.py:217-241 | Specializations are asked by region only. Clinics are asked by region and specialization. Doctors are asked by region, specialization and clinic. Each reads its own list of the reply. |
| App.Lower | src/app.py:28 | `str.lower` keeps the length and maps each ASCII capital to its small letter. |
| App.ContainsAt | src/app.py:28 | The recursive substring test holds exactly when the text occurs at some position. |
| App.MatchInputToFilter | src/app.py:25-30 | The loop returns, in order, the entries whose lower-cased value contains the lower-cased text. |
| App.MatchedEntries | src/app.py:25-30 | An entry is selected exactly when the lower-cased text occurs in its lower-cased value. Matching a longer list appends the matches of the extra entries. |
| App.EmptyTextMatchesAll | src/app.py:25-30 | Empty text matches every entry. |
| App.FirstWithId | src/app.py:145 | `next(...)` finds the first entry with that id, or reports that none has it. |
| App.ResolveById | src/app.py:144-149 | An entry is taken exactly when some entry has the id, and it is the first one. Otherwise the user picks from the whole list. |
| App.ResolveByText | src/app.py:129-141 | Exactly one match is taken. No match offers the whole list. Several matches offer the matches. |
| App.ResolveRequired | src/app.py:129-149 | A given id is resolved by id; otherwise the typed text is resolved by text. |
| App.ResolveOptional | src/app.py:192-214 | With no id and empty text the result is "Any", with id `None`, so the search is not narrowed. Otherwise it resolves as a required choice. |
| App.FilterSlots | src/app.py:346-350 | The loop keeps, in order, exactly the slots inside the time window and not after the end date. |
| App.WindowBounds | src/app.py:346-350 | Both time bounds are inclusive, times outside them are dropped, and a slot is kept exactly when it is in the window. |
| App.EndDayIsExclusive | src/app.py:84-91 | The end date parses to midnight, so a slot on the end day after 00:00 is never kept. |
| App.JoinedBlocksSnoc | src/app.py:354-371 | Appending a slot adds a separator line and then its block, except for the first slot. |
| App.NotifierText | src/app.py:354-371 | The text built by the loop is the header followed by the slot blocks joined by separator lines. |
| App.NotifierTextShape | src/app.py:354-371 | One slot gives the header and its block. More slots add a separator line before each later block. |
| App.PollOnce | src/app.py:316-380 | One pass of the loop yields the search, notifications, sleep and exit that `Cycle` specifies. |
| App.MonitorUnfold | src/app.py:315-380 | The run over a list of polls is the first cycle followed by the run over the rest, unless the first cycle leaves the loop. |
| App.MonitorLoop | src/app.py:315-380 | The loop's effects and its way of ending are those of the `Monitor` specification. |
| App.SameQueryEveryCycle | src/app.py:317-323 | Every search in the loop sends the same query, built from the chosen ids and the start date. |
| App.StillPollingWhenNoStop | src/app.py:315-380 | The loop keeps polling exactly when no poll returns slots in the window and no poll raises an unhandled error. |
| App.LeavesAtFirstStop | src/app.py:346-376 | The loop ends at the first poll that stops it. A poll with slots in the window ends it with those slots. An unhandled error crashes it. |
| App.NotifiesOnlyWindowSlots | src/app.py:346-376 | When the loop ends with a notification, every slot reported is in the window. |
| App.EmptyCyclesNeverStop | src/app.py:378-380 | While no slot is in the window, every cycle is one search and then a 30-second sleep, and the loop never ends. |
| App.TransientFailure | src/app.py:324-344 | An HTTP status error or a timeout backs off and then polls again. It changes nothing about how the loop ends. |
| App.NotifiesOnce | src/app.py:352-376 | The first poll with slots in the window sends the text once, if a notifier is set, and leaves the loop. |
| Hunter.DuplicateChecker.constructor | medihunter.py:32 | The checker starts with an empty list of found appointments. |
| Hunter.DuplicateChecker.Check | medihunter.py:34-38 | The result is true exactly when the appointment was not found before, and only then is it appended. The list never holds a duplicate. |
| Hunter.CheckTwice | medihunter.py:25-40 | The first check of an appointment is true. A second check is true exactly when it is a different appointment. |
| Hunter.DedupMembers | medihunter.py:75-78 | An appointment is reported exactly when it is in the batch and was not seen before. |
| Hunter.DedupNoDuplicates | medihunter.py:34-38 | The seen list followed by the new reports has no duplicates. |
| Hunter.DedupAppend | medihunter.py:75-78 | Processing two batches in a row reports the same as processing them joined. |
| Hunter.RepeatReportsNothing | medihunter.py:75-84 | Processing the same batch again reports nothing. |
| Hunter.AllSeenReportsNothing | medihunter.py:35-36 | A batch of already seen appointments reports nothing. |
| Hunter.NotifyExternalDevice | medihunter.py:46-58 | At most one channel is called, exactly when the notifier names a known channel. That channel gets the message, and the title too, except for xmpp. |
| Hunter.Message | medihunter.py:73-78 | The message is empty exactly when nothing is reported, and otherwise ends in a newline. |
| Hunter.LineShape | medihunter.py:78 | Each line starts with the appointment time and ends with " (Telefonicznie)" or " (Stacjonarnie)" and a newline. |
| Hunter.MessageAppend | medihunter.py:75-78 | The message of two lists is the two messages joined. |
| Hunter.NotificationsAtMostOnce | medihunter.py:80-84 | A batch sends at most one notification, none when nothing new was found, and that notification carries the message of the new appointments. |
| Hunter.ProcessAppointments | medihunter.py:60-84 | The appointments reported are the unseen ones of the batch, in order. The checker's list grows by exactly those, and the calls are the notification for them. |
| Hunter.ValidateArguments | medihunter.py:100-108 | The arguments are refused exactly when the service is missing for bookingtype 1 or the specialization is missing for bookingtype 2, each with its own message. |
| Hunter.ShowParamsNamesMissingOption | medihunter.py:234-250 | The as-written checks refuse and load the same inputs as the corrected ones, but every usage error names an option `--fild-name` that does not exist. |
| Hunter.ShowParams | medihunter.py:234-251 | The region is required for every field but "region", and the specialization for "clinic" and "doctor". The message names the first missing option. Otherwise the loader fetches that field with the given ids. |
| Hunter.DaysAhead | medihunter.py:149-153 | With an end date, the number of days reaches from the start to the end date. Otherwise it is `--days-ahead`. |
| Hunter.SweepStep | medihunter.py:172-196 | An empty page ends the sweep. A non-empty page is kept, and the search goes on from the day after its last appointment. |
| Hunter.SweepFromShape | medihunter.py:172-196 | There are at most `days_ahead` searches. Every search but the last returned appointments. Stopping early means an empty page. The found list is all the pages in order. |
| Hunter.SweepFromCursor | medihunter.py:190-195 | Each later search starts the day after the last appointment of the page before. |
| Hunter.SearchDays | medihunter.py:170-196 | The inner loop produces the pages and start days that `Sweep` specifies. |
| Hunter.FreshPerPass | medihunter.py:169-213 | There is one list of reports per pass. |
| Hunter.ReportedAcrossPasses | medihunter.py:169-213 | Over all passes, an appointment is reported exactly when some pass found it and it was not seen before. |
| Hunter.ReportedOnce | medihunter.py:169-213 | No appointment is reported twice across passes. |
| Hunter.HuntPass | medihunter.py:170-213 | One pass sweeps the days, reports the unseen appointments, notifies and sleeps `interval * 60` seconds. The checker grows by the reports. |
| Hunter.NextPass | medihunter.py:169-213 | Appending a pass keeps every recorded pass as specified and keeps the checker equal to the seen list plus all reports. |
| Hunter.HuntLoop | medihunter.py:162-213 | After login, a positive interval makes one pass per observed iteration and keeps hunting. Interval 0 makes exactly one pass and finishes. A negative interval makes one pass and then `time.sleep` raises. Every pass is as specified, and the checker holds the seen list plus every report. |
| Hunter.FindAppointment | medihunter.py:129-213 | Invalid arguments or a failed login end the hunt before any pass. Otherwise a positive interval repeats passes, and interval 0 makes one pass and finishes. A negative interval makes one pass and then `time.sleep` raises. Every pass is as specified, and the reports across passes are duplicate-free. |
| ErrorHandler.Escape | src/telegram_interface/error_handler.py:44-45 | `html.escape` leaves no `<`, `>`, `"` or `'`. It keeps braces as they are. |
| ErrorHandler.EscapeRoundTrip | src/telegram_interface/error_handler.py:44-45 | Unescaping the escaped text gives back the original. |
| ErrorHandler.CloseAt | src/telegram_interface/error_handler.py:50 | Finds the first `}` from a position, or reports that there is none. |
| ErrorHandler.FormatPlain | src/telegram_interface/error_handler.py:50 | `str.format` copies text without braces unchanged. |
| ErrorHandler.FormatField | src/telegram_interface/error_handler.py:50 | `str.format` replaces the named field by its value. |
| ErrorHandler.PrettyUserData | src/telegram_interface/error_handler.py:37-40 | Missing user data renders as "null". Rendering fails exactly when the encoder raises. |
| ErrorHandler.DevMessage | src/telegram_interface/error_handler.py:42-46 | The developer message starts with the heading and then the `context.user_data` line. |
| ErrorHandler.FieldFails | src/telegram_interface/error_handler.py:50 | `str.format` raises on a template that starts with `{}` or `{` and a newline, as `json.dumps` of a dict does. |
| ErrorHandler.AsWrittenFormatFails | src/telegram_interface/error_handler.py:42-50 | When the user data renders as a dict, formatting the whole template raises. |
| ErrorHandler.AsWrittenAgreesWithoutBraces | src/telegram_interface/error_handler.py:42-50 | When neither the user data nor the traceback contains braces, the as-written message equals the corrected one. |
| ErrorHandler.AsWrittenRaisesOnUserData | src/telegram_interface/error_handler.py:42-76 | With dict-shaped user data, the handler as written raises on every path that formats a message. The corrected handler sends its messages. `{}` is a concrete case. |
| ErrorHandler.NetworkErrorSendsNothing | src/telegram_interface/error_handler.py:30-32 | A network error sends nothing. |
| ErrorHandler.AsWrittenHandlerAgrees | src/telegram_interface/error_handler.py:25-78 | When neither the rendered user data (for instance "null" when there is none) nor the traceback contains braces, the as-written handler does exactly what the corrected handler does, on every path. The three lemmas below therefore hold for the source in that case. |
| ErrorHandler.NoUpdateOneDeveloperMessage | src/telegram_interface/error_handler.py:48-53 | Without an update, the corrected handler sends exactly one developer message, under the "while handling an update" heading. |
| ErrorHandler.MissingLanguageAsksForStart | src/telegram_interface/error_handler.py:55-67 | A missing "language" key sends the /start prompt to the user's chat and nothing to the developer. |
| ErrorHandler.OtherKeyTwoMessages | src/telegram_interface/error_handler.py:68-78 | With an update, any other missing key makes the corrected handler send a KeyError message naming the key and then the generic message. |
| ErrorHandler.OtherErrorOneMessage | src/telegram_interface/error_handler.py:75-78 | With an update, any other error makes the corrected handler send one generic developer message. |
| ErrorHandler.UnserializableUserDataRaises | src/telegram_interface/error_handler.py:18-40 | User data the encoder cannot serialize makes the handler raise `TypeError`, unless the error is a network error. |
| ErrorHandler.UserData.constructor | src/telegram_interface/error_handler.py:18-22 | The user data holds the given entries. |
| ErrorHandler.UserData.Set | src/telegram_interface/error_handler.py:21 | Setting a key replaces only that entry. |
| ErrorHandler.EncoderDefault | src/telegram_interface/error_handler.py:18-22 | The hook deep-copies the object and sets `medicover_client` to `None` on the copy only; the other keys keep their values. It then always raises `TypeError`, because the base `default` rejects the copy. |

## Left out

- The URLs, the redirect URI and the scraping of the sign-in page are not modelled: the reply is an input carrying the page token and the final URL's parameters.
- HTTP transport, JSON decoding and the serialization of query strings are not modelled: the models are the request records and the decoded replies.
- SHA-256 and `uuid.uuid4` are parameters: a digest function and the drawn 128-bit values.
- App.Lower: lowers ASCII letters only; Python's Unicode case mapping (for example of Polish letters) is not modelled.
- App.InWindow: times are whole minutes of a day. Seconds, time zones, and the comparison of aware and naive datetimes are not modelled.
- App.SlotBlock: the `strftime` date text is an input of each slot, not computed from its time.
- App.ResolveOptional: `pick_from_items` is user interaction; the model returns the list offered rather than the item picked.
- ErrorHandler.Format: only the single keyword argument the handler passes is modelled. A field with a conversion (`!r`), a format spec (`:x`), or attribute or index access is treated as an error, although Python would substitute some of these.
- ErrorHandler.Route: a `KeyError` whose first argument is not a string, or that has no argument, is not modelled beyond the "no key" case.
- The terminal interface (click prompts, colours, echo and logging) is left out.
- The one-shot search in `src/app.py` before the monitoring loop, which does not apply the window, is not part of this model.
- App.Monitoring: the Telegram notifier is modelled only as whether a notifier is set; sending is an effect in the list.
- Sleeps are recorded as effects and take no time.
- App.MonitorLoop: the infinite loop is observed over a finite list of polls; "still polling" is how a run that has not stopped ends.
- Hunter.FindAppointment: the infinite loop is observed over `horizon` passes.
- `iteration_counter` only changes the echoed text of `process_appointments`, so it is left out there.
- Hunter.DaysAhead: the end date is a day number or absent; date parsing and an empty-string end date are not modelled.
- Appointment times are opaque text; the parsing in `find_appointment` is folded into the next start day.
- Hunter.FindAppointment: `login` and `load_search_form` become the `loggedIn` input; the Medicover session and its scraping are not part of this model.
- ErrorHandler.PrettyUserData: the text `json.dumps` produces is an input; `DictShaped` describes the start of a rendered dict.
- `send_to_dev_message` is not shown in the source; the model records the message it is given.

## Findings

| source | as written | input that shows it | evidently intended | confidence | as-written member | corrected member |
|---|---|---|---|---|---|---|
| src/telegram_interface/error_handler.py:42-50,70,76 | The template is built with the escaped `json.dumps(context.user_data)` inside it, and `.format` is then applied to the whole text. Braces from the JSON are read as replacement fields, so `.format` raises. | Any error with an update and `context.user_data == {}`, rendered as `{}`. | Fill in only the heading, for example by formatting before inserting the user data and traceback, so that a developer message is sent. | not executed | ErrorHandler.AsWrittenRaisesOnUserData | ErrorHandler.DefaultErrorHandler |
| medihunter.py:238,242,244,248,250 | Every usage error says `--fild-name=<field>`. | `show_params --field-name specialization` without `--region` | Name the real option, `--field-name`. | not executed | Hunter.ShowParamsNamesMissingOption | Hunter.ShowParams |
