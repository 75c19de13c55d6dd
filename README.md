# HospiceConnect mail notifications — a Dafny model

The HospiceConnect backend (`server.js`) saves care-request form
submissions to PostgreSQL and e-mails the operator a notification about
each one through Gmail's SMTP servers. This project models the mail side
of that server and proves properties of it:

- **Smtp**: the environment variables that configure mail, and the
  recipient and sender fallbacks (`NOTIFY_EMAIL || RECIPIENT_EMAIL`,
  `GMAIL_FROM || GMAIL_USER`). It also holds the two SMTP profiles
  (STARTTLS on port 587, implicit TLS on port 465) and the module-level
  transporter. The `Mailer` class models that transporter. Its
  `VerifyConnection` moves the transporter from the first profile to the
  next until one verifies or none is left.
- **Rendering**: the notification's subject, its 17-line plain-text body
  and its HTML body. The bodies are built from a single 13-field table, so
  each field has the same label, order and section in both bodies. An
  absent or falsy field shows as `-`, and the terms consent shows as
  `Yes`/`No`.
- **Retry**: the retry policy shared by the notification send and the
  debug send. There is one attempt, then at most two more. Each retry
  comes after a 2-second pause and happens only when the error has code
  `ETIMEDOUT` or its message contains `timeout`. The policy is stated in
  closed form (`Run`) and proved unique, so each loop is shown to be the
  policy.
- **Server**: the two request handlers that send mail.
  `POST /api/submissions` stores the submission, then sends the
  notification with retries and answers 201 with `emailSent` and, when the
  send failed, `emailError`. If the insert fails it answers 500.
  `GET /api/debug/email` checks the configuration (400), then verifies and
  sends a fixed test message with the same retries (200 or 500).
- **Js** and **Text**: JavaScript truthiness, `String(v)` for the values a
  JSON body can carry, `||` on environment variables, substring search,
  joining and splitting lines, and decimal printing and parsing of ids.

The outside world is passed in as parameters:

- the insert's result (`InsertResult`);
- how each send attempt ends (`Attempt`: delivered, an error, or the
  30-second timer winning the race);
- whether each `verify()` succeeds.

An attempt the given outcomes do not cover is one that never answers, so
the timer ends it.

## Model

| member | source | states |
|---|---|---|
| Js.Or | server.js:146 | `a \|\| b` on environment variables: the result is set iff either operand is; it is the left operand when that one is set, otherwise the right one |
| Js.ToText | server.js:155-168 | `String(v)` of a truthy field is non-empty; only a string field can contain a line break |
| Smtp.Recipient | server.js:146 | a recipient exists iff NOTIFY_EMAIL or RECIPIENT_EMAIL is non-empty; NOTIFY_EMAIL wins when it is non-empty, otherwise RECIPIENT_EMAIL is used as is |
| Smtp.Sender | server.js:200 | the sender is GMAIL_FROM when it is non-empty, otherwise GMAIL_USER; it is set iff either is |
| Smtp.EmptyFallsThrough | server.js:146 | an empty NOTIFY_EMAIL or GMAIL_FROM is falsy and falls through to the second variable |
| Smtp.FirstAcceptedFrom | server.js:75-93 | the first profile at or after `i` whose verification succeeds, with every earlier one failing; none when all fail |
| Smtp.Mailer.constructor | server.js:33-34 | a transporter on the port-587 profile exists iff both GMAIL_USER and GMAIL_PASS are non-empty |
| Smtp.Mailer.VerifyConnection | server.js:72-93 | profiles are verified in order, each at most once; the transporter ends on the first one that verifies or, when none does, on the last one (port 465); it is never reset to null |
| Smtp.SettledIsFirstAccepted | server.js:75-93 | the settled profile verified, or it is the last and every profile failed; every profile before it failed |
| Smtp.FallbackToSecondProfile | server.js:83-86 | when the port-587 verification fails and port 465 passes, both are tried and the transporter ends on port 465 |
| Rendering.OrDash | server.js:155-168 | `v \|\| '-'`: a falsy field shows as `-`, a truthy one as its non-empty text |
| Rendering.YesNo | server.js:169 | the consent line shows `Yes` exactly when the field is truthy, otherwise `No` |
| Rendering.SubjectCarriesId | server.js:150 | the subject is the fixed prefix followed by the id in decimal, and the id can be read back from it |
| Rendering.PlainFieldLine | server.js:152-169 | the plain body has 17 lines, and field `j` sits on its own row as `Label: value` |
| Rendering.PlainLayout | server.js:152-170 | the plain body has 17 lines: line 0 is the headline with the id; lines 1, 7 and 12 are the only blank ones and separate the three groups |
| Rendering.PlainTextLines | server.js:152-170 | when no field value has a line break, splitting the joined text at `\n` gives back exactly the 17 lines |
| Rendering.HtmlFieldLine | server.js:172-196 | field `j` is a `<li><strong>Label:</strong> value</li>` item placed after its own section's `<h3>` heading and before the next one |
| Rendering.FieldOrder | server.js:155-194 | for fields `j1 < j2`, field `j1`'s `Label: value` line comes before field `j2`'s in the plain body, and field `j1`'s list item comes before field `j2`'s in the HTML body |
| Rendering.HtmlTextLines | server.js:172-196 | when no field value has a line break, the HTML splits into an empty first line, the 23 element lines and a final indentation line |
| Rendering.MissingPhone | server.js:162 | a submission without a phone shows `Phone: -` in the text and `-` in the HTML item |
| Text.SplitJoin | server.js:170 | joining single-line strings with `\n` and splitting the result at `\n` gives the strings back |
| Text.ParseIntToDecimal | server.js:150 | the decimal text an id is printed with reads back as the same id |
| Retry.StopFrom | server.js:217-220 | the retry counter value on the last attempt: every attempt before it was retryable, and it is either not retryable or the budget's last |
| Retry.Run | server.js:142-224 | one to three attempts, one 2-second pause before each but the first, every attempt before the last retryable, the last one not retryable unless it is the third, and the helper finishes as the last attempt did |
| Retry.FinishOf | server.js:211-223 | the helper returns exactly when the attempt was delivered, otherwise it rethrows that attempt's error |
| Retry.RunStopsAt | server.js:217-223 | the run is fixed by where the attempts stop: one that stops after `n` retryable failures has `n + 1` attempts |
| Retry.TimerErrorIsRetried | server.js:207-217 | the timer's own "Email sending timeout after 30 seconds" error contains `timeout` and is retried |
| Retry.OtherErrorsEndTheRun | server.js:217-223 | an error with neither code ETIMEDOUT nor `timeout` in its message is rethrown on the attempt that raised it |
| Retry.DeliveredAfterTimeouts | server.js:211-220 | a delivery after `k` timeouts returns after exactly `k` pauses |
| Retry.AllTimeoutsExhaust | server.js:217-223 | when every attempt is retryable the helper makes exactly three attempts and throws the third one's error |
| Retry.ReturnsIffDelivered | server.js:142-224 | the helper returns iff some attempt within the budget is delivered after only retryable failures |
| Retry.LaterOutcomesUnused | server.js:217-223 | outcomes after the last attempt do not affect the run |
| Retry.TwoTimeoutsThenDelivered | server.js:207-220 | two timeouts then a delivery: three attempts, two pauses, success |
| Retry.ThreeTimeouts | server.js:207-223 | three timeouts: three attempts, two pauses, and the timer's error is thrown |
| Server.ConfigErrorsAreNotTimeouts | server.js:144-147 | neither configuration error has `timeout` in its message, so neither is retried |
| Server.ErrorText | server.js:233 | `err?.message \|\| String(err)`: the message when it is non-empty, else the error's text; empty only when both are |
| Server.Notification | server.js:146-205 | the notification goes to the configured recipient (`Smtp.Recipient`, never empty) from the configured sender (`Smtp.Sender`), and its subject is the fixed prefix followed by text that reads back as the submission's id |
| Server.NotificationBodies | server.js:152-196 | when no field value carries a line break, the notification's text splits at `\n` into exactly the 17 plain-body lines and its HTML into an empty line, the 23 element lines and the closing indentation |
| Server.ConfigGap | server.js:144-147 | no configuration error iff a transporter exists and a recipient is set; the transporter is checked before the recipient |
| Server.SendSpec | server.js:142-225 | one to three attempts with a pause before each retry; nothing is transmitted when the configuration is incomplete, otherwise each attempt transmits the same notification once |
| Server.SendSpecStopsAt | server.js:142-225 | the notification send is fixed by where its attempts stop: after `n` retryable failures it makes `n + 1` attempts and `n` pauses, finishes as attempt `n + 1` did, and transmits `n + 1` copies of the notification when the configuration is complete, none otherwise |
| Server.SendEmailWithRetry | server.js:142-225 | the loop over `retryCount` does exactly what the closed-form policy says: same finish, attempts, pauses and transmitted mails |
| Server.ConfigGapEndsAtOnce | server.js:143-223 | a missing transporter or recipient throws that error after one attempt, no pause and no transmission; a missing transporter is the one reported when both are missing |
| Server.TimeoutsTransmitThreeTimes | server.js:199-223 | three timeouts hand the same notification to the transport three times and then throw the timer's error, so up to three copies may arrive for a submission answered with `emailSent: false` |
| Server.HandleSubmission | server.js:113-246 | a failed insert answers 500 "Failed to save submission" and sends nothing; otherwise 201 with the new id; `emailSent` holds iff the send returned; `emailError` is present iff the send threw with a non-empty error text, and is that text; never both |
| Server.PlannedProbe | server.js:276-292 | a debug attempt whose `verify()` failed ends with that error; one whose `verify()` passed ends as its send did |
| Server.Transmitted | server.js:276-284 | the probe hands only the test message to the transport, at most once per attempt; when every verification passed, exactly once per attempt |
| Server.TestEmailSpec | server.js:274-303 | one to three attempts with a pause before each retry; at most one transmission of the test message per attempt |
| Server.TestEmail | server.js:274-303 | the loop over `retryCount` does exactly what the closed-form policy says for the probe steps |
| Server.DebugEmail | server.js:262-311 | 400 with the configuration error when the transporter or the recipient is missing, checked in that order, with nothing sent; otherwise 200 "Debug email sent successfully" iff the probe returned, else 500 with the error text |
| Server.VerifyFailureEndsProbe | server.js:276-301 | a `verify()` failure whose error does not look like a timeout ends the probe on that attempt: it throws that error, and the attempt transmits nothing |
| Server.ProbeTransmitsAfterVerifyOnly | server.js:276-301 | when every verification fails the probe throws and nothing is handed to the transport |
| Server.NothingTransmitted | server.js:276 | a run of attempts whose verifications all failed hands nothing to the transport |

## Left out

- The Express routing, the JSON parsing of requests, CORS, the root route
  and the listener are not modelled. Each handler is a method from its
  inputs to a status and body.
- The PostgreSQL pool, the insert and its SQL are not modelled. The
  insert's outcome is a parameter (`InsertResult`). The connection check
  at start-up and the admin listing (`GET /api/admin/submissions`) are
  left out too.
- nodemailer's `createTransport`, `verify` and `sendMail` are not
  modelled. A transport is the profile it was built from. Verification
  results and send outcomes are parameters. The TLS options and the
  credentials inside a profile are not modelled.
- Timers, the 2-second pauses and the 30-second race are counted, not
  timed. A send that loses the race may still complete later; the model
  records it as a transmission (`sent`), not as a delivery.
- The start-up `verifyConnection` runs concurrently with request handling,
  so a request may see the transporter before verification settles. That
  interleaving is not modelled; `Smtp.Mailer.VerifyConnection` describes
  one complete run.
- Console logging is not modelled.
- Smtp.Mailer.VerifyConnection: the verification results are given for
  the whole run rather than observed against the transporter each time.
- Js.ToText: form fields are modelled as absent, null, booleans, integers
  or strings. JSON floats, arrays and objects are not modelled. A JSON
  number is a double in JavaScript, but `Num` holds an unbounded integer
  and prints all of its digits. So an integer of 2^53 or more, which
  `String` would round (`12345678901234567000`) or print in exponent form
  (`1e+21`), is not modelled as the server prints it.
- Server.HandleSubmission, Server.DebugEmail: the transporter is a
  parameter of its own and is not tied to the environment. The model
  therefore also admits a transporter while GMAIL_USER is unset (and so a
  mail with no sender), which server.js:34 never builds.
- Server.HandleSubmission: the insert is assumed to return a row, so the
  TypeError that `result.rows[0]` would raise on an empty result is not
  modelled. A thrown non-Error value, such as a string, is not modelled
  either: `MailError` always carries a message and a text.
