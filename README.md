# Glampling prize notifications — a Dafny model

This project models the outbound-notification control logic of the
Glampling prize backend. When a visitor wins a prize, the backend records
it and emails two messages: one to the winner and one to the
administrator.

## What is modelled

- **SMTP waterfall.** `EmailService` (email-service.js) holds three Gmail
  transporters in a fixed order. Its `enviarEmail` tries them one by one:
  `verify` first, then `sendMail`. It stops at the first accepted send and
  throws an aggregate error when the last transporter fails.
- **SendGrid adapter** (sendgrid-service.js). It maps a message to the
  SendGrid shape and reports the `x-message-id`. It rethrows a failure
  unchanged.
- **Two-tier hybrid** (hybrid-email-service.js). The whole Gmail waterfall
  is tried as one unit, then SendGrid as one unit. This holds for a
  single message and for the notification pair. `diagnosticar` probes both
  tiers and always returns a report.
- **Notification pair.** `enviarNotificaciones` appears in three files. It
  sends the winner's message first and the administrator's only after
  that. It returns `true` exactly when both were accepted, and never
  throws.
- **Firestore server** (server-firebase.js):
  - registration: validation, the new record with `notificado` false, the
    store write, the pair, and the flag on the returned copy;
  - the listing, newest first;
  - the statistics: notified count, today's count over a half-open day
    window, and a rounded percentage.
- **In-memory server** (server.js). An append-only array with register and
  list.

Every provider call (`verify`, `sendMail`, `sgMail.send`) is an input to
the model. A waterfall call receives a `Probe`: for each transporter
index, whether `verify` resolves and what `sendMail` replies. A single
SendGrid send receives a `Reply`.

Every dispatching operation also returns the trace of provider calls it
made (`Event`s). Ordering, short-circuiting and "SendGrid was not called"
are therefore statements about that trace.

The waterfall loop is an imperative method. It is proved against the
declarative `WaterfallOutcome` and `WaterfallTrace`, and the lemmas state
what those promise. The pair operations of the Gmail and hybrid services
are methods on their classes, proved equal to the specification functions
`SmtpPair` and `HybridPair`. The SendGrid service keeps no state, so it is
modelled with functions. The two servers are classes whose store is a
`seq` field that the register methods extend. The statistics and the
listing are functions of the stored records, which the Firestore server's
query methods apply to its collection; a failed read answers 500.

A JavaScript `undefined` or empty environment variable is modelled as the
empty string. A missing request field is `None`. Falsy values follow
JavaScript: `""` for strings, and `0` or absent for the timestamp.

## Model

| member | source | states |
|---|---|---|
| Common.Filter | server-firebase.js:176 | the result holds exactly the elements that satisfy the predicate, and is no longer than the input |
| Common.FilterAppend | server-firebase.js:184-187 | filtering distributes over concatenation |
| Common.FilterMultiset | server-firebase.js:184-187 | each matching value is kept exactly as often as it occurs; no other value is kept |
| Common.PositionsSnoc | server-firebase.js:184-187 | extending a sequence by one element adds its position to the matching positions exactly when it matches |
| Common.FilterCount | server-firebase.js:176 | the filtered length is the number of positions whose element matches |
| Common.FilterAll | hybrid-email-service.js:15-21 | a sequence whose every element matches filters to itself |
| Common.FlatMapAppend | email-service.js:74-93 | the pieces of two consecutive sequences follow each other, which makes every trace projection additive |
| Prizes.HasRequiredFields | server.js:19 | a request passes validation exactly when neither `email` nor `premio` is absent or the empty string |
| Notifications.WinnerHtml | email-service.js:113-125 | the winner's HTML body shows the prize label and the registration date |
| Notifications.AdminHtml | email-service.js:133-144 | the administrator's HTML body shows the winner's email, the prize label and the date |
| Notifications.WinnerMail | email-service.js:109-126 | the winner's message is addressed to `premio.email`, has the winner subject and no text body, and its HTML shows the prize label and `fechaRegistro` |
| Notifications.AdminMail | email-service.js:129-145 | the administrator's message goes to the admin address, has the admin subject, and its HTML shows the winner's email, the prize label and `fechaRegistro` |
| Notifications.WinnerIsNotAdmin | email-service.js:112 | the winner and administrator messages always differ, whatever their senders |
| Waterfall.Names | email-service.js:13 | the list of names has one entry per transporter, position by position |
| Waterfall.DefaultTransporters | email-service.js:12-68 | the list holds the configurations "Gmail Railway", "Gmail 587" and "Gmail Service", in push order |
| Waterfall.Succeeds | email-service.js:80-84 | one transporter succeeds exactly when its `verify` resolves and then its `sendMail` resolves |
| Waterfall.FailureMessage | email-service.js:93-98 | the message of the error caught for a failed attempt: `verify`'s when it rejected, otherwise `sendMail`'s |
| Waterfall.FirstSuccess | email-service.js:74-91 | the first succeeding position at or after `from`: every earlier one fails, and if it is below `n`, it succeeds |
| Waterfall.Contacted | email-service.js:74-98 | a call contacts at most all transporters; it stops before the end only right after a success, and every transporter contacted before the last one failed |
| Waterfall.WaterfallOutcome | email-service.js:74-101 | a call has no result exactly when the list is empty; a result names one of the listed transporters; a thrown error starts with the fixed prefix and needs a non-empty list |
| Waterfall.CallTrace | email-service.js:74-101 | a call makes only `verify` and `sendMail` calls, on transporters of the list, and hands `sendMail` only its own message |
| Waterfall.AttemptEvents | email-service.js:80-84 | a transporter's calls are its `verify`, then `sendMail` only when `verify` resolved |
| Waterfall.WaterfallTrace | email-service.js:74-84 | the calls made on the first `c` transporters, attempt after attempt in list order |
| Waterfall.EmailService.constructor | email-service.js:4-8 | a new service holds exactly the three configurations "Gmail Railway", "Gmail 587", "Gmail Service", in that order |
| Waterfall.EmailService.InitializeTransporters | email-service.js:10-69 | appends the three configurations, in priority order, to the list it finds |
| Waterfall.EmailService.EnviarEmail | email-service.js:71-102 | the loop returns exactly `WaterfallOutcome` and makes exactly the provider calls of `CallTrace` |
| Waterfall.AttemptVerifies | email-service.js:80 | each attempt verifies its own transporter exactly once |
| Waterfall.AttemptSends | email-service.js:80-84 | each attempt calls `sendMail` on its own transporter exactly when its `verify` resolved |
| Waterfall.SentSlotsStep | email-service.js:74-93 | one more transporter adds its `sendMail` call exactly when its `verify` resolved |
| Waterfall.VerifiesInOrder | email-service.js:74-80 | the first `c` transporters are verified once each, in list order, starting at index 0 |
| Waterfall.SendsOnlyAfterVerify | email-service.js:80-84 | `sendMail` is called on a transporter if and only if it was contacted and its `verify` resolved |
| Waterfall.SendFollowsVerify | email-service.js:80-84 | every `sendMail` call immediately follows a successful `verify` of the same transporter |
| Waterfall.MailsOnly | email-service.js:84 | a trace whose `sendMail` calls all carry one message hands over no other message |
| Waterfall.SendsOnlyItsMail | email-service.js:84 | the waterfall hands only the message it was given to `sendMail` |
| Waterfall.WaterfallEvents | email-service.js:78-100 | every call in the trace targets a contacted transporter, none is a SendGrid call, and each records that transporter's own outcome |
| Waterfall.NoSendGridInWaterfall | email-service.js:71-102 | the Gmail waterfall never calls SendGrid |
| Waterfall.FirstSuccessWins | email-service.js:84-91 | when transporter k is the first to succeed, the result names it and carries its messageId, exactly k+1 transporters are contacted, and the last call is k's accepted send |
| Waterfall.AllFailThrowsLast | email-service.js:96-99 | when every transporter fails, the error is the fixed prefix followed by the last transporter's message only, and all transporters were contacted |
| Waterfall.SentIffSomeSucceeds | email-service.js:74-101 | the call succeeds if and only if some transporter both verifies and sends |
| Waterfall.EmptyListNoResult | email-service.js:74-102 | with no transporters the call neither returns a result nor throws, and contacts nobody |
| Waterfall.CallTraceOnSuccess | email-service.js:80-91 | a call whose first success is transporter k ends with k's resolved `verify` and accepted send, after the calls on the transporters before it |
| Waterfall.SentMeansDelivered | email-service.js:84-91 | a success means the message really was accepted by the winning transporter |
| Waterfall.NonEmptyHasOutcome | email-service.js:96-99 | over a non-empty list the call always returns or throws |
| Waterfall.ThirdTransporterScenario | email-service.js:74-101 | the first two transporters time out and the third accepts: the result is the third's, after three contacts |
| Waterfall.SmtpFrom | email-service.js:110 | the notifications' `from` header shows the display name "Glampling" and the address `EMAIL_USER` |
| Waterfall.WinnerMailOf | email-service.js:109-126 | the Gmail tier's winner message comes from the Glampling header, goes to `premio.email` and has the winner subject |
| Waterfall.AdminMailOf | email-service.js:129-145 | the Gmail tier's administrator message comes from the Glampling header, goes to `ADMIN_EMAIL` and has the admin subject |
| Waterfall.SmtpPair | email-service.js:104-157 | the pair returns `true` exactly when neither waterfall threw; the winner's waterfall calls come first, unchanged; no SendGrid call is made |
| Waterfall.EmailService.EnviarNotificaciones | email-service.js:104-158 | the method returns exactly what `SmtpPair` specifies, with its calls |
| Waterfall.SmtpPairResult | email-service.js:148-157 | over a non-empty list the pair returns `true` exactly when both messages were accepted by some transporter |
| Waterfall.SmtpPairWinnerFirst | email-service.js:148-149 | only the two notifications are handed to `sendMail`; the winner's comes first and all its sends precede the administrator's; a thrown winner send means the administrator's message is never handed over |
| Waterfall.CallMails | email-service.js:84 | every message one waterfall call hands to `sendMail` is that call's own message |
| Waterfall.EmptyListPairReportsSuccess | email-service.js:148-152 | with no transporters the pair sends nothing yet returns `true` |
| SendGrid.SenderAddress | sendgrid-service.js:17 | the sender is `EMAIL_FROM` when set, otherwise `EMAIL_USER` |
| SendGrid.ToSendGrid | sendgrid-service.js:14-23 | `to`, `subject` and `html` are copied; the sender is `EMAIL_FROM` when set, otherwise `EMAIL_USER`, named "Glampling"; `text` is the given text when truthy, otherwise the subject |
| SendGrid.EnviarEmail | sendgrid-service.js:10-38 | exactly one SendGrid call; success if and only if it was accepted, then naming "SendGrid" with the provider's message id; otherwise the provider's error message is rethrown unchanged |
| SendGrid.WinnerMailOf | sendgrid-service.js:45-61 | the SendGrid winner message has no `from` of its own, goes to `premio.email` and has the winner subject |
| SendGrid.AdminMailOf | sendgrid-service.js:64-79 | the SendGrid administrator message has no `from` of its own, goes to `ADMIN_EMAIL` and has the admin subject |
| SendGrid.EnviarNotificaciones | sendgrid-service.js:40-92 | `true` exactly when both sends were accepted; the winner's send comes first and carries exactly the SendGrid form of the winner message; the administrator's, exactly the SendGrid form of the admin message, is made only after an accepted winner send; only SendGrid is called |
| SendGrid.NotificationContents | sendgrid-service.js:45-79 | both SendGrid messages show the prize and date, the administrator's also the winner's email, and their plain text is the subject |
| Hybrid.HybridEmailService.constructor | hybrid-email-service.js:5-9 | the Gmail tier is a fresh service with the three default transporters |
| Hybrid.HybridEmailService.EnviarEmail | hybrid-email-service.js:11-27 | Gmail's result is returned unchanged, with no SendGrid call, unless Gmail throws; then SendGrid is called exactly once; its success is returned, and its failure becomes "Ambos servicios de email fallaron" |
| Hybrid.HybridEmailService.EnviarNotificaciones | hybrid-email-service.js:29-54 | the method returns exactly what `HybridPair` specifies, with its calls |
| Hybrid.HybridPair | hybrid-email-service.js:29-54 | the Gmail tier's calls always come first and unchanged; when Gmail's pair returned `true` it is the whole result; otherwise the rest of the trace is exactly the SendGrid pair's calls |
| Hybrid.HybridPairFallback | hybrid-email-service.js:29-54 | the result is `true` if and only if either tier's pair returned `true`; SendGrid is not called when Gmail's pair succeeded, and is called once or twice otherwise |
| Hybrid.PartialGmailSuccessDeliversTwice | hybrid-email-service.js:33-44 | when Gmail accepts the winner's message but not the administrator's, the SendGrid tier resends both, so the winner receives the message at least twice |
| Hybrid.OneSendGridCallAfterWaterfall | hybrid-email-service.js:15-21 | a waterfall followed by one SendGrid send calls SendGrid exactly once |
| Hybrid.GmailTestMail | hybrid-email-service.js:65-70 | the Gmail test message goes to `ADMIN_EMAIL` from a "Test" header with address `EMAIL_USER`, with subject "Test Gmail", text "Test" and no HTML |
| Hybrid.SendGridTestMail | hybrid-email-service.js:79-83 | the SendGrid test message has no `from`, goes to `ADMIN_EMAIL`, with subject "Test SendGrid", text "Test" and no HTML |
| Hybrid.HybridEmailService.Diagnosticar | hybrid-email-service.js:57-91 | for each tier, `funciona` holds exactly when its test send succeeded, and otherwise `error` holds the failure message; the calls made are the Gmail waterfall for the Gmail test message followed by exactly one SendGrid send of the SendGrid test message |
| Mail.DeliveriesAppend | hybrid-email-service.js:33-44 | accepted deliveries to an address add up over consecutive traces |
| Mail.SendGridCallsAppend | hybrid-email-service.js:15-21 | SendGrid calls add up over consecutive traces |
| FirebaseServer.EnviarNotificaciones | server-firebase.js:43-94 | `true` exactly when both sends were accepted; the winner's message comes first, exactly as `WinnerMailOf` builds it; the administrator's, exactly as `AdminMailOf` builds it, the administrator's is made only after an accepted winner send |
| FirebaseServer.WinnerMailOf | server-firebase.js:46-63 | this server's winner message comes from the bare `EMAIL_USER`, goes to `premio.email` and has the winner subject |
| FirebaseServer.AdminMailOf | server-firebase.js:66-82 | this server's administrator message comes from the bare `EMAIL_USER`, goes to `ADMIN_EMAIL` and has the admin subject |
| FirebaseServer.TimestampOrNow | server-firebase.js:112 | the client's timestamp unless it is absent or 0, otherwise the current instant |
| FirebaseServer.NuevoPremio | server-firebase.js:109-119 | the new record carries the document id, the request's email and prize, the defaulted timestamp, the formatted date, and `notificado` false |
| FirebaseServer.PrizeServer.constructor | server-firebase.js:118 | the modelled `premios` collection starts empty and valid |
| FirebaseServer.PrizeServer.Valid | server-firebase.js:101-128 | every stored record passed validation and is still stored with `notificado` false |
| FirebaseServer.PrizeServer.RegistrarPremio | server-firebase.js:97-146 | an invalid request answers 400 with nothing stored or sent; a failed store write answers 500 with nothing sent; otherwise exactly one record is appended with `notificado` false, the pair is sent, and the response's record and flag carry the pair's result; stored records stay valid and unnotified |
| FirebaseServer.InsertDesc | server-firebase.js:151 | inserting into a newest-first list keeps it newest-first and adds exactly that record |
| FirebaseServer.ConsSorted | server-firebase.js:151 | a record no older than the head of a newest-first list can be put in front of it |
| FirebaseServer.SortDesc | server-firebase.js:151 | the records are ordered newest first and form a permutation of the input |
| FirebaseServer.ListarPremios | server-firebase.js:149-160 | the listing holds every stored record exactly once, newest first, and `total` is their number |
| FirebaseServer.PremiosEndpoint | server-firebase.js:149-167 | 200 exactly when the collection can be read, with every record once, newest first, and `total` their number; otherwise 500 with the internal error |
| FirebaseServer.PrizeServer.ConsultarPremios | server-firebase.js:149-167 | the listing endpoint answers over the stored collection and lists each stored record as often as it is stored |
| FirebaseServer.Notificados | server-firebase.js:176 | exactly the notified records are kept |
| FirebaseServer.InDay | server-firebase.js:184-186 | a record is of the day when its timestamp lies in the half-open window [hoy, manana): at or after `hoy` and strictly before `manana` |
| FirebaseServer.DeHoy | server-firebase.js:179-187 | exactly the records whose timestamp lies in [hoy, manana) are kept |
| FirebaseServer.Porcentaje | server-firebase.js:193 | 0 without records; otherwise the integer nearest 100·n/t, with halves rounded up; within [0, 100] whenever n ≤ t |
| FirebaseServer.Estadisticas | server-firebase.js:170-194 | `totalPremios` is the record count; the notified and today's counts never exceed it; the percentage is `Porcentaje` of the notified count over the total, lies in [0, 100] and is 0 without records |
| FirebaseServer.EstadisticasEndpoint | server-firebase.js:170-200 | 200 exactly when the collection can be read, with the statistics of the stored records; otherwise 500 with the internal error |
| FirebaseServer.PorcentajeOfNone | server-firebase.js:193 | with no notified record the percentage is 0, whatever the total |
| FirebaseServer.NothingStoredIsNotified | server-firebase.js:128 | over records none of which is flagged, the statistics report no notified record and 0 % |
| FirebaseServer.PrizeServer.ConsultarEstadisticas | server-firebase.js:170-200 | the statistics endpoint answers over the stored collection; over a store the registration handler built it always reports no notified record and 0 % |
| FirebaseServer.PremiosHoyExact | server-firebase.js:179-187 | `premiosHoy` counts exactly the positions whose record lies in the half-open day window |
| FirebaseServer.PremiosHoyMultiplicity | server-firebase.js:184-187 | a record inside the day window is counted as often as it is stored; a record outside it is never counted |
| FirebaseServer.PremiosNotificadosExact | server-firebase.js:176 | `premiosNotificados` counts exactly the positions holding a notified record |
| MemoryServer.NuevoRegistro | server.js:26-32 | the record carries the instant as id and the request's email, prize and timestamp as sent, with no default for the timestamp |
| MemoryServer.PrizeRegistry.constructor | server.js:11 | the store starts empty |
| MemoryServer.PrizeRegistry.RegistrarPremio | server.js:14-52 | an invalid request answers 400 and leaves the store unchanged; a valid one appends exactly that one record at the end and returns it; the new store is `Step` of the old; all stored records passed validation |
| MemoryServer.Step | server.js:19-35 | one call grows the store by one record exactly when it is accepted, keeps the earlier records, and adds only a record that passed validation |
| MemoryServer.PrizeRegistry.ListarPremios | server.js:55-60 | the listing returns the stored records in insertion order, and `total` is their number |
| MemoryServer.ReplayGrows | server.js:19-35 | a run of calls grows the store by exactly the number of accepted calls |
| MemoryServer.ReplayKeeps | server.js:35 | a run of calls never changes the records stored before it |
| MemoryServer.ReplayValid | server.js:19-23 | a run of calls stores only records that passed validation |
| MemoryServer.ReplayCounts | server.js:19-35 | after a run of calls the store has grown by exactly the number of valid ones, earlier records are unchanged, and every stored record passed validation |

## Left out

- Transport details are not modelled: the nodemailer options (hosts, ports, TLS, timeouts), the SendGrid API key and the Firebase initialisation. Only the outcome of each provider call is modelled, as an input.
- Console logging has no effect on any result and is omitted.
- `async`/`await` is modelled as sequential execution. Each handler runs to completion before the next, so concurrent requests are not modelled.
- The Express plumbing is not modelled: routing, middleware, status-code writing and `app.listen`. The handlers' decisions are modelled as response datatypes.
- The Firestore SDK is not modelled. The collection is a sequence of records. The document id, the clock and the locale date (`toLocaleString('es-ES')`) are inputs. A failed `addDoc` is a boolean input. Firestore's ordering of records with equal timestamps is not modelled: `ListarPremios` promises only newest-first order and a permutation.
- FirebaseServer.ListarPremios: timestamps are modelled as one integer type. In the code a client-sent timestamp is stored as a number or a string, while the `new Date()` default is stored as a Firestore timestamp, and Firestore's `orderBy` sorts by value type before value. A mix of the two kinds is therefore not listed in instant order, and the model does not capture that.
- FirebaseServer.EnviarNotificaciones: server-firebase.js:32 calls `nodemailer.createTransporter`, while nodemailer's factory is `createTransport`, as email-service.js:14 uses it. As written, loading the module would throw before any route exists. The model describes the server as if the transporter were created with `createTransport`.
- The HTML templates and the date format are opaque text around the interpolated fields. Only the presence of the prize label, date and email is stated. The three senders use the same templates. They differ only in `from`, which the model keeps: the Glampling header (`Waterfall.SmtpFrom`), the bare `EMAIL_USER`, or none for SendGrid.
- FirebaseServer.Porcentaje: JavaScript computes the ratio in floating point before `Math.round`. The model rounds the exact rational, so a ratio whose floating-point product lands just below or above a half may round differently.
- FirebaseServer.InDay: `new Date(p.timestamp)` and the local-midnight computation of `hoy`/`mañana` are replaced by integer timestamps, with the window bounds as parameters. The stored timestamps are of two kinds (a client-sent number or string, or the Firestore timestamp of the `new Date()` default), and the model does not capture how `new Date(p.timestamp)` at server-firebase.js:185 treats each kind.
- FirebaseServer.TimestampOrNow: a request timestamp is an integer or absent. Non-numeric values (strings, `NaN`) are not modelled.
- An environment variable that is `undefined` is modelled as the empty string. Both are falsy where the code tests them. A `from` built by interpolating it would read "undefined" rather than being empty in JavaScript.
- Waterfall.FailureMessage: an error without a `message` (which would read "undefined" in the aggregate error) is not modelled. Every failure carries a message string.
- config-firebase.js holds only configuration constants and is not part of this model.
- Not part of this model: an eligibility or cooldown check, a retry scan over unnotified records, and a persisted update of `notificado`. None of these appear in the code. server-firebase.js:128 explicitly leaves the stored document unflagged, which `PrizeServer.Valid` states.
