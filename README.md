# IT-repair ticketing backend — a Dafny model of its decision logic

The system is a NestJS backend. End users file IT-repair tickets through the LINE
messaging platform, and admins work through those tickets. This project models the
decision logic that sits on top of the database and the LINE HTTP API:

- **Ticket store** (`TicketsService`, `Store`): get-or-create of the LINE user, the
  ticket insert, the `created` history row and the `ticketCount` increment; `update`
  with its `status_changed` history row and its completion/cancellation stamps;
  listing with filters, `skip`/`take` pagination and `hasMore`; reading one ticket;
  and listing one LINE user's tickets.
- **Ticket numbers** (`TicketNumbers`, `Decimal`, `Strings`): `REP-YYYYMMDD-NNNN`.
  The date comes from `toISOString` with the hyphens removed. The sequence is one
  more than `parseInt` of the last four characters of the lexicographically greatest
  number with that day's prefix, and `padStart(4, '0')` pads it.
- **LINE webhook** (`LineService`, `LineController`): the controller's two guards and
  its error remapping; the HMAC signature check; the ordered per-event loop, in which
  each event's failure is caught on its own; and the text, follow and unfollow handlers.
- **Notifications** (`LineNotify`): the status→emoji and status→label lookups with
  their fallbacks, the five message templates, and one best-effort push per notice.
- **Error translation and validation** (`ExceptionFilter`, `ValidationPipe`): the
  global filter's mapping from a thrown value to `{status, code, message, details}`,
  and the pipe's short-circuits and `formatErrors` flattening.
- **Admin auth** (`AuthService`, `JwtStrategy`): `register` with its uniqueness
  check, `login`, `validateAdmin`, `getProfile`, the token claims and the
  `expiresIn` parsing, and the bearer-token `validate`.
- **Request DTOs** (`TicketDtos`, `AuthDtos`, `Validators`): one validity predicate
  per DTO, plus the DTO defaults.

How the outside world appears in the model:

- The database is one `Db` object whose fields are the tables. Generated ids come
  from one counter. The invariant `ValidTables` is kept by every operation. It says
  that users are keyed by their LINE id, that ids are unique, that admins have unique
  e-mails and usernames, and that each user's `ticketCount` equals the number of
  tickets the user owns.
- The LINE Messaging API is a `LineApi` object. `profileOf` gives the profile
  endpoint's answer, where None means the request fails. `pushOk(n)` says whether
  the n-th push succeeds. Every push attempt is appended to an `outbox` together
  with its outcome.
- These are function-typed parameters: HMAC-SHA256 (RFC 2104 with FIPS 180-4),
  Base64 (section 4 of RFC 4648), `JSON.stringify`, bcrypt, `jwtService.sign`,
  `IsEmail`, `IsDateString` and `new Date(string)`.
- The clock is explicit. `now` is the stamp written to rows, and a `UtcDateTime`
  holds the calendar fields that `toISOString` prints.

Each stateful operation has two parts. A pure function (`CreateEffect`,
`UpdateEffect`, `TextEffect`, `WebhookEffect`, `RegisterEffect`, …) gives the new
tables, the new outbox and the result. An imperative method on the service class
performs the writes in the source's order and is proved equal to that function.
The properties are lemmas about the functions.

Behaviour of the code worth noting:

- `completedAt` is stamped on every update whose status is 'completed', not only
  the first; `cancelledAt` likewise.
- The signature is computed over `JSON.stringify(body)`, the re-serialised parsed
  body, not over the raw request bytes.
- A missing secret or a bad signature throws BadRequest (400).
- An unknown department throws BadRequest.
- There is no per-day limit of 9999 tickets. `SequenceOverflowRepeats` shows what
  happens after 9999: once `…-9999` and `…-10000` exist, the greatest number by
  string order is `…-9999`, so the generator issues `…-10000` a second time.
  Whether the ticket table then refuses the insert depends on whether
  `ticketNumber` is unique there, which is the `numberIsUnique` field of
  `TicketSchema` (below). If it is unique, the insert throws a non-HTTP error after
  the user row was created or touched: no ticket, no history row and no count
  increment are written (`CreateDuplicateRefused`). The table is then the same
  as before, so every later `create` that day is refused the same way
  (`CreateAfterOverflowRefused`). If it is not unique, a second ticket with the
  same number is stored.
- There is no terminal-state check and no retry after a uniqueness conflict.
- `update` spreads the whole body into the ticket write, `comment` and `notifyUser`
  included. Whether the ticket table takes them depends on its definition, which
  is not part of this model. The table's shape is therefore a `TicketSchema`
  value on the `Db`: whether it has `comment` and `notifyUser` columns, whether
  `status` is the four-value enumeration, how an admin's id is written in
  `assignedTo`, the foreign key of the `assignedToAdmin` relation, and whether
  `ticketNumber` is unique. When the body
  does not fit (including an `assignedTo` that names no admin), the store throws a
  non-HTTP error and no history row is written (`UpdateRejected`). With neither
  column and an enumerated status, any body with a comment is refused.
- The follow handler inserts without looking first, so a follow from a known user
  fails on the unique `lineUserId` and sends no welcome message.

## Model

| member | source | states |
|---|---|---|
| `TicketNumbers.DateKeyDigits` | src/modules/tickets/tickets.service.ts:256-257 | the date key is the 4-digit year, 2-digit month and 2-digit day of the ISO date with the hyphens removed; the prefix `REP-<key>` has 12 characters |
| `TicketNumbers.DayPrefixExample` | src/modules/tickets/tickets.service.ts:256-257 | every instant of 1 May 2024 UTC has the prefix `REP-20240501` |
| `TicketNumbers.WithPrefixMembers` | src/modules/tickets/tickets.service.ts:259-264 | the `startsWith` search keeps exactly the stored numbers with the day prefix |
| `TicketNumbers.GreatestIsMaximal` | src/modules/tickets/tickets.service.ts:265 | the first row of `orderBy: {ticketNumber: 'desc'}` is at least every other number in string order |
| `TicketNumbers.FirstOfDay` | src/modules/tickets/tickets.service.ts:259-274 | with no number for the day, the generated number is `REP-<date>-0001` |
| `TicketNumbers.FormatRoundTrip` | src/modules/tickets/tickets.service.ts:274 | for 1 ≤ seq ≤ 9999 the padded number ends in the four digits of seq, and `parseInt` of the last four characters gives seq back |
| `TicketNumbers.SequenceRoundTrip` | src/modules/tickets/tickets.service.ts:255-274 | a generated number with sequence 1..9999 is `"REP-" + YYYY + MM + DD + "-" + NNNN`, and its last four characters parse back to the sequence |
| `TicketNumbers.SequenceAfterTop` | src/modules/tickets/tickets.service.ts:268-272 | when the day's numbers have the generated layout, the new sequence is one more than the greatest sequence issued that day |
| `TicketNumbers.DayOrder` | src/modules/tickets/tickets.service.ts:265 | between two well-formed numbers of one day, string order is the order of their sequences |
| `TicketNumbers.NextNumberIsFresh` | src/modules/tickets/tickets.service.ts:259-274 | when the day's numbers have sequences below 9999, the new number is greater in string order than each of them, so it is not in the table |
| `TicketNumbers.GeneratedNumberIsFresh` | src/modules/tickets/tickets.service.ts:255-274 | the same freshness for the prefix taken from the clock's UTC date |
| `TicketNumbers.SequenceOverflowRepeats` | src/modules/tickets/tickets.service.ts:265-274 | past 9999, string order is not numeric order: with `p-9999` and `p-10000` stored, the next number is `p-10000` again |
| `Decimal.PadIsFixed` | src/modules/tickets/tickets.service.ts:274 | `padStart(width, '0')` of the decimal text of n < 10^width is exactly the width-digit zero-filled text of n |
| `Decimal.ParseIntOfDigits` | src/modules/tickets/tickets.service.ts:270 | `parseInt` (no radix) of a non-empty digit string is its decimal value |
| `Decimal.FixedLess` | src/modules/tickets/tickets.service.ts:265 | for numbers with at most w digits, numeric order equals string order of their w-digit texts |
| `Strings.LessTotal` | src/modules/tickets/tickets.service.ts:265 | string comparison is total on distinct strings (with `LessTransitive`, a strict total order) |
| `Strings.LessTransitive` | src/modules/tickets/tickets.service.ts:265 | string comparison is transitive |
| `TicketsService.CreateUnknownDepartment` | src/modules/tickets/tickets.service.ts:11-17 | an unknown `departmentId` throws BadRequest 'Department not found' and leaves every table unchanged |
| `TicketsService.CreateAddsOneTicket` | src/modules/tickets/tickets.service.ts:41-75 | when the column is not unique or the generated number is not stored yet, create succeeds and appends exactly one ticket (status 'pending', the generated number, owned by the body's user, not deleted) and exactly one history row for it with action 'created' and comment 'Ticket created'; admins and departments are untouched |
| `TicketsService.CreateCountsTicket` | src/modules/tickets/tickets.service.ts:19-81 | create succeeds exactly when the number fits the table; an unseen LINE user is created named after the nickname, a known user only gets `lastSeenAt` refreshed; its count rises by exactly 1 when the ticket is stored and stays put when the insert is refused; no other user changes |
| `TicketsService.CreateDuplicateRefused` | src/modules/tickets/tickets.service.ts:19-66 | on a unique `ticketNumber` column holding the generated number, the insert throws a non-HTTP error; the user row written before it stays, and tickets, history, admins, departments and the count are unchanged |
| `TicketsService.CreateAfterOverflowRefused` | src/modules/tickets/tickets.service.ts:41-66 | on a unique column, once `p-9999` and `p-10000` are stored, create is refused and leaves the numbers as they were, so each later create that day is refused too |
| `TicketsService.CreateKeepsValid` | src/modules/tickets/tickets.service.ts:19-81 | create keeps the table invariant, in particular that every `ticketCount` equals the number of the user's tickets |
| `TicketNumbers.NextKeepsWellFormedDay` | src/modules/tickets/tickets.service.ts:259-274 | issuing the next number keeps the day well formed while its sequence is below 9999, and keeps every other day of the same prefix length well formed |
| `TicketsService.CreateKeepsWellFormedDay` | src/modules/tickets/tickets.service.ts:41-47 | `create` keeps the day's numbers well formed while the issued sequence is below 9999, so freshness holds again for the next ticket; other days stay well formed |
| `TicketsService.UpdateKeepsNumbers` | src/modules/tickets/tickets.service.ts:201-207 | `update` changes no ticket number |
| `TicketsService.CreateNumberIsFresh` | src/modules/tickets/tickets.service.ts:41-47 | with a well-formed day, create succeeds even on a unique column, and the new ticket's number differs from every stored ticket number |
| `TicketsService.FirstTicketOfDay` | src/modules/tickets/tickets.service.ts:9-84 | the first ticket of 1 May 2024 from a new user is `REP-20240501-0001`, 'pending', and its owner's count goes from 0 to 1 |
| `TicketsService.TicketsService.CreateForDay` | src/modules/tickets/tickets.service.ts:9-84 | the method's writes (user create or touch, the ticket insert the table may refuse, history row, count increment) leave exactly the tables and result of `CreateEffect` |
| `TicketsService.TicketsService.Create` | src/modules/tickets/tickets.service.ts:9-84 | `create` at a clock reading, with the day prefix taken from its UTC date |
| `TicketsService.LiveIndex` | src/modules/tickets/tickets.service.ts:162-163 | finds a ticket with the id that is not soft-deleted, or reports that none exists |
| `TicketsService.FindOne` | src/modules/tickets/tickets.service.ts:161-196 | succeeds exactly when a live ticket has the id and returns it; otherwise throws NotFound 'Ticket not found' |
| `TicketsService.UpdateMissing` | src/modules/tickets/tickets.service.ts:198-199 | updating a missing or soft-deleted ticket throws NotFound and writes nothing |
| `TicketsService.UpdateRejected` | src/modules/tickets/tickets.service.ts:198-215 | when the ticket table does not take the body (a comment or `notifyUser` it has no column for, a status outside its enumeration, or an `assignedTo` naming no admin), the ticket write throws a non-HTTP error and nothing is written, no history row included |
| `TicketsService.UnknownAssigneeRejected` | src/modules/tickets/tickets.service.ts:201-215 | an `assignedTo` that names no admin breaks the `assignedToAdmin` foreign key: the update is refused and no history row is appended, whatever the table's other columns |
| `TicketsService.UpdateAppendsOneRow` | src/modules/tickets/tickets.service.ts:198-231 | when the table takes the body, update rewrites only that ticket, leaves users, admins and departments as they were, and appends exactly one 'status_changed' row: `oldValue` the prior status, `newValue` the body's status when non-empty else the prior one, the caller as admin, the body's comment, `notifyUser` the body's value or true |
| `TicketsService.PatchedStamps` | src/modules/tickets/tickets.service.ts:201-207 | `completedAt` becomes the update time exactly when the body's status is 'completed' (on every such update), `cancelledAt` exactly when it is 'cancelled'; otherwise both stay |
| `TicketsService.PatchedFrame` | src/modules/tickets/tickets.service.ts:201-207 | update changes no ticket field besides the body's fields and the two stamps; an empty body changes nothing |
| `TicketsService.EmptyStatusHistory` | src/modules/tickets/tickets.service.ts:201-228 | when the table's status column is free text, an empty status is written to the ticket while the history row records the prior status as the new one; when it is the enumeration, the update is refused and nothing is written |
| `TicketsService.UpdateKeepsValid` | src/modules/tickets/tickets.service.ts:198-231 | update keeps the table invariant (ids, owners and ticket counts) |
| `TicketsService.TicketsService.Update` | src/modules/tickets/tickets.service.ts:198-231 | the method's lookup, ticket write (refused when the body does not fit the table) and history insert leave exactly the tables and result of `UpdateEffect` |
| `TicketsService.Filter` | src/modules/tickets/tickets.service.ts:104-127 | keeps exactly the tickets that are not deleted and match every given condition of the `where` object |
| `TicketsService.StatusFilter` | src/modules/tickets/tickets.service.ts:109 | a status filter alone keeps exactly the live tickets with that status |
| `TicketsService.SortByCreatedSorted` | src/modules/tickets/tickets.service.ts:135 | ordering by `createdAt` gives a sorted permutation of its input |
| `TicketsService.Window` | src/modules/tickets/tickets.service.ts:133-134 | `skip`/`take` select the slice from `skip` of at most `take` rows, empty past the end |
| `TicketsService.WindowOf` | src/modules/tickets/tickets.service.ts:130-158 | a window holds rows of the sequence in order, and `skip + page length < total` exactly when `skip + take < total` |
| `TicketsService.ListingSound` | src/modules/tickets/tickets.service.ts:86-158 | a page has at most `limit` rows, all live and matching, in `createdAt` order; `total` counts every match; `hasMore` holds exactly when `(page-1)*limit + limit < total` |
| `TicketsService.FindAllBounded` | src/modules/tickets/tickets.service.ts:102-158 | for a valid query, `findAll` returns at most 100 rows and never a soft-deleted ticket |
| `TicketsService.TicketsService.FindAll` | src/modules/tickets/tickets.service.ts:86-158 | building `where` field by field gives the same answer as `FindAllResult` |
| `TicketsService.OwnedLive` | src/modules/tickets/tickets.service.ts:242-246 | keeps exactly the user's tickets that are not soft-deleted |
| `TicketsService.FindByLineUserId` | src/modules/tickets/tickets.service.ts:233-253 | `[]` for an unknown LINE user; otherwise a newest-first permutation of that user's live tickets |
| `TicketsService.FindByLineUserIdMembers` | src/modules/tickets/tickets.service.ts:233-253 | a ticket is returned exactly when the user is known and the ticket is one of the user's live tickets |
| `TicketsService.Numbers` | src/modules/tickets/tickets.service.ts:259-266 | the generator searches every stored number, soft-deleted tickets included |
| `Store.Db.CreateUser` | src/modules/tickets/tickets.service.ts:25-33 | the user insert stores the row under its LINE id with the next id and changes nothing else |
| `Store.Db.UpdateUser` | src/modules/tickets/tickets.service.ts:35-38 | the user update replaces that user's row and changes nothing else |
| `Store.Db.CreateTicket` | src/modules/tickets/tickets.service.ts:45-66 | the ticket insert appends the row with the next id and changes nothing else |
| `Store.Db.UpdateTicket` | src/modules/tickets/tickets.service.ts:201-215 | the ticket update replaces that row and changes nothing else |
| `Store.Db.CreateHistory` | src/modules/tickets/tickets.service.ts:69-75 | the history insert appends the row with the next id and changes nothing else |
| `Store.Db.CreateAdmin` | src/modules/auth/auth.service.ts:37-46 | the admin insert appends the row with the next id and changes nothing else |
| `Store.OwnedCountUpdate` | src/modules/tickets/tickets.service.ts:201-207 | rewriting a ticket without changing its owner keeps every user's ticket count |
| `Store.FirstAdmin` | src/modules/auth/auth.service.ts:20-27 | the first admin passing the `where` test, or proof that none passes it; the e-mail, id and e-mail-or-username lookups of `register`, `login`, `getProfile` and `validate` are this lookup with their test |
| `Store.AdminByEmailUnique` | src/modules/auth/auth.service.ts:58-60 | with unique e-mails, the lookup returns the one admin that has it |
| `LineService.VerifySignature` | src/modules/line/line.service.ts:38-49 | throws BadRequest 'LINE_CHANNEL_SECRET not configured' exactly when the secret is empty; otherwise accepts exactly when the header equals base64(HMAC(secret, JSON.stringify(body))) |
| `LineService.WebhookRejects` | src/modules/line/line.service.ts:16-49 | an unset secret or a non-matching signature throws BadRequest before any event: no user is written and nothing is pushed |
| `LineService.RestIsSigned` | src/modules/line/line.service.ts:38-49 | the body's content besides the events is signed: for a serialisation that writes it out, two bodies differing only there get different verdicts under one signature, and the altered one is refused with nothing written |
| `LineService.WebhookAccepts` | src/modules/line/line.service.ts:16-36 | with a matching signature, every event is handled in array order and `handleWebhook` returns normally whatever the events do |
| `LineService.ReplayAppend` | src/modules/line/line.service.ts:22-35 | handling `a + b` is handling `a`, then `b` on the resulting state |
| `LineService.ReplayGrows` | src/modules/line/line.service.ts:22-35 | whatever the events, the outbox only grows, tickets, history and admins stay, and known users change at most in `lastSeenAt` |
| `LineService.ReplayKeepsValid` | src/modules/line/line.service.ts:22-35 | the event loop keeps the table invariant |
| `LineService.OtherEventsIgnored` | src/modules/line/line.service.ts:23-36 | 'unfollow' and any event other than a text message or a follow change nothing |
| `LineService.TextKnownUser` | src/modules/line/line.service.ts:51-105 | a known user's text refreshes only `lastSeenAt` and pushes exactly one menu to that user with the stored display name |
| `LineService.TextNewUser` | src/modules/line/line.service.ts:51-105 | an unknown user's text creates the user from the profile (count 0, empty picture or status stored as null) and pushes one menu; a failed profile fetch writes and pushes nothing |
| `LineService.FollowCreates` | src/modules/line/line.service.ts:107-131 | a follow inserts the user without looking first and pushes one welcome text; for a known user the insert fails and nothing is pushed |
| `LineService.FailedPushKeepsUser` | src/modules/line/line.service.ts:23-105 | a failed menu push is caught by the loop, while the user row written before it stays |
| `LineService.OrNull` | src/modules/line/line.service.ts:65-66 | `x \|\| null`: absent and empty strings become null, anything else is kept |
| `LineService.ProfileResult` | src/modules/line/line.service.ts:138-161 | a failed profile fetch becomes HttpException 500 'Failed to fetch LINE profile' |
| `LineService.PushResult` | src/modules/line/line.service.ts:163-189 | a failed push becomes HttpException 500 'Failed to send LINE message' |
| `LineService.LineApi.GetProfile` | src/modules/line/line.service.ts:138-161 | returns the profile endpoint's answer or the 500 |
| `LineService.LineApi.PushMessage` | src/modules/line/line.service.ts:163-189 | appends exactly one push with its outcome to the outbox and reports that outcome |
| `LineService.NotifyTextShape` | src/modules/line/line.service.ts:196-199 | when the message ends in a visible character, the trimmed text is exactly `"📢 " + title + "\n" + message` |
| `LineService.LineService.HandleTextMessage` | src/modules/line/line.service.ts:51-105 | the handler's writes and push give exactly `TextEffect` |
| `LineService.LineService.HandleFollowEvent` | src/modules/line/line.service.ts:107-131 | the handler's writes and push give exactly `FollowEffect` |
| `LineService.LineService.HandleWebhook` | src/modules/line/line.service.ts:16-36 | the loop with a caught failure per event gives exactly `WebhookEffect` |
| `LineService.LineService.SendLineNotify` | src/modules/line/line.service.ts:191-207 | pushes exactly one text message with the trimmed notification text |
| `LineController.Guard` | src/modules/line/line.controller.ts:27-33 | a missing or empty signature is refused first with 'Missing x-line-signature header', then a missing or non-array `events` with 'Invalid webhook body format'; it passes exactly when neither holds |
| `LineController.Remap` | src/modules/line/line.controller.ts:35-43 | success answers 'ok'; a BadRequest is rethrown unchanged; any other error becomes BadRequest 'Failed to process webhook' |
| `LineController.MissingSignature` | src/modules/line/line.controller.ts:27-29 | without a signature the request is refused and the service never runs |
| `LineController.MalformedBody` | src/modules/line/line.controller.ts:31-33 | with a signature but no event array the request is refused and the service never runs |
| `LineController.OnlyBadRequests` | src/modules/line/line.controller.ts:23-44 | everything the handler throws is a BadRequest |
| `LineController.GuardedOutcomes` | src/modules/line/line.controller.ts:23-44 | past the guards, the answer is 'ok' exactly when the signature verifies, and then all events have been handled; a refusal writes nothing; 'Failed to process webhook' never reaches the caller |
| `LineController.LineController.Webhook` | src/modules/line/line.controller.ts:23-44 | the handler gives exactly `WebhookReply` |
| `LineNotify.StatusEmoji` | src/modules/notifications/line-notify.service.ts:126-134 | one of the four status emoji, and '⚪' exactly when the status is not one of the four, undefined included |
| `LineNotify.StatusText` | src/modules/notifications/line-notify.service.ts:136-144 | one of the four labels, and 'Unknown' exactly when the status is not one of the four, undefined included |
| `LineNotify.StatusTable` | src/modules/notifications/line-notify.service.ts:126-144 | the lookups entry by entry, and both fallbacks for undefined and '' |
| `LineNotify.StatusEmojiInjective` | src/modules/notifications/line-notify.service.ts:126-134 | distinct known statuses get distinct emoji |
| `LineNotify.OrNotAvailable` | src/modules/notifications/line-notify.service.ts:20 | `ticketNumber \|\| 'N/A'` |
| `LineNotify.Shown` | src/modules/notifications/line-notify.service.ts:40 | a present ticket number is interpolated as itself |
| `LineNotify.CreatedFallback` | src/modules/notifications/line-notify.service.ts:17-25 | a missing or empty ticket number in the created template reads as 'N/A' |
| `LineNotify.MessageIsBody` | src/modules/notifications/line-notify.service.ts:17-25 | trimming removes only the template literal's own line breaks and indentation |
| `LineNotify.SentText` | src/modules/notifications/line-notify.service.ts:27-32 | the text the user receives is the bell, the notice's title, a line break and the template body |
| `LineNotify.FixedStatusLines` | src/modules/notifications/line-notify.service.ts:16-124 | created shows Pending, assigned In Progress, completed Completed, cancelled Cancelled; only updated derives its status line from `payload.status` |
| `LineNotify.StatusOnlyInUpdated` | src/modules/notifications/line-notify.service.ts:16-124 | every notice other than updated is the same whatever the payload's status |
| `LineNotify.UpdatedShowsStatus` | src/modules/notifications/line-notify.service.ts:59-81 | the updated notice tells any two known statuses apart |
| `LineNotify.LineNotifyService.NotifyTicketCreated` | src/modules/notifications/line-notify.service.ts:16-36 | exactly one push to `payload.lineUserId` titled 'Ticket Created'; a failed push returns normally |
| `LineNotify.LineNotifyService.NotifyTicketAssigned` | src/modules/notifications/line-notify.service.ts:38-57 | exactly one push titled 'Ticket Assigned'; a failed push returns normally |
| `LineNotify.LineNotifyService.NotifyTicketUpdated` | src/modules/notifications/line-notify.service.ts:59-81 | exactly one push titled 'Ticket Updated'; a failed push returns normally |
| `LineNotify.LineNotifyService.NotifyTicketCompleted` | src/modules/notifications/line-notify.service.ts:83-103 | exactly one push titled 'Ticket Completed'; a failed push returns normally |
| `LineNotify.LineNotifyService.NotifyTicketCancelled` | src/modules/notifications/line-notify.service.ts:105-124 | exactly one push titled 'Ticket Cancelled'; a failed push returns normally |
| `ExceptionFilter.CodeOr` | src/common/filters/http-exception.filter.ts:32 | a missing or empty code falls back to 'INTERNAL_ERROR', and the result is never empty |
| `ExceptionFilter.MessageOr` | src/common/filters/http-exception.filter.ts:33 | a missing or falsy message falls back to 'An unexpected error occurred' |
| `ExceptionFilter.Catch` | src/common/filters/http-exception.filter.ts:16-58 | the response is `success: false` with `{code, message, details}` from `ErrorOf`, sent with the exception's status for an HttpException and 500 otherwise |
| `ExceptionFilter.CodeNeverEmpty` | src/common/filters/http-exception.filter.ts:21-37 | the code is never empty, and differs from the default only when an object response supplied it |
| `ExceptionFilter.DetailsPassThrough` | src/common/filters/http-exception.filter.ts:30-34 | details come only from an HttpException's object response, unchanged |
| `ExceptionFilter.NonErrorIsInternal` | src/common/filters/http-exception.filter.ts:21-24 | a thrown non-Error gives 500, 'INTERNAL_ERROR', 'An unexpected error occurred' |
| `ExceptionFilter.ServiceBadRequest` | src/common/filters/http-exception.filter.ts:26-34 | a service's `BadRequestException(msg)` with a non-empty `msg` (every message the services throw) reaches the client as 400 with the default code and `msg` |
| `ExceptionFilter.InternalHttpMessage` | src/common/filters/http-exception.filter.ts:35-37 | a string response becomes the message with code 'INTERNAL_ERROR' |
| `ValidationPipe.ToValidate` | src/common/pipes/validation.pipe.ts:39-42 | validation runs exactly for a metatype other than String, Boolean, Number, Array and Object |
| `ValidationPipe.Transform` | src/common/pipes/validation.pipe.ts:13-37 | a falsy value or a missing or built-in metatype passes unchanged; otherwise the instance is returned when it has no errors, and BadRequest 'VALIDATION_ERROR' with `formatErrors(errors)` is thrown when it has some |
| `ValidationPipe.Entries` | src/common/pipes/validation.pipe.ts:50-52 | one `{field, constraint, message}` per constraint, in constraint order |
| `ValidationPipe.FormatErrorsLength` | src/common/pipes/validation.pipe.ts:44-53 | the number of details is the total number of constraints; an error without constraints adds nothing |
| `ValidationPipe.FormatErrorsAppend` | src/common/pipes/validation.pipe.ts:44-53 | formatting keeps error order: it distributes over concatenation |
| `ValidationPipe.FormatErrorsMembers` | src/common/pipes/validation.pipe.ts:44-53 | a detail is produced exactly when some error carries that constraint and message for that field |
| `ValidationPipe.ValidationFailureReply` | src/common/pipes/validation.pipe.ts:27-34 | the exception this pipe throws for a failed validation reaches the client, through the filter, as 400, 'VALIDATION_ERROR', 'Validation failed' with one detail per failed constraint |
| `AuthService.ExpirySetting` | src/modules/auth/auth.service.ts:119 | `JWT_EXPIRES_IN`, or '7d' when it is unset or empty |
| `AuthService.ExpiryOf` | src/modules/auth/auth.service.ts:120-122 | a text that `Number` reads as NaN is kept verbatim; any other text becomes `parseInt` of it |
| `AuthService.DefaultExpiry` | src/modules/auth/auth.service.ts:119-122 | without the setting the token lives for the span '7d' |
| `AuthService.DigitExpiry` | src/modules/auth/auth.service.ts:120-122 | a setting of decimal digits becomes that integer number of seconds |
| `AuthService.BlankExpiry` | src/modules/auth/auth.service.ts:120-122 | a blank setting is numeric for `Number` but NaN for `parseInt` |
| `AuthService.ExponentExpiry` | src/modules/auth/auth.service.ts:120-122 | '1e3' becomes 1 second, because `parseInt` stops at the exponent |
| `AuthService.TokenClaims` | src/modules/auth/auth.service.ts:124-134 | the token depends only on the claims `{sub: id, email, role}` and the settings |
| `AuthService.LoginExactly` | src/modules/auth/auth.service.ts:55-76 | with unique e-mails, login succeeds exactly for an active admin with the e-mail whose hash matches, and answers with that admin's view and token |
| `AuthService.LoginRefusesBeforeCompare` | src/modules/auth/auth.service.ts:58-64 | an unknown e-mail or inactive admin is refused with Unauthorized whatever the password comparison would say |
| `AuthService.ValidateAgreesWithLogin` | src/modules/auth/auth.service.ts:78-94 | `validateAdmin` accepts exactly when login does, returns the same passwordless admin, and always fails with 'Invalid credentials' |
| `AuthService.ProfileExactly` | src/modules/auth/auth.service.ts:96-116 | the profile of an existing admin is its selected fields when active, and Unauthorized otherwise |
| `AuthService.ViewHidesPassword` | src/modules/auth/auth.service.ts:48-52 | the returned admin does not depend on the stored password |
| `AuthService.RegisterRefusesTaken` | src/modules/auth/auth.service.ts:20-31 | a taken e-mail or username throws BadRequest and writes nothing |
| `AuthService.RegisterAddsViewer` | src/modules/auth/auth.service.ts:33-52 | otherwise exactly one admin is appended: an active 'viewer' storing `hash(password)`; the answer is its passwordless view and its token |
| `AuthService.RegisterKeepsValid` | src/modules/auth/auth.service.ts:16-53 | register keeps e-mails, usernames and ids unique |
| `AuthService.LoginAfterRegister` | src/modules/auth/auth.service.ts:16-76 | whoever has just registered can log in with the same e-mail and password, when bcrypt accepts its own hashes |
| `AuthService.AuthService.Register` | src/modules/auth/auth.service.ts:16-53 | the method's lookup, hash and insert give exactly `RegisterEffect` |
| `JwtStrategy.Validate` | src/modules/auth/strategies/jwt.strategy.ts:20-41 | succeeds only for an existing active admin with id `sub`, returning `sub` = id and the admin's e-mail, username, full name, role and activity, never the password; otherwise Unauthorized |
| `JwtStrategy.ValidateIssued` | src/modules/auth/strategies/jwt.strategy.ts:20-41 | the subject of a token issued to an admin validates exactly while that admin is active |
| `JwtStrategy.UnknownSubject` | src/modules/auth/strategies/jwt.strategy.ts:21-35 | a subject no admin has is refused with Unauthorized |
| `JwtStrategy.PrincipalIsProfile` | src/modules/auth/strategies/jwt.strategy.ts:20-41 | the principal is exactly the profile with the subject in front |
| `TicketDtos.PhoneHasTenDigits` | src/modules/tickets/dto/create-ticket.dto.ts:37-43 | both accepted phone layouts hold exactly ten digits once the hyphens are removed |
| `TicketDtos.DefaultPriority` | src/modules/tickets/dto/create-ticket.dto.ts:81-83 | a body without priority gets 'normal', which passes its enum check |
| `TicketDtos.ValidCreateBounds` | src/modules/tickets/dto/create-ticket.dto.ts:20-84 | a valid body has a non-empty nickname, an issue title of at least 10 characters, and a phone of 10 or 12 characters when present |
| `TicketDtos.EmptyQuery` | src/modules/tickets/dto/query-ticket.dto.ts:6-71 | the empty query is valid with page 1, limit 25, sortBy 'createdAt' and sortOrder 'desc' |
| `TicketDtos.ValidQueryPaging` | src/modules/tickets/dto/query-ticket.dto.ts:7-20 | for a valid query the offset `(page-1)*limit` is not negative and the page size is between 1 and 100 |
| `TicketDtos.UpdateFieldsOptional` | src/modules/tickets/dto/update-ticket.dto.ts:5-30 | the empty body is valid, and so is any status, cancellation reason and `notifyUser` |
| `TicketDtos.UpdateCommentBound` | src/modules/tickets/dto/update-ticket.dto.ts:16-20 | a plain comment is accepted exactly when it has at most 500 characters |
| `AuthDtos.RegisterBounds` | src/modules/auth/dto/register.dto.ts:5-29 | an accepted sign-up has a username of at least 3, a password of at least 6 and a full name of at least 2 characters, and a non-empty e-mail |
| `AuthDtos.LoginPasswordRule` | src/modules/auth/dto/login.dto.ts:10-15 | for plain text with a valid e-mail, a sign-in body is accepted exactly when the password has 6 to 50 characters |
| `AuthDtos.LoginRejectsExtra` | src/modules/auth/dto/login.dto.ts:4-16 | any property besides `email` and `password` gets the sign-in body rejected |
| `Validators.VisibleLengthPlain` | src/modules/auth/dto/register.dto.ts:8-9 | for text without variation selectors, the length the length checks measure is the number of characters |

## Left out

- The project's own validation pipe is installed by no bootstrap. `src/main-local.ts`
  installs the framework's built-in `ValidationPipe`, and `src/main.ts` and
  `api/index.ts` install none. The built-in pipe's failures reach the filter with
  code 'INTERNAL_ERROR' and a list of messages; that pipe is not modelled. The
  `ValidationPipe` module models the project's pipe as written.
- `HttpErrors.BadRequest`: the framework replaces an empty message with 'Bad
  Request'. This is not modelled, because no service throws an empty message.

- The query engine: tables are in-memory sequences and maps. `contains` is plain
  substring containment.
- `TicketsService.TicketsService.FindAll`: orders by `createdAt` whatever `sortBy`
  names, because ordering on an arbitrary column name is not modelled. An order
  other than 'asc' or 'desc' is an error of the query engine.
- `TicketsService.FindOne`: returns the ticket row without the joined user,
  department, assignee, attachments and history. Joins (`include`/`select` of
  relations) are left out everywhere.
- `Promise.all` in `findAll`: the two queries are modelled one after the other.
- Concurrency: every operation is sequential. Nothing models concurrent ticket
  creation, and the code has no guard against the duplicate numbers that the
  read-then-increment pattern can give under concurrency.
- Transactions: the code uses none. In a sequential model every operation is
  applied whole.
- LINE HTTP calls: the profile fetch and the push are modelled by their outcome
  only. The URLs, the bearer token and the request timeouts are left out.
- `LineService.VerifySignature`: the body's content other than what the handlers
  read is one opaque text, `WebhookBody.rest`. This covers `destination`, each
  event's `replyToken`, `timestamp`, `mode`, `webhookEventId` and message ids.
  `JSON.stringify` sees it, so the signature covers it, but its structure and
  key order are not modelled.
- `Validators.IsUuid`: `@IsUUID()` is modelled as any 8-4-4-4-12 pattern of hex
  digits. validator.js releases that also check the version and variant digits
  accept fewer strings. No package manifest fixes the release.
- Foreign primitives are parameters with no meaning given to them: HMAC-SHA256,
  Base64, `JSON.stringify`, bcrypt, `jwtService.sign`, `IsEmail`, `IsDateString`
  and `new Date(string)`.
- Passport's token signature and expiry check before `validate`: left to the
  library.
- Clock: the stamp `now` and the calendar fields are separate inputs. Only years
  0 to 9999 are modelled, because `toISOString` writes other years in the extended
  six-digit form.
- Ids: database UUIDs are natural numbers from one counter.
- `console` logging and the `Logger` calls.
- The `Record` lookups of the notifier are finite maps, so JavaScript prototype keys
  such as 'constructor' are not modelled.
- `Number` and `parseInt` are modelled on integer values only. `Number`'s
  fractional values, numeric separators and values beyond 2^53 are not modelled.
- An event without `source.userId`, or a message event without `message`: the
  source throws inside the loop and the error is caught. The model treats such an
  event as handled with no effect.
- The HTTP controllers for tickets and auth, the health check, bootstrap, module
  wiring, configuration, Swagger and `assign-ticket.dto.ts`: these are not part of
  this model.
- The notifier is not called from the ticket service. The source has no such call,
  so the model does not add one.
