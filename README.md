# Finance support bot: a Dafny model

This project models the core of a finance-support service for a Chilean company. It has
four parts:

- **RUT handling and aging.** A RUT (Rol Único Tributario) is the national tax id: a
  body of digits followed by a modulo-11 check character. The model covers cleaning,
  formatting and check-digit validation of a RUT, the validation of a client
  identifier, and the 0 / 1-30 / 31-60 / 61-90 / over-90 days-overdue buckets. It also
  covers the row scans that find a client and fold an aging spreadsheet into one
  client's summary.
- **The ticket store.** `DatabaseStorage` holds the PostgreSQL tables as sequences of
  rows inside a class. It covers:
  - ticket filtering, where falsy filters are ignored, with newest-first ordering;
  - partial updates with `updatedAt` and `completedAt` stamping;
  - the soft delete of templates;
  - comment visibility;
  - the statistics counters.
- **The Telegram bot.** `FinanceTelegramBot` keeps one conversation session per
  Telegram user. A session either collects the title and description of a new request,
  or waits for the completion response to a ticket. The model covers:
  - the template-callback branch;
  - the message handler and `handleFormInput`;
  - the `ticket_<action>_<id>` actions of finance-team members;
  - `completeTicket`;
  - the fan-out of new requests to the finance team;
  - the emoji lookups.
- **The dashboard helpers.** The seconds banding of `formatTimeAgo` and the two colour
  lookups.

Files:

- `wrappers.dfy`: `Option`.
- `js_text.dfy`: the JavaScript primitives the code relies on (`toLowerCase`, `trim`,
  `includes`, `split`, `String(n)`, `parseInt`).
- `sorting.dfy`: a stable insertion sort standing for `ORDER BY`.
- `formatting.dfy`, `validation.dfy`, `sheets.dfy`, `schema.dfy`, `storage.dfy`,
  `bot.dfy`, `client_utils.dfy`: one per source file.

Conventions:

- Time is a parameter `now` (milliseconds). Timestamps are whole numbers.
- Telegram is modelled by the bot's `outbox`, the list of notices it sends. In the
  fan-out, a set of reachable Telegram ids decides which sends succeed.
- Spreadsheet rows are `seq<seq<string>>` and are passed in directly. The API call that
  fetches them is not modelled.
- Text is a sequence of Unicode characters. Where the code depends on JavaScript's
  `length` or `substring`, which count UTF-16 code units, the model works on the code
  units (`JsText.Utf16`): in `truncateText` and in the name-length check of
  `validateClientIdentifier`.
- The aging captions and colours in formatting.ts were saved after a second UTF-8
  decoding ("día" is stored as `d\u00C3\u00ADa`, each coloured circle as four
  characters). The program returns those strings, and so does the model.

Where the code and its written design disagree, the model follows the code:

- **The RUT check digit.** The usual modulo-11 rule gives `K` when the remainder is 1.
  `validateRUT` computes the digit `1` there, and its `k` arm can never be taken.
  `ComputedVersusStandard` states the exact difference, and `ValidRutEndsInDigit` shows
  that every RUT ending in `k` is rejected.
- **Template selection.** Selecting a template does not check that the template is
  active. `getTicketTemplate` returns soft-deleted templates too, so they can still be
  chosen.
- **The aging client name.** `clientName` is taken from the first matching row whose
  name cell is not empty, not strictly from the first matching row.
- **A requester who is not registered.** After the second answer, the ticket is not
  created and the session is kept with both answers filled in. Every later text does
  nothing.

## Model

| member | source | states |
|---|---|---|
| Formatting.StripRut | server/utils/formatting.ts:32 | the `[^0-9kK]` replacement keeps only digits and k/K, and never lengthens the text |
| Formatting.CleanRut | server/utils/formatting.ts:46-48 | a cleaned RUT consists only of digits and lowercase `k` |
| Formatting.CleanRutIdempotent | server/utils/formatting.ts:46-48 | cleaning a cleaned RUT changes nothing |
| Formatting.StripRutAppend | server/utils/formatting.ts:32 | the character filter works piecewise: the stripped concatenation is the concatenation of the stripped parts |
| Formatting.FormatRut | server/utils/formatting.ts:30-44 | with fewer than two RUT characters the input comes back unchanged; otherwise the output ends in a dash followed by the last RUT character as typed |
| Formatting.GroupDigitsAppend | server/utils/formatting.ts:41 | the look-ahead replacement on digits splits over a suffix whose length is a multiple of three |
| Formatting.GroupDigitsIsThousands | server/utils/formatting.ts:41 | on a body of digits, the `\B(?=(\d{3})+(?!\d))` replacement equals the reference grouping, with a dot before each block of three digits counted from the right |
| Formatting.FormatRutDigitBody | server/utils/formatting.ts:30-44 | a RUT with a digit body is printed as the thousands-grouped body, a dash, then the verifier as typed |
| Formatting.StripRutOfGroupDigits | server/utils/formatting.ts:41 | removing the inserted dots gives back the body |
| Formatting.FormatRutThenClean | server/utils/formatting.ts:30-48 | cleaning the output of `formatRUT` gives the cleaned input |
| Formatting.ComputedVerifier | server/utils/formatting.ts:66-67 | the computed verifier is always exactly one decimal digit |
| Formatting.ComputedVersusStandard | server/utils/formatting.ts:66-67 | the code's verifier equals the usual modulo-11 verifier iff the remainder is not 1; at remainder 1 the code gives "1" and the usual rule gives "k" |
| Formatting.ValidateRut | server/utils/formatting.ts:50-70 | the loop over the body, with weights 2..7 cycling from the right and a NaN sum on a non-digit, returns exactly `IsValidRut`; fewer than two cleaned characters is invalid |
| Formatting.ValidRutEndsInDigit | server/utils/formatting.ts:66-69 | every accepted RUT ends in a digit, so a RUT whose verifier is `k` is always rejected |
| Formatting.NonDigitBodyRejected | server/utils/formatting.ts:61-69 | a `k` inside the body makes the sum NaN and the RUT invalid |
| Formatting.BucketOf | server/utils/formatting.ts:72-86 | the bucket rank is 0 for days <= 0, 4 above 90, and otherwise `(days - 1) / 30 + 1` |
| Formatting.FormatAgingBucket | server/utils/formatting.ts:72-78 | the caption is the label of the bucket of the days, spelt with the code points the source file holds |
| Formatting.GetAgingColor | server/utils/formatting.ts:80-86 | the colour is the colour of the bucket of the days, spelt with the code points the source file holds |
| Formatting.LabelAndColorAgree | server/utils/formatting.ts:72-86 | two day counts get equal captions iff they fall in the same bucket, and equal colours iff they fall in the same bucket |
| Formatting.BucketMonotone | server/utils/formatting.ts:72-86 | more days overdue never fall in an earlier bucket |
| Formatting.TruncateText | server/utils/formatting.ts:101-104 | over UTF-16 code units: text within the limit is unchanged; longer text becomes a prefix of it plus "...", of length `maxLength` when `maxLength >= 3` and 3 otherwise |
| Formatting.TruncateCountsCodeUnits | server/utils/formatting.ts:101-104 | two emoji are four code units, so with a limit of 3 only "..." is left |
| JsText.TrimEmptyIffAllWhitespace | server/utils/validation.ts:11 | `trim()` yields the empty text iff every character is white space |
| Validation.ValidateClientIdentifier | server/utils/validation.ts:8-34 | an empty identifier gets exactly the empty-identifier error; a RUT-shaped one is valid iff `validateRUT` accepts it; any other is valid iff its trimmed text is at least 3 UTF-16 code units long; at most one error; `isValid` iff no error |
| JsText.Includes | server/services/googleSheetsService.ts:86-87 | `includes` holds iff the needle occurs at some index |
| JsText.SameIgnoringCaseIsLowerEquality | server/services/googleSheetsService.ts:139 | the character-wise case-blind comparison equals equality of the lower-cased texts |
| Sheets.FindClient | server/services/googleSheetsService.ts:74-102 | no client when there are fewer than two rows; otherwise the client built from the first data row whose RUT or name contains the identifier case-insensitively, and none iff no data row matches |
| Sheets.EmptyIdentifierMatchesAnyRow | server/services/googleSheetsService.ts:86-87 | the empty identifier matches every row |
| Sheets.ClientNameIsFirstNonEmpty | server/services/googleSheetsService.ts:140-142 | the client name is empty iff every matching row has an empty name cell; otherwise it is the name of the first matching row with a non-empty name |
| Sheets.AgingStep | server/services/googleSheetsService.ts:135-158 | one more row appends its invoice iff it matches, and sets the client name iff it is still empty |
| Sheets.TalliedAppend | server/services/googleSheetsService.ts:158-172 | appending an invoice adds its balance to the total and to the one bucket of its days overdue, keeping every running total equal to its reference sum |
| Sheets.AddRow | server/services/googleSheetsService.ts:136-173 | a non-matching row changes nothing; a matching row appends its invoice, sets the name if it is empty, and keeps the totals tallied |
| Sheets.AddInvoice | server/services/googleSheetsService.ts:158-172 | the if-chain adds the balance to the total and to exactly the bucket of the days overdue |
| Sheets.Summarize | server/services/googleSheetsService.ts:125-174 | after the loop, the invoices are those of the matching data rows in row order, with the client name of `ClientNameIsFirstNonEmpty` and every total tallied |
| Sheets.GetClientAging | server/services/googleSheetsService.ts:120-190 | none for fewer than two rows or no matching row; otherwise the summary of `Summarize`, with `clientRut` the argument |
| Sheets.BucketsAddUpToTotal | server/services/googleSheetsService.ts:159-172 | current + days30 + days60 + days90 + over90 equals the sum of the balances |
| Sheets.NoMatchingInvoices | server/services/googleSheetsService.ts:176-178 | no invoice iff no data row carries the RUT |
| Sheets.UnreadableDaysAreCurrent | server/services/googleSheetsService.ts:146-163 | a days-overdue cell that does not parse reads as 0 and lands in `current` |
| JsText.ParseIntNoDigits | server/services/googleSheetsService.ts:146 | text with no digit after the optional sign parses to NaN, and `|| 0` makes it 0 |
| Schema.OrDefault | shared/schema.ts:45-46 | a column left out of an insert takes its default; a given value is stored as given |
| Schema.NewTelegramUser | shared/schema.ts:39-48 | a new telegram user gets the next id and the insertion time, role `requester` and active unless given |
| Schema.NewTicketTemplate | shared/schema.ts:51-61 | a new template defaults to priority `medium`, active, with no required fields |
| Schema.NewTicket | shared/schema.ts:64-82 | a new ticket defaults to status `pending`, priority `medium` and empty request data; both timestamps are the insertion time |
| Schema.NewTicketComment | shared/schema.ts:85-92 | a new comment defaults to not internal |
| Schema.NewTelegramMessage | shared/schema.ts:95-103 | a logged message keeps the given fields and gets the next id and the insertion time |
| Storage.Where | server/storage.ts:222-225 | a `WHERE` keeps exactly the rows satisfying the condition, and no more rows than the table has |
| Storage.WhereAll | server/storage.ts:230-233 | a condition that always holds keeps the whole table, in order |
| Sorting.SortBySorted | server/storage.ts:226 | the `ORDER BY` result is sorted by a total preorder and is a permutation of the selected rows |
| Sorting.SortByMembers | server/storage.ts:226 | ordering keeps exactly the selected rows |
| Sorting.TextLeTotal | server/storage.ts:150 | any two names are ordered one way or the other |
| Sorting.TextLeTransitive | server/storage.ts:150 | name order is transitive |
| Storage.OrdersAreTotalPreorders | server/storage.ts:145-151 | newest-first by `createdAt`, oldest-first for comments, and by name are total preorders |
| Storage.ConditionsMeanFilters | server/storage.ts:213-225 | the pushed `eq` conditions all hold for a ticket iff every truthy filter field matches it |
| Storage.NoConditionsIffNothingTruthy | server/storage.ts:213-221 | no condition is pushed iff there is no filter object or no truthy field (empty text, 0 and absent fields are ignored) |
| Storage.DatabaseStorage.PushConditions | server/storage.ts:214-219 | the pushes build exactly one condition per truthy field, in field order |
| Storage.DatabaseStorage.GetTickets | server/storage.ts:206-234 | a ticket is returned iff it passes every truthy filter; the result is newest first and is a permutation of the matching rows; with no truthy filter it is a permutation of all tickets |
| Storage.DatabaseStorage.GetTicket | server/storage.ts:236-242 | the ticket with that id, and none iff no ticket has it |
| Storage.DatabaseStorage.CreateTicket | server/storage.ts:244-250 | appends the defaulted row under the next serial id; no other table changes, and of the five serial counters only the ticket counter moves, by one |
| Storage.ApplyTicketUpdate | server/storage.ts:252-260 | every column the update leaves out keeps its value and every column it names takes the given value; id and `createdAt` are kept and `updatedAt` becomes now; `completed` without a truthy `completedAt` stamps now, otherwise `completedAt` follows the update |
| Storage.EmptyUpdateOnlyTouchesUpdatedAt | server/storage.ts:253-256 | an update naming no column changes only `updatedAt` |
| Storage.CompletionStamp | server/storage.ts:252-260 | the same update sent again at the same instant changes nothing more; a completing update sent again later moves `completedAt` to the later instant |
| Storage.DatabaseStorage.UpdateTicket | server/storage.ts:252-268 | only the row with that id changes, to the patched row; result none iff no ticket has that id, and then nothing changes; no serial counter moves |
| Storage.DatabaseStorage.GetTicketsByRequester | server/storage.ts:270-276 | exactly the requester's tickets, newest first, as a permutation of the matching rows |
| Storage.DatabaseStorage.GetTicketsByAssignee | server/storage.ts:278-284 | exactly the assignee's tickets, newest first, as a permutation of the matching rows |
| Storage.DatabaseStorage.GetTicketComments | server/storage.ts:287-304 | the ticket's comments oldest first, as a permutation of the rows the query selects; `includeInternal` defaults to false, and without it (omitted or false) only those whose flag is false (a NULL flag is not false) |
| Storage.DatabaseStorage.CommentsOf | server/storage.ts:288-303 | the two queries select exactly the ticket's comments, and without `includeInternal` only those whose flag is false (a NULL flag is not false) |
| Storage.DatabaseStorage.CreateTicketComment | server/storage.ts:306-312 | appends the defaulted comment under the next serial id; no other table changes, and only the comment counter moves |
| Storage.DatabaseStorage.CreateTelegramMessage | server/storage.ts:315-321 | appends the logged message under the next serial id; no other table changes, and only the message counter moves |
| Storage.DatabaseStorage.GetTelegramMessages | server/storage.ts:323-330 | `limit` defaults to 50; the result holds min(`limit`, n) of the n messages of that Telegram id, newest first, drawn from them as a sub-multiset, and no message left out is newer than one returned |
| Storage.TakeNewest | server/storage.ts:328-329 | the first `n` of a newest-first list are sorted, part of it, and none of the rest is newer than any of them |
| Storage.StatusCountsBounded | server/storage.ts:344-347 | the counts of three different statuses add up to at most the number of tickets |
| Storage.BumpLookup | server/storage.ts:354 | incrementing a key's counter adds one to that key and leaves every other key as it was |
| Storage.BumpSum | server/storage.ts:354 | each increment adds one to the sum of the counters |
| Storage.BumpKeys | server/storage.ts:354 | after an increment, the keys are the old keys plus the incremented one |
| Storage.DistinctCons | server/storage.ts:354 | a counter whose keys are distinct stays so when an entry with a new key is put in front |
| Storage.BumpDistinct | server/storage.ts:354 | increments never duplicate a key |
| Storage.CountByCorrect | server/storage.ts:352-360 | the counter built by the `forEach` loop holds each key's number of occurrences, its counts sum to the number of tickets, and its keys are distinct |
| Storage.DatabaseStorage.GetTicketStats | server/storage.ts:333-363 | total is the ticket count; pending + inProgress + completed <= total; `byCategory` and `byPriority` count each key's occurrences and each sums to total |
| Storage.DatabaseStorage.GetTelegramUser | server/storage.ts:98-104 | the user with that Telegram id, and none iff no user has it |
| Storage.DatabaseStorage.CreateTelegramUser | server/storage.ts:106-112 | appends the defaulted user under the next serial id; a duplicate Telegram id violates the unique key, adds no row, and still uses up the serial value; either way only the user counter moves |
| Storage.Defined | server/storage.ts:117-123 | a key is in the cleaned updates iff some entry with that key is not undefined |
| Storage.DefinedValues | server/storage.ts:117-123 | each defined entry keeps its own value in the cleaned updates |
| Storage.CleanUpdates | server/storage.ts:117-123 | the loop builds exactly `Defined(entries)`: the keys whose value is not undefined |
| Storage.UndefinedOnlyChangesNothing | server/storage.ts:117-129 | an update whose values are all undefined cleans to nothing and changes no column |
| Storage.ApplyUserChanges | server/storage.ts:125-129 | id and `createdAt` are kept; each of `telegramId`, `username`, `firstName`, `lastName`, `role` and `isActive` takes its new value (or NULL) when named and keeps its value otherwise |
| Storage.DatabaseStorage.UpdateTelegramUser | server/storage.ts:114-135 | only the user with that id changes, by the cleaned updates; `Some(None)` iff no user has that id, and then nothing changes; the result is `None` (the unique-key error) iff the user exists and the defined updates give it a Telegram id another user holds, and then nothing changes; no serial counter moves |
| Storage.DatabaseStorage.GetTelegramUsersByRole | server/storage.ts:137-142 | exactly the active users holding that role |
| Storage.DatabaseStorage.GetTicketTemplates | server/storage.ts:145-151 | exactly the active templates, sorted by name, as a permutation of the active rows |
| Storage.DatabaseStorage.GetTicketTemplate | server/storage.ts:153-159 | the template with that id, active or not, and none iff no template has it |
| Storage.DatabaseStorage.CreateTicketTemplate | server/storage.ts:161-172 | appends the defaulted template under the next serial id; no other table changes, and only the template counter moves |
| Storage.ApplyTemplateChanges | server/storage.ts:185-189 | id and `createdAt` are kept; each of `name`, `description`, `category`, `requiredFields`, `estimatedTime`, `priority` and `isActive` takes its new value (or NULL) when named and keeps its value otherwise |
| Storage.DatabaseStorage.UpdateTicketTemplate | server/storage.ts:174-195 | only the template with that id changes, by the cleaned updates; none iff no template has that id; no other table and no serial counter changes |
| Storage.Deactivated | server/storage.ts:198-201 | only the template with that id changes, and only its `isActive`, which becomes false |
| Storage.DatabaseStorage.DeleteTicketTemplate | server/storage.ts:197-203 | a soft delete: the table becomes `Deactivated`, and the result is true iff a row had that id; no other table and no serial counter changes |
| Storage.DeactivatedStaysButHidden | server/storage.ts:197-203 | a soft-deleted template keeps its id and is still found, but is no longer active |
| JsText.Split | server/telegram-bot.ts:260 | the parts contain no separator, and joining them with it gives back the text |
| JsText.ParseIntOfIntToString | server/telegram-bot.ts:261 | `parseInt(String(n))` is `n` for every integer |
| Bot.TemplateCallbackRoundTrip | server/telegram-bot.ts:136-137 | `template_<id>` callback data reads back as that id |
| Bot.TicketCallbackRoundTrip | server/telegram-bot.ts:259-261 | `ticket_<action>_<id>` reads back as that action and id when the action has no underscore |
| Bot.TicketCallbackWithoutId | server/telegram-bot.ts:259-261 | `ticket_<action>` with no id part yields no id |
| Bot.CallbackPrefixesDisjoint | server/telegram-bot.ts:136-160 | no callback data is both a template choice and a ticket action |
| Bot.RequestTicket | server/telegram-bot.ts:195-203 | the created ticket carries the captured title, description and responses, and the template's id, category and priority |
| Bot.AcceptAssigns | server/telegram-bot.ts:277-280 | accepting sets status `in_progress` and assigns the accepting user; completion time and response are kept |
| Bot.CompleteStamps | server/telegram-bot.ts:376-379 | completing sets status `completed`, stores the response and stamps `completedAt` with now; the assignee is kept |
| Bot.DeliveredToEveryReachable | server/telegram-bot.ts:232-256 | a failed send does not stop the loop: exactly the reachable finance-team users get the new-request notice |
| Bot.CategoryEmoji | server/telegram-bot.ts:340-349 | the four known categories map to their emojis; every other key, `other` included, gets the clipboard default |
| Bot.StatusEmoji | server/telegram-bot.ts:351-359 | the known statuses map to their emojis; every other key, `pending` included, gets the hourglass default |
| Bot.PriorityEmoji | server/telegram-bot.ts:361-369 | the known priorities map to their emojis; every other key, `medium` included, gets the yellow default |
| Bot.FinanceTelegramBot.NotifyFinanceTeam | server/telegram-bot.ts:229-257 | the loop sends, in list order, one notice to each reachable active finance-team user; sessions are untouched |
| Bot.FinanceTelegramBot.OnCallback | server/telegram-bot.ts:127-163 | missing chat or data changes nothing; an unknown template is reported and sessions are kept; a known template, active or not, overwrites the user's session with an empty `collecting_info` session; `ticket_` data has exactly the effect `TicketActionDone` describes for `handleTicketAction`; other data changes nothing |
| Bot.FinanceTelegramBot.SelectTemplate | server/telegram-bot.ts:136-155 | the template branch: a NaN id changes nothing; an unknown template gets "not found"; a known one overwrites the session |
| Bot.FinanceTelegramBot.OnMessage | server/telegram-bot.ts:166-179 | no sender, no text, a command, no session or a `completing_ticket` session changes nothing; a non-command text from a sender whose session is `collecting_info` has exactly the effect `FormInputDone` describes for `handleFormInput` |
| Bot.FinanceTelegramBot.HandleFormInput | server/telegram-bot.ts:182-227 | `FormInputDone`: the first text becomes the title, the second the description; with a registered requester, `RequestSubmitted` holds (the ticket is created, logged and announced, and the session is deleted); an unregistered requester keeps the filled session and nothing is created; after both answers, texts change nothing |
| Bot.FinanceTelegramBot.SubmitRequest | server/telegram-bot.ts:195-225 | `RequestSubmitted`: the ticket and its log entry are appended, users, templates and comments are kept, only the ticket and message counters move, the finance team is notified, the requester is told, and the session is deleted |
| Bot.FinanceTelegramBot.HandleTicketAction | server/telegram-bot.ts:259-338 | `TicketActionDone`: a NaN id changes nothing; a missing ticket is reported before the role check; a non-finance or unregistered user is refused; otherwise the action has the effect `ActionRan` describes |
| Bot.FinanceTelegramBot.RunTicketAction | server/telegram-bot.ts:275-337 | `ActionRan`: `accept` updates only that ticket, keeps every other table and counter, and notifies; `view` changes no state and sends one `DetailsOf` notice to that chat holding exactly the ticket's comments, each once, oldest first; `complete` overwrites the session with `completing_ticket` for that id; any other action changes nothing |
| Bot.FinanceTelegramBot.AcceptTicket | server/telegram-bot.ts:276-295 | the ticket is updated with the accept update, no other table or counter changes, and the accepting user and the requester (if the lookup finds them) are told |
| Bot.FinanceTelegramBot.ViewTicket | server/telegram-bot.ts:297-325 | one details notice for that chat and ticket with exactly the ticket's comments (the same multiset as the query, internal ones included), oldest first; nothing else changes |
| Bot.FinanceTelegramBot.CompleteTicket | server/telegram-bot.ts:371-398 | without a `completing_ticket` session nothing happens; otherwise only that ticket's row is completed with the response, no other table or counter changes, and the returned ticket is the stored row; if no ticket has that id the session stays, else the requester is told and the session is deleted |
| ClientUtils.ElapsedSeconds | client/src/lib/utils.ts:11 | the elapsed whole seconds are the floor of the difference over 1000, also for instants in the future |
| ClientUtils.Classify | client/src/lib/utils.ts:13-26 | the band boundaries are 60, 3600, 86400 and 604800 seconds, each an iff; minutes are in 1..59, hours in 1..23, days in 1..6 |
| ClientUtils.FormatTimeAgo | client/src/lib/utils.ts:8-27 | under a minute, including instants in the future, is exactly "just now"; a week or more is exactly the (unmodelled) locale date; everything between ends in " ago" |
| ClientUtils.PluralExactlyAboveOne | client/src/lib/utils.ts:15-23 | the unit word takes a plural `s` exactly when the count is above one |
| ClientUtils.CountReadsBack | client/src/lib/utils.ts:15-23 | the label starts with its count, which `parseInt` reads back |
| ClientUtils.CategoryColor | client/src/lib/utils.ts:29-38 | the five known categories map to their colours (`mean-reversion` and `momentum` share one); every other key gets gray |
| ClientUtils.StatusColor | client/src/lib/utils.ts:40-47 | `active` and `testing` have their own colours; `archived` and every unknown status get the same gray |

## Left out

- The `/start`, `/request`, `/status` and `/help` commands, and the text of every message. Notices carry only their recipient and the ids involved.
- `getUser` and `upsertUser`, the dashboard-user table.
- Telegram sending, `answerCallbackQuery`, `editMessageText` and `async` ordering. Only the fan-out models a failed send; every other send succeeds. A chat id of 0 is falsy and ends the callback handler, as in the code.
- The requester lookup passes the database id of the requester where a Telegram id is expected. The model performs exactly that lookup, with the id's decimal text as the key.
- A NaN id in a callback: `parseInt` fails, and the database query rejects the NaN, so the handler throws. The model ends the handler with nothing changed.
- Foreign keys, the 32-bit range of `serial` and `integer` columns, and database failures other than the unique `telegram_id` key.
- The empty update set: the store writes even when no column is named. A real driver rejects an empty `SET`.
- `ORDER BY` ties: the database may return tied rows in any order. The model keeps table order, and its contracts promise only sortedness and a permutation.
- Collation: text order is code-point order.
- `toLowerCase` folds only ASCII letters. `parseInt` reads decimal digits only, without the `0x` prefix.
- `parseFloat` of amounts, balances and credit limits: cells are read as integers. Balances are whole pesos.
- `new Date(...)` of sheet cells: dates stay as cell text. Table timestamps are whole numbers.
- The `toLocaleDateString` branch of `formatTimeAgo` (older than a week): its output is locale text and is modelled as `None`.
- JavaScript object keys inherited from `Object.prototype` (such as `toString`) in the emoji and colour lookups: they are treated as unknown keys, where JavaScript returns the inherited function.
- Storage.CountByCorrect: every key is counted as an ordinary key. In JavaScript the `{}` counters of server/storage.ts:354 and :359 inherit from `Object.prototype`. A category or priority named `toString`, `constructor` or `valueOf` starts from the inherited function, so its entry becomes a string, not a count. One named `__proto__` is never counted, because assigning a number to `__proto__` is ignored. The model's counter also lists its keys in first-occurrence order, while JavaScript lists integer-like keys (such as `"1"`) first, in ascending numeric order, then the others in insertion order. The counts of all other keys are as modelled.
- Storage.DatabaseStorage.GetTicketStats: `byCategory` and `byPriority` are built by `CountBy`, so they share both differences named on the `Storage.CountByCorrect` line: inherited key names are counted as ordinary keys, and the key order is first-occurrence order, not JavaScript's integer-keys-first order.
- Storage.DatabaseStorage.GetTelegramMessages: the limit is a natural number with the default 50. A negative limit, which SQL rejects, is not modelled.
- Sheets.FindClient: the row loop is modelled; the check for the configured sheet id and the API call are not.
- Validation.ValidateClientIdentifier: only the identifier check is modelled; the environment-variable checks are not.
- `formatCurrency`, `formatDate`, `formatDateTime` and `formatFileSize` (locale formatting and floating point).
