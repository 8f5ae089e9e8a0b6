# Personal CRM: share links, reminder ownership and client helpers

A Dafny model of the sequential logic of a personal CRM web application. Users
keep reminders about dated events (birthdays, anniversaries, meetings,
follow-ups) with contact details. The model covers four parts.

- **Reminder controller.** The protected reminder endpoints list, create, read,
  update and delete reminders. Each one first checks that the reminder exists,
  then that the caller owns it.
- **Share routes.** An owner can issue a 24-hour, single-use link for one
  reminder. Anyone holding it can read a few fields and submit a contact once.
  Each user can also issue a permanent personal link. A submission through it
  creates a new reminder for that user.
- **Today's events page.** These are pure client helpers: the "today" filter
  and its display order, contact formatting, WhatsApp number cleanup, greeting
  names, and the icon and emoji for each event type.
- **Service worker.** These are the caching decisions: which requests it
  intercepts, what it answers with, which responses it stores, and which caches
  it deletes.

## Layout

| file | module | models |
|---|---|---|
| wrappers.dfy | `Wrappers` | `Option`, the handler `Response` (200/201, 400, 401, 404, 500), JavaScript truthiness of optional strings |
| text.dfy | `Text` | `startsWith`, `includes` and `trim` |
| user_model.dfy | `UserModel` | the User record, its defaults and the unique email index |
| reminder_model.dfy | `ReminderModel` | the Reminder record, the event type enum, the contact sub-record and the schema defaults |
| database.dfy | `Database` | class `Db`, which holds the `reminders` and `users` collections as maps that the handlers reassign |
| reminder_controller.dfy | `ReminderController` | the five reminder handlers, as methods that modify a `Db` |
| share_links.dfy | `ShareLinks` | contact formatting, token issue, acceptance and consumption, and the personal-link reminder |
| share_routes.dfy | `ShareRoutes` | the six share handlers, as methods that modify a `Db` |
| todays_events.dfy | `TodaysEvents` | the page's filter, sort and formatting helpers |
| service_worker.dfy | `ServiceWorker` | the fetch and activate decisions |
| scenarios.dfy | `Scenarios` | a client walk-through of the share-link lifecycle, proved from the handlers' contracts alone |

Conventions:

- Time is an integer count of milliseconds, passed in as `now`.
- A "day" is `ms / 86400000`. This is the UTC day that `toISOString` names.
- Document ids are naturals.
- The random tokens and the new document ids are parameters. Each carries a
  freshness precondition.
- The authenticated caller is a given user id.

Points about the code that a reader might not expect:

- A caller who does not own a reminder gets 401 (Unauthorized).
- Nothing stops an update from changing `user`. The update handler copies
  every body field, `user` included, so an owner can hand a reminder to another
  user (`ReminderController.UpdateCanTransferOwnership`).
- The schema does not tie `shareToken` and `shareTokenExpiry` together. The
  share routes always set and clear them together (`ShareLinks.IssueShare`,
  `ShareLinks.ApplySubmission`), but an update can set one without the other.
- Expiry is checked lazily, when a token is looked up. No sweep removes expired
  tokens.
- Saving re-validates the whole reminder, but an update runs no validators. An
  update can therefore leave a reminder with an empty title. After that, every
  generate-link and submit-contact on it fails with 500, and an open link stays
  open (`ShareRoutes.GenerateLink`, `ShareRoutes.SubmitContact`).

## Model

| member | source | states |
|---|---|---|
| `UserModel.NewUser` | backend/models/userModel.js:5-49 | A user document exists only when name and email are both non-empty. It keeps the given password and googleId, either of which may be absent. All three permission flags start false, and there is no personal token. |
| `UserModel.InsertUser` | backend/models/userModel.js:14-18 | The unique email index refuses an insert exactly when another user already has that email. Otherwise the collection gains that one document, and emails stay unique. |
| `ReminderModel.ParseEventType` | backend/models/reminderModel.js:14-19 | The enum validator accepts a string exactly when it is one of the five names, and then it denotes the type of that name. |
| `ReminderModel.ParseEventTypeName` | backend/models/reminderModel.js:14-19 | Every event type is recovered from its stored name. |
| `ReminderModel.NewReminder` | backend/models/reminderModel.js:3-46 | A new reminder keeps its owner, title, type, date and notes. It has the default contact (country code "+91", no other field), is not completed and has no share token or expiry. |
| `Text.StartsWith` | frontend/public/sw.js:130 | `startsWith` holds exactly when the prefix occurs at position 0, and the string is then the prefix followed by the rest. |
| `Text.Includes` | frontend/public/sw.js:135-141 | A string that starts with `t` includes it, and a string that includes `t` is at least as long as `t`. |
| `Text.IncludesIffOccurs` | frontend/public/sw.js:135-141 | `includes` holds exactly when `t` occurs at some position of `s`. |
| `Text.IncludesAppend` | frontend/public/sw.js:135-141 | Appending text never removes an occurrence. |
| `Text.IncludesLonger` | frontend/public/sw.js:135-141 | A string that includes `t + u` includes `t`. |
| `Text.Trim` | frontend/src/TodaysEvents/TodaysEvents.jsx:132 | `trim` returns a contiguous piece of the input with only whitespace cut off at either end. The result neither starts nor ends with whitespace. |
| `ShareLinks.PrefixedNumber` | backend/routes/shareRoutes.js:59-61 | An absent or empty number gives "". A given number gives the country code followed by the number, which cutting off the code recovers. |
| `ShareLinks.FormatPhone` | backend/routes/shareRoutes.js:59 | The stored phone is empty exactly when no phone was submitted. Otherwise it is the country code followed by the submitted phone, which cutting off the code recovers. |
| `ShareLinks.FormatWhatsapp` | backend/routes/shareRoutes.js:61 | The stored WhatsApp number is the country code followed by the submitted WhatsApp number. Without one it falls back to the formatted phone. It is empty exactly when neither number was submitted. |
| `ShareLinks.StoredContact` | backend/routes/shareRoutes.js:57-63 | The stored contact has the given name, the formatted phone and WhatsApp numbers, and the email or "". Its country code is the submitted one, or "+91" when that is empty. |
| `ShareLinks.IssueShare` | backend/routes/shareRoutes.js:115-120 | Issuing sets the token and an expiry of now + 86 400 000 ms, overwriting any earlier pair. Nothing else changes. |
| `ShareLinks.AcceptsToken` | backend/routes/shareRoutes.js:146-149 | A reminder accepts a token only when it holds that token with an expiry. A missing expiry, or one at or before now, refuses every token. |
| `ShareLinks.IssuedTokenWindow` | backend/routes/shareRoutes.js:146-149 | A token issued at T is accepted exactly while now < T + 24 h, so it is accepted throughout [T, T + 24 h) and refused from T + 24 h on. |
| `ShareLinks.ReissueRevokes` | backend/routes/shareRoutes.js:119-120 | After re-issuing, an earlier different token is refused at every time. |
| `ShareLinks.ContactName` | backend/routes/shareRoutes.js:157 | The stored name is the submitted name, or the reminder's title when none was given. |
| `ShareLinks.ApplySubmission` | backend/routes/shareRoutes.js:155-166 | A submission sets the contact and clears both share fields. Every other field is unchanged. |
| `ShareLinks.SubmissionIsSingleUse` | backend/routes/shareRoutes.js:164-166 | After a submission, the reminder accepts no token at any time. |
| `ShareLinks.DetailsOf` | backend/routes/shareRoutes.js:188-199 | The details carry the title, event type, date and notes of the reminder, and nothing else. |
| `ShareLinks.PersonalReminder` | backend/routes/shareRoutes.js:51-65 | The new reminder is owned by the token's user. Its defaults are title "<name>'s Contact", type Custom, date now and the fixed notes. It carries the formatted contact with the raw name, is not completed and has no share token. A truthy event type outside the enum yields nothing. |
| `ReminderController.InsertByDate` | backend/controllers/reminderController.js:10 | Inserting into the date-ordered listing makes it one entry longer. |
| `ReminderController.InsertByDateMembers` | backend/controllers/reminderController.js:10 | Inserting into the listing adds exactly the new entry and loses none. |
| `ReminderController.InsertByDateSorted` | backend/controllers/reminderController.js:10 | Insertion keeps the listing in ascending date order. |
| `ReminderController.InsertByDateDistinct` | backend/controllers/reminderController.js:10 | Inserting an id that is not yet listed leaves no id listed twice. |
| `ReminderController.GetReminders` | backend/controllers/reminderController.js:8-15 | The list holds exactly the caller's stored reminders, each id once, in ascending date order. |
| `ReminderController.CreateReminder` | backend/controllers/reminderController.js:22-42 | A missing or empty title, type or date gets 400, and an event type outside the enum gets 500. Either way nothing is stored. Otherwise the store gains one reminder under the fresh id, owned by the caller, with only title, type, date and notes from the body and the default contact. A `contact` in the body is dropped. |
| `ReminderController.GetReminderById` | backend/controllers/reminderController.js:104-120 | A missing id gets 404, whoever asks. An existing reminder the caller does not own gets 401 with no content. The owner gets the stored reminder. Nothing is modified. |
| `ReminderController.Merge` | backend/controllers/reminderController.js:62-66 | Each field present in the body replaces the stored one, and each absent field keeps its value. `user` is included. |
| `ReminderController.MergeIdempotent` | backend/controllers/reminderController.js:62-66 | Applying an update twice equals applying it once, and an empty body changes nothing. |
| `ReminderController.UpdateCanTransferOwnership` | backend/controllers/reminderController.js:62-66 | An owner's update that names another user makes that user the owner. |
| `ReminderController.UpdateReminder` | backend/controllers/reminderController.js:49-72 | A missing id gets 404, then a wrong owner gets 401, both leaving the store unchanged. The owner's update stores and returns the merged reminder. Every other reminder and every user is unchanged. |
| `ReminderController.DeleteReminder` | backend/controllers/reminderController.js:79-97 | A missing id gets 404, then a wrong owner gets 401, both leaving the store unchanged. The owner's delete removes exactly that id. |
| `ShareRoutes.GeneratePersonalLink` | backend/routes/shareRoutes.js:7-28 | A user without a token gets the fresh token stored and returned. A user with one gets it back unchanged. A caller with no user document gets 500. Reminders never change, and personal tokens stay distinct. |
| `ShareRoutes.PersonalLinkIsStable` | backend/routes/shareRoutes.js:14-26 | Issuing the personal link twice returns the same result both times. |
| `ShareRoutes.SubmitPersonalContact` | backend/routes/shareRoutes.js:36-72 | There are exactly three outcomes. An unknown personal token gets 404. A known token with a truthy event type outside the enum gets 500. Every other submission gets 200. Only the 200 case stores anything: exactly `PersonalReminder` for the token's user, under the fresh id. While personal tokens are distinct, that owner is the one user holding the token. |
| `ShareRoutes.PersonalTokenOwnerUnique` | backend/routes/shareRoutes.js:44 | While personal tokens are distinct, a token designates at most one user. `SubmitPersonalContact` uses this to name the owner of the new reminder. |
| `ShareRoutes.PersonalDetails` | backend/routes/shareRoutes.js:80-94 | An unknown token gets 404. A known one returns the name and email of its user. |
| `ShareRoutes.GenerateLink` | backend/routes/shareRoutes.js:102-136 | A missing reminder gets 404, then a non-owner gets 401. An owner's reminder left without a title fails validation on save and gets 500. All three leave the store unchanged. Otherwise the reminder gets the fresh token with an expiry of now + 24 h, and the grant returns both. Share tokens stay distinct, and the database invariant holds. |
| `ShareRoutes.SubmitContact` | backend/routes/shareRoutes.js:140-177 | There are exactly three outcomes. 404 is returned exactly when no reminder accepts the token now. 500 means the accepting reminder has no title, so the save fails validation. 200 means a titled accepting reminder got `ApplySubmission`, and its title is returned. The 404 and 500 outcomes leave the store unchanged. When every accepting reminder is titled the result is 200, and when none is it is not 200. After a 200 with distinct tokens, no reminder accepts the token. |
| `ShareRoutes.SecondSubmissionRefused` | backend/routes/shareRoutes.js:146-168 | With distinct share tokens, a second submission after a successful one gets 404. A refused first submission is answered the same way the second time. |
| `ShareRoutes.AcceptingReminderUnique` | backend/routes/shareRoutes.js:146-149 | With distinct share tokens, at most one reminder accepts a token. |
| `ShareRoutes.Details` | backend/routes/shareRoutes.js:181-199 | 404 is returned exactly when no reminder accepts the token now. Otherwise the details of an accepting reminder are returned. Nothing is modified. |
| `TodaysEvents.Day` | frontend/src/TodaysEvents/TodaysEvents.jsx:42 | The day of an instant is the whole number of days whose span, starting at midnight UTC, contains the instant. |
| `TodaysEvents.TodaysReminders` | frontend/src/TodaysEvents/TodaysEvents.jsx:40-44 | The filter keeps every reminder dated on today's UTC day, each as often as it occurs, and drops every other. The result is never longer than the input. |
| `TodaysEvents.Compare` | frontend/src/TodaysEvents/TodaysEvents.jsx:45-51 | The comparator is negative exactly when `a` is incomplete and `b` completed, or both share a status and `a` is earlier. It is positive in the mirror case, and zero exactly for equal status and date. |
| `TodaysEvents.InsertForDisplay` | frontend/src/TodaysEvents/TodaysEvents.jsx:45-51 | Insertion adds exactly one element to the multiset. |
| `TodaysEvents.InsertForDisplayOrdered` | frontend/src/TodaysEvents/TodaysEvents.jsx:45-51 | Insertion keeps a list that the comparator accepts. |
| `TodaysEvents.SortForDisplay` | frontend/src/TodaysEvents/TodaysEvents.jsx:45-51 | The sort returns a permutation of its input. |
| `TodaysEvents.SortForDisplayOrdered` | frontend/src/TodaysEvents/TodaysEvents.jsx:45-51 | The sorted list has no pair that the comparator puts out of order. |
| `TodaysEvents.TodaysEventsView` | frontend/src/TodaysEvents/TodaysEvents.jsx:41-51 | The shown list is never longer than the fetched one. Every reminder in it was fetched and falls on today's UTC day. |
| `TodaysEvents.TodaysEventsViewSpec` | frontend/src/TodaysEvents/TodaysEvents.jsx:40-54 | The page shows exactly today's reminders, as a permutation of the filtered subset. Every incomplete one precedes every completed one, and dates ascend within each status. |
| `TodaysEvents.FormatContact` | frontend/src/TodaysEvents/TodaysEvents.jsx:589-594 | Phone is the country code followed by the phone, or "" when the phone is empty. WhatsApp is the code followed by the WhatsApp number, or else the formatted phone. Email and the country code pass through unchanged. |
| `TodaysEvents.FormatContactAgreesWithServer` | frontend/src/TodaysEvents/TodaysEvents.jsx:589-594 | The page formats phone and WhatsApp numbers exactly as the share routes do. |
| `TodaysEvents.DigitsOnly` | frontend/src/TodaysEvents/TodaysEvents.jsx:123 | Cleaning returns only digits, each taken from the input, and is never longer than the input. |
| `TodaysEvents.DigitsOnlyNoDigits` | frontend/src/TodaysEvents/TodaysEvents.jsx:123 | A string with no digits is cleaned to the empty string, so every non-digit is dropped. |
| `TodaysEvents.DigitsOnlyAppend` | frontend/src/TodaysEvents/TodaysEvents.jsx:171 | Cleaning distributes over concatenation. |
| `TodaysEvents.DigitsOnlyKeepsDigits` | frontend/src/TodaysEvents/TodaysEvents.jsx:171 | Cleaning leaves a digit string unchanged, so cleaning twice is cleaning once. |
| `TodaysEvents.WhatsAppNumber` | frontend/src/TodaysEvents/TodaysEvents.jsx:120-129 | A missing number and a number with fewer than 10 digits are both refused before any URL is built. Otherwise the target is the number's digits, at least 10 of them. |
| `TodaysEvents.SavedIndianNumberDialable` | frontend/src/TodaysEvents/TodaysEvents.jsx:167-181 | A ten-digit number saved with the default code "+91" is dialled as "91" followed by those digits. |
| `TodaysEvents.KeywordAt` | frontend/src/TodaysEvents/TodaysEvents.jsx:132 | It gives a positive length exactly when some keyword matches case-insensitively at the start, and that length is the keyword's. |
| `TodaysEvents.RemoveKeywords` | frontend/src/TodaysEvents/TodaysEvents.jsx:185 | Removal never lengthens the title. |
| `TodaysEvents.RemoveKeywordsNoMatch` | frontend/src/TodaysEvents/TodaysEvents.jsx:419 | A title in which no keyword occurs anywhere is left unchanged. |
| `TodaysEvents.LeadingKeywordRemoved` | frontend/src/TodaysEvents/TodaysEvents.jsx:533 | A leading keyword in any ASCII casing is removed. |
| `TodaysEvents.KeywordFreePrefix` | frontend/src/TodaysEvents/TodaysEvents.jsx:132 | A prefix where no keyword starts is kept unchanged, and removal continues on the rest. |
| `TodaysEvents.KeywordAfterPrefixRemoved` | frontend/src/TodaysEvents/TodaysEvents.jsx:185 | A keyword in any ASCII casing that follows a keyword-free prefix is removed, and removal continues after it. |
| `TodaysEvents.TrailingKeywordGreeting` | frontend/src/TodaysEvents/TodaysEvents.jsx:419 | A title ending in a keyword, such as "Ana's Birthday", greets the trimmed text before the keyword. |
| `TodaysEvents.GreetingName` | frontend/src/TodaysEvents/TodaysEvents.jsx:132 | The greeting name is never longer than the title and never starts or ends with whitespace. Together with the keyword lemmas above, it is the title with its keywords removed, then trimmed. |
| `TodaysEvents.EventIcon` | frontend/src/TodaysEvents/TodaysEvents.jsx:67-80 | The default icon is returned exactly when the type is not one of the four named types. |
| `TodaysEvents.EventEmoji` | frontend/src/TodaysEvents/TodaysEvents.jsx:83-96 | Each type gets a single emoji character. The default star is returned exactly when the type is not one of the four named types. |
| `TodaysEvents.EventEmojiAsWritten` | frontend/src/TodaysEvents/TodaysEvents.jsx:83-96 | The literals as stored are two to four Latin characters each. The default is returned exactly for the other strings. The named types' literals begin with the two characters that the UTF-8 lead bytes F0 9F become. |
| `TodaysEvents.EmojiLiteralsMisencoded` | frontend/src/TodaysEvents/TodaysEvents.jsx:86-94 | For every event type, the stored literal differs from the emoji it stands for. |
| `TodaysEvents.NamedTypesDistinguished` | frontend/src/TodaysEvents/TodaysEvents.jsx:67-96 | Different named types get different icons and different emojis. |
| `TodaysEvents.OnlyCustomGetsDefaults` | frontend/src/TodaysEvents/TodaysEvents.jsx:67-96 | Of the five stored types, exactly Custom gets the default icon and emoji. |
| `ServiceWorker.ShouldCacheRequest` | frontend/public/sw.js:126-146 | A request is cacheable exactly when its path starts with "/api/" or contains one of the asset markers anywhere. |
| `ServiceWorker.Woff2ImpliesWoff` | frontend/public/sw.js:140-141 | Every path containing ".woff2" also contains ".woff". |
| `ServiceWorker.JsonCountsAsScript` | frontend/public/sw.js:135 | The substring test makes any path containing ".json" cacheable. |
| `ServiceWorker.ShouldCacheExtends` | frontend/public/sw.js:130-142 | Extending a cacheable path keeps it cacheable. |
| `ServiceWorker.Intercepts` | frontend/public/sw.js:66-73 | A non-GET request is never intercepted, and neither is a `chrome-extension://` URL. An `https://` GET always is. |
| `ServiceWorker.Cacheable` | frontend/public/sw.js:88-96 | A stored response always has status 200 and a cacheable path. Every 200 "basic" response to an API path is stored. |
| `ServiceWorker.HandleFetch` | frontend/public/sw.js:64-123 | Non-GET and chrome-extension requests are not intercepted. A cache hit is served before any network use. Without a hit, a resolved fetch is answered from the network. That response is stored exactly when its status is 200, its type is "basic" and the path is cacheable. A failed fetch gives the offline page for a navigation and a 503 otherwise. |
| `ServiceWorker.CacheHitIgnoresNetwork` | frontend/public/sw.js:76-82 | On a cache hit, the outcome is the same whatever the network would return. |
| `ServiceWorker.StaleCaches` | frontend/public/sw.js:45-50 | The activate filter yields exactly the cache names other than the current one. |
| `ServiceWorker.ActivateKeepsOnlyCurrent` | frontend/public/sw.js:44-55 | After activation, at most the current cache remains, and it remains if it was present. |

## Findings

| source | as written | input that shows it | evidently intended | confidence | as-written member | corrected member |
|---|---|---|---|---|---|---|
| frontend/src/TodaysEvents/TodaysEvents.jsx:86-94 | The emoji literals were saved double-encoded: UTF-8 bytes read as Windows-1252. `getEventEmoji` returns strings such as "\u00F0\u0178\u017D\u201A". | `getEventEmoji('Birthday')` | the cake emoji U+1F382, and likewise U+1F496, U+1F91D, U+1F4DE, and the star U+2B50 | medium, not executed (could also be an artifact of how the file was stored) | `TodaysEvents.EventEmojiAsWritten`, `TodaysEvents.EmojiLiteralsMisencoded` | `TodaysEvents.EventEmoji` |

## Left out

- Authentication is not modelled: the bearer-token middleware, JWT verification, Passport's Google strategy and the login, registration and profile routes. The caller is a given user id. The middleware passes a request on even when the token's user no longer exists. The model keeps one consequence: `GeneratePersonalLink` answers 500 when the caller has no user document.
- Randomness and the clock are not modelled. Tokens and document ids are parameters with freshness preconditions, and `now` is a parameter.
- The link URLs built from `FRONTEND_URL` and the `message` strings of the JSON replies are not modelled.
- Date parsing and formatting are not modelled (`new Date(string)`, `toISOString`, `toLocaleDateString`). Dates arrive as milliseconds, so an unparseable date string, which the source turns into a 500, cannot be expressed.
- `ReminderController.CreateReminder`: the date counts as missing only when it is absent. A date sent as the JSON number 0 is falsy in the source and gets 400, but a millisecond count cannot tell it apart from a real date.
- `ReminderController.UpdateReminder`: `findByIdAndUpdate` runs no validators. The typed update body cannot hold an event type outside the enum, a `null` field or a dotted path such as `contact.phone`, and `contact` is replaced as a whole.
- Storage failures are not modelled, so every 500 path other than schema validation and a missing user document is out. The `createdAt`/`updatedAt` timestamps are not modelled either.
- `ShareLinks.FormatPhone`: the country code is a required string, as the contact pages always send one. In the source an absent code would be rendered as the text "undefined".
- `ShareRoutes.SubmitContact`: when several reminders hold the same accepted token, the model does not say which one `findOne` picks. Only an update through the controller can create such duplicates.
- `TodaysEvents.EventEmoji`: returns the emoji that the stored literals evidently encode, not the double-encoded strings themselves. Those are modelled separately; see Findings.
- `ShareRoutes.Details`: the choice among duplicate accepted tokens is left open, as for `SubmitContact`.
- `ReminderController.GetReminders`: the order of reminders with equal dates is not stated. The database does not fix it either.
- `TodaysEvents.SortForDisplay`: the model is a stable insertion sort, but stability is not stated. The contracts fix the order only up to reminders with the same status and date.
- Concurrent requests are not modelled, including two submissions racing on one token, where the last writer wins.
- The rendering, state setters, axios calls, localStorage, clipboard and `window.open` of the React pages are not modelled. Neither are the greeting message texts or `encodeURIComponent`.
- The service worker's Cache Storage calls are not modelled (`install`, `cache.put`, `caches.delete`), nor the push and notification-click handlers. Neither is `syncReminders`, whose pending-action source is a stub that returns an empty list.
- URL parsing is not modelled: a request carries its pathname.
- `TodaysEvents.RemoveKeywords`: matching is single-pass and ASCII-only. Removing a keyword can bring a new keyword together, and the source leaves that one in place. The model does the same, but no lemma shows it on a concrete title.
- `ShareLinks.PersonalReminder`: `eventDate` arrives as milliseconds, with None for an absent or falsy value. A JSON `0` is falsy in the source, so it falls back to now. The model cannot tell that 0 from a real date at the epoch.
