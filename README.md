# SwiftSendGrid in Dafny

This project models the two components of SwiftSendGrid that do the work:

- `SendgridTransport`, a Swift Mailer transport that sends a message through SendGrid;
- `SwiftToSendGridMessageTranslator`, which turns a Swift message into a SendGrid request.

The transport holds one piece of state, the `started` flag. `send` does the following:

- it starts the transport if needed;
- it lets the send event's `beforeSendPerformed` listeners cancel the send;
- it translates the message and hands the request to the SendGrid client;
- it classifies the answer all-or-nothing. A 2xx status counts every To, Cc and Bcc recipient as accepted. Any other status accepts nobody, and the by-reference `$failedRecipients` becomes `array_merge` of the To, Cc and Bcc maps and its old value. An exception from the translator or the client is caught and accepts nobody.
- it reports the result on the event and dispatches `sendPerformed`.

The translator builds a `Mail` field by field: the sender is the first From entry, then the subject, one content block, then To, Cc and Bcc lists (only when non-empty), then every header in order.

Files, one module each:

- `wrappers.dfy`: `Option` (PHP `null`) and `Result` (an exception).
- `php_array.dfy`: PHP arrays as ordered key/value entries, and `array_merge` with its laws. A string key that repeats keeps its first position and takes the later value. Integer keys are appended and renumbered from 0.
- `swift_message.dfy`: the parts of a Swift message the adapter reads, and `(array)` of an address field.
- `sendgrid_mail.dfy`: the SDK's `Mail` as a class with the adders the translator calls.
- `translator.dfy`: the translation.
  - `Translation` is the request as a pure function of the message.
  - `Translate` and the `Handle*` methods build it in place with the loops of `handleTo`, `handleCc`, `handleBcc` and `handleHeaders`, and are proved to produce exactly `Translation`.
- `transport.dfy`: the transport.
  - `SendOutcome` is what one `send` yields: the count, the new by-reference array, what the event is told, and the collaborator calls in order.
  - The `SendgridTransport` class performs the send step by step and is proved to produce `SendOutcome`.
- `scenarios.dfy`: the repository's unit tests, with their expectations as postconditions.

Collaborators that cannot be seen become inputs:

- The SendGrid client is the `ClientResponse` it gives on this call: a status code, or a thrown exception.
- The event dispatcher is the `SendEvent` it created, or null. `bubbleCancelled` is its state after the `beforeSendPerformed` listeners have run.
- The calls the transport makes on the dispatcher, the translator and the client are recorded in the ghost `trace`.

Two facts about `send` deserve attention:

- On a 2xx answer `send` never writes the by-reference `$failedRecipients` (SendgridTransport.php:126-134): it stays as the caller passed it, as on the cancel and exception paths.
- On a 2xx answer the count adds |To|+|Cc|+|Bcc|, counting an email twice when it appears in two fields, while `array_merge` keeps each email once in the failed-recipients array. `SharedAddressCountedTwice` shows the difference.

## Model

| member | source | states |
|---|---|---|
| Transport.SendgridTransport.constructor | src/Mailer/Transport/SendgridTransport.php:15 | a new transport is not started and has made no calls |
| Transport.SendgridTransport.Start | src/Mailer/Transport/SendgridTransport.php:54-57 | afterwards the transport is started; no collaborator is called |
| Transport.SendgridTransport.Stop | src/Mailer/Transport/SendgridTransport.php:62-65 | afterwards the transport is not started; no collaborator is called |
| Transport.SendgridTransport.IsStarted | src/Mailer/Transport/SendgridTransport.php:46-49 | reports the `started` flag, reading only the transport; `Start`, `Stop` and `Send` state their effect through it |
| Transport.SendEvent.constructor | src/Mailer/Transport/SendgridTransport.php:112-114 | the event `createSendEvent` returns carries the state its `beforeSendPerformed` listeners left, and no result or failed recipients yet |
| Transport.SendgridTransport.Ping | src/Mailer/Transport/SendgridTransport.php:88-91 | the transport always reports itself alive, and reads no state |
| Transport.IsSuccessful | src/Mailer/Transport/SendgridTransport.php:170-173 | a status is successful exactly when 200 <= status <= 299 |
| Transport.SendOutcome | src/Mailer/Transport/SendgridTransport.php:106-154 | a cancelled send returns 0, leaves the array alone, sets nothing on the event and only dispatches beforeSendPerformed. Otherwise the count is \|To\|+\|Cc\|+\|Bcc\| exactly on a 2xx answer and 0 otherwise. The array becomes the merge exactly on a non-2xx answer. The event gets SUCCESS or FAILED, plus the new array on a non-2xx answer. Without an event nothing is set. |
| Transport.SendCalls | src/Mailer/Transport/SendgridTransport.php:112-151 | a cancelled send calls neither translator nor client and never dispatches sendPerformed. With an event that is not cancelled, each phase is dispatched exactly once, before first and after last. Without an event nothing is dispatched. The client is called exactly when translation succeeds. |
| Transport.StepsOrder | src/Mailer/Transport/SendgridTransport.php:112-151 | the calls of a send that was not cancelled: each phase once, in order, with an event; none without one; the translator always; the client exactly when reached |
| Transport.SendgridTransport.Send | src/Mailer/Transport/SendgridTransport.php:106-154 | the transport is started afterwards; the count, the by-reference array and the event's result and failed recipients are those of `SendOutcome`; the calls made are appended to the trace in order; the cancellation flag is untouched |
| Transport.SendgridTransport.Deliver | src/Mailer/Transport/SendgridTransport.php:119-147 | the try and catch blocks: translator then client, the count and array of `SendOutcome`, the event's result set on every path, and the client called exactly when translation succeeds |
| Transport.RecipientCount | src/Mailer/Transport/SendgridTransport.php:127-130 | the success count is the number of entries of To, Cc and Bcc together, repeats included |
| Transport.FillFailedRecipients | src/Mailer/Transport/SendgridTransport.php:180-190 | the by-reference array becomes `array_merge` of To, Cc, Bcc and the old array (null read as empty); no key repeats, integer keys run 0, 1, 2, ..., and it never has more entries than the recipients and the old array together |
| Transport.FailedRecipientsExact | src/Mailer/Transport/SendgridTransport.php:180-190 | with distinct recipient emails and no old array, the result is exactly the To, Cc and Bcc entries in order, each email keying its name |
| Transport.FailedRecipientsKeys | src/Mailer/Transport/SendgridTransport.php:180-190 | the failed-recipients array has distinct keys. Its string keys are the To, Cc and Bcc emails plus the old array's string keys. Every recipient email is a key. The old array's integer-keyed values keep their order, renumbered from 0. |
| Transport.FailedRecipientsLookup | src/Mailer/Transport/SendgridTransport.php:182-187 | each email key holds the name of its last occurrence in To, Cc, Bcc, then the old array |
| Transport.FailedRecipientsVersusCount | src/Mailer/Transport/SendgridTransport.php:126-141 | with no old array, the failed-recipients array never has more entries than the success count, and has as many exactly when no email repeats across To, Cc and Bcc |
| Transport.SharedAddressCountedTwice | src/Mailer/Transport/SendgridTransport.php:126-141 | one address in both To and Cc counts 2 on success and is 1 failed recipient on failure |
| Transport.MergeArgumentsConcat | src/Mailer/Transport/SendgridTransport.php:182-187 | the merged entries are those of To, Cc and Bcc in order, then the old array's |
| Transport.DistinctElements | src/Mailer/Transport/SendgridTransport.php:182-187 | a sequence of emails has as many distinct elements as entries exactly when none repeats, and never more |
| PhpArrays.ArrayMerge | src/Mailer/Transport/SendgridTransport.php:182-187 | `array_merge` reads the arguments' entries left to right into an empty array; the result never has more entries than the arguments together |
| PhpArrays.MergeInto | src/Mailer/Transport/SendgridTransport.php:182-187 | merging adds at most one entry per entry read, and never moves or drops a key already placed: an overwritten string key keeps its first position |
| PhpArrays.Put | src/Mailer/Transport/SendgridTransport.php:182-187 | one entry read adds at most one entry and moves no key already placed |
| PhpArrays.Replace | src/Mailer/Transport/SendgridTransport.php:182-187 | overwriting a key keeps every entry's key and position, and sets the value of the entries with that key only |
| PhpArrays.MergeIntoFreshKeys | src/Mailer/Transport/SendgridTransport.php:182-187 | string-keyed entries whose keys are new and distinct are appended unchanged, in order |
| PhpArrays.ArrayMergeDistinctStrings | src/Mailer/Transport/SendgridTransport.php:182-187 | `array_merge` of arguments holding only distinct string keys is their concatenation |
| PhpArrays.ArrayMergeWellFormed | src/Mailer/Transport/SendgridTransport.php:182-187 | `array_merge` yields distinct keys and integer keys 0, 1, 2, ... |
| PhpArrays.ArrayMergeLookup | src/Mailer/Transport/SendgridTransport.php:182-187 | a string key of the result holds the value of its last occurrence among the arguments |
| PhpArrays.ArrayMergeContents | src/Mailer/Transport/SendgridTransport.php:182-187 | the result's string keys are the arguments' string keys, and its integer-keyed values are the arguments', in order |
| PhpArrays.ArrayMergeSize | src/Mailer/Transport/SendgridTransport.php:182-187 | the result has one entry per distinct string key plus one per integer-keyed entry |
| PhpArrays.MergeIntoInvariant | src/Mailer/Transport/SendgridTransport.php:182-187 | each merge step keeps keys distinct and integer keys renumbered |
| PhpArrays.MergeIntoLookup | src/Mailer/Transport/SendgridTransport.php:182-187 | after merging, a string key holds its last value in the entries read so far |
| PhpArrays.MergeIntoObservers | src/Mailer/Transport/SendgridTransport.php:182-187 | merging gathers the string keys of both sides and appends the integer-keyed values in order |
| PhpArrays.PutInvariant | src/Mailer/Transport/SendgridTransport.php:182-187 | one entry added by `array_merge` keeps keys distinct and renumbered |
| PhpArrays.PutLookup | src/Mailer/Transport/SendgridTransport.php:182-187 | after one entry is added, a string key holds its last value so far |
| PhpArrays.PutObservers | src/Mailer/Transport/SendgridTransport.php:182-187 | one entry added contributes its string key, or appends its value to the integer-keyed values |
| PhpArrays.WellFormedSize | src/Mailer/Transport/SendgridTransport.php:182-187 | an array with distinct keys has one entry per string key plus its integer-keyed entries |
| SwiftMessage.AddressArray | src/Mailer/Transport/SendgridTransport.php:183-185 | `(array)` of an address field has one entry per address, in order, keyed by the email and holding the name |
| SwiftMessage.AddressArrayKeys | src/Mailer/Transport/SendgridTransport.php:183-185 | the string keys of an address field's array are its emails; it has no integer keys |
| MessageTranslator.Translation | src/Mailer/SendGrid/SwiftToSendGridMessageTranslator.php:22-39 | the request fails exactly when From is empty. Otherwise: the sender is the first From entry's email and name; the subject is the message's; there is exactly one content block (body type, body); each of To, Cc and Bcc is absent when empty and otherwise has the same length with the i-th email and name; the headers are the message's (name, body) pairs in order. |
| MessageTranslator.Translate | src/Mailer/SendGrid/SwiftToSendGridMessageTranslator.php:22-39 | the `Mail` built in place is new, and its content is exactly `Translation`; it fails exactly when `Translation` does |
| MessageTranslator.HandleTo | src/Mailer/SendGrid/SwiftToSendGridMessageTranslator.php:46-58 | an empty To leaves the mail unchanged; otherwise only the To list changes, extended by the To addresses in order |
| MessageTranslator.HandleCc | src/Mailer/SendGrid/SwiftToSendGridMessageTranslator.php:65-77 | an empty Cc leaves the mail unchanged; otherwise only the Cc list changes, extended by the Cc addresses in order |
| MessageTranslator.HandleBcc | src/Mailer/SendGrid/SwiftToSendGridMessageTranslator.php:83-95 | an empty Bcc leaves the mail unchanged; otherwise only the Bcc list changes, extended by the Bcc addresses in order |
| MessageTranslator.HandleHeaders | src/Mailer/SendGrid/SwiftToSendGridMessageTranslator.php:101-113 | only the header list changes, extended by every message header in order, with none dropped or merged |
| MessageTranslator.AddressList | src/Mailer/SendGrid/SwiftToSendGridMessageTranslator.php:52-54 | one SDK address per entry, the i-th with the i-th email and name |
| MessageTranslator.AddressListConcat | src/Mailer/SendGrid/SwiftToSendGridMessageTranslator.php:52-54 | the addresses of two lists joined are the addresses of each, joined |
| MessageTranslator.HeaderList | src/Mailer/SendGrid/SwiftToSendGridMessageTranslator.php:107-110 | one SDK header per message header, the i-th with the i-th field name and body |
| MessageTranslator.HeaderListConcat | src/Mailer/SendGrid/SwiftToSendGridMessageTranslator.php:107-110 | the headers of two header lists joined are the headers of each, joined |
| SendGridMail.Mail.constructor | src/Mailer/SendGrid/SwiftToSendGridMessageTranslator.php:28 | a new mail has no sender, subject, content, recipients or headers |
| SendGridMail.Mail.SetFrom | src/Mailer/SendGrid/SwiftToSendGridMessageTranslator.php:30 | only the sender changes |
| SendGridMail.Mail.SetSubject | src/Mailer/SendGrid/SwiftToSendGridMessageTranslator.php:31 | only the subject changes |
| SendGridMail.Mail.AddContent | src/Mailer/SendGrid/SwiftToSendGridMessageTranslator.php:32 | only the contents change, by one block at the end |
| SendGridMail.Mail.AddTos | src/Mailer/SendGrid/SwiftToSendGridMessageTranslator.php:56 | only the To list changes, extended at the end |
| SendGridMail.Mail.AddCcs | src/Mailer/SendGrid/SwiftToSendGridMessageTranslator.php:75 | only the Cc list changes, extended at the end |
| SendGridMail.Mail.AddBccs | src/Mailer/SendGrid/SwiftToSendGridMessageTranslator.php:93 | only the Bcc list changes, extended at the end |
| SendGridMail.Mail.AddHeader | src/Mailer/SendGrid/SwiftToSendGridMessageTranslator.php:109 | only the header list changes, by one header at the end |
| Scenarios.CanBeStarted | tests/Mailer/Transport/SendgridTransportTest.php:19-26 | a started transport reports itself started |
| Scenarios.CanBeStopped | tests/Mailer/Transport/SendgridTransportTest.php:31-38 | a stopped transport reports itself not started |
| Scenarios.CanBePinged | tests/Mailer/Transport/SendgridTransportTest.php:43-48 | ping answers true |
| Scenarios.IsAbleToSendMessage | tests/Mailer/Transport/SendgridTransportTest.php:53-75 | one To recipient gives 1; each phase is dispatched once, around the translator and client calls |
| Scenarios.IsAbleToSendMessageWithCcRecipients | tests/Mailer/Transport/SendgridTransportTest.php:80-93 | 1 To and 2 Cc give 3 |
| Scenarios.IsAbleToSendMessageWithBccRecipients | tests/Mailer/Transport/SendgridTransportTest.php:98-111 | 1 To and 2 Bcc give 3 |
| Scenarios.Returns0InCaseOfSendFailure | tests/Mailer/Transport/SendgridTransportTest.php:116-140 | a 400 answer gives 0 and three failed recipients keyed by the three emails; each phase is dispatched once |
| Scenarios.FailingClientOutcome | tests/Mailer/Transport/SendgridTransportTest.php:116-140 | for any message with a sender, an uncancelled event and a 400 answer: count 0, the by-reference array becomes the merge, and each call is made once in order |
| Scenarios.SendWithFailingClient | tests/Mailer/Transport/SendgridTransportTest.php:124-129 | the same for any message with any sender and those three distinct recipients; the failed-recipients array is exactly To, Cc and Bcc in order |
| Scenarios.ThreeFailedRecipients | tests/Mailer/Transport/SendgridTransportTest.php:129 | three distinct recipient emails give a failed-recipients array of exactly those three keys |
| Scenarios.FailureTestEmails | tests/Mailer/Transport/SendgridTransportTest.php:118-122 | the failure test's recipients, To then Bcc, are three different emails |
| Scenarios.CanTranslateSwiftMessage | tests/Mailer/SendGrid/SwiftToSendGridMessageTranslatorTest.php:14-36 | the request has the test's subject, sender and content block; its To list is jane@doe.com; it has no Cc list; its Bcc list is will@smith.com then bruceLee@kung.fu |

## Left out

- `registerPlugin` (SendgridTransport.php:161-164) only forwards a listener to the dispatcher. Listeners are represented by the cancellation flag they leave on the event.
- The Swift event dispatcher and its listeners are not modelled. `createSendEvent` becomes the `evt` argument, and `dispatchEvent` becomes an entry in the ghost trace.
- The SendGrid client and its HTTP call are not modelled. `SendGridClient` (a lazy cache around `new \SendGrid($apiKey)`) is not part of this model. The client is represented by its answer, a status code or a thrown exception, passed to `Send`.
- The SDK's own checks are out of scope, namely the validation in the `Mail`, `To`, `Cc` and `Bcc` constructors. The one exception is modelled: a message without a From entry fails translation with `MissingSender`, and `Send` catches it as it catches any exception.
- How the SDK lays the request out is not modelled: the placement of recipients in `personalizations[0]`, its header map, and its JSON form. `Request` is the content the translator hands to the SDK.
- `src/Mailer/Mailer.php` is a stub and is not part of this model.
- Swift's header rendering is not modelled, nor the headers Swift adds to every message (Date, Message-ID, ...). A message's headers are the (field name, field body) pairs the translator reads.
- A null To, Cc or Bcc is treated as an empty field, because every reader of those fields in the PHP classes (`empty`, `count(... ?? [])`, `(array)`) treats the two alike.
- Email keys are compared as strings. PHP's conversion of numeric-string keys to integers is not modelled, because an email address always contains `@`.
- Transport.SendgridTransport.Send: the event's `setResult` and `setFailedRecipients` are modelled as plain field writes, and `beforeSendPerformed` listeners as a flag given beforehand. A listener that changes the message or the arrays is not modelled.
