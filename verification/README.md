# django-pony-express, modelled in Dafny

django-pony-express wraps Django's mail, template and translation machinery
in two service classes and a test helper:

- `BaseEmailService` (module `Service`, `service.dfy`) normalises its
  constructor input, derives the header values of a multi-part email
  (prefixed subject, sender fallback, reply-to list, two-letter language),
  accumulates validation errors, attaches files, and sends only when valid.
- `BaseEmailServiceFactory` (module `Factory`, `factory.dfy`) validates itself
  the same way, then creates and processes one service per recipient and
  returns how many it processed.
- `EmailTestService` and `EmailTestServiceQuerySet` (module `Outbox`,
  `outbox.dfy`) filter the mail package's in-memory `outbox` by to/cc/bcc and
  subject, and offer `count`, `one`, `first`, `last` and an "exactly one"
  guard.

Shared pieces: `Wrappers` (`Option`, Python truthiness of optional strings,
`str(None)`), `Errors` (the exceptions raised, and `Outcome`: a call either
returns a value or raises), `Mail` (the message record, the `outbox` list and
the backend that `send()` hands messages to).

How Python becomes Dafny here:

- A service subclass's class attributes (`SUBJECT_PREFIX`, `FROM_EMAIL`,
  `REPLY_TO_ADDRESS`, `subject`, `template_name`, `template_txt_name`,
  `cc_email_list`, `bcc_email_list`) form the record `ServiceClass`. An
  `EmailService` object carries that record in `cls`; overriding an attribute
  on an instance means reassigning the record.
- `self._errors` is a `seq<string>` field that only `IsValid` changes, by
  appending. Raised exceptions are `Raised(...)` results; every method says
  which exception it raises and in which state it leaves the object.
- `mail.outbox` is an object (`MailList`), so the aliasing of the source is
  kept: `reload()` makes the cache refer to the very list, and `empty()`
  replaces the module's list by a fresh one.
- Sending goes through the in-memory backend Django installs while tests
  run: the message is appended to `mail.outbox`, and `send()` returns an
  opaque number (`MailModule.sendResult`).
- A plain `subject` passed to `filter` is compiled as `^<escaped>$`. Under
  Python's `re`, `$` also matches just before a final newline. So such a
  subject matches the identical subject and also that subject followed by one
  `"\n"` (`Outbox.AnchoredLiteralSearchIff`). It is exact only for subjects
  that do not end in a newline (`Outbox.PlainSubjectExact`). The model
  follows the code here, not the looser reading "matches only the identical
  string".
- Compiled patterns are values `Regex(source, flags)`. The search is an
  abstract `Engine` function passed to `filter`.

## Model

| member | source | states |
|---|---|---|
| `Service.ServiceClass.GetSubject` | django_pony_express/services/base.py:154-161 | with a truthy prefix the subject is "prefix - subject" (so never empty, with `None` rendered as "None"); without one it is the bare subject |
| `Service.ServiceClass.GetFromEmail` | django_pony_express/services/base.py:163-167 | the class's sender when truthy, else the framework default |
| `Service.ServiceClass.GetReplyToEmails` | django_pony_express/services/base.py:181-185 | a single reply-to address becomes `[address]`; a list is returned unchanged |
| `Service.Translation` | django_pony_express/services/base.py:187-194 | returns a value iff the language code is a string of length at least 2; the value is its first two characters; None for unset, short or non-string codes |
| `Service.ServiceErrors` | django_pony_express/services/base.py:263-273 | at most 3 errors; none iff subject, template and recipients are all present; each message appears iff its check fails; with a prefix the subject error never appears |
| `Service.ServiceErrorsInCheckOrder` | django_pony_express/services/base.py:268-273 | every message `is_valid` appends is one of its three messages, and they come in check order (subject, template, recipients), so none repeats |
| `Service.EmailService.constructor` | django_pony_express/services/base.py:123-145 | a single address becomes a one-element list; missing recipients, context and attachments become empty; the error list starts empty |
| `Service.EmailService.HasErrors` | django_pony_express/services/base.py:280-284 | true iff errors are stored |
| `Service.EmailService.IsValid` | django_pony_express/services/base.py:263-278 | appends exactly `ServiceErrors` to the old errors; raises a config error carrying the list iff errors exist and raising is asked for; otherwise returns whether the list is empty |
| `Service.AttachmentFor` | django_pony_express/services/base.py:206-215 | a path entry is attached as a file; a dict entry lacking 'filename' or 'file' is malformed; otherwise its filename, content and 'mimetype' value are used, the mimetype being None when the dict has none |
| `Service.AttachAll` | django_pony_express/services/base.py:202-217 | never more attachments than entries; the walk failed iff it stopped early |
| `Service.AttachAllInOrder` | django_pony_express/services/base.py:206-217 | attachment k comes from entry k; a failed walk stopped at a malformed entry |
| `Service.AttachAllFailsIffMalformed` | django_pony_express/services/base.py:206-213 | attaching raises iff some entry is malformed |
| `Service.AttachAllAppend` | django_pony_express/services/base.py:206-217 | walking `p + q` is walking `p`, then, unless `p` failed, walking `q` |
| `Service.EmailService.AddAttachments` | django_pony_express/services/base.py:202-217 | the message gains exactly the walk's attachments, in order; it raises the attachment error iff an entry is malformed, keeping the attachments added before it |
| `Service.MailObject` | django_pony_express/services/base.py:219-261 | the built message carries `get_subject()`, `get_from_email()` and `get_reply_to_emails()`, goes to the service's recipients, cc and bcc, and has one HTML alternative rendered from the template in the activated language (the two-letter translation); its text body is the txt template rendered in that language when one is set, else the HTML converted to text; attachment k comes from entry k, up to the first malformed entry; it raises iff an entry is malformed, and otherwise has one attachment per entry |
| `Service.EmailService.BuildMailObject` | django_pony_express/services/base.py:219-261 | the method builds exactly `MailObject` of the service's state |
| `Service.EmailService.Process` | django_pony_express/services/base.py:294-304 | errors grow by `ServiceErrors`; when invalid it sends nothing and either raises or returns False; when valid it hands exactly the built message to the backend and returns the send result, or raises the attachment error having sent nothing |
| `Mail.MailModule.Send` | django_pony_express/services/base.py:302 | `send()` appends the message to the outbox and returns the backend's opaque result |
| `Factory.FactoryErrors` | django_pony_express/services/base.py:41-44 | at most 2 errors; none iff a service class and recipients are set; each message appears iff its check fails |
| `Factory.FactoryErrorsInCheckOrder` | django_pony_express/services/base.py:41-44 | every message the factory's `is_valid` appends is one of its two messages, and they come in check order (service class, recipients), so none repeats |
| `Factory.EmailServiceFactory.constructor` | django_pony_express/services/base.py:24-34 | keeps the given recipient list, else empty; no errors, no service class, empty context |
| `Factory.EmailServiceFactory.HasErrors` | django_pony_express/services/base.py:71-75 | true iff errors are stored |
| `Factory.EmailServiceFactory.IsValid` | django_pony_express/services/base.py:36-49 | appends exactly `FactoryErrors`; raises iff errors exist and raising is asked for; otherwise returns whether the list is empty |
| `Factory.RecipientContext` | django_pony_express/services/base.py:96 | the per-recipient context has the factory's keys plus 'recipient'; factory values override |
| `Factory.EmailFromRecipient` | django_pony_express/services/base.py:57-63 | the base factory takes each recipient to be an address already and returns it unchanged |
| `Factory.FanOut` | django_pony_express/services/base.py:93-98 | one message per recipient, in recipient order: message i goes to exactly recipient i and is that recipient's `ChildMail` |
| `Factory.FanOutSnoc` | django_pony_express/services/base.py:93-98 | one more recipient at the end of the list appends exactly that recipient's `ChildMail` to the messages sent |
| `Factory.ServiceErrorsIgnoreWhichRecipients` | django_pony_express/services/base.py:268-273 | a service's validation errors depend on its recipients only through whether there are any, so every per-recipient service of a factory is valid or none is |
| `Factory.ChildMail` | django_pony_express/services/base.py:93-97 | the service made for a recipient sends to exactly `[get_email_from_recipient(r)]` with the service class's subject, sender, reply-to, cc and bcc; its HTML and text parts are rendered with `RecipientContext(r, context)`; it carries no attachments |
| `Factory.EmailServiceFactory.ProcessRecipient` | django_pony_express/services/base.py:94-98 | a recipient's service, processed with raising on, either raises its config error having sent nothing or sends exactly `ChildMail` |
| `Factory.EmailServiceFactory.SendToEach` | django_pony_express/services/base.py:91-101 | either the first recipient's service raises its config error and nothing is sent, or it returns the number of recipients and the outbox grows by exactly `FanOut`, one message per recipient, in order |
| `Factory.EmailServiceFactory.Process` | django_pony_express/services/base.py:85-101 | when invalid: nothing sent, raises or returns 0; when valid: either the service class is invalid (the first service raises, nothing sent) or it returns exactly the number of recipients and the outbox grows by one message per recipient, in order |
| `Outbox.AnchoredLiteralSearchIff` | django_pony_express/services/tests.py:49-51 | the anchored, escaped pattern of a plain subject matches exactly that subject, or that subject plus one trailing newline |
| `Outbox.PlainSubjectExact` | django_pony_express/services/tests.py:49-51 | for subjects not ending in a newline, a plain subject matches only the identical string |
| `Outbox.AnyCriterion` | django_pony_express/services/tests.py:46 | when no criterion is truthy, every email would match, which is the case `filter` refuses |
| `Outbox.Matches` | django_pony_express/services/tests.py:55-65 | a matching email contains each truthy `to`, `cc` and `bcc` value in the corresponding list; under a plain subject its subject text is that subject, or that subject followed by one newline |
| `Outbox.Matching` | django_pony_express/services/tests.py:53-68 | the result is never longer than the outbox |
| `Outbox.MatchingConcat` | django_pony_express/services/tests.py:53-68 | filtering distributes over concatenation, so order is preserved and emails appended later are filtered at the end |
| `Outbox.MatchingMembers` | django_pony_express/services/tests.py:56-68 | an email is in the result iff it is in the outbox and satisfies every supplied criterion |
| `Outbox.MatchingNarrower` | django_pony_express/services/tests.py:56-65 | adding criteria never enlarges the result: the narrower result is the wider result filtered again |
| `Outbox.FirstIsEarliestMatch` | django_pony_express/services/tests.py:221-228 | `first()` of a filter result is the earliest outbox email satisfying the criteria |
| `Outbox.LastIsLatestMatch` | django_pony_express/services/tests.py:230-237 | `last()` of a filter result is the latest outbox email satisfying the criteria |
| `Outbox.HtmlPart` | django_pony_express/services/tests.py:95-103 | the content of the first alternative, or None when there are none |
| `Outbox.AssertBodyContains` | django_pony_express/services/tests.py:123-135 | passes iff the text body contains the string and, when there is an HTML part, so does the HTML part |
| `Outbox.QuerySet.EnsurePopulated` | django_pony_express/services/tests.py:194-201 | raises the "without previous query" error iff there is no match list |
| `Outbox.QuerySet.Count` | django_pony_express/services/tests.py:210-219 | the number of matches, or the "without previous query" error |
| `Outbox.QuerySet.One` | django_pony_express/services/tests.py:203-208 | true iff exactly one email matched; raises the "without previous query" error without a match list |
| `Outbox.QuerySet.First` | django_pony_express/services/tests.py:221-228 | the element at index 0, None (Python's False) when empty, raises without a match list |
| `Outbox.QuerySet.Last` | django_pony_express/services/tests.py:230-237 | the element at index -1, None (Python's False) when empty, raises without a match list |
| `Outbox.QuerySet.ValidateSingle` | django_pony_express/services/tests.py:185-192 | returns normally iff the count is 1; the "ambiguous" error for more than one, the "zero matches" error for none |
| `Outbox.QuerySet.HtmlContent` | django_pony_express/services/tests.py:165-174 | defined iff exactly one email matched, then its first alternative's content or None; otherwise the guard's error |
| `Outbox.QuerySet.TxtContent` | django_pony_express/services/tests.py:176-183 | defined iff exactly one email matched, then its body; otherwise the guard's error |
| `Outbox.EmailTestService.constructor` | django_pony_express/services/tests.py:9-10 | nothing is cached at first |
| `Outbox.EmailTestService.Reload` | django_pony_express/services/tests.py:19-23 | the cache refers to the current outbox list |
| `Outbox.EmailTestService.Empty` | django_pony_express/services/tests.py:25-31 | the shared outbox becomes a new empty list and the cache refers to it |
| `Outbox.EmailTestService.EnsureOutboxIsLoaded` | django_pony_express/services/tests.py:12-17 | reloads only when nothing is cached, otherwise keeps the cache |
| `Outbox.EmailTestService.Filter` | django_pony_express/services/tests.py:33-70 | reloads; raises ValueError iff no criterion is truthy; otherwise returns exactly the order-preserving `Matching` of the current outbox |
| `Outbox.EmailTestService.All` | django_pony_express/services/tests.py:72-85 | reloads and returns every outbox email in outbox order |

## Left out

- Template rendering, the HTML-to-text conversion and the effect of `translation.activate` are foreign library calls. They are the opaque functions of `Renderer`. `render` receives the language the build activated, or None when the active language was left alone.
- `Service.EmailService.Process` does not report the language it activated; `BuildMailObject` does.
- The `send()` result is opaque. Other mail backends are not modelled, and neither are the framework's header validation or its "no non-empty recipient, send nothing and return 0" shortcut inside `send()`.
- `attach_file` reads the file from disk. The model records the path; a missing file (an I/O error) is not modelled.
- Compiled regular expressions are searched by an abstract engine, not by `re` semantics. A plain subject's escaped, anchored pattern is modelled exactly.
- Recipients are strings. The factory's database objects and querysets are not modelled, and `get_email_from_recipient` is the identity, as in the base class. Context values are strings.
- A `LANGUAGE_CODE` that is not a string but has a length (a list, say) is not modelled; non-string codes are those without a length, for which the source returns None.
- Subjects that are lazy translation objects are modelled by their string value. Error messages are the untranslated English texts.
- A config error carries the service's error list by reference in the source. The model stores a copy taken when it is raised.
- The `errors` properties and `get_cc_emails`, `get_bcc_emails`, `get_attachments`, `get_recipient_list` and the service's `get_context_data` only return a field. They are modelled as reading that field. The factory's `get_context_data` returns `{}`; it is modelled as a `context` field that the constructor leaves empty.
- `django_pony_express/services/asynchronous/thread.py` only starts a fire-and-forget thread around a sending method. Concurrency is not part of this model.
- `SUBJECT_DELIMITER`, `_send_and_log_email`, `_check_email_structure_validity` and `_get_logger` are not part of this model.
- The unittest assertion plumbing is not modelled: `assert_subject`, `assert_body_contains_not`, `assert_to_contains`, `assert_one`, `assert_quantity`, the deprecated query-set assertion wrappers, their failure messages, the `__class__` reassignment, and `__getitem__`/`__len__` (read directly as sequence indexing and length). `AssertBodyContains` gives whether the assertions pass.
- The settings modules hold configuration constants only.
