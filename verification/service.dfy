/**
 * BaseEmailService: one templated multi-part email. The class attributes a
 * concrete service declares (prefix, sender, template names, ...) form the
 * record `ServiceClass`; an `EmailService` object carries that record plus
 * the per-instance state the constructor sets up and `IsValid` extends.
 */
module Service {
  import opened Wrappers
  import opened Errors
  import opened Mail

  const SubjectRequired := "Email service requires a subject."
  const TemplateRequired := "Email service requires a template."
  const RecipientRequired := "Email service requires a target mail address."
  const AttachmentDataMissing := "Missing or mislabeled data provided for email attachment."

  /** `REPLY_TO_ADDRESS`: either a single address or a list of them. */
  datatype ReplyTo = ReplyToAddress(address: string) | ReplyToList(addresses: seq<string>)

  /** `settings.LANGUAGE_CODE`: unset (None), a string, or a value of another type without a length (an int, say). */
  datatype LanguageCode = Unset | Code(code: string) | NotAString

  /** The framework settings the service reads. */
  datatype Settings = Settings(defaultFromEmail: string, languageCode: LanguageCode)

  /**
   * The template engine and the HTML-to-text converter, as opaque functions.
   * `render(language, template, context)`: `language` is the language this
   * build activated, None when it left the active language alone.
   */
  datatype Renderer = Renderer(
    render: (Option<string>, Option<string>, map<string, string>) -> string,
    htmlToText: string -> string)

  /** The `recipient_email_list` constructor argument. */
  datatype RecipientArg = NoRecipients | OneAddress(address: string) | AddressList(addresses: seq<string>)

  /** One entry of `attachment_list`: a file path, or a dict with keys such as 'filename', 'file', 'mimetype'. */
  datatype AttachmentEntry = PathEntry(path: string) | DictEntry(fields: map<string, string>)

  /** The class attributes of a service class; instances may override them. */
  datatype ServiceClass = ServiceClass(
    subjectPrefix: Option<string>,
    fromEmail: Option<string>,
    replyTo: ReplyTo,
    subject: Option<string>,
    templateName: Option<string>,
    templateTxtName: Option<string>,
    ccEmails: seq<string>,
    bccEmails: seq<string>)
  {
    /** `get_subject`: "<prefix> - <subject>" when a prefix is set, else the bare subject. */
    function GetSubject(): (r: Option<string>)
      ensures Truthy(subjectPrefix) ==> Truthy(r)
      ensures Truthy(subjectPrefix) ==>
                r.Some? && |r.value| == |subjectPrefix.value| + 3 + |PyStr(subject)|
                && subjectPrefix.value + " - " <= r.value
                && r.value[|subjectPrefix.value| + 3..] == PyStr(subject)
      ensures !Truthy(subjectPrefix) ==> r == subject
    {
      if Truthy(subjectPrefix) then Some(subjectPrefix.value + " - " + PyStr(subject)) else subject
    }

    /** `get_from_email`: the class's sender, or the framework default when it is unset or empty. */
    function GetFromEmail(defaultFromEmail: string): (r: string)
      ensures Truthy(fromEmail) ==> r == fromEmail.value
      ensures !Truthy(fromEmail) ==> r == defaultFromEmail
    {
      if Truthy(fromEmail) then fromEmail.value else defaultFromEmail
    }

    /** `get_reply_to_emails`: always a list. */
    function GetReplyToEmails(): (r: seq<string>)
      ensures replyTo.ReplyToAddress? ==> r == [replyTo.address]
      ensures replyTo.ReplyToList? ==> r == replyTo.addresses
    {
      match replyTo
      case ReplyToAddress(a) => [a]
      case ReplyToList(l) => l
    }
  }

  /** A service class with none of its attributes set. */
  const BaseServiceClass := ServiceClass(None, None, ReplyToList([]), None, None, None, [], [])

  /** `get_translation`: the first two letters of the language code, or None. */
  function Translation(code: LanguageCode): (r: Option<string>)
    ensures r.Some? <==> code.Code? && |code.code| >= 2
    ensures r.Some? ==> |r.value| == 2 && r.value <= code.code
  {
    match code
    case Code(s) => if |s| >= 2 then Some(s[..2]) else None
    case Unset => None
    case NotAString => None  // a truthy value makes len() raise TypeError, which is caught
  }

  /** The position of a validation message in the order `is_valid` runs its checks; 3 for any other text. */
  function ServiceErrorRank(e: string): nat
  {
    if e == SubjectRequired then 0
    else if e == TemplateRequired then 1
    else if e == RecipientRequired then 2
    else 3
  }

  /** The errors one `is_valid` call appends: one message per failed check, in the order the checks run. */
  function ServiceErrors(cls: ServiceClass, recipients: seq<string>): (r: seq<string>)
    ensures |r| <= 3
    ensures r == [] <==> Truthy(cls.GetSubject()) && Truthy(cls.templateName) && |recipients| > 0
    ensures (SubjectRequired in r) <==> !Truthy(cls.GetSubject())
    ensures (TemplateRequired in r) <==> !Truthy(cls.templateName)
    ensures (RecipientRequired in r) <==> |recipients| == 0
    ensures Truthy(cls.subjectPrefix) ==> SubjectRequired !in r
  {
    (if !Truthy(cls.GetSubject()) then [SubjectRequired] else [])
    + (if !Truthy(cls.templateName) then [TemplateRequired] else [])
    + (if |recipients| == 0 then [RecipientRequired] else [])
  }

  /** Each failed check adds exactly one message and nothing else, in the order the checks run, so no message repeats. */
  lemma ServiceErrorsInCheckOrder(cls: ServiceClass, recipients: seq<string>)
    ensures forall i :: 0 <= i < |ServiceErrors(cls, recipients)| ==>
              ServiceErrorRank(ServiceErrors(cls, recipients)[i]) < 3
    ensures forall i, j :: 0 <= i < j < |ServiceErrors(cls, recipients)| ==>
              ServiceErrorRank(ServiceErrors(cls, recipients)[i]) < ServiceErrorRank(ServiceErrors(cls, recipients)[j])
  {
  }

  /** The attachment an entry turns into, or None when a dict entry lacks 'filename' or 'file'. */
  function AttachmentFor(entry: AttachmentEntry): (r: Option<Attachment>)
    ensures r.None? <==> entry.DictEntry? && !("filename" in entry.fields && "file" in entry.fields)
    ensures entry.PathEntry? ==> r == Some(FileAttachment(entry.path))
    ensures r.Some? && entry.DictEntry? ==>
              r.value.ContentAttachment? && r.value.filename == entry.fields["filename"]
              && r.value.content == entry.fields["file"]
              && r.value.mimetype == (if "mimetype" in entry.fields then Some(entry.fields["mimetype"]) else None)
  {
    match entry
    case PathEntry(path) => Some(FileAttachment(path))
    case DictEntry(fields) =>
      if "filename" in fields && "file" in fields then
        Some(ContentAttachment(fields["filename"], fields["file"],
                               if "mimetype" in fields then Some(fields["mimetype"]) else None))
      else None
  }

  predicate Malformed(entry: AttachmentEntry)
  {
    AttachmentFor(entry).None?
  }

  /** What walking an attachment list leaves on the message, and whether it stopped on a malformed entry. */
  datatype Attached = Attached(attachments: seq<Attachment>, failed: bool)

  /** The attachments `_add_attachments` adds for `entries`, one per entry up to the first malformed one. */
  function AttachAll(entries: seq<AttachmentEntry>): (r: Attached)
    ensures |r.attachments| <= |entries|
    ensures r.failed <==> |r.attachments| < |entries|
  {
    if entries == [] then Attached([], false)
    else match AttachmentFor(entries[0])
      case None => Attached([], true)
      case Some(a) =>
        var rest := AttachAll(entries[1..]);
        Attached([a] + rest.attachments, rest.failed)
  }

  /** Attachment k comes from entry k, and a failed walk stopped at a malformed entry. */
  lemma {:induction false} AttachAllInOrder(entries: seq<AttachmentEntry>)
    ensures forall k :: 0 <= k < |AttachAll(entries).attachments| ==>
              AttachmentFor(entries[k]) == Some(AttachAll(entries).attachments[k])
    ensures AttachAll(entries).failed ==> Malformed(entries[|AttachAll(entries).attachments|])
  {
    if entries != [] && AttachmentFor(entries[0]).Some? {
      AttachAllInOrder(entries[1..]);
      var r, rest := AttachAll(entries), AttachAll(entries[1..]);
      assert r.attachments == [AttachmentFor(entries[0]).value] + rest.attachments;
      forall k | 1 <= k < |r.attachments|
        ensures AttachmentFor(entries[k]) == Some(r.attachments[k])
      {
        assert entries[k] == entries[1..][k - 1];
        assert r.attachments[k] == rest.attachments[k - 1];
      }
    }
  }

  /** `_add_attachments` raises exactly when some entry is malformed. */
  lemma AttachAllFailsIffMalformed(entries: seq<AttachmentEntry>)
    ensures AttachAll(entries).failed <==> exists i :: 0 <= i < |entries| && Malformed(entries[i])
  {
    AttachAllInOrder(entries);
    var r := AttachAll(entries);
    if !r.failed {
      forall i | 0 <= i < |entries| ensures !Malformed(entries[i]) {
        assert AttachmentFor(entries[i]) == Some(r.attachments[i]);
      }
    } else {
      assert Malformed(entries[|r.attachments|]);
    }
  }

  /** Walking `p + q` is walking `p`, then (unless `p` failed) walking `q`. */
  lemma {:induction false} AttachAllAppend(p: seq<AttachmentEntry>, q: seq<AttachmentEntry>)
    ensures AttachAll(p).failed ==> AttachAll(p + q) == AttachAll(p)
    ensures !AttachAll(p).failed ==>
              AttachAll(p + q) == Attached(AttachAll(p).attachments + AttachAll(q).attachments, AttachAll(q).failed)
  {
    if p == [] {
      assert p + q == q;
    } else {
      var head := AttachmentFor(p[0]);
      assert (p + q)[0] == p[0];
      assert (p + q)[1..] == p[1..] + q;
      if head.Some? {
        AttachAllAppend(p[1..], q);
        var left, right := AttachAll(p[1..]).attachments, AttachAll(q).attachments;
        assert [head.value] + (left + right) == ([head.value] + left) + right;
      }
    }
  }

  /** The result of `_build_mail_object`: the message, the language it activated, and the exception it raised. */
  datatype Built = Built(msg: Message, activated: Option<string>, error: Option<Exception>)

  /** The message `_build_mail_object` builds from a service's state, before it is handed to `send`. */
  function MailObject(cls: ServiceClass, recipients: seq<string>, context: map<string, string>,
                      attachments: seq<AttachmentEntry>, settings: Settings, renderer: Renderer): (r: Built)
    ensures r.activated == Translation(settings.languageCode)
    ensures r.msg.subject == cls.GetSubject() && r.msg.fromEmail == cls.GetFromEmail(settings.defaultFromEmail)
    ensures r.msg.replyTo == cls.GetReplyToEmails()
    ensures r.msg.to == recipients && r.msg.cc == cls.ccEmails && r.msg.bcc == cls.bccEmails
    ensures r.msg.alternatives == [Alternative(renderer.render(r.activated, cls.templateName, context), "text/html")]
    ensures r.msg.body == if Truthy(cls.templateTxtName) then renderer.render(r.activated, cls.templateTxtName, context)
                          else renderer.htmlToText(r.msg.alternatives[0].content)
    ensures Truthy(cls.subjectPrefix) ==> Truthy(r.msg.subject)
    ensures r.msg.attachments == AttachAll(attachments).attachments
    ensures forall k :: 0 <= k < |r.msg.attachments| ==> AttachmentFor(attachments[k]) == Some(r.msg.attachments[k])
    ensures r.error.Some? <==> AttachAll(attachments).failed
    ensures r.error.Some? ==> r.error.value == AttachmentError(AttachmentDataMissing)
    ensures r.error.None? ==> |r.msg.attachments| == |attachments|
  {
    AttachAllInOrder(attachments);
    var language := Translation(settings.languageCode);
    var html := renderer.render(language, cls.templateName, context);
    var text := if Truthy(cls.templateTxtName) then renderer.render(language, cls.templateTxtName, context)
                else renderer.htmlToText(html);
    var added := AttachAll(attachments);
    Built(Message(cls.GetSubject(), text, cls.GetFromEmail(settings.defaultFromEmail), recipients,
                  cls.ccEmails, cls.bccEmails, cls.GetReplyToEmails(),
                  [Alternative(html, "text/html")], added.attachments),
          language,
          if added.failed then Some(AttachmentError(AttachmentDataMissing)) else None)
  }

  /** Python's False (validation failed quietly) or the result of `send()`. */
  datatype SendOutcome = NotSent | Sent(result: int)

  class EmailService {
    var cls: ServiceClass
    var errors: seq<string>
    var recipients: seq<string>
    var context: map<string, string>
    var attachments: seq<AttachmentEntry>

    /** `__init__`: a single address becomes a one-element list; missing values become empty. */
    constructor (cls: ServiceClass, recipientArg: RecipientArg, contextArg: Option<map<string, string>>,
                 attachmentArg: Option<seq<AttachmentEntry>>)
      ensures this.cls == cls && errors == []
      ensures recipients == match recipientArg
                            case NoRecipients => []
                            case OneAddress(a) => [a]
                            case AddressList(l) => l
      ensures context == if contextArg.Some? then contextArg.value else map[]
      ensures attachments == if attachmentArg.Some? then attachmentArg.value else []
    {
      this.cls := cls;
      errors := [];
      var list: seq<string> := match recipientArg
        case NoRecipients => []
        case OneAddress(a) => [a]
        case AddressList(l) => l;
      recipients := if |list| > 0 then list else [];
      context := if contextArg.Some? && |contextArg.value| > 0 then contextArg.value else map[];
      attachments := if attachmentArg.Some? && |attachmentArg.value| > 0 then attachmentArg.value else [];
    }

    /** `has_errors`. */
    function HasErrors(): (r: bool)
      reads this
      ensures r <==> |errors| > 0
    {
      |errors| > 0
    }

    /** `is_valid`: appends one message per failed check, raises only when errors exist and raising is asked for. */
    method IsValid(raiseException: bool) returns (r: Outcome<bool>)
      modifies this`errors
      ensures errors == old(errors) + ServiceErrors(cls, recipients)
      ensures r == if errors != [] && raiseException then Raised(ConfigError(errors)) else Returned(errors == [])
    {
      if !Truthy(cls.GetSubject()) {
        errors := errors + [SubjectRequired];
      }
      if !Truthy(cls.templateName) {
        errors := errors + [TemplateRequired];
      }
      if |recipients| == 0 {
        errors := errors + [RecipientRequired];
      }
      if errors != [] && raiseException {
        return Raised(ConfigError(errors));
      }
      return Returned(errors == []);
    }

    /** `_add_attachments`: one attachment per entry, in order; a malformed dict entry raises, leaving the earlier ones attached. */
    method AddAttachments(msg: Message) returns (out: Message, error: Option<Exception>)
      ensures out == msg.(attachments := msg.attachments + AttachAll(attachments).attachments)
      ensures error.Some? <==> AttachAll(attachments).failed
      ensures error.Some? ==> error.value == AttachmentError(AttachmentDataMissing)
    {
      out := msg;
      error := None;
      var entries := attachments;
      var i := 0;
      while i < |entries|
        invariant 0 <= i <= |entries|
        invariant !AttachAll(entries[..i]).failed
        invariant out == msg.(attachments := msg.attachments + AttachAll(entries[..i]).attachments)
      {
        var entry := entries[i];
        assert entries[..i + 1] == entries[..i] + [entry];
        AttachAllAppend(entries[..i], [entry]);
        assert AttachAll([entry]) == if Malformed(entry) then Attached([], true)
                                     else Attached([AttachmentFor(entry).value], false);
        if entry.DictEntry? {
          var fields := entry.fields;
          if "filename" in fields && "file" in fields {
            var mimetype := if "mimetype" in fields then Some(fields["mimetype"]) else None;
            out := out.(attachments := out.attachments + [ContentAttachment(fields["filename"], fields["file"], mimetype)]);
          } else {
            assert entries[..i + 1] + entries[i + 1..] == entries;
            AttachAllAppend(entries[..i + 1], entries[i + 1..]);
            error := Some(AttachmentError(AttachmentDataMissing));
            return;
          }
        } else {
          out := out.(attachments := out.attachments + [FileAttachment(entry.path)]);
        }
        i := i + 1;
      }
      assert entries[..i] == entries;
    }

    /** `_build_mail_object`. */
    method BuildMailObject(settings: Settings, renderer: Renderer) returns (built: Built)
      ensures built == MailObject(cls, recipients, context, attachments, settings, renderer)
    {
      var language := Translation(settings.languageCode);
      var activated: Option<string> := None;
      if Truthy(language) {
        activated := language;  // translation.activate(language)
      }
      var attributes := context;
      var html := renderer.render(activated, cls.templateName, attributes);
      var text: string;
      if !Truthy(cls.templateTxtName) {
        text := renderer.htmlToText(html);
      } else {
        text := renderer.render(activated, cls.templateTxtName, attributes);
      }
      var msg := Message(cls.GetSubject(), text, cls.GetFromEmail(settings.defaultFromEmail), recipients,
                         cls.ccEmails, cls.bccEmails, cls.GetReplyToEmails(), [], []);
      msg := msg.(alternatives := msg.alternatives + [Alternative(html, "text/html")]);
      var out, error := AddAttachments(msg);
      built := Built(out, activated, error);
    }

    /** `process`: validate, then build and send; False when validation fails without raising. */
    method Process(raiseException: bool, settings: Settings, renderer: Renderer, mail: MailModule)
      returns (r: Outcome<SendOutcome>)
      modifies this`errors, mail.outbox
      ensures errors == old(errors) + ServiceErrors(cls, recipients)
      ensures errors != [] ==>
                mail.outbox.items == old(mail.outbox.items)
                && r == if raiseException then Raised(ConfigError(errors)) else Returned(NotSent)
      ensures errors == [] ==>
                var built := MailObject(cls, recipients, context, attachments, settings, renderer);
                if built.error.Some? then
                  r == Raised(built.error.value) && mail.outbox.items == old(mail.outbox.items)
                else
                  r == Returned(Sent(mail.sendResult(built.msg)))
                  && mail.outbox.items == old(mail.outbox.items) + [built.msg]
    {
      r := Returned(NotSent);
      var valid := IsValid(raiseException);
      if valid.Raised? {
        return Raised(valid.exception);
      }
      if valid.value {
        var built := BuildMailObject(settings, renderer);
        if built.error.Some? {
          return Raised(built.error.value);
        }
        var n := mail.Send(built.msg);
        r := Returned(Sent(n));
      }
    }
  }
}
