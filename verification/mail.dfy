/**
 * The part of the framework's mail package the core talks to: the
 * multi-part message object, and the module-level `outbox` list into which
 * the in-memory backend (the one installed while tests run) puts every sent
 * message.
 */
module Mail {
  import opened Wrappers

  datatype Attachment =
    /** Added with `attach_file(path)`; the file is read from disk by the framework. */
    | FileAttachment(path: string)
    /** Added with `attach(filename, content, mimetype)`. */
    | ContentAttachment(filename: string, content: string, mimetype: Option<string>)

  /** An alternative body part such as `(html, "text/html")`. */
  datatype Alternative = Alternative(content: string, mimetype: string)

  /** An EmailMultiAlternatives object, as a record of what it carries. */
  datatype Message = Message(
    subject: Option<string>,
    body: string,
    fromEmail: string,
    to: seq<string>,
    cc: seq<string>,
    bcc: seq<string>,
    replyTo: seq<string>,
    alternatives: seq<Alternative>,
    attachments: seq<Attachment>)

  /** A Python list of messages; an object, because `mail.outbox` is shared by reference. */
  class MailList {
    var items: seq<Message>

    constructor (items: seq<Message>)
      ensures this.items == items
    {
      this.items := items;
    }
  }

  /** The mail package: `mail.outbox` and the backend that `send()` hands messages to. */
  class MailModule {
    var outbox: MailList
    /** What the backend's `send()` returns for a message (the number it delivered). */
    const sendResult: Message -> int

    constructor (sendResult: Message -> int)
      ensures fresh(outbox) && outbox.items == []
      ensures this.sendResult == sendResult
    {
      outbox := new MailList([]);
      this.sendResult := sendResult;
    }

    /** `msg.send()`: the in-memory backend appends the message to `mail.outbox`. */
    method Send(msg: Message) returns (n: int)
      modifies outbox
      ensures outbox.items == old(outbox.items) + [msg]
      ensures n == sendResult(msg)
    {
      outbox.items := outbox.items + [msg];
      n := sendResult(msg);
    }
  }
}
