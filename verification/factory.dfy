/**
 * BaseEmailServiceFactory: sends the same kind of email to many recipients,
 * one service object per recipient, each with the recipient in its context.
 */
module Factory {
  import opened Wrappers
  import opened Errors
  import opened Mail
  import opened Service

  const ServiceClassRequired := "Email factory requires a mail service class."
  const FactoryRecipientRequired := "Email factory requires a target mail address."

  /** The position of a validation message in the order the factory's `is_valid` runs its checks; 2 for any other text. */
  function FactoryErrorRank(e: string): nat
  {
    if e == ServiceClassRequired then 0
    else if e == FactoryRecipientRequired then 1
    else 2
  }

  /** The errors one factory `is_valid` call appends: one message per failed check, in the order the checks run. */
  function FactoryErrors(serviceClass: Option<ServiceClass>, recipients: seq<string>): (r: seq<string>)
    ensures |r| <= 2
    ensures r == [] <==> serviceClass.Some? && |recipients| > 0
    ensures (ServiceClassRequired in r) <==> serviceClass.None?
    ensures (FactoryRecipientRequired in r) <==> |recipients| == 0
  {
    (if serviceClass.None? then [ServiceClassRequired] else [])
    + (if |recipients| == 0 then [FactoryRecipientRequired] else [])
  }

  /** Each failed check adds exactly one message and nothing else, in the order the checks run, so no message repeats. */
  lemma FactoryErrorsInCheckOrder(serviceClass: Option<ServiceClass>, recipients: seq<string>)
    ensures forall i :: 0 <= i < |FactoryErrors(serviceClass, recipients)| ==>
              FactoryErrorRank(FactoryErrors(serviceClass, recipients)[i]) < 2
    ensures forall i, j :: 0 <= i < j < |FactoryErrors(serviceClass, recipients)| ==>
              FactoryErrorRank(FactoryErrors(serviceClass, recipients)[i]) < FactoryErrorRank(FactoryErrors(serviceClass, recipients)[j])
  {
  }

  /** `get_email_from_recipient`: the base factory's recipients are addresses already. */
  function EmailFromRecipient(recipient: string): (r: string)
    ensures r == recipient
  {
    recipient
  }

  /** `{'recipient': recipient, **context}`: the factory's own keys win over 'recipient'. */
  function RecipientContext(recipient: string, context: map<string, string>): (r: map<string, string>)
    ensures r.Keys == context.Keys + {"recipient"}
    ensures forall k :: k in context ==> r[k] == context[k]
    ensures "recipient" !in context ==> r["recipient"] == recipient
  {
    map["recipient" := recipient] + context
  }

  /** The message the factory's service object for `recipient` hands to `send`. */
  function ChildMail(cls: ServiceClass, recipient: string, context: map<string, string>,
                     settings: Settings, renderer: Renderer): (r: Message)
    ensures r.to == [EmailFromRecipient(recipient)] && r.cc == cls.ccEmails && r.bcc == cls.bccEmails
    ensures r.subject == cls.GetSubject() && r.fromEmail == cls.GetFromEmail(settings.defaultFromEmail)
    ensures r.replyTo == cls.GetReplyToEmails()
    ensures r.alternatives == [Alternative(renderer.render(Translation(settings.languageCode), cls.templateName,
                                                           RecipientContext(recipient, context)), "text/html")]
    ensures r.body == if Truthy(cls.templateTxtName)
                      then renderer.render(Translation(settings.languageCode), cls.templateTxtName, RecipientContext(recipient, context))
                      else renderer.htmlToText(r.alternatives[0].content)
    ensures r.attachments == []
  {
    MailObject(cls, [EmailFromRecipient(recipient)], RecipientContext(recipient, context), [], settings, renderer).msg
  }

  /** The messages sent for `recipients`, one each, in order. */
  function FanOut(cls: ServiceClass, recipients: seq<string>, context: map<string, string>,
                  settings: Settings, renderer: Renderer): (r: seq<Message>)
    ensures |r| == |recipients|
    ensures forall i :: 0 <= i < |r| ==> r[i].to == [recipients[i]]
    ensures forall i :: 0 <= i < |r| ==> r[i] == ChildMail(cls, recipients[i], context, settings, renderer)
  {
    seq(|recipients|, i requires 0 <= i < |recipients| => ChildMail(cls, recipients[i], context, settings, renderer))
  }

  /** Sending to one more recipient appends that recipient's message to the fan-out. */
  lemma FanOutSnoc(cls: ServiceClass, recipients: seq<string>, recipient: string, context: map<string, string>,
                   settings: Settings, renderer: Renderer)
    ensures FanOut(cls, recipients + [recipient], context, settings, renderer)
            == FanOut(cls, recipients, context, settings, renderer) + [ChildMail(cls, recipient, context, settings, renderer)]
  {
    var left := FanOut(cls, recipients + [recipient], context, settings, renderer);
    var right := FanOut(cls, recipients, context, settings, renderer) + [ChildMail(cls, recipient, context, settings, renderer)];
    assert |left| == |right|;
    forall i | 0 <= i < |left| ensures left[i] == right[i] {
      if i < |recipients| {
        assert (recipients + [recipient])[i] == recipients[i];
      }
    }
  }

  /** A service's validation errors depend on its recipients only through whether there are any. */
  lemma ServiceErrorsIgnoreWhichRecipients(cls: ServiceClass, a: seq<string>, b: seq<string>)
    requires (|a| == 0) == (|b| == 0)
    ensures ServiceErrors(cls, a) == ServiceErrors(cls, b)
  {
  }

  class EmailServiceFactory {
    var errors: seq<string>
    var serviceClass: Option<ServiceClass>
    var recipients: seq<string>
    /** What `get_context_data` returns: empty for the base factory. */
    var context: map<string, string>

    /** `__init__`: keeps a non-empty recipient list, otherwise the empty default. */
    constructor (recipientArg: Option<seq<string>>)
      ensures errors == [] && serviceClass == None && context == map[]
      ensures recipients == if recipientArg.Some? then recipientArg.value else []
    {
      errors := [];
      serviceClass := None;
      context := map[];
      recipients := if recipientArg.Some? && |recipientArg.value| > 0 then recipientArg.value else [];
    }

    /** `has_errors`. */
    function HasErrors(): (r: bool)
      reads this
      ensures r <==> |errors| > 0
    {
      |errors| > 0
    }

    /** `is_valid`: appends one message per failed check, raises only when errors exist and raising is asked for. */
    method IsValid(raiseException: bool) returns (r: Outcome<bool>)
      modifies this`errors
      ensures errors == old(errors) + FactoryErrors(serviceClass, recipients)
      ensures r == if errors != [] && raiseException then Raised(ConfigError(errors)) else Returned(errors == [])
    {
      if serviceClass.None? {
        errors := errors + [ServiceClassRequired];
      }
      if |recipients| == 0 {
        errors := errors + [FactoryRecipientRequired];
      }
      if errors != [] && raiseException {
        return Raised(ConfigError(errors));
      }
      return Returned(errors == []);
    }

    /** The body of the `process` loop: a service for one recipient, processed with raising switched on. */
    method ProcessRecipient(cls: ServiceClass, recipient: string, settings: Settings, renderer: Renderer,
                            mail: MailModule) returns (r: Outcome<SendOutcome>)
      modifies mail.outbox
      ensures ServiceErrors(cls, [recipient]) != [] ==>
                r == Raised(ConfigError(ServiceErrors(cls, [recipient])))
                && mail.outbox.items == old(mail.outbox.items)
      ensures ServiceErrors(cls, [recipient]) == [] ==>
                r.Returned?
                && mail.outbox.items == old(mail.outbox.items) + [ChildMail(cls, recipient, context, settings, renderer)]
    {
      var service := new EmailService(cls, AddressList([EmailFromRecipient(recipient)]),
                                      Some(RecipientContext(recipient, context)), None);
      assert AttachAll([]) == Attached([], false);
      r := service.Process(true, settings, renderer, mail);
      assert service.errors == [] + ServiceErrors(cls, [recipient]) == ServiceErrors(cls, [recipient]);
    }

    /**
     * The loop of `process`: one service per recipient, each processed with
     * raising switched on, counting the recipients processed. Whether a
     * service is valid does not depend on its recipient, so either every
     * recipient gets its message or the first service raises and nothing is
     * sent.
     */
    method SendToEach(cls: ServiceClass, list: seq<string>, settings: Settings, renderer: Renderer, mail: MailModule)
      returns (r: Outcome<nat>)
      requires |list| > 0
      modifies mail.outbox
      ensures ServiceErrors(cls, list[..1]) != [] ==>
                mail.outbox.items == old(mail.outbox.items)
                && r == Raised(ConfigError(ServiceErrors(cls, list[..1])))
      ensures ServiceErrors(cls, list[..1]) == [] ==>
                r == Returned(|list|)
                && mail.outbox.items == old(mail.outbox.items) + FanOut(cls, list, context, settings, renderer)
    {
      var counter := 0;
      var i := 0;
      while i < |list|
        modifies mail.outbox
        invariant 0 <= i <= |list| && counter == i
        invariant ServiceErrors(cls, list[..1]) != [] ==> i == 0
        invariant mail.outbox.items == old(mail.outbox.items) + FanOut(cls, list[..i], context, settings, renderer)
      {
        var recipient := list[i];
        var sent := ProcessRecipient(cls, recipient, settings, renderer, mail);
        ServiceErrorsIgnoreWhichRecipients(cls, [recipient], list[..1]);
        if sent.Raised? {
          return Raised(sent.exception);
        }
        assert list[..i + 1] == list[..i] + [recipient];
        FanOutSnoc(cls, list[..i], recipient, context, settings, renderer);
        counter := counter + 1;
        i := i + 1;
      }
      assert list[..i] == list;
      return Returned(counter);
    }

    /**
     * `process`: validates the factory, then sends to each recipient through
     * its own service object, and returns how many were processed.
     */
    method Process(raiseException: bool, settings: Settings, renderer: Renderer, mail: MailModule)
      returns (r: Outcome<nat>)
      modifies this`errors, mail.outbox
      ensures errors == old(errors) + FactoryErrors(serviceClass, recipients)
      ensures errors != [] ==>
                mail.outbox.items == old(mail.outbox.items)
                && r == if raiseException then Raised(ConfigError(errors)) else Returned(0)
      ensures errors == [] && ServiceErrors(serviceClass.value, recipients[..1]) != [] ==>
                mail.outbox.items == old(mail.outbox.items)
                && r == Raised(ConfigError(ServiceErrors(serviceClass.value, recipients[..1])))
      ensures errors == [] && ServiceErrors(serviceClass.value, recipients[..1]) == [] ==>
                r == Returned(|recipients|)
                && mail.outbox.items == old(mail.outbox.items) + FanOut(serviceClass.value, recipients, context, settings, renderer)
    {
      var valid := IsValid(raiseException);
      if valid.Raised? {
        return Raised(valid.exception);
      }
      if !valid.value {
        return Returned(0);
      }
      r := SendToEach(serviceClass.value, recipients, settings, renderer, mail);
    }
  }
}
