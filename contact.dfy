/**
 * The contact form handler (`POST /api/contact`): a chain of checks on the
 * submitted fields, then either a success reply without mail (no mail
 * credential configured) or exactly one hand-off to the mail service.
 * The mail service's answer is an input; nothing here talks to a network.
 */
module Contact {
  import opened Text
  import opened Js

  /** The request body: unreadable (not JSON, or `null`), or the four form fields. */
  datatype ContactRequest = Unparseable | Form(name: Value, email: Value, phone: Value, message: Value)

  /** What the mail service does with a send: accepts it, answers with an error, or throws. */
  datatype SendOutcome = Delivered | ReturnedError | Threw

  /** The mail handed to the mail service. */
  datatype Mail = Mail(from: string, to: seq<string>, subject: string, html: string)

  /** Which of the handler's replies was given. */
  datatype Kind = MissingFields | DomainNotAllowed | SavedWithoutEmail | EmailSent | SendFailed | ServerError

  /** The HTTP status, which reply, and every mail handed to the mail service. */
  datatype ContactResponse = ContactResponse(status: nat, kind: Kind, sent: seq<Mail>)

  const AllowedDomains: seq<string> := ["@gmail.com", "@outlook.com", "@hotmail.com", "@live.com"]
  const ResendPlaceholder := "your-resend-api-key"
  const DefaultSender := "Portfolio Contact <onboarding@resend.dev>"
  const Owner := "rkkarumanchi98@gmail.com"
  const NoPhone := "Not provided"
  const SubjectPrefix := "New Portfolio Contact: "

  /** The address ends, in any letter case, with one of the allowed domains. */
  predicate AllowedEmail(email: string)
    ensures AllowedEmail(email) ==> |email| >= |"@live.com"|
  {
    exists d :: d in AllowedDomains && EndsWith(Lower(email), d)
  }

  /** `name`, `email` and `message` are all truthy. */
  predicate RequiredPresent(name: Value, email: Value, message: Value)
  {
    Truthy(name) && Truthy(email) && Truthy(message)
  }

  /** The sender: the configured address when it is a non-empty string, else the default. */
  function Sender(fromEnv: EnvVar): (r: string)
    ensures r != ""
    ensures fromEnv.Set? && fromEnv.value != "" ==> r == fromEnv.value
    ensures !(fromEnv.Set? && fromEnv.value != "") ==> r == DefaultSender
  {
    if fromEnv.Set? && fromEnv.value != "" then fromEnv.value else DefaultSender
  }

  /**
   * The mail's template renders the name and, when it is truthy, the phone;
   * rendering throws if either cannot be converted to text.
   */
  predicate Renderable(name: Value, phone: Value)
  {
    Renders(name) && (Truthy(phone) ==> Renders(phone))
  }

  /** What the phone line of the mail shows. */
  function PhoneText(phone: Value): (r: string)
    ensures Truthy(phone) ==> r == Shown(phone)
    ensures !Truthy(phone) ==> r == NoPhone
  {
    if Truthy(phone) then Shown(phone) else NoPhone
  }

  /** The part of the mail's HTML before the message text. */
  function MailHead(name: string, email: string, phone: string): string
  {
    "\n        <h2>New Contact Form Submission</h2>\n        <p><strong>Name:</strong> " + name
    + "</p>\n        <p><strong>Email:</strong> " + email
    + "</p>\n        <p><strong>Phone:</strong> " + phone
    + "</p>\n        <p><strong>Message:</strong></p>\n        <p>"
  }

  /** The part of the mail's HTML after the message text. */
  const MailTail := "</p>\n        <hr />\n        <p><em>Sent from your portfolio at rohitkarumanchi.com</em></p>\n      "

  /**
   * The mail for a validated form whose message is a string: from the
   * configured or default sender, to the owner, with the name in the subject
   * and the rewritten message between the fixed head and tail of the HTML.
   */
  function MailFor(name: Value, email: string, phone: Value, message: string, fromEnv: EnvVar): (r: Mail)
    requires Truthy(name)
    ensures r.from == Sender(fromEnv) && r.to == [Owner]
    ensures |r.subject| == |SubjectPrefix| + |Shown(name)|
    ensures OccursAt(r.subject, SubjectPrefix, 0) && OccursAt(r.subject, Shown(name), |SubjectPrefix|)
    ensures var head := MailHead(Shown(name), email, PhoneText(phone));
            && |r.html| == |head| + |ReplaceNewlines(message)| + |MailTail|
            && OccursAt(r.html, head, 0) && OccursAt(r.html, ReplaceNewlines(message), |head|)
            && EndsWith(r.html, MailTail)
  {
    var head := MailHead(Shown(name), email, PhoneText(phone));
    var body := ReplaceNewlines(message);
    ThreeParts(head, body, MailTail);
    ThreeParts(SubjectPrefix, Shown(name), []);
    assert SubjectPrefix + Shown(name) + [] == SubjectPrefix + Shown(name);
    Mail(Sender(fromEnv), [Owner], SubjectPrefix + Shown(name), head + body + MailTail)
  }

  /**
   * The handler.  `resendKey` and `fromEnv` are the two environment
   * variables; `outcome` is what the mail service does if it is called.
   */
  function ContactPost(request: ContactRequest, resendKey: EnvVar, fromEnv: EnvVar,
                       outcome: SendOutcome): (r: ContactResponse)
    ensures r.status == 200 || r.status == 400 || r.status == 500
    ensures r.status == 200 <==> r.kind == SavedWithoutEmail || r.kind == EmailSent
    ensures r.status == 400 <==> r.kind == MissingFields || r.kind == DomainNotAllowed
    ensures r.status == 400 <==>
              request.Form?
              && (!RequiredPresent(request.name, request.email, request.message)
                  || (request.email.Str? && !AllowedEmail(request.email.s)))
    ensures |r.sent| <= 1
    ensures r.sent != [] <==>
              request.Form? && RequiredPresent(request.name, request.email, request.message)
              && request.email.Str? && AllowedEmail(request.email.s)
              && Configured(resendKey, ResendPlaceholder) && request.message.Str?
              && Renderable(request.name, request.phone)
    ensures r.sent != [] ==>
              r.sent == [MailFor(request.name, request.email.s, request.phone, request.message.s, fromEnv)]
    ensures r.status == 500 <==>
              || request.Unparseable?
              || (request.Form? && RequiredPresent(request.name, request.email, request.message)
                  && (|| !request.email.Str?
                      || (AllowedEmail(request.email.s)
                          && (|| !request.message.Str?
                              || (Configured(resendKey, ResendPlaceholder)
                                  && (!Renderable(request.name, request.phone) || outcome != Delivered))))))
    ensures r.kind == ServerError && r.sent == [] <==>
              || request.Unparseable?
              || (request.Form? && RequiredPresent(request.name, request.email, request.message)
                  && (|| !request.email.Str?
                      || (AllowedEmail(request.email.s)
                          && (|| !request.message.Str?
                              || (Configured(resendKey, ResendPlaceholder)
                                  && !Renderable(request.name, request.phone))))))
    ensures r.kind == EmailSent <==> |r.sent| == 1 && outcome == Delivered
    ensures r.kind == SendFailed <==> |r.sent| == 1 && outcome == ReturnedError
  {
    match request
    case Unparseable => ContactResponse(500, ServerError, [])
    case Form(name, email, phone, message) =>
      if !RequiredPresent(name, email, message) then ContactResponse(400, MissingFields, [])
      else if !email.Str? then ContactResponse(500, ServerError, [])
      else if !AllowedEmail(email.s) then ContactResponse(400, DomainNotAllowed, [])
      else if !message.Str? then ContactResponse(500, ServerError, [])
      else if !Configured(resendKey, ResendPlaceholder) then ContactResponse(200, SavedWithoutEmail, [])
      else if !Renderable(name, phone) then ContactResponse(500, ServerError, [])
      else
        var mail := MailFor(name, email.s, phone, message.s, fromEnv);
        match outcome
        case Delivered => ContactResponse(200, EmailSent, [mail])
        case ReturnedError => ContactResponse(500, SendFailed, [mail])
        case Threw => ContactResponse(500, ServerError, [mail])
  }

  /** A falsy name, email or message is refused with 400 before anything else is looked at. */
  lemma MissingFieldsFirst(name: Value, email: Value, phone: Value, message: Value,
                           resendKey: EnvVar, fromEnv: EnvVar, outcome: SendOutcome)
    requires !Truthy(name) || !Truthy(email) || !Truthy(message)
    ensures ContactPost(Form(name, email, phone, message), resendKey, fromEnv, outcome)
         == ContactResponse(400, MissingFields, [])
  {
  }

  /**
   * With the required fields present and a string email, the domain check
   * refuses exactly the addresses that do not end with an allowed domain.
   */
  lemma DomainCheck(name: Value, email: string, phone: Value, message: Value,
                    resendKey: EnvVar, fromEnv: EnvVar, outcome: SendOutcome)
    requires Truthy(name) && email != "" && Truthy(message)
    ensures ContactPost(Form(name, Str(email), phone, message), resendKey, fromEnv, outcome).kind
              == DomainNotAllowed
        <==> !AllowedEmail(email)
  {
  }

  /**
   * The phone number is optional: any two phone values that the template can
   * render (falsy ones are never rendered) give the same status, reply and
   * number of mails.
   */
  lemma RenderablePhoneIsIrrelevant(name: Value, email: Value, phone1: Value, phone2: Value, message: Value,
                                    resendKey: EnvVar, fromEnv: EnvVar, outcome: SendOutcome)
    requires Truthy(phone1) ==> Renders(phone1)
    requires Truthy(phone2) ==> Renders(phone2)
    ensures var r1 := ContactPost(Form(name, email, phone1, message), resendKey, fromEnv, outcome);
            var r2 := ContactPost(Form(name, email, phone2, message), resendKey, fromEnv, outcome);
            r1.status == r2.status && r1.kind == r2.kind && |r1.sent| == |r2.sent|
  {
    if RequiredPresent(name, email, message) && email.Str? && AllowedEmail(email.s) && message.Str?
       && Configured(resendKey, ResendPlaceholder)
    {
      PhoneIrrelevantAtMail(name, email.s, phone1, message.s, resendKey, fromEnv, outcome);
      PhoneIrrelevantAtMail(name, email.s, phone2, message.s, resendKey, fromEnv, outcome);
    } else {
      PhoneIrrelevantBeforeMail(name, email, phone1, phone2, message, resendKey, fromEnv, outcome);
    }
  }

  /** Until the mail is built, the reply does not look at the phone at all. */
  lemma PhoneIrrelevantBeforeMail(name: Value, email: Value, phone1: Value, phone2: Value, message: Value,
                                  resendKey: EnvVar, fromEnv: EnvVar, outcome: SendOutcome)
    requires !(RequiredPresent(name, email, message) && email.Str? && AllowedEmail(email.s)
               && message.Str? && Configured(resendKey, ResendPlaceholder))
    ensures ContactPost(Form(name, email, phone1, message), resendKey, fromEnv, outcome)
         == ContactPost(Form(name, email, phone2, message), resendKey, fromEnv, outcome)
  {
  }

  /**
   * Once the mail is built, a renderable phone only changes the mail's text:
   * the reply depends on the name's rendering and the send outcome alone.
   */
  lemma PhoneIrrelevantAtMail(name: Value, email: string, phone: Value, message: string,
                              resendKey: EnvVar, fromEnv: EnvVar, outcome: SendOutcome)
    requires Truthy(name) && email != "" && AllowedEmail(email) && message != ""
    requires Configured(resendKey, ResendPlaceholder) && (Truthy(phone) ==> Renders(phone))
    ensures var r := ContactPost(Form(name, Str(email), phone, Str(message)), resendKey, fromEnv, outcome);
            && r.status == (if !Renders(name) || outcome != Delivered then 500 else 200)
            && r.kind == (if !Renders(name) || outcome == Threw then ServerError
                          else if outcome == ReturnedError then SendFailed else EmailSent)
            && |r.sent| == (if Renders(name) then 1 else 0)
  {
    if Renders(name) {
      SendOutcomeDecides(name, email, phone, message, resendKey, fromEnv, outcome);
    } else {
      UnrenderableFieldThrows(name, email, phone, message, resendKey, fromEnv, outcome);
    }
  }

  /**
   * Without a usable mail credential a valid submission still succeeds, and
   * no mail is handed over whatever the form holds.
   */
  lemma NotConfiguredNeverSends(request: ContactRequest, resendKey: EnvVar, fromEnv: EnvVar,
                                outcome: SendOutcome)
    requires !Configured(resendKey, ResendPlaceholder)
    ensures ContactPost(request, resendKey, fromEnv, outcome).sent == []
    ensures request.Form? && RequiredPresent(request.name, request.email, request.message)
            && request.email.Str? && AllowedEmail(request.email.s) && request.message.Str?
            ==> ContactPost(request, resendKey, fromEnv, outcome).kind == SavedWithoutEmail
  {
  }

  /**
   * A valid submission with a usable credential is handed over exactly once,
   * and the reply follows what the mail service did.
   */
  lemma SendOutcomeDecides(name: Value, email: string, phone: Value, message: string,
                           resendKey: EnvVar, fromEnv: EnvVar, outcome: SendOutcome)
    requires Truthy(name) && AllowedEmail(email) && message != ""
    requires Configured(resendKey, ResendPlaceholder) && Renderable(name, phone)
    ensures var r := ContactPost(Form(name, Str(email), phone, Str(message)), resendKey, fromEnv, outcome);
            |r.sent| == 1
            && (r.status == 200 <==> outcome == Delivered)
            && (r.kind == SendFailed <==> outcome == ReturnedError)
            && (r.kind == ServerError <==> outcome == Threw)
  {
  }

  /**
   * A name or truthy phone that cannot be rendered makes building the mail
   * throw: the reply is the generic error and nothing is handed over, while
   * without a credential the template is never rendered and the submission
   * is saved as usual.
   */
  lemma UnrenderableFieldThrows(name: Value, email: string, phone: Value, message: string,
                                resendKey: EnvVar, fromEnv: EnvVar, outcome: SendOutcome)
    requires Truthy(name) && AllowedEmail(email) && message != ""
    requires !Renderable(name, phone)
    ensures var r := ContactPost(Form(name, Str(email), phone, Str(message)), resendKey, fromEnv, outcome);
            r.sent == []
            && (Configured(resendKey, ResendPlaceholder) ==> r == ContactResponse(500, ServerError, []))
            && (!Configured(resendKey, ResendPlaceholder) ==> r == ContactResponse(200, SavedWithoutEmail, []))
  {
  }

  /**
   * A mail that is handed over goes to the site owner, its HTML carries the
   * message with line feeds rewritten, and its subject carries the name.
   */
  lemma SentMailCarriesMessage(request: ContactRequest, resendKey: EnvVar, fromEnv: EnvVar,
                               outcome: SendOutcome)
    ensures var r := ContactPost(request, resendKey, fromEnv, outcome);
            r.sent != [] ==>
              request.Form? && request.message.Str?
              && r.sent[0].to == [Owner]
              && Includes(r.sent[0].html, ReplaceNewlines(request.message.s))
              && Includes(r.sent[0].subject, Shown(request.name))
  {
    var r := ContactPost(request, resendKey, fromEnv, outcome);
    if r.sent != [] {
      var head := MailHead(Shown(request.name), request.email.s, PhoneText(request.phone));
      assert OccursAt(r.sent[0].html, ReplaceNewlines(request.message.s), |head|);
      assert OccursAt(r.sent[0].subject, Shown(request.name), |SubjectPrefix|);
    }
  }

  // ---------------------------------------------------------------------------
  // The domain rule
  // ---------------------------------------------------------------------------

  /** The domain check ignores letter case. */
  lemma AllowedEmailCaseInsensitive(email: string)
    ensures AllowedEmail(email) <==> AllowedEmail(Lower(email))
  {
    LowerIdempotent(email);
  }

  /**
   * Only the end of the address is looked at: whatever precedes an accepted
   * address, the result is accepted too.
   */
  lemma AllowedEmailIgnoresPrefix(prefix: string, email: string)
    requires AllowedEmail(email)
    ensures AllowedEmail(prefix + email)
  {
    var d :| d in AllowedDomains && EndsWith(Lower(email), d);
    LowerConcat(prefix, email);
    EndsWithIff(Lower(email), d);
    var p :| Lower(email) == p + d;
    assert Lower(prefix + email) == (Lower(prefix) + p) + d;
    EndsWithIff(Lower(prefix + email), d);
  }

  /** An address is accepted iff it is something followed by an allowed domain, up to case. */
  lemma AllowedEmailIff(email: string)
    ensures AllowedEmail(email)
        <==> exists d, p :: d in AllowedDomains && Lower(email) == p + d
  {
    if AllowedEmail(email) {
      var d :| d in AllowedDomains && EndsWith(Lower(email), d);
      EndsWithIff(Lower(email), d);
    }
    if exists d, p :: d in AllowedDomains && Lower(email) == p + d {
      var d, p :| d in AllowedDomains && Lower(email) == p + d;
      EndsWithIff(Lower(email), d);
    }
  }

  /** An upper-case Gmail address is accepted. */
  lemma UpperCaseGmailAccepted()
    ensures AllowedEmail("USER@GMAIL.COM")
  {
    assert Lower("USER@GMAIL.COM") == "user@gmail.com";
    assert EndsWith("user@gmail.com", AllowedDomains[0]);
  }

  /** A company address is refused. */
  lemma CompanyAddressRefused()
    ensures !AllowedEmail("user@company.com")
  {
    assert Lower("user@company.com") == "user@company.com";
  }

  /** The domain must end the address: a Gmail domain followed by more text is refused. */
  lemma TrailingTextRefused()
    ensures !AllowedEmail("x@gmail.com.evil")
  {
    assert Lower("x@gmail.com.evil") == "x@gmail.com.evil";
  }

  /** Nothing is required before the domain: the bare domain is accepted as an address. */
  lemma BareDomainAccepted()
    ensures AllowedEmail("@gmail.com")
  {
    assert Lower("@gmail.com") == "@gmail.com";
    assert EndsWith("@gmail.com", AllowedDomains[0]);
  }
}
