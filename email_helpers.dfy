/** The email helpers (utils/emailHelpers.js): one helper per email, four of them behind
    the preference gate, every one catching what `sendEmail` throws, and the batch
    sender that counts successes and failures recipient by recipient. */
module EmailHelpers {
  import opened Wrappers
  import opened Js
  import opened Text
  import opened EmailService
  import opened EmailTemplates

  /** What a helper resolves to: `sendEmail`'s result, `{ success: false, reason:
      'user_preferences' }`, or `{ success: false, error }` from its `catch`. */
  datatype HelperResult = Returned(result: SendResult) | SkippedByPreferences | CaughtError(error: string)

  /** The call a helper makes to `sendEmail`, if any, and what the helper returns. */
  datatype HelperOutcome = HelperOutcome(sent: Option<EmailRequest>, result: HelperResult)

  /** A user record as the helpers read it. */
  datatype User = User(id: Value, firstname: Value, lastname: Value, email: Value)

  /** `${firstname} ${lastname}` */
  function FullName(firstname: Value, lastname: Value): Value
  {
    Str(ToText(firstname) + " " + ToText(lastname))
  }

  /** The `try` around `await sendEmail(...)`: a rejection is caught and becomes the
      helper's error result. */
  function Send(req: EmailRequest, r: SendResult): (o: HelperOutcome)
    ensures o.sent == Some(req)
    ensures r.Thrown? ==> o.result == CaughtError(r.error)
    ensures !r.Thrown? ==> o.result == Returned(r)
  {
    HelperOutcome(Some(req), if r.Thrown? then CaughtError(r.error) else Returned(r))
  }

  /** A helper behind the preference gate: `checkUserEmailPreferences(user.id, type)`
      (with `lookup` the preference query's answer) and `if (!canSend) return ...`
      before the template is rendered; `rest` is what the helper does after the gate. */
  function Gated(emailType: string, lookup: Result<Option<PreferenceRow>, string>, rest: HelperOutcome)
    : HelperOutcome
  {
    if !Truthy(CheckUserEmailPreferences(emailType, lookup)) then HelperOutcome(None, SkippedByPreferences)
    else rest
  }

  /** A refusing gate sends nothing and answers `user_preferences`, whatever the rest
      of the helper would have done; an allowing gate leaves the helper to the rest. */
  lemma GateRules(emailType: string, lookup: Result<Option<PreferenceRow>, string>, rest: HelperOutcome)
    ensures var o := Gated(emailType, lookup, rest);
      && (!Truthy(CheckUserEmailPreferences(emailType, lookup)) ==>
            o.sent.None? && o.result == SkippedByPreferences)
      && (Truthy(CheckUserEmailPreferences(emailType, lookup)) ==> o == rest)
  {
  }

  /** A user with notifications switched off gets none of the gated emails; a user
      without a preference row, or whose lookup fails, is not stopped by the gate. */
  lemma GateFollowsPreferences(emailType: string, lookup: Result<Option<PreferenceRow>, string>, rest: HelperOutcome)
    ensures lookup.Ok? && lookup.value.Some? && !Truthy(lookup.value.value.emailNotifications) ==>
              Gated(emailType, lookup, rest) == HelperOutcome(None, SkippedByPreferences)
    ensures lookup.Err? || lookup == Ok(None) ==> Gated(emailType, lookup, rest) == rest
  {
    PreferenceRules(emailType, lookup);
  }

  /** The fields of a helper's `sendEmail` call other than the rendered html. */
  datatype Envelope = Envelope(to: Value, toName: Value, subject: Value, text: Value, emailType: Value,
                               userId: Value, replyTo: Value)

  function WithHtml(e: Envelope, html: string): (req: EmailRequest)
    ensures req.html == html
    ensures req.to == e.to && req.toName == e.toName && req.subject == e.subject && req.text == e.text
    ensures req.emailType == e.emailType && req.userId == e.userId && req.replyTo == e.replyTo
  {
    EmailRequest(e.to, e.toName, e.subject, html, e.text, e.emailType, e.userId, e.replyTo)
  }

  /** The envelope of a helper that writes to a user. */
  function UserEnvelope(user: User, subject: string, emailType: string): Envelope
  {
    Envelope(user.email, FullName(user.firstname, user.lastname), Str(subject), Undefined, Str(emailType),
             user.id, Undefined)
  }

  /** The rest of a helper's `try` once its template has been called: a template that
      threw is caught before anything is sent, otherwise its html goes out. */
  function Deliver(html: Result<string, string>, e: Envelope, r: SendResult): HelperOutcome
  {
    match html
    case Err(error) => HelperOutcome(None, CaughtError(error))
    case Ok(h) => Send(WithHtml(e, h), r)
  }

  /** Exactly a rendered template is sent, with the envelope's fields and the rendered
      html; a template error is the helper's result and nothing is sent. */
  lemma DeliverRules(html: Result<string, string>, e: Envelope, r: SendResult)
    ensures var o := Deliver(html, e, r);
      && (o.sent.Some? <==> html.Ok?)
      && (html.Err? ==> o.result == CaughtError(html.error))
      && (html.Ok? ==> o.sent.value == WithHtml(e, html.value)
                       && o.result == (if r.Thrown? then CaughtError(r.error) else Returned(r)))
  {
  }

  // ---------------------------------------------------------------------------
  // The nine helpers. Each renders its template inside its `try`; `s` is what the
  // templates read from the environment, `r` what `sendEmail` does with the request.
  // `dateText` is a reservation date as `toLocaleDateString('fr-FR')` prints it and
  // `longDateText` as it prints it with the weekday and the month spelt out.

  /** A reservation row as the helpers read it. */
  datatype Reservation = Reservation(id: Value, reservationDate: Value, reservationTime: Value, meetingType: Value,
                                     meetingLink: Value, projectType: Value, cancellationReason: Value)

  /** A project row as the helpers read it. */
  datatype Project = Project(id: Value, title: Value, projectType: Value, startDate: Value)

  /** A project update as the helpers read it. */
  datatype ProjectUpdate = ProjectUpdate(id: Value, updateType: Value, message: Value)

  function SendWelcomeEmail(user: User, s: Setting, r: SendResult): HelperOutcome
  {
    Send(WithHtml(UserEnvelope(user, "Bienvenue sur LE SAGE DEV 🚀", "welcome"),
                  WelcomeEmail(WelcomeVars(user.firstname, user.email), s)), r)
  }

  function SendReservationCreatedEmail(res: Reservation, user: User, dateText: string, longDateText: string, s: Setting,
                                       lookup: Result<Option<PreferenceRow>, string>, r: SendResult): HelperOutcome
  {
    var v := ReservationVars(user.firstname, res.reservationDate, res.reservationTime, res.meetingType, Undefined,
                             res.projectType, Undefined);
    Gated("reservation_created", lookup,
          Send(WithHtml(UserEnvelope(user, "Rendez-vous enregistré - " + dateText, "reservation_created"),
                        ReservationCreatedEmail(v, s, longDateText)), r))
  }

  function SendReservationConfirmedEmail(res: Reservation, user: User, dateText: string, longDateText: string,
                                         s: Setting, lookup: Result<Option<PreferenceRow>, string>, r: SendResult)
    : HelperOutcome
  {
    var v := ReservationVars(user.firstname, res.reservationDate, res.reservationTime, res.meetingType,
                             Or(res.meetingLink, Null), Undefined, Undefined);
    Gated("reservation_confirmed", lookup,
          Send(WithHtml(UserEnvelope(user, "✅ Rendez-vous confirmé - " + dateText, "reservation_confirmed"),
                        ReservationConfirmedEmail(v, s, longDateText)), r))
  }

  function SendReservationCancelledEmail(res: Reservation, user: User, dateText: string, s: Setting, r: SendResult)
    : HelperOutcome
  {
    var v := ReservationVars(user.firstname, res.reservationDate, Undefined, Undefined, Undefined, Undefined,
                             Or(res.cancellationReason, Null));
    Send(WithHtml(UserEnvelope(user, "Rendez-vous annulé - " + dateText, "reservation_cancelled"),
                  ReservationCancelledEmail(v, s, dateText)), r)
  }

  /** `startDateText` is the project's start date as `toLocaleDateString('fr-FR')`
      prints it. */
  function SendProjectCreatedEmail(project: Project, user: User, startDateText: string, s: Setting,
                                   lookup: Result<Option<PreferenceRow>, string>, r: SendResult): HelperOutcome
  {
    var v := ProjectVars(user.firstname, project.title, project.projectType, project.startDate,
                         Undefined, Undefined, Undefined);
    Gated("project_created", lookup,
          Send(WithHtml(UserEnvelope(user, "Votre projet \"" + ToText(project.title) + "\" est lancé 🚀",
                                     "project_created"), ProjectCreatedEmail(v, s, startDateText)), r))
  }

  /** The update email; its template throws when the update message is not a string,
      and the helper's `catch` turns that into its error result before anything is
      sent. */
  function SendProjectUpdateEmail(project: Project, user: User, update: ProjectUpdate, s: Setting,
                                  lookup: Result<Option<PreferenceRow>, string>, r: SendResult): HelperOutcome
  {
    var v := ProjectVars(user.firstname, project.title, Undefined, Undefined, Or(update.updateType, Str("info")),
                         update.message, project.id);
    Gated("project_updated", lookup,
          Deliver(ProjectUpdatedEmail(v, s), UserEnvelope(user, "Mise à jour : " + ToText(project.title),
                                                          "project_updated"), r))
  }

  /** The contact message an admin is told about, or a client is answered on. */
  datatype ContactMessage = ContactMessage(id: Value, name: Value, email: Value, subject: Value, message: Value)

  /** The notice to the administrators: to `ADMIN_EMAIL`, or else `EMAIL_FROM_ADDRESS`,
      with the sender as reply-to and no user. */
  function SendContactMessageReceivedEmail(adminEmail: Value, fromAddress: Value, message: ContactMessage,
                                           s: Setting, r: SendResult): HelperOutcome
  {
    var v := ContactVars(message.name, message.email, message.subject, message.message, message.id);
    Send(WithHtml(Envelope(Or(adminEmail, fromAddress), Str("Admin LE SAGE DEV"),
                           Str("🔔 Nouveau message : " + ToText(message.subject)), Undefined,
                           Str("contact_received"), Null, message.email),
                  ContactMessageReceivedEmail(v, s)), r)
  }

  /** The replying admin, if the caller passes one. */
  datatype Admin = Admin(firstname: Value, lastname: Value, email: Value)

  /** `message.name.split(' ')[0]` */
  function FirstName(name: string): string
  {
    Split(name, " ")[0]
  }

  /** `admin ? `${admin.firstname} ${admin.lastname}` : 'LE SAGE DEV'` */
  function AdminName(admin: Option<Admin>): Value
  {
    if admin.Some? then FullName(admin.value.firstname, admin.value.lastname) else Str("LE SAGE DEV")
  }

  /** `admin?.email || process.env.EMAIL_FROM_ADDRESS` */
  function ReplyAddress(admin: Option<Admin>, fromAddress: Value): Value
  {
    Or(if admin.Some? then admin.value.email else Undefined, fromAddress)
  }

  /** The reply to a contact message; `replyText` is `reply.reply_text`. `split` throws
      when the sender's name is not a string and the template throws when the original
      message is not one; the helper's `catch` turns either into its error result
      before anything is sent. */
  function SendContactReplyEmail(message: ContactMessage, replyText: Value, admin: Option<Admin>, fromAddress: Value,
                                 s: Setting, r: SendResult): HelperOutcome
  {
    if !message.name.Str? then HelperOutcome(None, CaughtError(TypeError))
    else
      Deliver(ContactReplyEmail(ReplyVars(Str(FirstName(message.name.s)), message.message, replyText,
                                          AdminName(admin)), s),
              ReplyEnvelope(message, admin, fromAddress), r)
  }

  /** The envelope of a reply: to the sender, under the sender's name, with the
      admin's address or else the sender address to reply to. */
  function ReplyEnvelope(message: ContactMessage, admin: Option<Admin>, fromAddress: Value): Envelope
  {
    Envelope(message.email, message.name, Str("Re: " + ToText(message.subject)), Undefined, Str("contact_reply"),
             Null, ReplyAddress(admin, fromAddress))
  }

  /** `${process.env.FRONTEND_URL}/reset-password?token=${resetToken}`, without the
      templates' default address. */
  function ResetLink(s: Setting, resetToken: Value): Value
  {
    Str(ToText(s.frontendUrl) + "/reset-password?token=" + ToText(resetToken))
  }

  function SendPasswordResetEmail(user: User, resetToken: Value, s: Setting, r: SendResult): HelperOutcome
  {
    Send(WithHtml(UserEnvelope(user, "Réinitialisation de votre mot de passe", "password_reset"),
                  PasswordResetEmail(ResetVars(user.firstname, ResetLink(s, resetToken), Str("1 heure")), s)), r)
  }

  /** The contact-reply variables: the first name is the part of the sender's name
      before its first space (the whole name when it has none), and without an admin
      the signature is `LE SAGE DEV`; replies go to the admin's address when there is
      one, else to the sender address. */
  lemma ContactReplyVariables(name: string, admin: Option<Admin>, fromAddress: Value)
    ensures IsPrefix(FirstName(name), name)
    ensures ' ' !in FirstName(name)
    ensures FirstName(name) == name <==> ' ' !in name
    ensures admin.None? ==> AdminName(admin) == Str("LE SAGE DEV") && ReplyAddress(admin, fromAddress) == fromAddress
    ensures admin.Some? && Truthy(admin.value.email) ==> ReplyAddress(admin, fromAddress) == admin.value.email
  {
    FirstPiece(name, " ");
    assert " " == [' '];
    ContainsChar(FirstName(name), ' ');
    ContainsChar(name, ' ');
  }

  // ---------------------------------------------------------------------------
  // One lemma per helper: whom it writes to, with which email type, when it sends
  // nothing, and what it answers then.

  /** A gated helper whose template cannot throw sends exactly when the gate allows
      it, and then sends its envelope. */
  lemma GatedSendRules(emailType: string, lookup: Result<Option<PreferenceRow>, string>, e: Envelope, html: string,
                       r: SendResult)
    ensures var o := Gated(emailType, lookup, Send(WithHtml(e, html), r));
      var allowed := Truthy(CheckUserEmailPreferences(emailType, lookup));
      && (o.sent.Some? <==> allowed)
      && (!allowed ==> o.result == SkippedByPreferences)
      && (allowed ==> o.sent.value.to == e.to && o.sent.value.emailType == e.emailType
                      && o.sent.value.subject == e.subject)
  {
    GateRules(emailType, lookup, Send(WithHtml(e, html), r));
  }

  /** The welcome email consults no preference and its template cannot throw: it is
      always handed to `sendEmail`, for this user, and only a thrown error becomes the
      helper's error result. */
  lemma WelcomeEmailSent(user: User, s: Setting, r: SendResult)
    ensures var o := SendWelcomeEmail(user, s, r);
      && o.sent.Some? && o.sent.value.to == user.email && o.sent.value.userId == user.id
      && o.sent.value.emailType == Str("welcome")
      && o.result == (if r.Thrown? then CaughtError(r.error) else Returned(r))
  {
  }

  /** The reservation-created email is sent exactly when the user's preference for
      `reservation_created` allows it; its subject carries the date. */
  lemma ReservationCreatedGate(res: Reservation, user: User, dateText: string, longDateText: string, s: Setting,
                               lookup: Result<Option<PreferenceRow>, string>, r: SendResult)
    ensures var o := SendReservationCreatedEmail(res, user, dateText, longDateText, s, lookup, r);
      var allowed := Truthy(CheckUserEmailPreferences("reservation_created", lookup));
      && (o.sent.Some? <==> allowed)
      && (!allowed ==> o.result == SkippedByPreferences)
      && (allowed ==> o.sent.value.to == user.email && o.sent.value.emailType == Str("reservation_created")
                      && o.sent.value.subject == Str("Rendez-vous enregistré - " + dateText))
  {
    var v := ReservationVars(user.firstname, res.reservationDate, res.reservationTime, res.meetingType, Undefined,
                             res.projectType, Undefined);
    var e := UserEnvelope(user, "Rendez-vous enregistré - " + dateText, "reservation_created");
    GatedSendRules("reservation_created", lookup, e, ReservationCreatedEmail(v, s, longDateText), r);
  }

  /** The reservation-confirmed email is sent exactly when the user's preference for
      `reservation_confirmed` allows it. */
  lemma ReservationConfirmedGate(res: Reservation, user: User, dateText: string, longDateText: string, s: Setting,
                                 lookup: Result<Option<PreferenceRow>, string>, r: SendResult)
    ensures var o := SendReservationConfirmedEmail(res, user, dateText, longDateText, s, lookup, r);
      var allowed := Truthy(CheckUserEmailPreferences("reservation_confirmed", lookup));
      && (o.sent.Some? <==> allowed)
      && (!allowed ==> o.result == SkippedByPreferences)
      && (allowed ==> o.sent.value.to == user.email && o.sent.value.emailType == Str("reservation_confirmed")
                      && o.sent.value.subject == Str("✅ Rendez-vous confirmé - " + dateText))
  {
    var v := ReservationVars(user.firstname, res.reservationDate, res.reservationTime, res.meetingType,
                             Or(res.meetingLink, Null), Undefined, Undefined);
    var e := UserEnvelope(user, "✅ Rendez-vous confirmé - " + dateText, "reservation_confirmed");
    GatedSendRules("reservation_confirmed", lookup, e, ReservationConfirmedEmail(v, s, longDateText), r);
  }

  /** The cancellation email consults no preference and its template cannot throw: it
      is always handed to `sendEmail`, for this user. */
  lemma ReservationCancelledSent(res: Reservation, user: User, dateText: string, s: Setting, r: SendResult)
    ensures var o := SendReservationCancelledEmail(res, user, dateText, s, r);
      && o.sent.Some? && o.sent.value.to == user.email && o.sent.value.userId == user.id
      && o.sent.value.emailType == Str("reservation_cancelled")
      && o.sent.value.subject == Str("Rendez-vous annulé - " + dateText)
  {
  }

  /** The project-created email is sent exactly when the user's preference for
      `project_created` allows it. */
  lemma ProjectCreatedGate(project: Project, user: User, startDateText: string, s: Setting,
                           lookup: Result<Option<PreferenceRow>, string>, r: SendResult)
    ensures var o := SendProjectCreatedEmail(project, user, startDateText, s, lookup, r);
      var allowed := Truthy(CheckUserEmailPreferences("project_created", lookup));
      && (o.sent.Some? <==> allowed)
      && (!allowed ==> o.result == SkippedByPreferences)
      && (allowed ==> o.sent.value.to == user.email && o.sent.value.emailType == Str("project_created"))
  {
    var v := ProjectVars(user.firstname, project.title, project.projectType, project.startDate,
                         Undefined, Undefined, Undefined);
    var e := UserEnvelope(user, "Votre projet \"" + ToText(project.title) + "\" est lancé 🚀", "project_created");
    GatedSendRules("project_created", lookup, e, ProjectCreatedEmail(v, s, startDateText), r);
  }

  /** The project-update email is sent exactly when the gate allows it and the update
      message is a string. The gate comes first: a refusal answers `user_preferences`
      whatever the message; past the gate, a message that is not a string makes the
      template throw, and the helper answers the caught TypeError without sending. */
  lemma ProjectUpdateRules(project: Project, user: User, update: ProjectUpdate, s: Setting,
                           lookup: Result<Option<PreferenceRow>, string>, r: SendResult)
    ensures var o := SendProjectUpdateEmail(project, user, update, s, lookup, r);
      var allowed := Truthy(CheckUserEmailPreferences("project_updated", lookup));
      && (o.sent.Some? <==> allowed && update.message.Str?)
      && (!allowed ==> o.result == SkippedByPreferences)
      && (allowed && !update.message.Str? ==> o == HelperOutcome(None, CaughtError(TypeError)))
      && (o.sent.Some? ==> o.sent.value.to == user.email && o.sent.value.emailType == Str("project_updated"))
  {
    var v := ProjectVars(user.firstname, project.title, Undefined, Undefined, Or(update.updateType, Str("info")),
                         update.message, project.id);
    var html := ProjectUpdatedEmail(v, s);
    var e := UserEnvelope(user, "Mise à jour : " + ToText(project.title), "project_updated");
    var o := SendProjectUpdateEmail(project, user, update, s, lookup, r);
    assert o == Gated("project_updated", lookup, Deliver(html, e, r));
    GateRules("project_updated", lookup, Deliver(html, e, r));
    if Truthy(CheckUserEmailPreferences("project_updated", lookup)) {
      UpdateEmailFails(v, s);
      DeliverRules(html, e, r);
    }
  }

  /** The notice to the administrators is always handed to `sendEmail`: to
      `ADMIN_EMAIL` or else the sender address, with the writer as reply-to and no
      user. */
  lemma ContactReceivedSent(adminEmail: Value, fromAddress: Value, message: ContactMessage, s: Setting, r: SendResult)
    ensures var o := SendContactMessageReceivedEmail(adminEmail, fromAddress, message, s, r);
      && o.sent.Some? && o.sent.value.to == Or(adminEmail, fromAddress)
      && o.sent.value.replyTo == message.email && o.sent.value.userId == Null
      && o.sent.value.emailType == Str("contact_received")
  {
  }

  /** The reply is sent exactly when the sender's name and the original message are
      strings; otherwise `split` or the template throws and the helper answers the
      caught TypeError without sending. A sent reply goes to the sender, under the
      sender's name, with the admin's address (or the sender address) as reply-to. */
  lemma ContactReplyRules(message: ContactMessage, replyText: Value, admin: Option<Admin>, fromAddress: Value,
                          s: Setting, r: SendResult)
    ensures var o := SendContactReplyEmail(message, replyText, admin, fromAddress, s, r);
      && (o.sent.Some? <==> message.name.Str? && message.message.Str?)
      && (!(message.name.Str? && message.message.Str?) ==> o == HelperOutcome(None, CaughtError(TypeError)))
      && (o.sent.Some? ==> o.sent.value.to == message.email && o.sent.value.toName == message.name
                           && o.sent.value.replyTo == ReplyAddress(admin, fromAddress)
                           && o.sent.value.emailType == Str("contact_reply"))
  {
    if message.name.Str? {
      var v := ReplyVars(Str(FirstName(message.name.s)), message.message, replyText, AdminName(admin));
      ReplyEmailFails(v, s);
      DeliverRules(ContactReplyEmail(v, s), ReplyEnvelope(message, admin, fromAddress), r);
    }
  }

  /** The reset email is always handed to `sendEmail`, for this user. */
  lemma PasswordResetSent(user: User, resetToken: Value, s: Setting, r: SendResult)
    ensures var o := SendPasswordResetEmail(user, resetToken, s, r);
      && o.sent.Some? && o.sent.value.to == user.email && o.sent.value.userId == user.id
      && o.sent.value.emailType == Str("password_reset")
  {
  }

  /** The reset link is the `FRONTEND_URL` setting as written (`undefined` when unset),
      then the reset path with the token. */
  lemma ResetLinkRule(s: Setting, resetToken: Value)
    ensures ResetLink(s, resetToken).Str?
    ensures IsPrefix(ToText(s.frontendUrl), ResetLink(s, resetToken).s)
    ensures IsSuffix(ToText(resetToken), ResetLink(s, resetToken).s)
    ensures IsPrefix(ToText(s.frontendUrl) + "/reset-password?token=", ResetLink(s, resetToken).s)
    ensures s.frontendUrl == Undefined ==> IsPrefix("undefined", ResetLink(s, resetToken).s)
  {
    Affixes(ToText(s.frontendUrl), "/reset-password?token=", ToText(resetToken));
  }

  lemma Affixes(u: string, m: string, t: string)
    ensures IsPrefix(u, u + m + t) && IsPrefix(u + m, u + m + t) && IsSuffix(t, u + m + t)
  {
    var l := u + m + t;
    assert l[..|u|] == u;
    assert l[..|u + m|] == u + m;
    assert l[|l| - |t|..] == t;
  }

  // ===========================================================================
  // sendBatchEmails

  /** A recipient of a batch. */
  datatype Recipient = Recipient(email: Value, name: Value, id: Value)

  /** An entry of `results.errors`. */
  datatype BatchError = BatchError(email: Value, error: string)

  /** `{ ...emailData, to: recipient.email, toName: recipient.name || recipient.email,
      userId: recipient.id || null }` */
  function BatchRequest(emailData: EmailRequest, r: Recipient): EmailRequest
  {
    emailData.(to := r.email, toName := Or(r.name, r.email), userId := Or(r.id, Null))
  }

  /** The recipients whose `sendEmail` threw, in recipient order, with the error. */
  function BatchErrors(recipients: seq<Recipient>, results: seq<SendResult>): seq<BatchError>
    requires |results| == |recipients|
  {
    if |recipients| == 0 then []
    else
      var last := |recipients| - 1;
      BatchErrors(recipients[..last], results[..last])
        + (if results[last].Thrown? then [BatchError(recipients[last].email, results[last].error)] else [])
  }

  /** The number of calls that did not throw. */
  function Returns(results: seq<SendResult>): nat
  {
    if |results| == 0 then 0
    else Returns(results[..|results| - 1]) + (if results[|results| - 1].Thrown? then 0 else 1)
  }

  /** `sendBatchEmails(recipients, emailData)`; `results[i]` is what `sendEmail` does for
      the i-th recipient. A call that resolves counts as a success whatever it
      resolves to; a call that throws counts as a failure and records an error. */
  method SendBatchEmails(recipients: seq<Recipient>, emailData: EmailRequest, results: seq<SendResult>)
    returns (requests: seq<EmailRequest>, success: nat, failed: nat, errors: seq<BatchError>)
    requires |results| == |recipients|
    ensures |requests| == |recipients|
    ensures forall i :: 0 <= i < |recipients| ==> requests[i] == BatchRequest(emailData, recipients[i])
    ensures success == Returns(results)
    ensures errors == BatchErrors(recipients, results)
    ensures failed == |errors|
    ensures success + failed == |recipients|
  {
    requests, success, failed, errors := [], 0, 0, [];
    var i := 0;
    while i < |recipients|
      invariant 0 <= i <= |recipients|
      invariant |requests| == i
      invariant forall k :: 0 <= k < i ==> requests[k] == BatchRequest(emailData, recipients[k])
      invariant success == Returns(results[..i])
      invariant errors == BatchErrors(recipients[..i], results[..i])
      invariant failed == |errors|
      invariant success + failed == i
    {
      var recipient := recipients[i];
      requests := requests + [BatchRequest(emailData, recipient)];
      assert recipients[..i + 1][..i] == recipients[..i];
      assert results[..i + 1][..i] == results[..i];
      if results[i].Thrown? {
        failed := failed + 1;
        errors := errors + [BatchError(recipient.email, results[i].error)];
      } else {
        success := success + 1;
      }
      i := i + 1;
    }
    assert recipients[..i] == recipients;
    assert results[..i] == results;
  }

  /** `results.failed` is the number of calls that threw: a batch whose every call
      resolves, even with `success: false`, reports all its recipients as successes. */
  lemma {:induction false} UndeliveredCountsAsSuccess(recipients: seq<Recipient>, results: seq<SendResult>)
    requires |results| == |recipients|
    requires forall i :: 0 <= i < |results| ==> !results[i].Thrown?
    ensures Returns(results) == |recipients|
    ensures BatchErrors(recipients, results) == []
  {
    if |recipients| > 0 {
      var last := |recipients| - 1;
      UndeliveredCountsAsSuccess(recipients[..last], results[..last]);
    }
  }

  /** `e` is the error entry of a recipient whose call threw. */
  ghost predicate ErrorOfThrower(recipients: seq<Recipient>, results: seq<SendResult>, e: BatchError)
    requires |results| == |recipients|
  {
    exists i :: 0 <= i < |recipients| && results[i].Thrown? && e == BatchError(recipients[i].email, results[i].error)
  }

  /** Each error names a recipient whose call threw, with that call's error, and there
      is one error per call that threw. */
  lemma {:induction false} BatchErrorsFromThrowers(recipients: seq<Recipient>, results: seq<SendResult>)
    requires |results| == |recipients|
    ensures |BatchErrors(recipients, results)| + Returns(results) == |recipients|
    ensures forall k :: 0 <= k < |BatchErrors(recipients, results)| ==>
              ErrorOfThrower(recipients, results, BatchErrors(recipients, results)[k])
  {
    if |recipients| > 0 {
      var last := |recipients| - 1;
      BatchErrorsFromThrowers(recipients[..last], results[..last]);
      var before := BatchErrors(recipients[..last], results[..last]);
      var all := BatchErrors(recipients, results);
      forall k | 0 <= k < |all| ensures ErrorOfThrower(recipients, results, all[k]) {
        if k < |before| {
          assert ErrorOfThrower(recipients[..last], results[..last], before[k]);
          var i :| 0 <= i < last && results[..last][i].Thrown?
                   && before[k] == BatchError(recipients[..last][i].email, results[..last][i].error);
          assert all[k] == before[k];
          assert results[i].Thrown? && all[k] == BatchError(recipients[i].email, results[i].error);
        } else {
          assert results[last].Thrown? && all[k] == BatchError(recipients[last].email, results[last].error);
        }
      }
    }
  }

  /** Errors keep the recipients' order: the errors of the first `n` recipients are the
      first errors of the batch. */
  lemma {:induction false} BatchErrorsInOrder(recipients: seq<Recipient>, results: seq<SendResult>, n: nat)
    requires |results| == |recipients| && n <= |recipients|
    ensures BatchErrors(recipients[..n], results[..n]) <= BatchErrors(recipients, results)
    decreases |recipients|
  {
    if n < |recipients| {
      var last := |recipients| - 1;
      BatchErrorsInOrder(recipients[..last], results[..last], n);
      assert recipients[..last][..n] == recipients[..n];
      assert results[..last][..n] == results[..n];
    } else {
      assert recipients[..n] == recipients;
      assert results[..n] == results;
    }
  }
}
