/** The SMTP helper (utils/mailer.js): `sendEmail`, which hands one message to the
    transport and reports the result, and `sendContactReply`, which composes the
    reply to a contact message. The transport is an oracle: either the id it
    assigns to the message or the message of the error it throws. */
module Mailer {
  import opened Wrappers
  import opened Js
  import opened Text

  /** The options given to `transporter.sendMail`. */
  datatype Message = Message(from: string, to: Value, subject: Value, text: Value, html: Value)

  /** `{ success: true, messageId }` or `{ success: false, error }`. */
  datatype SendResult = Sent(messageId: Value) | NotSent(error: Value)

  const SenderName := "LE SAGE DEV"

  /** The sender text before the address. */
  const SenderOpen := "\"" + SenderName + "\" <"

  /** `"LE SAGE DEV" <SMTP_USER>` */
  function Sender(smtpUser: Value): string
  {
    SenderOpen + ToText(smtpUser) + ">"
  }

  /** The sender names the configured SMTP user as its address. */
  lemma SenderNamesUser(smtpUser: Value)
    ensures Contains(Sender(smtpUser), ToText(smtpUser))
  {
    ContainsMiddle(SenderOpen, ToText(smtpUser), ">");
  }

  /** `sendEmail({ to, subject, html, text })`: the message handed to the transport
      and the result; `transport` is `Ok(info.messageId)` or `Err(error.message)`. */
  function SendEmail(to: Value, subject: Value, html: Value, text: Value, smtpUser: Value,
                     transport: Result<Value, Value>): (Message, SendResult)
  {
    var message := Message(Sender(smtpUser), to, subject, text, html);
    match transport
    case Ok(id) => (message, Sent(id))
    case Err(e) => (message, NotSent(e))
  }

  /** The transport receives the fields as given, from the configured sender; the
      result is a success carrying the transport's message id exactly when the
      transport accepts, and otherwise a failure carrying the error's message: the
      function never throws. */
  lemma SendEmailResult(to: Value, subject: Value, html: Value, text: Value, smtpUser: Value,
                        transport: Result<Value, Value>)
    ensures var (m, r) := SendEmail(to, subject, html, text, smtpUser, transport);
      && m.to == to && m.subject == subject && m.html == html && m.text == text
      && Contains(m.from, ToText(smtpUser))
      && (r.Sent? <==> transport.Ok?)
      && (transport.Ok? ==> r == Sent(transport.value))
      && (transport.Err? ==> r == NotSent(transport.error))
  {
    var message := Message(Sender(smtpUser), to, subject, text, html);
    SenderNamesUser(smtpUser);
    match transport
    case Ok(id) => assert SendEmail(to, subject, html, text, smtpUser, transport) == (message, Sent(id));
    case Err(e) => assert SendEmail(to, subject, html, text, smtpUser, transport) == (message, NotSent(e));
  }

  // ===========================================================================
  // sendContactReply

  const Newline := "\n"
  const LineBreak := "<br>"

  /** `replyText.replace(/\n/g, '<br>')` */
  function ReplyAsHtml(replyText: string): string
  {
    ReplaceAll(replyText, Newline, LineBreak)
  }

  /** The HTML body up to the reply: the greeting of `name` and the quoted subject
      (the document head, the style sheet and the static sentences are not modelled). */
  function ReplyHtmlHead(name: Value, subject: Value): string
  {
    "<p>Bonjour " + ToText(name) + ",</p><p><strong>" + ToText(subject) + "</strong></p><p>"
  }

  /** The HTML body after the reply: the signature. */
  function ReplyHtmlTail(): string
  {
    "</p><p>LE SAGE DEV</p>"
  }

  function ReplyHtml(name: Value, subject: Value, replyText: string): string
  {
    ReplyHtmlHead(name, subject) + ReplyAsHtml(replyText) + ReplyHtmlTail()
  }

  function TextGreeting(name: Value): string
  {
    "Bonjour " + ToText(name) + ",\n\n"
  }

  const TextSignature := "\n\nCordialement,\nLE SAGE DEV"

  /** `Bonjour ${name},\n\n${replyText}\n\nCordialement,\nLE SAGE DEV` */
  function ReplyText(name: Value, replyText: string): string
  {
    TextGreeting(name) + replyText + TextSignature
  }

  const ReplyPrefix := "Re: "

  /** `sendContactReply(to, name, subject, replyText)`: the `sendEmail` call it makes,
      or the TypeError of `replyText.replace` when the reply is not a string. */
  function SendContactReply(to: Value, name: Value, subject: Value, replyText: Value, smtpUser: Value,
                            transport: Result<Value, Value>): Result<(Message, SendResult), string>
  {
    if !replyText.Str? then Err("TypeError")
    else
      Ok(SendEmail(to, Str(ReplySubject(subject)), Str(ReplyHtml(name, subject, replyText.s)),
                   Str(ReplyText(name, replyText.s)), smtpUser, transport))
  }

  /** The HTML carries the reply with every line feed turned into `<br>`: no line feed
      is left, and the lines appear in order, joined by `<br>`; a one-line reply is
      carried unchanged. */
  lemma ReplyAsHtmlRule(replyText: string)
    ensures '\n' !in ReplyAsHtml(replyText)
    ensures ReplyAsHtml(replyText) == Join(Split(replyText, Newline), LineBreak)
    ensures '\n' !in replyText ==> ReplyAsHtml(replyText) == replyText
  {
    ReplaceCharRemovesIt(replyText, '\n', LineBreak);
    ReplaceAllIsSplitJoin(replyText, Newline, LineBreak);
    if '\n' !in replyText {
      ContainsChar(replyText, '\n');
      ReplaceAllAbsent(replyText, Newline, LineBreak);
    }
  }

  /** `Re: ${subject}` */
  function ReplySubject(subject: Value): string
  {
    ReplyPrefix + ToText(subject)
  }

  /** The reply is refused, with the TypeError of `replace`, exactly when the reply
      text is not a string. */
  lemma ContactReplyRefused(to: Value, name: Value, subject: Value, replyText: Value, smtpUser: Value,
                            transport: Result<Value, Value>)
    ensures SendContactReply(to, name, subject, replyText, smtpUser, transport).Ok? <==> replyText.Str?
  {
  }

  /** The subject is `Re: ` followed by the original subject. */
  lemma ReplySubjectRule(subject: Value)
    ensures IsPrefix(ReplyPrefix, ReplySubject(subject))
    ensures ReplySubject(subject)[|ReplyPrefix|..] == ToText(subject)
  {
    var s := ReplyPrefix + ToText(subject);
    assert s[..|ReplyPrefix|] == ReplyPrefix;
    assert s[|ReplyPrefix|..] == ToText(subject);
  }

  /** The HTML holds the converted reply. */
  lemma ReplyHtmlHoldsReply(name: Value, subject: Value, replyText: string)
    ensures Contains(ReplyHtml(name, subject, replyText), ReplyAsHtml(replyText))
  {
    ContainsMiddle(ReplyHtmlHead(name, subject), ReplyAsHtml(replyText), ReplyHtmlTail());
  }

  /** The message goes to `to` with the subject `Re: ` and the original subject; its
      plain text is the greeting, the reply exactly as written, and the signature; its
      HTML holds the converted reply; the result is `sendEmail`'s. */
  lemma ContactReplyMessage(to: Value, name: Value, subject: Value, replyText: string, smtpUser: Value,
                            transport: Result<Value, Value>)
    ensures SendContactReply(to, name, subject, Str(replyText), smtpUser, transport).Ok?
    ensures var (m, r) := SendContactReply(to, name, subject, Str(replyText), smtpUser, transport).value;
      && m.to == to
      && m.subject.Str? && IsPrefix(ReplyPrefix, m.subject.s) && m.subject.s[|ReplyPrefix|..] == ToText(subject)
      && m.text.Str? && m.text.s == TextGreeting(name) + replyText + TextSignature
      && m.html.Str? && Contains(m.html.s, ReplyAsHtml(replyText))
      && (r.Sent? <==> transport.Ok?)
  {
    var html := ReplyHtml(name, subject, replyText);
    var text := ReplyText(name, replyText);
    assert SendContactReply(to, name, subject, Str(replyText), smtpUser, transport)
        == Ok(SendEmail(to, Str(ReplySubject(subject)), Str(html), Str(text), smtpUser, transport));
    SendEmailResult(to, Str(ReplySubject(subject)), Str(html), Str(text), smtpUser, transport);
    ReplySubjectRule(subject);
    ReplyHtmlHoldsReply(name, subject, replyText);
  }

  /** The plain text holds the reply as written, at the end of the greeting. */
  lemma ReplyTextEmbedsReply(name: Value, replyText: string)
    ensures var t := ReplyText(name, replyText); var g := |TextGreeting(name)|;
      && g + |replyText| <= |t| && t[g..g + |replyText|] == replyText
      && Contains(t, replyText)
  {
    ContainsMiddle(TextGreeting(name), replyText, TextSignature);
    var t := ReplyText(name, replyText);
    var g := |TextGreeting(name)|;
    assert t[g..g + |replyText|] == replyText;
  }
}
