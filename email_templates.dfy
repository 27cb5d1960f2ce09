/** The nine email templates (templates/emails/index.js): each fills the base layout
    with its title, preheader and content, choosing labels, icons and defaults from
    the variables it is given. The static paragraphs and lists of each content are
    reduced to the headings and the elements that show a variable. */
module EmailTemplates {
  import opened Wrappers
  import opened Js
  import opened Text
  import opened EmailBase

  /** The `variables` object each template destructures, one field per key it reads
      (a key the caller leaves out is `Undefined`). */
  datatype WelcomeVars = WelcomeVars(firstname: Value, email: Value)
  datatype ReservationVars = ReservationVars(firstname: Value, reservationDate: Value, reservationTime: Value,
                                             meetingType: Value, meetingLink: Value, projectType: Value,
                                             cancellationReason: Value)
  datatype ProjectVars = ProjectVars(firstname: Value, projectTitle: Value, projectType: Value, startDate: Value,
                                     updateType: Value, updateMessage: Value, projectId: Value)
  datatype ContactVars = ContactVars(name: Value, email: Value, subject: Value, message: Value, messageId: Value)
  datatype ReplyVars = ReplyVars(firstname: Value, originalMessage: Value, replyMessage: Value, adminName: Value)
  datatype ResetVars = ResetVars(firstname: Value, resetLink: Value, expiresIn: Value)

  /** What a template reads from its environment: the `FRONTEND_URL` setting and the
      current year, which the base layout prints. */
  datatype Setting = Setting(frontendUrl: Value, year: nat)

  /** A template's answer when `.substring` is called on a value that is not a
      string. */
  const TypeError := "TypeError"

  /** The arguments a template passes to `generateBaseEmailHTML`. */
  datatype BaseArgs = BaseArgs(title: string, preheader: string, content: string)

  /** `generateBaseEmailHTML({ title, preheader, content, variables })` */
  function Render(s: Setting, a: BaseArgs): string
  {
    GenerateBaseEmailHtml(Str(a.title), Str(a.preheader), Str(a.content), s.frontendUrl, s.year)
  }

  /** `${frontendUrl}<path>` */
  function Link(s: Setting, path: string): Value
  {
    Str(FrontendUrl(s.frontendUrl) + path)
  }

  /** A rendered email is the filled-in layout: it holds the title, the preheader and
      the content verbatim at their slots. */
  lemma RenderEmbeds(s: Setting, a: BaseArgs)
    ensures var r := Render(s, a);
      var pAt := |HeadOpen| + |a.title| + |HeadClose|;
      var cAt := pAt + |a.preheader| + |BeforeContent|;
      && r == Document(a.title, a.preheader, a.content, FrontendUrl(s.frontendUrl), NatToString(s.year))
      && r[|HeadOpen|..|HeadOpen| + |a.title|] == a.title
      && r[pAt..pAt + |a.preheader|] == a.preheader
      && r[cAt..cAt + |a.content|] == a.content
  {
    BaseIsDocument(Str(a.title), Str(a.preheader), Str(a.content), s.frontendUrl, s.year);
    DocumentEmbedsSlots(a.title, a.preheader, a.content, FrontendUrl(s.frontendUrl), NatToString(s.year));
  }

  // ===========================================================================
  // 1. welcomeEmail

  function WelcomeTail(s: Setting): string
  {
    Divider + "<p><strong>Vous avez un projet en tête ?</strong></p>\n"
      + CreateButton(Str("Réserver un rendez-vous"), Link(s, "/reservation"))
  }

  function WelcomeRest(s: Setting): string
  {
    " ! 🚀</h1>\n" + CreateButton(Str("Accéder à mon espace"), Link(s, "/dashboard")) + WelcomeTail(s)
  }

  function WelcomeContent(v: WelcomeVars, s: Setting): string
  {
    "<h1>Bienvenue " + ToText(v.firstname) + WelcomeRest(s)
  }

  function WelcomeArgs(v: WelcomeVars, s: Setting): BaseArgs
  {
    BaseArgs("Bienvenue sur LE SAGE DEV", "Votre compte a été créé avec succès", WelcomeContent(v, s))
  }

  function WelcomeEmail(v: WelcomeVars, s: Setting): string
  {
    Render(s, WelcomeArgs(v, s))
  }

  /** The welcome email greets the user by first name and links to the dashboard. */
  lemma WelcomeGreets(v: WelcomeVars, s: Setting)
    ensures Contains(WelcomeContent(v, s), ToText(v.firstname))
    ensures Contains(WelcomeContent(v, s), CreateButton(Str("Accéder à mon espace"), Link(s, "/dashboard")))
  {
    var first := ToText(v.firstname);
    ContainsMiddle("<h1>Bienvenue ", first, WelcomeRest(s));
    ContainsMiddle(" ! 🚀</h1>\n", CreateButton(Str("Accéder à mon espace"), Link(s, "/dashboard")), WelcomeTail(s));
    ContainsWithin("<h1>Bienvenue " + first, WelcomeRest(s), "",
                   CreateButton(Str("Accéder à mon espace"), Link(s, "/dashboard")));
    assert "<h1>Bienvenue " + first + WelcomeRest(s) + "" == WelcomeContent(v, s);
  }

  // ===========================================================================
  // The meeting-type label (reservationCreatedEmail, reservationConfirmedEmail)

  const VisioLabel := "🎥 Visioconférence"
  const OnSiteLabel := "🏢 Présentiel"

  /** `meeting_type === 'visio' ? '🎥 Visioconférence' : '🏢 Présentiel'` */
  function MeetingTypeLabel(meetingType: Value): string
  {
    if meetingType == Str("visio") then VisioLabel else OnSiteLabel
  }

  /** The label is the video-call label exactly when the meeting type is the string
      'visio' (strict equality: no other value, however it prints, selects it), and
      the on-site label otherwise. */
  lemma MeetingLabelRule(meetingType: Value)
    ensures MeetingTypeLabel(meetingType) == VisioLabel <==> meetingType == Str("visio")
    ensures MeetingTypeLabel(meetingType) == OnSiteLabel <==> meetingType != Str("visio")
  {
    assert VisioLabel[0] != OnSiteLabel[0];
  }

  // ===========================================================================
  // 2. reservationCreatedEmail

  /** The information box; `dateText` is `reservation_date` as `toLocaleDateString`
      formats it. */
  function ReservationCreatedItems(v: ReservationVars, dateText: string): seq<InfoItem>
  {
    [ InfoItem(Str("Date"), Str(dateText)),
      InfoItem(Str("Heure"), v.reservationTime),
      InfoItem(Str("Type de rendez-vous"), Str(MeetingTypeLabel(v.meetingType))),
      InfoItem(Str("Type de projet"), Or(v.projectType, Str("À définir"))) ]
  }

  function ReservationCreatedHead(v: ReservationVars): string
  {
    "<h1>Votre rendez-vous est enregistré ! 📅</h1>\n<p>Bonjour " + ToText(v.firstname) + ",</p>\n"
  }

  function ReservationCreatedTail(s: Setting): string
  {
    "<p><strong>Prochaines étapes :</strong></p>\n"
      + CreateButton(Str("Voir ma réservation"), Link(s, "/dashboard#reservations"))
      + Divider
  }

  function ReservationCreatedContent(v: ReservationVars, s: Setting, dateText: string): string
  {
    ReservationCreatedHead(v) + CreateInfoBox(ReservationCreatedItems(v, dateText)) + ReservationCreatedTail(s)
  }

  function ReservationCreatedArgs(v: ReservationVars, s: Setting, dateText: string): BaseArgs
  {
    BaseArgs("Rendez-vous enregistré - LE SAGE DEV",
           "Votre rendez-vous du " + ToText(v.reservationDate) + " à " + ToText(v.reservationTime),
           ReservationCreatedContent(v, s, dateText))
  }

  function ReservationCreatedEmail(v: ReservationVars, s: Setting, dateText: string): string
  {
    Render(s, ReservationCreatedArgs(v, s, dateText))
  }

  /** The box shows the meeting-type label, and the project type or 'À définir' when
      the project type is falsy; the box is part of the content. */
  lemma ReservationCreatedDetails(v: ReservationVars, s: Setting, dateText: string)
    ensures var items := ReservationCreatedItems(v, dateText);
      var pt := v.projectType;
      && |items| == 4
      && ToText(items[2].value) == MeetingTypeLabel(v.meetingType)
      && (!Truthy(pt) ==> ToText(items[3].value) == "À définir")
      && (Truthy(pt) ==> items[3].value == pt)
      && Contains(ReservationCreatedContent(v, s, dateText), CreateInfoBox(items))
  {
    ContainsMiddle(ReservationCreatedHead(v), CreateInfoBox(ReservationCreatedItems(v, dateText)),
                   ReservationCreatedTail(s));
  }

  // ===========================================================================
  // 3. reservationConfirmedEmail

  function ReservationConfirmedItems(v: ReservationVars, dateText: string): seq<InfoItem>
  {
    [ InfoItem(Str("Date"), Str(dateText)),
      InfoItem(Str("Heure"), v.reservationTime),
      InfoItem(Str("Type"), Str(MeetingTypeLabel(v.meetingType))) ]
  }

  const JoinLabel := "Rejoindre la visio"
  const VisioIntro := "\n<p><strong>Lien de visioconférence :</strong></p>\n"
  const VisioTip := "\n<p>💡 Vous pouvez vous connecter 5 minutes avant l'heure prévue.</p>\n"

  /** `meeting_type === 'visio' && meeting_link ? `...` : ''` */
  function VisioBlock(meetingType: Value, meetingLink: Value): string
  {
    if meetingType == Str("visio") && Truthy(meetingLink) then
      VisioIntro + CreateButton(Str(JoinLabel), meetingLink) + VisioTip
    else ""
  }

  function ReservationConfirmedHead(v: ReservationVars, dateText: string): string
  {
    "<h1>Rendez-vous confirmé ! ✅</h1>\n<p>Bonjour " + ToText(v.firstname) + ",</p>\n"
      + CreateInfoBox(ReservationConfirmedItems(v, dateText))
  }

  const ReservationConfirmedTail := Divider + "<p><strong>Pour préparer notre échange :</strong></p>\n"

  function ReservationConfirmedContent(v: ReservationVars, dateText: string): string
  {
    ReservationConfirmedHead(v, dateText) + VisioBlock(v.meetingType, v.meetingLink)
      + ReservationConfirmedTail
  }

  function ReservationConfirmedArgs(v: ReservationVars, s: Setting, dateText: string): BaseArgs
  {
    BaseArgs("Rendez-vous confirmé - LE SAGE DEV",
           "Votre RDV du " + ToText(v.reservationDate) + " est confirmé",
           ReservationConfirmedContent(v, dateText))
  }

  function ReservationConfirmedEmail(v: ReservationVars, s: Setting, dateText: string): string
  {
    Render(s, ReservationConfirmedArgs(v, s, dateText))
  }

  /** The video-call block is present exactly when the meeting type is 'visio' and the
      link is truthy, and then it holds the button to the link. */
  lemma VisioBlockRule(meetingType: Value, meetingLink: Value)
    ensures VisioBlock(meetingType, meetingLink) != "" <==> (meetingType == Str("visio") && Truthy(meetingLink))
    ensures meetingType == Str("visio") && Truthy(meetingLink) ==>
              Contains(VisioBlock(meetingType, meetingLink), CreateButton(Str(JoinLabel), meetingLink))
  {
    if meetingType == Str("visio") && Truthy(meetingLink) {
      ContainsMiddle(VisioIntro, CreateButton(Str(JoinLabel), meetingLink), VisioTip);
    }
  }

  /** The confirmation shows the join button for a video call with a link; otherwise
      the content is the head and the tail alone. */
  lemma ConfirmedShowsLinkOnlyForVisio(v: ReservationVars, dateText: string)
    ensures var mt, link := v.meetingType, v.meetingLink;
      && (mt == Str("visio") && Truthy(link) ==>
            Contains(ReservationConfirmedContent(v, dateText), CreateButton(Str(JoinLabel), link)))
      && (!(mt == Str("visio") && Truthy(link)) ==>
            ReservationConfirmedContent(v, dateText) == ReservationConfirmedHead(v, dateText) + ReservationConfirmedTail)
  {
    var mt, link := v.meetingType, v.meetingLink;
    var head := ReservationConfirmedHead(v, dateText);
    VisioBlockRule(mt, link);
    if mt == Str("visio") && Truthy(link) {
      ContainsWithin(head, VisioBlock(mt, link), ReservationConfirmedTail, CreateButton(Str(JoinLabel), link));
    } else {
      assert head + "" == head;
    }
  }

  // ===========================================================================
  // 4. reservationCancelledEmail

  /** `cancellation_reason ? `...` : ''` */
  function CancellationBox(reason: Value): string
  {
    if Truthy(reason) then
      "\n<div class=\"info-box\">\n<p><strong>Raison :</strong> " + ToText(reason) + "</p>\n</div>\n"
    else ""
  }

  function ReservationCancelledHead(v: ReservationVars, dateText: string): string
  {
    "<h1>Rendez-vous annulé</h1>\n<p>Bonjour " + ToText(v.firstname) + ",</p>\n<p>Votre rendez-vous du <strong>"
      + dateText + "</strong> a été annulé.</p>\n"
  }

  function ReservationCancelledTail(s: Setting): string
  {
    "<p>Pas de souci ! Vous pouvez reprendre rendez-vous quand vous le souhaitez.</p>\n"
      + CreateButton(Str("Reprendre rendez-vous"), Link(s, "/reservation"))
  }

  function ReservationCancelledContent(v: ReservationVars, s: Setting, dateText: string): string
  {
    ReservationCancelledHead(v, dateText) + CancellationBox(v.cancellationReason) + ReservationCancelledTail(s)
  }

  function ReservationCancelledArgs(v: ReservationVars, s: Setting, dateText: string): BaseArgs
  {
    BaseArgs("Rendez-vous annulé - LE SAGE DEV", "Votre rendez-vous a été annulé",
           ReservationCancelledContent(v, s, dateText))
  }

  function ReservationCancelledEmail(v: ReservationVars, s: Setting, dateText: string): string
  {
    Render(s, ReservationCancelledArgs(v, s, dateText))
  }

  /** The reason box is rendered exactly when a reason is given, and then it shows the
      reason; without one the content goes straight from the head to the tail. */
  lemma CancellationBoxRule(v: ReservationVars, s: Setting, dateText: string)
    ensures var reason := v.cancellationReason;
      && (CancellationBox(reason) != "" <==> Truthy(reason))
      && (Truthy(reason) ==> Contains(CancellationBox(reason), ToText(reason)))
      && (Truthy(reason) ==> Contains(ReservationCancelledContent(v, s, dateText), CancellationBox(reason)))
      && (!Truthy(reason) ==>
            ReservationCancelledContent(v, s, dateText) == ReservationCancelledHead(v, dateText) + ReservationCancelledTail(s))
  {
    var reason := v.cancellationReason;
    var head := ReservationCancelledHead(v, dateText);
    if Truthy(reason) {
      ContainsMiddle("\n<div class=\"info-box\">\n<p><strong>Raison :</strong> ", ToText(reason), "</p>\n</div>\n");
      ContainsMiddle(head, CancellationBox(reason), ReservationCancelledTail(s));
    } else {
      assert head + "" == head;
    }
  }

  // ===========================================================================
  // 5. projectCreatedEmail

  /** `start_date ? <formatted> : 'À définir'`; `dateText` is `start_date` as
      `toLocaleDateString` formats it. */
  function StartDateShown(startDate: Value, dateText: string): Value
  {
    if Truthy(startDate) then Str(dateText) else Str("À définir")
  }

  function ProjectCreatedItems(v: ProjectVars, dateText: string): seq<InfoItem>
  {
    [ InfoItem(Str("Nom du projet"), v.projectTitle),
      InfoItem(Str("Type"), v.projectType),
      InfoItem(Str("Date de démarrage"), StartDateShown(v.startDate, dateText)) ]
  }

  function ProjectCreatedHead(v: ProjectVars): string
  {
    "<h1>Votre projet est lancé ! 🚀</h1>\n<p>Bonjour " + ToText(v.firstname)
      + ",</p>\n<p>Excellente nouvelle ! Votre projet <strong>\"" + ToText(v.projectTitle)
      + "\"</strong> vient d'être créé.</p>\n"
  }

  function ProjectCreatedTail(s: Setting): string
  {
    CreateButton(Str("Suivre mon projet"), Link(s, "/dashboard#projects")) + Divider
  }

  function ProjectCreatedContent(v: ProjectVars, s: Setting, dateText: string): string
  {
    ProjectCreatedHead(v) + CreateInfoBox(ProjectCreatedItems(v, dateText)) + ProjectCreatedTail(s)
  }

  function ProjectCreatedArgs(v: ProjectVars, s: Setting, dateText: string): BaseArgs
  {
    BaseArgs("Votre projet est lancé - LE SAGE DEV",
           "Le projet \"" + ToText(v.projectTitle) + "\" a été créé",
           ProjectCreatedContent(v, s, dateText))
  }

  function ProjectCreatedEmail(v: ProjectVars, s: Setting, dateText: string): string
  {
    Render(s, ProjectCreatedArgs(v, s, dateText))
  }

  /** The start date shows 'À définir' exactly when it is falsy, and the formatted date
      otherwise; the box is part of the content. */
  lemma StartDateDefault(v: ProjectVars, s: Setting, dateText: string)
    ensures var sd := v.startDate;
      && (!Truthy(sd) ==> ToText(ProjectCreatedItems(v, dateText)[2].value) == "À définir")
      && (Truthy(sd) ==> ToText(ProjectCreatedItems(v, dateText)[2].value) == dateText)
      && Contains(ProjectCreatedContent(v, s, dateText), CreateInfoBox(ProjectCreatedItems(v, dateText)))
  {
    ContainsMiddle(ProjectCreatedHead(v), CreateInfoBox(ProjectCreatedItems(v, dateText)), ProjectCreatedTail(s));
  }

  // ===========================================================================
  // 6. projectUpdatedEmail

  const InfoIcon := "ℹ️"

  /** `updateIcons` */
  const UpdateIcons: map<string, string> :=
    map["info" := InfoIcon, "milestone" := "🎯", "issue" := "⚠️", "question" := "❓", "completed" := "✅"]

  /** `updateIcons[update_type] || 'ℹ️'`: the key is the type as a property name. */
  function Icon(updateType: Value): string
  {
    var key := ToText(updateType);
    ToText(Or(if key in UpdateIcons then Str(UpdateIcons[key]) else Undefined, Str(InfoIcon)))
  }

  /** A known update type gets its own icon; any other value, including a missing one,
      gets the 'info' icon. */
  lemma IconFallback(updateType: Value)
    ensures ToText(updateType) in UpdateIcons ==> Icon(updateType) == UpdateIcons[ToText(updateType)]
    ensures ToText(updateType) !in UpdateIcons ==> Icon(updateType) == UpdateIcons["info"]
    ensures Icon(Undefined) == InfoIcon
  {
    var key := ToText(updateType);
    if key in UpdateIcons {
      assert key == "info" || key == "milestone" || key == "issue" || key == "question" || key == "completed";
    }
  }

  function ProjectUpdatedContent(v: ProjectVars, s: Setting): string
  {
    "<h1>Mise à jour de votre projet " + Icon(v.updateType) + "</h1>\n<p>Bonjour " + ToText(v.firstname)
      + ",</p>\n<p>Une nouvelle mise à jour est disponible pour votre projet <strong>\""
      + ToText(v.projectTitle) + "\"</strong>.</p>\n<div class=\"info-box\">\n<p>\n"
      + ToText(v.updateMessage) + "\n</p>\n</div>\n"
      + CreateButton(Str("Voir les détails"), Link(s, "/dashboard/projects/" + ToText(v.projectId)))
  }

  function ProjectUpdatedTitle(v: ProjectVars): string
  {
    "Mise à jour - " + ToText(v.projectTitle)
  }

  /** The arguments of `projectUpdatedEmail(variables)`: `update_message.substring(0,
      100)` throws a TypeError when the message is not a string. */
  function ProjectUpdatedArgs(v: ProjectVars, s: Setting): Result<BaseArgs, string>
  {
    var message := v.updateMessage;
    if message.Str? then Ok(BaseArgs(ProjectUpdatedTitle(v), Prefix(message.s, 100), ProjectUpdatedContent(v, s)))
    else Err(TypeError)
  }

  function ProjectUpdatedEmail(v: ProjectVars, s: Setting): Result<string, string>
  {
    match ProjectUpdatedArgs(v, s)
    case Ok(a) => Ok(Render(s, a))
    case Err(e) => Err(e)
  }

  /** The email renders exactly when the update message is a string, and fails with a
      TypeError otherwise; its preheader is then the first 100 characters of the
      message (all of it when shorter). */
  lemma UpdatePreheader(v: ProjectVars, s: Setting)
    ensures ProjectUpdatedArgs(v, s).Ok? <==> v.updateMessage.Str?
    ensures ProjectUpdatedArgs(v, s).Err? ==> ProjectUpdatedArgs(v, s).error == TypeError
    ensures v.updateMessage.Str? ==>
              var m, ph := v.updateMessage.s, ProjectUpdatedArgs(v, s).value.preheader;
              && |ph| == (if |m| < 100 then |m| else 100)
              && IsPrefix(ph, m)
  {
  }

  /** A non-string update message is the email's only failure, and it is a TypeError. */
  lemma UpdateEmailFails(v: ProjectVars, s: Setting)
    ensures ProjectUpdatedEmail(v, s).Ok? <==> v.updateMessage.Str?
    ensures ProjectUpdatedEmail(v, s).Err? ==> ProjectUpdatedEmail(v, s).error == TypeError
  {
    UpdatePreheader(v, s);
  }

  // ===========================================================================
  // 7. contactMessageReceivedEmail

  function ContactReceivedItems(v: ContactVars): seq<InfoItem>
  {
    [ InfoItem(Str("Nom"), v.name),
      InfoItem(Str("Email"), v.email),
      InfoItem(Str("Sujet"), v.subject) ]
  }

  function ContactReceivedHead(v: ContactVars): string
  {
    "<h1>Nouveau message de contact 📧</h1>\n" + CreateInfoBox(ContactReceivedItems(v)) + "<div class=\"info-box\">\n<p>"
  }

  function ContactReceivedTail(v: ContactVars, s: Setting): string
  {
    "</p>\n</div>\n"
      + CreateButton(Str("Répondre au message"), Link(s, "/admin/messages/" + ToText(v.messageId)))
  }

  function ContactReceivedContent(v: ContactVars, s: Setting): string
  {
    ContactReceivedHead(v) + ToText(v.message) + ContactReceivedTail(v, s)
  }

  function ContactReceivedPreheader(v: ContactVars): string
  {
    "Message de " + ToText(v.name) + " : " + ToText(v.subject)
  }

  function ContactMessageReceivedArgs(v: ContactVars, s: Setting): BaseArgs
  {
    BaseArgs("Nouveau message de contact", ContactReceivedPreheader(v), ContactReceivedContent(v, s))
  }

  function ContactMessageReceivedEmail(v: ContactVars, s: Setting): string
  {
    Render(s, ContactMessageReceivedArgs(v, s))
  }

  /** The administrator's copy quotes the message verbatim. */
  lemma ContactReceivedQuotesMessage(v: ContactVars, s: Setting)
    ensures Contains(ContactReceivedContent(v, s), ToText(v.message))
  {
    ContainsMiddle(ContactReceivedHead(v), ToText(v.message), ContactReceivedTail(v, s));
  }

  /** The preheader of the administrator's copy names the sender and ends with the
      subject. */
  lemma ContactReceivedPreheaderNames(v: ContactVars)
    ensures IsPrefix("Message de " + ToText(v.name), ContactReceivedPreheader(v))
    ensures IsSuffix(ToText(v.subject), ContactReceivedPreheader(v))
  {
    var named := "Message de " + ToText(v.name);
    assert ContactReceivedPreheader(v) == named + (" : " + ToText(v.subject));
    assert ContactReceivedPreheader(v)[..|named|] == named;
  }

  // ===========================================================================
  // 8. contactReplyEmail

  /** `admin_name || 'Notre équipe'`, in the introduction and the preheader. */
  function AdminIntro(adminName: Value): string
  {
    ToText(Or(adminName, Str("Notre équipe")))
  }

  /** `admin_name || 'LE SAGE DEV'`, in the heading of the reply. */
  function AdminSignature(adminName: Value): string
  {
    ToText(Or(adminName, Str("LE SAGE DEV")))
  }

  /** `original_message.substring(0, 150)` followed by '...' when it is longer. */
  function QuotedMessage(original: string): string
  {
    Truncate(original, 150)
  }

  function ContactReplyHead(v: ReplyVars): string
  {
    "<h1>Réponse à votre message 💬</h1>\n<p>Bonjour " + ToText(v.firstname) + ",</p>\n<p>"
      + AdminIntro(v.adminName) + " a répondu à votre message :</p>\n<div>\n<p>\n\""
  }

  function ContactReplyTail(v: ReplyVars, s: Setting): string
  {
    "\"\n</p>\n</div>\n<div class=\"info-box\">\n<p>Réponse de " + AdminSignature(v.adminName)
      + " :</p>\n<p>" + ToText(v.replyMessage) + "</p>\n</div>\n"
      + CreateButton(Str("Voir la conversation"), Link(s, "/mes-messages"))
  }

  function ContactReplyContent(v: ReplyVars, s: Setting, original: string): string
  {
    ContactReplyHead(v) + QuotedMessage(original) + ContactReplyTail(v, s)
  }

  /** The arguments of `contactReplyEmail(variables)`: `original_message.substring`
      throws a TypeError when the original message is not a string. */
  function ContactReplyArgs(v: ReplyVars, s: Setting): Result<BaseArgs, string>
  {
    var original := v.originalMessage;
    if original.Str? then
      Ok(BaseArgs("Réponse à votre message - LE SAGE DEV", AdminIntro(v.adminName) + " a répondu à votre message",
                  ContactReplyContent(v, s, original.s)))
    else Err(TypeError)
  }

  function ContactReplyEmail(v: ReplyVars, s: Setting): Result<string, string>
  {
    match ContactReplyArgs(v, s)
    case Ok(a) => Ok(Render(s, a))
    case Err(e) => Err(e)
  }

  /** Without an administrator name the introduction says 'Notre équipe' and the reply
      heading 'LE SAGE DEV'; with one, both say the name. */
  lemma AdminNameDefaults(adminName: Value)
    ensures !Truthy(adminName) ==> AdminIntro(adminName) == "Notre équipe" && AdminSignature(adminName) == "LE SAGE DEV"
    ensures Truthy(adminName) ==> AdminIntro(adminName) == ToText(adminName) && AdminSignature(adminName) == ToText(adminName)
  {
  }

  /** The email renders exactly when the original message is a string; it then quotes
      the message whole when it has at most 150 characters, and otherwise its first 150
      followed by '...'. */
  lemma QuoteTruncated(v: ReplyVars, s: Setting)
    ensures ContactReplyArgs(v, s).Ok? <==> v.originalMessage.Str?
    ensures ContactReplyArgs(v, s).Err? ==> ContactReplyArgs(v, s).error == TypeError
    ensures v.originalMessage.Str? ==>
              var m := v.originalMessage.s;
              var q := QuotedMessage(m);
              && Contains(ContactReplyArgs(v, s).value.content, q)
              && (|m| <= 150 ==> q == m)
              && (|m| > 150 ==> q == m[..150] + "...")
  {
    var original := v.originalMessage;
    if original.Str? {
      var m := original.s;
      ContainsMiddle(ContactReplyHead(v), QuotedMessage(m), ContactReplyTail(v, s));
    }
  }

  /** A non-string original message is the email's only failure, and it is a
      TypeError. */
  lemma ReplyEmailFails(v: ReplyVars, s: Setting)
    ensures ContactReplyEmail(v, s).Ok? <==> v.originalMessage.Str?
    ensures ContactReplyEmail(v, s).Err? ==> ContactReplyEmail(v, s).error == TypeError
  {
    ReplyArgsFail(v, s);
  }

  lemma ReplyArgsFail(v: ReplyVars, s: Setting)
    ensures ContactReplyArgs(v, s).Ok? <==> v.originalMessage.Str?
    ensures ContactReplyArgs(v, s).Err? ==> ContactReplyArgs(v, s).error == TypeError
  {
  }

  // ===========================================================================
  // 9. passwordResetEmail

  /** `expires_in || '1 heure'` */
  function ExpiresIn(expiresIn: Value): string
  {
    ToText(Or(expiresIn, Str("1 heure")))
  }

  function PasswordResetHead(v: ResetVars): string
  {
    "<h1>Réinitialisation de mot de passe 🔐</h1>\n<p>Bonjour " + ToText(v.firstname) + ",</p>\n"
  }

  function PasswordResetTail(v: ResetVars): string
  {
    "<div class=\"info-box\">\n<p>⚠️ <strong>Ce lien expire dans " + ExpiresIn(v.expiresIn)
      + ".</strong></p>\n</div>\n" + Divider
  }

  function PasswordResetContent(v: ResetVars): string
  {
    PasswordResetHead(v) + CreateButton(Str("Réinitialiser mon mot de passe"), v.resetLink) + PasswordResetTail(v)
  }

  function PasswordResetArgs(v: ResetVars, s: Setting): BaseArgs
  {
    BaseArgs("Réinitialisation de mot de passe - LE SAGE DEV", "Cliquez pour créer un nouveau mot de passe",
           PasswordResetContent(v))
  }

  function PasswordResetEmail(v: ResetVars, s: Setting): string
  {
    Render(s, PasswordResetArgs(v, s))
  }

  /** The expiry defaults to '1 heure'; the reset button leads to the link given. */
  lemma ResetLinkAndExpiry(v: ResetVars)
    ensures !Truthy(v.expiresIn) ==> ExpiresIn(v.expiresIn) == "1 heure"
    ensures Truthy(v.expiresIn) ==> ExpiresIn(v.expiresIn) == ToText(v.expiresIn)
    ensures Contains(PasswordResetContent(v), CreateButton(Str("Réinitialiser mon mot de passe"), v.resetLink))
  {
    ContainsMiddle(PasswordResetHead(v), CreateButton(Str("Réinitialiser mon mot de passe"), v.resetLink),
                   PasswordResetTail(v));
  }
}
