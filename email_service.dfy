/** The email service (services/emailService.js): the preference gate, the hourly rate
    limit, the statistics filter builder and `sendEmail`, which logs each email as
    `pending` and then as `sent` or `failed`. */
module EmailService {
  import opened Wrappers
  import opened Js
  import opened Text
  import opened QueryBuilder
  import opened Http

  const EmailLogsTable := "email_logs"

  // ===========================================================================
  // checkUserEmailPreferences

  /** The per-type columns of `email_preferences`. */
  datatype PreferenceColumn =
    | ReservationConfirmations | ReservationReminders | ProjectUpdates | ProjectStatusChanges
    | PaymentNotifications | Newsletter

  /** A user's preference row, as the query selects it. */
  datatype PreferenceRow = PreferenceRow(emailNotifications: Value, reservationConfirmations: Value,
                                         reservationReminders: Value, projectUpdates: Value,
                                         projectStatusChanges: Value, paymentNotifications: Value,
                                         newsletter: Value)

  /** `typeMapping`: the column that governs an email type, for the eleven mapped types. */
  function ColumnFor(emailType: string): Option<PreferenceColumn>
  {
    if emailType in {"reservation_created", "reservation_confirmed", "reservation_cancelled"} then
      Some(ReservationConfirmations)
    else if emailType == "reservation_reminder" then Some(ReservationReminders)
    else if emailType in {"project_created", "project_updated", "project_delivered"} then Some(ProjectUpdates)
    else if emailType == "project_status_changed" then Some(ProjectStatusChanges)
    else if emailType in {"payment_success", "payment_failed"} then Some(PaymentNotifications)
    else if emailType == "newsletter" then Some(Newsletter)
    else None
  }

  /** The email types `typeMapping` names. */
  const MappedTypes: set<string> :=
    {"reservation_created", "reservation_confirmed", "reservation_cancelled", "reservation_reminder",
     "project_created", "project_updated", "project_status_changed", "project_delivered",
     "payment_success", "payment_failed", "newsletter"}

  /** `prefs[prefKey]` */
  function ColumnValue(prefs: PreferenceRow, column: PreferenceColumn): Value
  {
    match column
    case ReservationConfirmations => prefs.reservationConfirmations
    case ReservationReminders => prefs.reservationReminders
    case ProjectUpdates => prefs.projectUpdates
    case ProjectStatusChanges => prefs.projectStatusChanges
    case PaymentNotifications => prefs.paymentNotifications
    case Newsletter => prefs.newsletter
  }

  /** `checkUserEmailPreferences(userId, emailType)`. `lookup` is what the preference
      query gives: `Err` when it throws, `Ok(None)` when the user has no row. The value
      is the one the function resolves to: `true`, `false` or the raw column value,
      which callers test for truthiness. */
  function CheckUserEmailPreferences(emailType: string, lookup: Result<Option<PreferenceRow>, string>): Value
  {
    if lookup.Err? then Bool(true)
    else if lookup.value.None? then Bool(true)
    else
      var prefs := lookup.value.value;
      if !Truthy(prefs.emailNotifications) then Bool(false)
      else
        var key := ColumnFor(emailType);
        if key.Some? && ColumnValue(prefs, key.value) != Undefined then ColumnValue(prefs, key.value)
        else Bool(true)
  }

  /** The mapping covers exactly the eleven named types, and the three reservation
      types share the `reservation_confirmations` column. */
  lemma MappingRules(emailType: string)
    ensures ColumnFor(emailType).Some? <==> emailType in MappedTypes
    ensures ColumnFor("reservation_created") == ColumnFor("reservation_confirmed")
              == ColumnFor("reservation_cancelled") == Some(ReservationConfirmations)
    ensures ColumnFor("project_delivered") == Some(ProjectUpdates)
  {
  }

  /** The gate, case by case: no row or a failing lookup allows every email; a row with
      notifications switched off refuses every type; otherwise a mapped type answers
      its column's value, and an unmapped type is allowed. */
  lemma PreferenceRules(emailType: string, lookup: Result<Option<PreferenceRow>, string>)
    ensures lookup.Err? ==> CheckUserEmailPreferences(emailType, lookup) == Bool(true)
    ensures lookup == Ok(None) ==> CheckUserEmailPreferences(emailType, lookup) == Bool(true)
    ensures lookup.Ok? && lookup.value.Some? && !Truthy(lookup.value.value.emailNotifications) ==>
              CheckUserEmailPreferences(emailType, lookup) == Bool(false)
    ensures lookup.Ok? && lookup.value.Some? && Truthy(lookup.value.value.emailNotifications)
            && ColumnFor(emailType).Some? && Defined(ColumnValue(lookup.value.value, ColumnFor(emailType).value)) ==>
              CheckUserEmailPreferences(emailType, lookup) == ColumnValue(lookup.value.value, ColumnFor(emailType).value)
    ensures lookup.Ok? && lookup.value.Some? && Truthy(lookup.value.value.emailNotifications)
            && emailType !in MappedTypes ==>
              CheckUserEmailPreferences(emailType, lookup) == Bool(true)
  {
    MappingRules(emailType);
  }

  /** When the gate lets an email through, as a caller's `if (!canSend)` reads it:
      exactly when there is no row, the lookup fails, or notifications are on and the
      type's column is absent, unmapped or truthy. A column holding `null` or `false`
      refuses the email. */
  lemma PreferenceAllows(emailType: string, lookup: Result<Option<PreferenceRow>, string>)
    ensures Truthy(CheckUserEmailPreferences(emailType, lookup)) <==>
      || lookup.Err?
      || lookup.value.None?
      || (&& Truthy(lookup.value.value.emailNotifications)
          && (|| ColumnFor(emailType).None?
              || !Defined(ColumnValue(lookup.value.value, ColumnFor(emailType).value))
              || Truthy(ColumnValue(lookup.value.value, ColumnFor(emailType).value))))
  {
  }

  // ===========================================================================
  // checkRateLimit

  /** `parseInt(process.env.EMAIL_RATE_LIMIT) || 100`: `configured` is what `parseInt`
      gives (`None` for `NaN`); `NaN` and 0 fall back to 100. */
  function RateLimit(configured: Option<int>): int
  {
    if configured.Some? && configured.value != 0 then configured.value else 100
  }

  /** `checkRateLimit()`. `count` is the number of emails logged in the last hour, or
      `Err` when the query throws. */
  function CheckRateLimit(configured: Option<int>, count: Result<nat, string>): bool
  {
    if count.Err? then true else count.value < RateLimit(configured)
  }

  /** Sending is refused exactly when the hour's count has reached the limit; a failing
      count allows it; an unset limit is 100. */
  lemma RateLimitRules(configured: Option<int>, count: Result<nat, string>)
    ensures !CheckRateLimit(configured, count) <==> count.Ok? && count.value >= RateLimit(configured)
    ensures RateLimit(None) == 100 && RateLimit(Some(0)) == 100
    ensures count.Ok? && configured.None? ==> (CheckRateLimit(configured, count) <==> count.value < 100)
  {
  }

  // ===========================================================================
  // getEmailStats

  /** The statistics filters: `created_at >= $k`, `created_at <= $k`, `email_type = $k`. */
  datatype StatsItem = StartsAt | EndsAt | TypeIs

  /** The options of the statistics. */
  datatype StatsOptions = StatsOptions(startDate: Value, endDate: Value, emailType: Value)

  function StatsSteps(o: StatsOptions): seq<Step<StatsItem>>
  {
    When(Truthy(o.startDate), [Push(StartsAt, o.startDate)])
      + When(Truthy(o.endDate), [Push(EndsAt, o.endDate)])
      + When(Truthy(o.emailType), [Push(TypeIs, o.emailType)])
  }

  /** The statistics query: its clauses and parameters. */
  function StatsSpec(o: StatsOptions): CountQuery<StatsItem>
  {
    CountStatement(EmailLogsTable, StatsSteps(o))
  }

  /** Builds the statistics query as `getEmailStats` does. */
  method BuildStats(o: StatsOptions) returns (q: CountQuery<StatsItem>)
    ensures q == StatsSpec(o)
  {
    var b := new Builder<StatsItem>();
    b.PushWhen(Truthy(o.startDate), StartsAt, o.startDate);
    b.PushWhen(Truthy(o.endDate), EndsAt, o.endDate);
    b.PushWhen(Truthy(o.emailType), TypeIs, o.emailType);
    assert b.steps == StatsSteps(o);
    q := b.CountOf(EmailLogsTable);
  }

  /** Each present filter adds one parameter, its value, in the order start date, end
      date, type; the placeholders are numbered `$1 .. $n` in that order, each naming
      its filter's value. */
  lemma StatsNumbering(o: StatsOptions)
    ensures StatsSpec(o).params == IfPresent(Truthy(o.startDate), o.startDate)
                                   + IfPresent(Truthy(o.endDate), o.endDate)
                                   + IfPresent(Truthy(o.emailType), o.emailType)
    ensures BoundIndices(StatsSpec(o).where) == Upto(|StatsSpec(o).params|)
    ensures |StatsSpec(o).where| == |StatsSteps(o)|
    ensures forall k :: 0 <= k < |StatsSteps(o)| ==> Renders(StatsSpec(o).where[k], StatsSteps(o)[k], StatsSpec(o).params)
  {
    var w1 := When(Truthy(o.startDate), [Push(StartsAt, o.startDate)]);
    var w2 := When(Truthy(o.endDate), [Push(EndsAt, o.endDate)]);
    var w3 := When(Truthy(o.emailType), [Push(TypeIs, o.emailType)]);
    assert StatsSteps(o) == w1 + w2 + w3;
    OnePush(Truthy(o.startDate), StartsAt, o.startDate);
    ParamsOfPushWhen(w1, Truthy(o.endDate), EndsAt, o.endDate);
    ParamsOfPushWhen(w1 + w2, Truthy(o.emailType), TypeIs, o.emailType);
    PlaceholdersSound(StatsSteps(o));
  }

  // ===========================================================================
  // sendEmail

  /** The environment variables `sendEmail` reads. */
  datatype Environment = Environment(nodeEnv: Value, testRecipient: Value, fromName: Value, fromAddress: Value,
                                     replyTo: Value, provider: Value)

  /** The options object of a call to `sendEmail`; `html` is a string. */
  datatype EmailRequest = EmailRequest(to: Value, toName: Value, subject: Value, html: string, text: Value,
                                       emailType: Value, userId: Value, replyTo: Value)

  /** What is handed to the transport. */
  datatype MailOptions = MailOptions(fromName: Value, fromAddress: Value, to: Value, subject: Value, html: string,
                                     text: Value, replyTo: Value)

  /** What `sendEmail` resolves to (`{ success: true, messageId, logId }` or
      `{ success: false, error, logId }`), or the error it rejects with when the
      `failed` log update itself throws. */
  datatype SendResult =
    | Delivered(messageId: Value, logId: Value)
    | Undelivered(error: string, logId: Value)
    | Thrown(error: string)

  /** The recipient: the test recipient in development mode when one is set. */
  function FinalRecipient(env: Environment, to: Value): Value
  {
    if env.nodeEnv == Str("development") && Truthy(env.testRecipient) then env.testRecipient else to
  }

  /** A log row is marked `sent` or `failed`: a `SetStatus` write on `email_logs`. */
  predicate MarksLog(w: Write, status: string)
  {
    w.SetStatus? && w.table == EmailLogsTable && w.status == status
  }

  /** The log id `sendEmail` holds after the INSERT: the new row's id, or `undefined`
      when the INSERT throws. */
  function LoggedId(logInsert: Option<Value>): Value
  {
    if logInsert.Some? then logInsert.value else Undefined
  }

  /** `sendEmail`, with the database and the transport as oracles: `logInsert` is the
      id the `pending` INSERT returns (`None` when it throws), `transport` the message
      id or the transport's error message, `sentUpdate` the error the `sent` UPDATE
      throws, if any (it lands in the same `catch` as a transport error), and
      `failedUpdate` the error the `failed` UPDATE throws, if any (it escapes). */
  method SendEmail(env: Environment, req: EmailRequest, logInsert: Option<Value>, transport: Result<Value, string>,
                   sentUpdate: Option<string>, failedUpdate: Option<string>)
    returns (options: MailOptions, writes: seq<Write>, result: SendResult)
    ensures options.to == FinalRecipient(env, req.to)
    ensures options.to != req.to ==> env.nodeEnv == Str("development") && options.to == env.testRecipient
    ensures options.text == if Truthy(req.text) then req.text else Str(StripTags(req.html))
    ensures options.html == req.html && options.subject == req.subject
    ensures options.replyTo == Or(Or(DefaultIfUndefined(req.replyTo, Null), env.replyTo), env.fromAddress)
    ensures options.fromName == Or(env.fromName, Str("LE SAGE DEV"))
    ensures options.fromAddress == Or(env.fromAddress, Str("noreply@lesagedev.com"))
    // the log: `pending` with the caller's recipient, then `sent` or `failed`
    ensures logInsert.None? ==> writes == []
    ensures logInsert.Some? ==>
      && 1 <= |writes| <= 2
      && writes[0] == Insert(EmailLogsTable, [req.to, req.toName, DefaultIfUndefined(req.userId, Null), req.emailType,
                                              req.subject, Str("pending"), Or(env.provider, Str("smtp"))])
    ensures |writes| == 2 ==> (MarksLog(writes[1], "sent") <==> result.Delivered?)
    ensures |writes| == 2 ==> (MarksLog(writes[1], "failed") <==> result.Undelivered?)
    ensures |writes| == 2 && result.Delivered? ==>
              writes[1] == SetStatus(EmailLogsTable, "sent", [result.messageId, LoggedId(logInsert)])
    ensures |writes| == 2 && result.Undelivered? ==>
              writes[1] == SetStatus(EmailLogsTable, "failed", [Str(result.error), LoggedId(logInsert)])
    ensures Truthy(LoggedId(logInsert)) && !result.Thrown? ==> |writes| == 2
    ensures !Truthy(LoggedId(logInsert)) ==> |writes| <= 1
    ensures result.Thrown? ==> |writes| == 1
    // the result
    ensures result.Delivered? <==> transport.Ok? && (Truthy(LoggedId(logInsert)) ==> sentUpdate.None?)
    ensures result.Delivered? ==> result.messageId == transport.value
    ensures result.Thrown? <==> !result.Delivered? && Truthy(LoggedId(logInsert)) && failedUpdate.Some?
    ensures !result.Thrown? ==> result.logId == LoggedId(logInsert)
    ensures result.Undelivered? && transport.Err? ==> result.error == transport.error
  {
    options := MailOptions(Or(env.fromName, Str("LE SAGE DEV")), Or(env.fromAddress, Str("noreply@lesagedev.com")),
                           FinalRecipient(env, req.to), req.subject, req.html,
                           Or(req.text, Str(StripTags(req.html))),
                           Or(Or(DefaultIfUndefined(req.replyTo, Null), env.replyTo), env.fromAddress));
    var userId := DefaultIfUndefined(req.userId, Null);
    var provider := Or(env.provider, Str("smtp"));
    writes := [];
    var logId := Undefined;
    if logInsert.Some? {
      writes := [Insert(EmailLogsTable, [req.to, req.toName, userId, req.emailType, req.subject, Str("pending"), provider])];
      logId := logInsert.value;
    }
    var error: string;
    if transport.Ok? {
      if !Truthy(logId) {
        return options, writes, Delivered(transport.value, logId);
      }
      if sentUpdate.None? {
        writes := writes + [SetStatus(EmailLogsTable, "sent", [transport.value, logId])];
        return options, writes, Delivered(transport.value, logId);
      }
      error := sentUpdate.value;
    } else {
      error := transport.error;
    }
    if Truthy(logId) {
      if failedUpdate.Some? {
        return options, writes, Thrown(failedUpdate.value);
      }
      writes := writes + [SetStatus(EmailLogsTable, "failed", [Str(error), logId])];
    }
    result := Undelivered(error, logId);
  }
}
