/** The admin reservation routes (routes/admin/reservations.js): the calendar filter,
    the filtered list with its count, the UPDATE builder with its `confirmed_by` and
    `cancelled_at` rules, the status notifications, creation and deletion. */
module AdminReservations {
  import opened Wrappers
  import opened Js
  import opened QueryBuilder
  import opened Http

  const ReservationsTable := "reservations"
  const NotificationsTable := "user_notifications"
  const ActivityLogTable := "admin_activity_logs"
  const ReservationNotFound := Failure(404, "Réservation non trouvée")

  // ===========================================================================
  // GET /admin/reservations/calendar/view

  /** The two clauses of the month filter, `EXTRACT(MONTH ...) = $1` and
      `EXTRACT(YEAR ...) = $2`. */
  datatype CalendarItem = MonthIs | YearIs

  /** The calendar filter: both clauses, or neither. */
  function CalendarSteps(month: Value, year: Value): seq<Step<CalendarItem>>
  {
    When(Truthy(month) && Truthy(year), [Push(MonthIs, month), Push(YearIs, year)])
  }

  /** Builds the calendar query's filter as the handler does. */
  method BuildCalendar(month: Value, year: Value) returns (where: seq<Fragment<CalendarItem>>, params: seq<Value>)
    ensures where == FragmentsOf(CalendarSteps(month, year))
    ensures params == ParamsOf(CalendarSteps(month, year))
  {
    var b := new Builder<CalendarItem>();
    if Truthy(month) && Truthy(year) {
      b.Push(MonthIs, month);
      b.Push(YearIs, year);
    }
    where, params := b.fragments, b.params;
  }

  /** The month filter is applied only when both the month and the year are given:
      then it binds `$1` to the month and `$2` to the year, else nothing. */
  lemma CalendarFilter(month: Value, year: Value)
    ensures ParamsOf(CalendarSteps(month, year)) == if Truthy(month) && Truthy(year) then [month, year] else []
    ensures FragmentsOf(CalendarSteps(month, year))
              == if Truthy(month) && Truthy(year) then [Bound(MonthIs, 1), Bound(YearIs, 2)] else []
  {
    var one := [Step<CalendarItem>.Push(MonthIs, month)];
    var two := one + [Push(YearIs, year)];
    assert one[..0] == [];
    assert two[..1] == one;
    assert FragmentsOf(one) == [Bound(MonthIs, 1)];
  }

  // ===========================================================================
  // GET /admin/reservations

  /** The list filters, whose SQL the count query repeats word for word. */
  datatype ListItem = StatusIs | MeetingTypeIs | FromDate | ToDate | SearchMatches

  /** The query string of the list. */
  datatype ListRequest = ListRequest(status: Value, meetingType: Value, fromDate: Value, toDate: Value,
                                     search: Value, limit: Value, offset: Value)

  /** The filter steps, one `if` per filter. The handler writes this block twice, once
      over `params`/`paramCount` and once over `countParams`/`countParamCount`, with the
      same conditions, SQL and values in the same order. */
  function FilterSteps(q: ListRequest): seq<Step<ListItem>>
  {
    When(Truthy(q.status), [Push(StatusIs, q.status)])
      + When(Truthy(q.meetingType), [Push(MeetingTypeIs, q.meetingType)])
      + When(Truthy(q.fromDate), [Push(FromDate, q.fromDate)])
      + When(Truthy(q.toDate), [Push(ToDate, q.toDate)])
      + When(Truthy(q.search), [Push(SearchMatches, SearchPattern(q.search))])
  }

  /** The list query, with `limit = 50` and `offset = 0` as destructuring defaults. */
  function ListSpec(q: ListRequest): ListQuery<ListItem>
  {
    ListStatement(ReservationsTable, FilterSteps(q), DefaultIfUndefined(q.limit, Num(50)),
                  DefaultIfUndefined(q.offset, Num(0)))
  }

  /** The count query. */
  function CountSpec(q: ListRequest): CountQuery<ListItem>
  {
    CountStatement(ReservationsTable, FilterSteps(q))
  }

  /** Runs one copy of the filter block on a new builder. */
  method PushFilters(q: ListRequest) returns (b: Builder<ListItem>)
    ensures fresh(b) && b.Valid() && b.steps == FilterSteps(q)
  {
    b := new Builder<ListItem>();
    b.PushWhen(Truthy(q.status), StatusIs, q.status);
    b.PushWhen(Truthy(q.meetingType), MeetingTypeIs, q.meetingType);
    b.PushWhen(Truthy(q.fromDate), FromDate, q.fromDate);
    b.PushWhen(Truthy(q.toDate), ToDate, q.toDate);
    b.PushWhen(Truthy(q.search), SearchMatches, SearchPattern(q.search));
  }

  /** Builds the list query and then, on counters of its own, the count query. */
  method BuildList(q: ListRequest) returns (list: ListQuery<ListItem>, count: CountQuery<ListItem>)
    ensures list == ListSpec(q) && count == CountSpec(q)
  {
    var b := PushFilters(q);
    list := b.ListOf(ReservationsTable, DefaultIfUndefined(q.limit, Num(50)), DefaultIfUndefined(q.offset, Num(0)));
    var c := PushFilters(q);
    count := c.CountOf(ReservationsTable);
  }

  /** The parameters of the filters: each present filter's value, in order. */
  function FilterParameters(q: ListRequest): seq<Value>
  {
    IfPresent(Truthy(q.status), q.status)
      + IfPresent(Truthy(q.meetingType), q.meetingType)
      + IfPresent(Truthy(q.fromDate), q.fromDate)
      + IfPresent(Truthy(q.toDate), q.toDate)
      + IfPresent(Truthy(q.search), SearchPattern(q.search))
  }

  /** The filter block binds the present filters' values, in order. */
  lemma FilterBinds(q: ListRequest)
    ensures ParamsOf(FilterSteps(q)) == FilterParameters(q)
  {
    var w1 := When(Truthy(q.status), [Push(StatusIs, q.status)]);
    var w2 := When(Truthy(q.meetingType), [Push(MeetingTypeIs, q.meetingType)]);
    var w3 := When(Truthy(q.fromDate), [Push(FromDate, q.fromDate)]);
    var w4 := When(Truthy(q.toDate), [Push(ToDate, q.toDate)]);
    var w5 := When(Truthy(q.search), [Push(SearchMatches, SearchPattern(q.search))]);
    assert FilterSteps(q) == w1 + w2 + w3 + w4 + w5;
    OnePush(Truthy(q.status), StatusIs, q.status);
    ParamsOfPushWhen(w1, Truthy(q.meetingType), MeetingTypeIs, q.meetingType);
    ParamsOfPushWhen(w1 + w2, Truthy(q.fromDate), FromDate, q.fromDate);
    ParamsOfPushWhen(w1 + w2 + w3, Truthy(q.toDate), ToDate, q.toDate);
    ParamsOfPushWhen(w1 + w2 + w3 + w4, Truthy(q.search), SearchMatches, SearchPattern(q.search));
  }

  /** The count query applies the same filters as the list, in the same order and with
      the same placeholders, and its parameters are the list's without the final limit
      and offset; the list's placeholders are `$1 .. $n` for the filters, then `$(n+1)`
      and `$(n+2)`. */
  lemma CountMatchesList(q: ListRequest)
    ensures var l, c := ListSpec(q), CountSpec(q);
      && c.where == l.where
      && |l.params| >= 2
      && c.params == l.params[..|l.params| - 2]
      && c.params == FilterParameters(q)
      && l.params[|l.params| - 2..] == [DefaultIfUndefined(q.limit, Num(50)), DefaultIfUndefined(q.offset, Num(0))]
      && BoundIndices(l.where) + [l.limitIndex, l.offsetIndex] == Upto(|l.params|)
      && BoundIndices(c.where) == Upto(|c.params|)
  {
    FilterBinds(q);
    PlaceholdersSound(FilterSteps(q));
    ListStatementSound(ReservationsTable, FilterSteps(q), DefaultIfUndefined(q.limit, Num(50)),
                       DefaultIfUndefined(q.offset, Num(0)));
    var l := ListSpec(q);
    assert l.params[..|l.params| - 2] == ParamsOf(FilterSteps(q));
  }

  // ===========================================================================
  // PUT /admin/reservations/:id

  /** The SET items of a reservation update. */
  datatype ReservationItem =
    | Status | ConfirmedBy | CancelledAtNow | ReservationDate | ReservationTime | MeetingType
    | AdminNotes | UpdatedAtNow

  /** The request body of a reservation update. */
  datatype ReservationPatch = ReservationPatch(status: Value, reservationDate: Value, reservationTime: Value,
                                               meetingType: Value, adminNotes: Value)

  /** The steps of the field-by-field `if` blocks: inside the `status` block,
      `'confirmed'` also binds `confirmed_by` to the acting admin and `'cancelled'`
      sets `cancelled_at` without a parameter. */
  function ReservationSteps(p: ReservationPatch, adminId: Value): seq<Step<ReservationItem>>
  {
    When(Truthy(p.status), [Push(Status, p.status)])
      + When(Truthy(p.status) && p.status == Str("confirmed"), [Push(ConfirmedBy, adminId)])
      + When(Truthy(p.status) && p.status == Str("cancelled"), [Literal(CancelledAtNow)])
      + When(Truthy(p.reservationDate), [Push(ReservationDate, p.reservationDate)])
      + When(Truthy(p.reservationTime), [Push(ReservationTime, p.reservationTime)])
      + When(Truthy(p.meetingType), [Push(MeetingType, p.meetingType)])
      + When(Defined(p.adminNotes), [Push(AdminNotes, p.adminNotes)])
  }

  const NothingToUpdate := Failure(400, "Aucune mise à jour fournie")

  /** The UPDATE the handler issues, or the 400 it returns before any query. */
  function ReservationUpdateSpec(p: ReservationPatch, id: Value, adminId: Value)
    : Result<UpdateQuery<ReservationItem>, Failure>
  {
    var steps := ReservationSteps(p, adminId);
    if steps == [] then Err(NothingToUpdate)
    else Ok(UpdateStatement(ReservationsTable, steps + [Literal(UpdatedAtNow)], id))
  }

  /** The steps after each block, one after the other, amount to the update's steps. */
  lemma ReservationStepsChain(p: ReservationPatch, adminId: Value,
      s1: seq<Step<ReservationItem>>, s2: seq<Step<ReservationItem>>, s3: seq<Step<ReservationItem>>, s4: seq<Step<ReservationItem>>, s5: seq<Step<ReservationItem>>, s6: seq<Step<ReservationItem>>, s7: seq<Step<ReservationItem>>)
    requires s1 == When(Truthy(p.status), [Push(Status, p.status)])
    requires s2 == s1 + When(Truthy(p.status) && p.status == Str("confirmed"), [Push(ConfirmedBy, adminId)])
    requires s3 == s2 + When(Truthy(p.status) && p.status == Str("cancelled"), [Literal(CancelledAtNow)])
    requires s4 == s3 + When(Truthy(p.reservationDate), [Push(ReservationDate, p.reservationDate)])
    requires s5 == s4 + When(Truthy(p.reservationTime), [Push(ReservationTime, p.reservationTime)])
    requires s6 == s5 + When(Truthy(p.meetingType), [Push(MeetingType, p.meetingType)])
    requires s7 == s6 + When(Defined(p.adminNotes), [Push(AdminNotes, p.adminNotes)])
    ensures s7 == ReservationSteps(p, adminId)
  {
  }

  /** Runs the field-by-field blocks of the reservation update on a new builder. */
  method PushReservationFields(p: ReservationPatch, adminId: Value) returns (b: Builder<ReservationItem>)
    ensures fresh(b) && b.Valid() && b.steps == ReservationSteps(p, adminId)
  {
    b := new Builder<ReservationItem>();
    b.PushWhen(Truthy(p.status), Status, p.status);
    ghost var s1 := b.steps;
    b.PushWhen(Truthy(p.status) && p.status == Str("confirmed"), ConfirmedBy, adminId);
    ghost var s2 := b.steps;
    b.LiteralWhen(Truthy(p.status) && p.status == Str("cancelled"), CancelledAtNow);
    ghost var s3 := b.steps;
    b.PushWhen(Truthy(p.reservationDate), ReservationDate, p.reservationDate);
    ghost var s4 := b.steps;
    b.PushWhen(Truthy(p.reservationTime), ReservationTime, p.reservationTime);
    ghost var s5 := b.steps;
    b.PushWhen(Truthy(p.meetingType), MeetingType, p.meetingType);
    ghost var s6 := b.steps;
    b.PushWhen(Defined(p.adminNotes), AdminNotes, p.adminNotes);
    ghost var s7 := b.steps;
    ReservationStepsChain(p, adminId, s1, s2, s3, s4, s5, s6, s7);
  }

  /** Builds the reservation UPDATE as the handler does. */
  method BuildReservationUpdate(p: ReservationPatch, id: Value, adminId: Value)
    returns (r: Result<UpdateQuery<ReservationItem>, Failure>)
    ensures r == ReservationUpdateSpec(p, id, adminId)
  {
    var b := PushReservationFields(p, adminId);
    if |b.fragments| == 0 {
      return Err(NothingToUpdate);
    }
    b.Literal(UpdatedAtNow);
    r := Ok(b.UpdateOf(ReservationsTable, id));
  }

  /** The parameters of a reservation update before the id. */
  function ReservationParameters(p: ReservationPatch, adminId: Value): seq<Value>
  {
    IfPresent(Truthy(p.status), p.status)
      + IfPresent(Truthy(p.status) && p.status == Str("confirmed"), adminId)
      + IfPresent(Truthy(p.reservationDate), p.reservationDate)
      + IfPresent(Truthy(p.reservationTime), p.reservationTime)
      + IfPresent(Truthy(p.meetingType), p.meetingType)
      + IfPresent(Defined(p.adminNotes), p.adminNotes)
  }

  /** The update blocks bind the reservation parameters. */
  lemma ReservationBinds(p: ReservationPatch, adminId: Value)
    ensures ParamsOf(ReservationSteps(p, adminId)) == ReservationParameters(p, adminId)
  {
    var w1 := When(Truthy(p.status), [Push(Status, p.status)]);
    var w2 := When(Truthy(p.status) && p.status == Str("confirmed"), [Push(ConfirmedBy, adminId)]);
    var w3 := When(Truthy(p.status) && p.status == Str("cancelled"), [Literal(CancelledAtNow)]);
    var w4 := When(Truthy(p.reservationDate), [Push(ReservationDate, p.reservationDate)]);
    var w5 := When(Truthy(p.reservationTime), [Push(ReservationTime, p.reservationTime)]);
    var w6 := When(Truthy(p.meetingType), [Push(MeetingType, p.meetingType)]);
    var w7 := When(Defined(p.adminNotes), [Push(AdminNotes, p.adminNotes)]);
    OnePush(Truthy(p.status), Status, p.status);
    ParamsOfPushWhen(w1, Truthy(p.status) && p.status == Str("confirmed"), ConfirmedBy, adminId);
    ParamsOfLiteralWhen(w1 + w2, Truthy(p.status) && p.status == Str("cancelled"), CancelledAtNow);
    ParamsOfPushWhen(w1 + w2 + w3, Truthy(p.reservationDate), ReservationDate, p.reservationDate);
    ParamsOfPushWhen(w1 + w2 + w3 + w4, Truthy(p.reservationTime), ReservationTime, p.reservationTime);
    ParamsOfPushWhen(w1 + w2 + w3 + w4 + w5, Truthy(p.meetingType), MeetingType, p.meetingType);
    ParamsOfPushWhen(w1 + w2 + w3 + w4 + w5 + w6, Defined(p.adminNotes), AdminNotes, p.adminNotes);
  }

  predicate ReservationHasField(p: ReservationPatch)
  {
    Truthy(p.status) || Truthy(p.reservationDate) || Truthy(p.reservationTime) || Truthy(p.meetingType)
    || Defined(p.adminNotes)
  }

  /** An update with no field answers 400 before any query; otherwise the id is the
      last parameter, named by the WHERE clause, and the placeholders are `$1 .. $n`
      in push order. */
  lemma ReservationUpdateNumbering(p: ReservationPatch, id: Value, adminId: Value)
    ensures ReservationUpdateSpec(p, id, adminId) == Err(NothingToUpdate) <==> !ReservationHasField(p)
    ensures ReservationHasField(p) ==>
      var q := ReservationUpdateSpec(p, id, adminId).value;
      && q.table == ReservationsTable
      && q.params == ReservationParameters(p, adminId) + [id]
      && q.whereIndex == |q.params| && q.params[|q.params| - 1] == id
      && BoundIndices(q.items) + [q.whereIndex] == Upto(|q.params|)
  {
    var steps := ReservationSteps(p, adminId);
    ReservationBinds(p, adminId);
    assert steps + [Literal(UpdatedAtNow)] == steps + When(true, [Literal(UpdatedAtNow)]);
    ParamsOfLiteralWhen(steps, true, UpdatedAtNow);
    UpdateStatementSound(ReservationsTable, steps + [Literal(UpdatedAtNow)], id);
  }

  /** Status `'confirmed'` binds two parameters first, the status and then the acting
      admin for `confirmed_by`. */
  lemma ConfirmedBindsTwo(p: ReservationPatch, adminId: Value)
    requires p.status == Str("confirmed")
    ensures ReservationParameters(p, adminId)[..2] == [p.status, adminId]
  {
  }

  /** `confirmed_by` is set, to the acting admin, exactly for status `'confirmed'`. */
  lemma ConfirmedByRule(p: ReservationPatch, adminId: Value)
    ensures Push(ConfirmedBy, adminId) in ReservationSteps(p, adminId) <==> p.status == Str("confirmed")
  {
  }

  /** Status `'cancelled'` binds the status alone: one parameter, as any status other
      than `'confirmed'` does. */
  lemma CancelledBindsOne(p: ReservationPatch, adminId: Value)
    requires Truthy(p.status) && p.status != Str("confirmed")
    ensures ReservationParameters(p, adminId) == [p.status] + ReservationParameters(p.(status := Undefined), adminId)
  {
    var c := IfPresent(Truthy(p.reservationDate), p.reservationDate);
    var d := IfPresent(Truthy(p.reservationTime), p.reservationTime);
    var e := IfPresent(Truthy(p.meetingType), p.meetingType);
    var f := IfPresent(Defined(p.adminNotes), p.adminNotes);
    assert ReservationParameters(p, adminId) == [p.status] + [] + c + d + e + f;
    assert ReservationParameters(p.(status := Undefined), adminId) == [] + [] + c + d + e + f;
    assert [p.status] + [] + c + d + e + f == [p.status] + ([] + [] + c + d + e + f);
  }

  /** `cancelled_at` is set exactly for status `'cancelled'`. */
  lemma CancelledAt(p: ReservationPatch, adminId: Value)
    ensures Literal(CancelledAtNow) in ReservationSteps(p, adminId) <==> p.status == Str("cancelled")
  {
  }

  /** The columns of the updated row the notification reads. `date` stands for the
      row's date as `toLocaleDateString('fr-FR')` prints it. */
  datatype ReservationRow = ReservationRow(userId: Value, date: string, time: Value)

  /** The `switch (status)` of the handler: a title and a message for the three
      statuses it names, nothing for any other. */
  function StatusNotification(status: Value, row: ReservationRow): Option<(string, string)>
  {
    if status == Str("confirmed") then
      Some(("Rendez-vous confirmé",
            "Votre rendez-vous du " + row.date + " à " + ToText(row.time) + " est confirmé."))
    else if status == Str("cancelled") then
      Some(("Rendez-vous annulé", "Votre rendez-vous du " + row.date + " a été annulé."))
    else if status == Str("completed") then
      Some(("Rendez-vous terminé", "Merci pour votre rendez-vous. Nous vous contacterons bientôt."))
    else None
  }

  /** What the handler does once the UPDATE has run: `updated` is the row it returned,
      if any. */
  function AfterUpdate(p: ReservationPatch, id: Value, adminId: Value, updated: Option<ReservationRow>): Outcome
  {
    if updated.None? then Reject(ReservationNotFound)
    else
      var notify := if Truthy(p.status) then StatusNotification(p.status, updated.value) else None;
      var log := Insert(ActivityLogTable, [adminId, id, Str("Mise à jour: " + ToText(Or(p.status, Str("modification"))))]);
      if notify.Some? then
        Outcome([Insert(NotificationsTable, [updated.value.userId, Str(notify.value.0), Str(notify.value.1), id]), log],
                Succeeded)
      else Outcome([log], Succeeded)
  }

  /** A notification is written to the reservation's owner only for the statuses
      confirmed, cancelled and completed, any other status (`pending`, say) writes
      none; the activity log entry is always written, last; a missing row answers 404
      without writes. */
  lemma NotificationRules(p: ReservationPatch, id: Value, adminId: Value, updated: Option<ReservationRow>)
    ensures var o := AfterUpdate(p, id, adminId, updated);
      && (updated.None? <==> o.reply == Failed(ReservationNotFound))
      && (updated.None? ==> o.writes == [])
      && (updated.Some? ==>
            && o.reply == Succeeded
            && o.writes[|o.writes| - 1].table == ActivityLogTable
            && (|o.writes| == 2 <==> p.status in {Str("confirmed"), Str("cancelled"), Str("completed")})
            && (|o.writes| == 2 ==> o.writes[0].table == NotificationsTable
                                    && o.writes[0].values[0] == updated.value.userId))
  {
  }

  /** With no status the activity log says `Mise à jour: modification`. */
  lemma LogWithoutStatus(p: ReservationPatch, id: Value, adminId: Value, row: ReservationRow)
    requires !Truthy(p.status)
    ensures AfterUpdate(p, id, adminId, Some(row)).writes
              == [Insert(ActivityLogTable, [adminId, id, Str("Mise à jour: modification")])]
  {
    assert "Mise à jour: " + "modification" == "Mise à jour: modification";
  }

  // ===========================================================================
  // POST /admin/reservations

  /** The request body of a new reservation. */
  datatype ReservationDraft = ReservationDraft(userId: Value, date: Value, time: Value, duration: Value,
                                               meetingType: Value, projectType: Value, estimatedBudget: Value,
                                               message: Value, adminNotes: Value)

  const MissingData := Failure(400, "Données manquantes")

  /** The INSERT of a new reservation (its status is the SQL literal `'confirmed'` and
      `confirmed_by` the acting admin), the owner's notification and the activity log.
      `dateText` is the date as `toLocaleDateString('fr-FR')` prints it and `newId`
      the id the database gives the row. */
  function CreateReservation(d: ReservationDraft, adminId: Value, dateText: string, newId: Value): Outcome
  {
    if !Truthy(d.userId) || !Truthy(d.date) || !Truthy(d.time) then Reject(MissingData)
    else
      Outcome([InsertWithStatus(ReservationsTable, "confirmed",
                                [d.userId, d.date, d.time, Or(d.duration, Num(60)), Or(d.meetingType, Str("visio")),
                                 d.projectType, d.estimatedBudget, d.message, d.adminNotes, adminId]),
               Insert(NotificationsTable, [d.userId, Str("Un rendez-vous a été programmé pour le " + dateText
                                                        + " à " + ToText(d.time)), newId]),
               Insert(ActivityLogTable, [adminId, newId])],
              Succeeded)
  }

  /** Creation needs a truthy user, date and time, and is refused with 400 before any
      write otherwise; the reservation is inserted already `confirmed`, with the
      duration defaulting to 60 and the meeting type to `visio` and the creating admin
      recorded as `confirmed_by`; the owner is notified and the creation logged. */
  lemma CreateReservationRules(d: ReservationDraft, adminId: Value, dateText: string, newId: Value)
    ensures var o := CreateReservation(d, adminId, dateText, newId);
      && (o.reply == Failed(MissingData) <==> !Truthy(d.userId) || !Truthy(d.date) || !Truthy(d.time))
      && (o.reply.Failed? ==> o.writes == [])
      && (o.reply == Succeeded ==>
            && |o.writes| == 3 && o.writes[0].InsertWithStatus? && o.writes[0].table == ReservationsTable
            && o.writes[0].status == "confirmed"
            && |o.writes[0].values| == 10
            && o.writes[0].values[..3] == [d.userId, d.date, d.time]
            && o.writes[0].values[9] == adminId
            && o.writes[0].values[5] == d.projectType && o.writes[0].values[6] == d.estimatedBudget
            && o.writes[0].values[7] == d.message && o.writes[0].values[8] == d.adminNotes
            && (Truthy(d.duration) ==> o.writes[0].values[3] == d.duration)
            && (!Truthy(d.duration) ==> o.writes[0].values[3] == Num(60))
            && (Truthy(d.meetingType) ==> o.writes[0].values[4] == d.meetingType)
            && (!Truthy(d.meetingType) ==> o.writes[0].values[4] == Str("visio"))
            && o.writes[1] == Insert(NotificationsTable, [d.userId, Str("Un rendez-vous a été programmé pour le "
                                                                        + dateText + " à " + ToText(d.time)), newId])
            && o.writes[2] == Insert(ActivityLogTable, [adminId, newId]))
  {
  }

  // ===========================================================================
  // DELETE /admin/reservations/:id

  /** `found` is whether the existence check found the row. */
  function DeleteReservation(id: Value, adminId: Value, found: bool): Outcome
  {
    if !found then Reject(ReservationNotFound)
    else Outcome([Delete(ReservationsTable, id), Insert(ActivityLogTable, [adminId, id])], Succeeded)
  }

  /** A missing reservation answers 404 and nothing is written; an existing one is
      deleted, then the deletion is logged under the acting admin. */
  lemma DeleteRules(id: Value, adminId: Value, found: bool)
    ensures DeleteReservation(id, adminId, found).reply == Failed(ReservationNotFound) <==> !found
    ensures Delete(ReservationsTable, id) in DeleteReservation(id, adminId, found).writes <==> found
    ensures !found ==> DeleteReservation(id, adminId, found).writes == []
    ensures found ==> DeleteReservation(id, adminId, found).writes
                        == [Delete(ReservationsTable, id), Insert(ActivityLogTable, [adminId, id])]
    ensures found ==> DeleteReservation(id, adminId, found).reply == Succeeded
  {
  }
}
