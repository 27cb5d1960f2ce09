/** The admin contact-message routes (routes/admin/contacts.js): the filtered list and
    its count, the UPDATE builder with its `read_at` rule, the reply and the
    archive-or-delete choice. */
module AdminContacts {
  import opened Wrappers
  import opened Js
  import opened Text
  import opened QueryBuilder
  import opened Http

  const MessagesTable := "contact_messages"
  const RepliesTable := "contact_message_replies"
  const NotificationsTable := "user_notifications"
  const ActivityLogTable := "admin_activity_logs"
  const MessageNotFound := Failure(404, "Message non trouvé")

  // ===========================================================================
  // GET /admin/contact

  /** The list filters: `cm.status = $k`, `cm.priority = $k`, and the search, whose
      four `ILIKE $k` share one placeholder. */
  datatype ListItem = StatusIs | PriorityIs | SearchMatches

  /** The query string of the list. */
  datatype ListRequest = ListRequest(status: Value, priority: Value, search: Value, limit: Value, offset: Value)

  /** The filter steps, one `if` per filter. */
  function ListSteps(q: ListRequest): seq<Step<ListItem>>
  {
    When(Truthy(q.status), [Push(StatusIs, q.status)])
      + When(Truthy(q.priority), [Push(PriorityIs, q.priority)])
      + When(Truthy(q.search), [Push(SearchMatches, SearchPattern(q.search))])
  }

  /** The list query, with `limit = 50` and `offset = 0` as destructuring defaults. */
  function ListSpec(q: ListRequest): ListQuery<ListItem>
  {
    ListStatement(MessagesTable, ListSteps(q), DefaultIfUndefined(q.limit, Num(50)),
                  DefaultIfUndefined(q.offset, Num(0)))
  }

  /** The count query: `AND status = $1` with `[status]` when the status is truthy,
      no clause and no parameter otherwise. */
  function CountSpec(q: ListRequest): CountQuery<ListItem>
  {
    if Truthy(q.status) then CountQuery(MessagesTable, [Bound(StatusIs, 1)], [q.status])
    else CountQuery(MessagesTable, [], [])
  }

  /** Builds the list query as the handler does, and the count query beside it. */
  method BuildList(q: ListRequest) returns (list: ListQuery<ListItem>, count: CountQuery<ListItem>)
    ensures list == ListSpec(q) && count == CountSpec(q)
  {
    var b := new Builder<ListItem>();
    b.PushWhen(Truthy(q.status), StatusIs, q.status);
    b.PushWhen(Truthy(q.priority), PriorityIs, q.priority);
    b.PushWhen(Truthy(q.search), SearchMatches, SearchPattern(q.search));
    assert b.steps == ListSteps(q);
    list := b.ListOf(MessagesTable, DefaultIfUndefined(q.limit, Num(50)), DefaultIfUndefined(q.offset, Num(0)));
    count := CountSpec(q);
  }

  /** The parameters of the filters: each present filter's value, in push order. */
  function FilterParameters(q: ListRequest): seq<Value>
  {
    IfPresent(Truthy(q.status), q.status)
      + IfPresent(Truthy(q.priority), q.priority)
      + IfPresent(Truthy(q.search), SearchPattern(q.search))
  }

  /** The list binds the present filters' values in push order, then the limit and the
      offset; the filters' placeholders are `$1 .. $n`, the limit `$(n+1)` and the
      offset `$(n+2)`. */
  lemma ListNumbering(q: ListRequest)
    ensures var l := ListSpec(q);
      && l.params == FilterParameters(q) + [DefaultIfUndefined(q.limit, Num(50)), DefaultIfUndefined(q.offset, Num(0))]
      && l.limitIndex == |l.params| - 1 && l.offsetIndex == |l.params|
      && BoundIndices(l.where) + [l.limitIndex, l.offsetIndex] == Upto(|l.params|)
      && |l.where| == |ListSteps(q)|
      && forall k :: 0 <= k < |ListSteps(q)| ==> Renders(l.where[k], ListSteps(q)[k], l.params)
  {
    var w1 := When(Truthy(q.status), [Push(StatusIs, q.status)]);
    var w2 := When(Truthy(q.priority), [Push(PriorityIs, q.priority)]);
    var w3 := When(Truthy(q.search), [Push(SearchMatches, SearchPattern(q.search))]);
    assert ListSteps(q) == w1 + w2 + w3;
    OnePush(Truthy(q.status), StatusIs, q.status);
    ParamsOfPushWhen(w1, Truthy(q.priority), PriorityIs, q.priority);
    ParamsOfPushWhen(w1 + w2, Truthy(q.search), SearchMatches, SearchPattern(q.search));
    ListStatementSound(MessagesTable, ListSteps(q), DefaultIfUndefined(q.limit, Num(50)),
                       DefaultIfUndefined(q.offset, Num(0)));
  }

  /** The count filters by status alone: it is the count the status filter of the list
      would give, and priority and search leave it unchanged. */
  lemma CountFiltersStatusOnly(q: ListRequest, priority: Value, search: Value)
    ensures CountSpec(q) == CountStatement(MessagesTable, When(Truthy(q.status), [Push(StatusIs, q.status)]))
    ensures CountSpec(q) == CountSpec(q.(priority := priority, search := search))
  {
    if Truthy(q.status) {
      var one := [Step<ListItem>.Push(StatusIs, q.status)];
      assert one[..0] == [];
      assert FragmentsOf(one) == [Bound(StatusIs, 1)];
      assert ParamsOf(one) == [q.status];
    }
  }

  /** With a priority or a search, the count has fewer clauses than the list: `total`
      may then count messages the list leaves out. */
  lemma CountIgnoresListFilters(q: ListRequest)
    requires Truthy(q.priority) || Truthy(q.search)
    ensures |CountSpec(q).where| < |ListSpec(q).where|
    ensures CountSpec(q).params == FilterParameters(q)[..|CountSpec(q).params|]
    ensures |CountSpec(q).params| < |FilterParameters(q)|
  {
    ListNumbering(q);
  }

  // ===========================================================================
  // PUT /admin/contact/:id

  /** The SET items of a message update; `read_at = CURRENT_TIMESTAMP` takes no
      parameter. */
  datatype ContactItem = Status | Priority | AssignedTo | ReadAtNow

  /** The request body of a message update. */
  datatype ContactPatch = ContactPatch(status: Value, priority: Value, assignedTo: Value)

  /** Whether the new status marks the message as read. */
  predicate MarksRead(status: Value)
  {
    status == Str("read") || status == Str("replied")
  }

  /** The steps of the field-by-field `if` blocks: `assigned_to` is bound to `null`
      when falsy, and `read_at` comes last. */
  function ContactSteps(p: ContactPatch): seq<Step<ContactItem>>
  {
    When(Truthy(p.status), [Push(Status, p.status)])
      + When(Truthy(p.priority), [Push(Priority, p.priority)])
      + When(Defined(p.assignedTo), [Push(AssignedTo, Or(p.assignedTo, Null))])
      + When(MarksRead(p.status), [Literal(ReadAtNow)])
  }

  const NothingToUpdate := Failure(400, "Aucune mise à jour fournie")

  /** The UPDATE the handler issues, or the 400 it returns before any query. No
      `updated_at` is added. */
  function ContactUpdateSpec(p: ContactPatch, id: Value): Result<UpdateQuery<ContactItem>, Failure>
  {
    var steps := ContactSteps(p);
    if steps == [] then Err(NothingToUpdate) else Ok(UpdateStatement(MessagesTable, steps, id))
  }

  /** Builds the message UPDATE as the handler does. */
  method BuildContactUpdate(p: ContactPatch, id: Value) returns (r: Result<UpdateQuery<ContactItem>, Failure>)
    ensures r == ContactUpdateSpec(p, id)
  {
    var b := new Builder<ContactItem>();
    b.PushWhen(Truthy(p.status), Status, p.status);
    b.PushWhen(Truthy(p.priority), Priority, p.priority);
    b.PushWhen(Defined(p.assignedTo), AssignedTo, Or(p.assignedTo, Null));
    b.LiteralWhen(MarksRead(p.status), ReadAtNow);
    assert b.steps == ContactSteps(p);
    if |b.fragments| == 0 {
      return Err(NothingToUpdate);
    }
    r := Ok(b.UpdateOf(MessagesTable, id));
  }

  /** The parameters of a message update before the id. */
  function ContactParameters(p: ContactPatch): seq<Value>
  {
    IfPresent(Truthy(p.status), p.status)
      + IfPresent(Truthy(p.priority), p.priority)
      + IfPresent(Defined(p.assignedTo), Or(p.assignedTo, Null))
  }

  /** The update blocks bind the message parameters; `read_at` binds none. */
  lemma ContactBinds(p: ContactPatch)
    ensures ParamsOf(ContactSteps(p)) == ContactParameters(p)
  {
    var w1 := When(Truthy(p.status), [Push(Status, p.status)]);
    var w2 := When(Truthy(p.priority), [Push(Priority, p.priority)]);
    var w3 := When(Defined(p.assignedTo), [Push(AssignedTo, Or(p.assignedTo, Null))]);
    var w4 := When(MarksRead(p.status), [Literal(ReadAtNow)]);
    assert ContactSteps(p) == w1 + w2 + w3 + w4;
    OnePush(Truthy(p.status), Status, p.status);
    ParamsOfPushWhen(w1, Truthy(p.priority), Priority, p.priority);
    ParamsOfPushWhen(w1 + w2, Defined(p.assignedTo), AssignedTo, Or(p.assignedTo, Null));
    ParamsOfLiteralWhen(w1 + w2 + w3, MarksRead(p.status), ReadAtNow);
  }

  predicate ContactHasField(p: ContactPatch)
  {
    Truthy(p.status) || Truthy(p.priority) || Defined(p.assignedTo)
  }

  /** An update with none of status, priority and assignee answers 400 before any
      query; otherwise the id is the last parameter, at `$paramCount`, and the
      placeholders are `$1 .. $n` in push order. `read_at` adds no parameter. */
  lemma ContactUpdateNumbering(p: ContactPatch, id: Value)
    ensures ContactUpdateSpec(p, id) == Err(NothingToUpdate) <==> !ContactHasField(p)
    ensures ContactHasField(p) ==>
      var q := ContactUpdateSpec(p, id).value;
      && q.table == MessagesTable
      && q.params == ContactParameters(p) + [id]
      && q.whereIndex == |q.params| && q.params[|q.params| - 1] == id
      && BoundIndices(q.items) + [q.whereIndex] == Upto(|q.params|)
  {
    ContactBinds(p);
    UpdateStatementSound(MessagesTable, ContactSteps(p), id);
  }

  /** `read_at` is set exactly when the status is `'read'` or `'replied'`. */
  lemma ReadAtRule(p: ContactPatch)
    ensures Literal(ReadAtNow) in ContactSteps(p) <==> MarksRead(p.status)
  {
  }

  /** A given but falsy assignee (`''`, `0`, `null`) is stored as `null`. */
  lemma FalsyAssigneeIsNull(p: ContactPatch)
    requires Defined(p.assignedTo) && !Truthy(p.assignedTo)
    ensures Push(AssignedTo, Null) in ContactSteps(p)
    ensures ContactParameters(p)[|ContactParameters(p)| - 1] == Null
  {
  }

  /** The activity-log description of an update. */
  function UpdateLogText(status: Value): string
  {
    "Mise à jour du statut: " + ToText(Or(status, Str("N/A")))
  }

  /** What the handler does once the UPDATE has run: `found` is whether it returned a
      row, and `logFails` whether the activity-log INSERT throws (its `catch` only
      warns). */
  function AfterContactUpdate(p: ContactPatch, id: Value, adminId: Value, found: bool, logFails: bool): Outcome
  {
    if !found then Reject(MessageNotFound)
    else if logFails then Outcome([], Succeeded)
    else Outcome([Insert(ActivityLogTable, [adminId, id, Str(UpdateLogText(p.status))])], Succeeded)
  }

  /** A missing message answers 404; otherwise the reply is a success whether or not
      the activity-log INSERT fails, and only the log entry depends on it. */
  lemma UpdateLogFailureIgnored(p: ContactPatch, id: Value, adminId: Value, found: bool, logFails: bool)
    ensures AfterContactUpdate(p, id, adminId, found, logFails).reply == (if found then Succeeded else Failed(MessageNotFound))
    ensures !found ==> AfterContactUpdate(p, id, adminId, found, logFails).writes == []
    ensures found && !logFails ==>
      AfterContactUpdate(p, id, adminId, found, logFails).writes
        == [Insert(ActivityLogTable, [adminId, id, Str(UpdateLogText(p.status))])]
  {
  }

  /** With no status the log says `Mise à jour du statut: N/A`. */
  lemma UpdateLogWithoutStatus(status: Value)
    requires !Truthy(status)
    ensures UpdateLogText(status) == "Mise à jour du statut: N/A"
  {
    assert "Mise à jour du statut: " + "N/A" == "Mise à jour du statut: N/A";
  }

  // ===========================================================================
  // POST /admin/contact/:id/reply

  const ReplyRequired := Failure(400, "La réponse ne peut pas être vide")

  /** The columns of the message the reply handler reads. */
  datatype MessageRow = MessageRow(name: Value, email: Value, subject: Value)

  /** The reply handler. `message` is what the message lookup returns, `account` the
      id of the user whose email is the sender's, if any, and `notifyFails` and
      `logFails` whether the notification and the activity-log INSERTs throw (both are
      caught). The reply email is not part of the outcome: the handler calls
      `sendContactReply` without importing it, and the `catch` around the call swallows
      the error, so no email leaves this handler. */
  function ReplyToMessage(id: Value, adminId: Value, replyText: Value, message: Option<MessageRow>,
                          account: Option<Value>, notifyFails: bool, logFails: bool): Outcome
  {
    if !Truthy(replyText) then Reject(ReplyRequired)
    else if !replyText.Str? then Reject(ServerError)
    else if Trim(replyText.s) == "" then Reject(ReplyRequired)
    else if message.None? then Reject(MessageNotFound)
    else
      var notify :=
        if account.Some? && !notifyFails then
          [Insert(NotificationsTable, [account.value, Str("Réponse à votre message"),
                                       Str("Nous avons répondu à votre message \"" + ToText(message.value.subject)
                                           + "\". Consultez votre espace client."), id])]
        else [];
      var log := if logFails then [] else [Insert(ActivityLogTable, [adminId, id])];
      Outcome([Insert(RepliesTable, [id, adminId, replyText]), SetStatus(MessagesTable, "replied", [adminId, id])]
                + notify + log,
              Succeeded)
  }

  /** A reply that is missing, empty or white space only answers 400 before any
      write; a reply to a missing message answers 404; a stored reply sets the
      message's status to `'replied'` with the replying admin, and the answer is a
      success whatever becomes of the notification and the log. */
  lemma ReplyRules(id: Value, adminId: Value, replyText: Value, message: Option<MessageRow>,
                   account: Option<Value>, notifyFails: bool, logFails: bool)
    ensures var o := ReplyToMessage(id, adminId, replyText, message, account, notifyFails, logFails);
      && (o.reply == Failed(ReplyRequired) <==>
            replyText.Undefined? || replyText.Null? || replyText == Bool(false) || replyText == Num(0)
            || (replyText.Str? && forall i :: 0 <= i < |replyText.s| ==> IsSpace(replyText.s[i])))
      && (o.reply.Failed? ==> o.writes == [])
      && (o.reply == Succeeded <==> replyText.Str? && Trim(replyText.s) != "" && message.Some?)
      && (o.reply == Succeeded ==>
            && o.writes[0] == Insert(RepliesTable, [id, adminId, replyText])
            && o.writes[1] == SetStatus(MessagesTable, "replied", [adminId, id]))
  {
    if replyText.Str? {
      TrimEmptyIff(replyText.s);
    }
  }

  /** The notification goes to the sender's account when there is one and its INSERT
      succeeds; the activity log is written last unless its INSERT fails. */
  lemma ReplyNotification(id: Value, adminId: Value, replyText: Value, row: MessageRow,
                          account: Option<Value>, notifyFails: bool, logFails: bool)
    requires replyText.Str? && Trim(replyText.s) != ""
    ensures var o := ReplyToMessage(id, adminId, replyText, Some(row), account, notifyFails, logFails);
      && |o.writes| == 2 + (if account.Some? && !notifyFails then 1 else 0) + (if logFails then 0 else 1)
      && (account.Some? && !notifyFails ==> o.writes[2].table == NotificationsTable
                                            && o.writes[2].values[0] == account.value)
      && (!logFails ==> o.writes[|o.writes| - 1] == Insert(ActivityLogTable, [adminId, id]))
  {
  }

  // ===========================================================================
  // DELETE /admin/contact/:id

  /** The two ends of a deletion: the row is deleted (`DELETE FROM`) or archived
      (`SET status = 'archived'`), then the deletion is logged with its description. */
  function DeleteOutcome(id: Value, adminId: Value, permanent: bool, logFails: bool): Outcome
  {
    var write := if permanent then Delete(MessagesTable, id) else SetStatus(MessagesTable, "archived", [id]);
    var text := if permanent then "Suppression définitive" else "Archivé";
    Outcome([write] + (if logFails then [] else [Insert(ActivityLogTable, [adminId, id, Str(text)])]), Succeeded)
  }

  /** The handler as written: `const { permanent = false } = req.query; if (permanent)`.
      A query-string value is a string, so any given value other than `''`, the
      string `"false"` included, deletes the row. */
  function DeleteMessageAsWritten(id: Value, adminId: Value, permanent: Value, logFails: bool): Outcome
  {
    DeleteOutcome(id, adminId, Truthy(DefaultIfUndefined(permanent, Bool(false))), logFails)
  }

  /** As written, the handler archives exactly when `permanent` is absent or falsy, and
      deletes otherwise; `?permanent=false` deletes the row. */
  lemma DeleteAsWrittenRules(id: Value, adminId: Value, permanent: Value, logFails: bool)
    ensures (DeleteMessageAsWritten(id, adminId, permanent, logFails).writes[0] == Delete(MessagesTable, id))
              <==> Truthy(permanent)
    ensures DeleteMessageAsWritten(id, adminId, Str("false"), logFails).writes[0] == Delete(MessagesTable, id)
  {
  }

  /** The flag the handler evidently means: `?permanent=true` (or a boolean `true`). */
  predicate PermanentRequested(permanent: Value)
  {
    permanent == Str("true") || permanent == Bool(true)
  }

  /** The deletion with the evidently intended reading of `permanent`. */
  function DeleteMessage(id: Value, adminId: Value, permanent: Value, logFails: bool): Outcome
  {
    DeleteOutcome(id, adminId, PermanentRequested(permanent), logFails)
  }

  /** The corrected deletion removes the row only for `permanent=true`; an absent flag,
      `false` and `"false"` archive it (status `'archived'`); wherever the flag is
      absent or `"true"` it agrees with the handler as written; it always succeeds, and
      a failing log INSERT only drops the log entry. */
  lemma DeleteRules(id: Value, adminId: Value, permanent: Value, logFails: bool)
    ensures (DeleteMessage(id, adminId, permanent, logFails).writes[0] == Delete(MessagesTable, id))
              <==> PermanentRequested(permanent)
    ensures !PermanentRequested(permanent) ==>
              DeleteMessage(id, adminId, permanent, logFails).writes[0] == SetStatus(MessagesTable, "archived", [id])
    ensures DeleteMessage(id, adminId, Str("false"), logFails).writes[0] == SetStatus(MessagesTable, "archived", [id])
    ensures permanent == Undefined || permanent == Str("true") ==>
              DeleteMessage(id, adminId, permanent, logFails) == DeleteMessageAsWritten(id, adminId, permanent, logFails)
    ensures DeleteMessage(id, adminId, permanent, logFails).reply == Succeeded
    ensures |DeleteMessage(id, adminId, permanent, logFails).writes| == (if logFails then 1 else 2)
  {
  }
}
