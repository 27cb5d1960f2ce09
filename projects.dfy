/** The admin project routes (routes/admin/projects.js): the filtered list, the
    UPDATE builders for projects, tasks and milestones, and the guards and defaults
    of the create, comment, file and update-message handlers. */
module AdminProjects {
  import opened Wrappers
  import opened Js
  import opened Text
  import opened QueryBuilder
  import opened Http

  // ===========================================================================
  // GET /admin/projects

  /** The filters the list appends to `WHERE 1=1`. */
  datatype ListItem = StatusIs | UserIs | AssigneeIs | SearchMatches

  /** The SQL of each filter; every `$` is the filter's own placeholder number, so
      the search filter names its single parameter four times. */
  function ListSql(c: ListItem): string
  {
    match c
    case StatusIs => " AND p.status = $"
    case UserIs => " AND p.user_id = $"
    case AssigneeIs => " AND p.assigned_to = $"
    case SearchMatches =>
      " AND (p.title ILIKE $ OR p.description ILIKE $ OR u.firstname ILIKE $ OR u.lastname ILIKE $)"
  }

  /** The query string of the list. */
  datatype ListRequest = ListRequest(status: Value, userId: Value, assignedTo: Value, search: Value,
                                     limit: Value, offset: Value)

  /** The filter steps of the list, one `if` per filter. */
  function ListSteps(q: ListRequest): seq<Step<ListItem>>
  {
    When(Truthy(q.status), [Push(StatusIs, q.status)])
      + When(Truthy(q.userId), [Push(UserIs, q.userId)])
      + When(Truthy(q.assignedTo), [Push(AssigneeIs, q.assignedTo)])
      + When(Truthy(q.search), [Push(SearchMatches, SearchPattern(q.search))])
  }

  const ProjectsTable := "client_projects"

  /** The list query, with `limit = 50` and `offset = 0` as destructuring defaults. */
  function ListSpec(q: ListRequest): ListQuery<ListItem>
  {
    ListStatement(ProjectsTable, ListSteps(q), DefaultIfUndefined(q.limit, Num(50)),
                  DefaultIfUndefined(q.offset, Num(0)))
  }

  /** Builds the list query and the count query as the handler does. The count query
      has no filter and no parameter: `total` counts every project. */
  method BuildList(q: ListRequest) returns (list: ListQuery<ListItem>, count: CountQuery<ListItem>)
    ensures list == ListSpec(q)
    ensures count == CountQuery(ProjectsTable, [], [])
  {
    var b := new Builder<ListItem>();
    b.PushWhen(Truthy(q.status), StatusIs, q.status);
    b.PushWhen(Truthy(q.userId), UserIs, q.userId);
    b.PushWhen(Truthy(q.assignedTo), AssigneeIs, q.assignedTo);
    b.PushWhen(Truthy(q.search), SearchMatches, SearchPattern(q.search));
    assert b.steps == ListSteps(q);
    list := b.ListOf(ProjectsTable, DefaultIfUndefined(q.limit, Num(50)), DefaultIfUndefined(q.offset, Num(0)));
    count := CountQuery(ProjectsTable, [], []);
  }

  function Present(b: bool): nat
  {
    if b then 1 else 0
  }

  /** The parameter list of the query: the value of each present filter, in push order
      (the search filter the single pattern `%search%`), then the limit and the offset. */
  function ListParameters(q: ListRequest): seq<Value>
  {
    (if Truthy(q.status) then [q.status] else [])
      + (if Truthy(q.userId) then [q.userId] else [])
      + (if Truthy(q.assignedTo) then [q.assignedTo] else [])
      + (if Truthy(q.search) then [SearchPattern(q.search)] else [])
      + [DefaultIfUndefined(q.limit, Num(50)), DefaultIfUndefined(q.offset, Num(0))]
  }

  /** Each present filter contributes exactly one parameter, its value, and no absent
      filter contributes one: with `n` present filters there are `n + 2` parameters. */
  lemma ListParameterCount(q: ListRequest)
    ensures |ListParameters(q)| == Present(Truthy(q.status)) + Present(Truthy(q.userId))
                                   + Present(Truthy(q.assignedTo)) + Present(Truthy(q.search)) + 2
  {
  }

  /** The query binds exactly `ListParameters(q)`; the placeholders of the filters are
      `$1 .. $n` in push order, the limit is `$(n+1)` and the offset `$(n+2)`. */
  lemma ListNumbering(q: ListRequest)
    ensures var l := ListSpec(q);
      && l.params == ListParameters(q)
      && l.limitIndex == |l.params| - 1 && l.offsetIndex == |l.params|
      && BoundIndices(l.where) + [l.limitIndex, l.offsetIndex] == Upto(|l.params|)
  {
    var a := When(Truthy(q.status), [Push(StatusIs, q.status)]);
    var b := a + When(Truthy(q.userId), [Push(UserIs, q.userId)]);
    var c := b + When(Truthy(q.assignedTo), [Push(AssigneeIs, q.assignedTo)]);
    OnePush(Truthy(q.status), StatusIs, q.status);
    ParamsOfPushWhen(a, Truthy(q.userId), UserIs, q.userId);
    ParamsOfPushWhen(b, Truthy(q.assignedTo), AssigneeIs, q.assignedTo);
    ParamsOfPushWhen(c, Truthy(q.search), SearchMatches, SearchPattern(q.search));
    ListStatementSound(ProjectsTable, ListSteps(q), DefaultIfUndefined(q.limit, Num(50)),
                       DefaultIfUndefined(q.offset, Num(0)));
  }

  /** A filter's clause is in the query exactly when the filter is truthy, and its
      placeholder then names the filter's value (for the search, `%search%`). */
  lemma ListFilters(q: ListRequest)
    ensures forall v :: Push(StatusIs, v) in ListSteps(q) <==> Truthy(q.status) && v == q.status
    ensures forall v :: Push(UserIs, v) in ListSteps(q) <==> Truthy(q.userId) && v == q.userId
    ensures forall v :: Push(AssigneeIs, v) in ListSteps(q) <==> Truthy(q.assignedTo) && v == q.assignedTo
    ensures forall v :: Push(SearchMatches, v) in ListSteps(q) <==>
                          Truthy(q.search) && v == SearchPattern(q.search)
  {
  }

  /** Every clause of the query renders its filter: a clause for the filter, numbered
      with the placeholder whose parameter is the filter's value. */
  lemma ListClauses(q: ListRequest)
    ensures |ListSpec(q).where| == |ListSteps(q)|
    ensures forall k :: 0 <= k < |ListSteps(q)| ==>
                          Renders(ListSpec(q).where[k], ListSteps(q)[k], ListSpec(q).params)
  {
    ListStatementSound(ProjectsTable, ListSteps(q), DefaultIfUndefined(q.limit, Num(50)),
                       DefaultIfUndefined(q.offset, Num(0)));
  }

  /** The search filter raises the parameter count by one, although its SQL holds
      four placeholders. */
  lemma SearchAddsOneParameter(q: ListRequest)
    requires Truthy(q.search)
    ensures |ListSpec(q).params| == |ListSpec(q.(search := Undefined)).params| + 1
  {
    ListNumbering(q);
    ListNumbering(q.(search := Undefined));
  }

  // ===========================================================================
  // PUT /admin/projects/:id

  /** The SET items of a project update. */
  datatype ProjectItem =
    | Title | Description | Status | CompletedAtNow | Progress | Priority | AssignedTo
    | StartDate | EstimatedDelivery | Notes | TotalPrice | DepositPaid | DepositAmount
    | FinalPaid | StagingUrl | ProductionUrl | UpdatedAtNow

  /** The request body of a project update. */
  datatype ProjectPatch = ProjectPatch(
    title: Value, description: Value, status: Value, progress: Value, priority: Value,
    assignedTo: Value, startDate: Value, estimatedDelivery: Value, notes: Value,
    totalPrice: Value, depositPaid: Value, depositAmount: Value, finalPaid: Value,
    stagingUrl: Value, productionUrl: Value)

  /** The steps of the field-by-field `if` blocks, in source order: the project's
      description fields, then its schedule, billing and deployment fields. */
  function ProjectSteps(p: ProjectPatch): seq<Step<ProjectItem>>
  {
    ProjectPlanSteps(p, ProjectDetailSteps(p))
  }

  /** The blocks from `title` to `assigned_to`; `completed_at` is set inside the
      `status` block, without a parameter, when the status is `'completed'`. */
  function ProjectDetailSteps(p: ProjectPatch): seq<Step<ProjectItem>>
  {
    When(Truthy(p.title), [Push(Title, p.title)])
      + When(Defined(p.description), [Push(Description, p.description)])
      + When(Truthy(p.status), [Push(Status, p.status)])
      + When(Truthy(p.status) && p.status == Str("completed"), [Literal(CompletedAtNow)])
      + When(Defined(p.progress), [Push(Progress, p.progress)])
      + When(Truthy(p.priority), [Push(Priority, p.priority)])
      + When(Defined(p.assignedTo), [Push(AssignedTo, Or(p.assignedTo, Null))])
  }

  /** The blocks from `start_date` to `production_url`, appended to `s`. */
  function ProjectPlanSteps(p: ProjectPatch, s: seq<Step<ProjectItem>>): seq<Step<ProjectItem>>
  {
    s
      + When(Defined(p.startDate), [Push(StartDate, p.startDate)])
      + When(Defined(p.estimatedDelivery), [Push(EstimatedDelivery, p.estimatedDelivery)])
      + When(Defined(p.notes), [Push(Notes, p.notes)])
      + When(Defined(p.totalPrice), [Push(TotalPrice, p.totalPrice)])
      + When(Defined(p.depositPaid), [Push(DepositPaid, p.depositPaid)])
      + When(Defined(p.depositAmount), [Push(DepositAmount, p.depositAmount)])
      + When(Defined(p.finalPaid), [Push(FinalPaid, p.finalPaid)])
      + When(Defined(p.stagingUrl), [Push(StagingUrl, p.stagingUrl)])
      + When(Defined(p.productionUrl), [Push(ProductionUrl, p.productionUrl)])
  }

  const NothingToUpdate := Failure(400, "Aucune mise à jour fournie")

  /** The UPDATE the handler issues, or the 400 it returns before any query. */
  function ProjectUpdateSpec(p: ProjectPatch, id: Value): Result<UpdateQuery<ProjectItem>, Failure>
  {
    var steps := ProjectSteps(p);
    if steps == [] then Err(NothingToUpdate)
    else Ok(UpdateStatement(ProjectsTable, steps + [Literal(UpdatedAtNow)], id))
  }

  /** The steps after each block, one after the other, amount to the detail steps. */
  lemma ProjectDetailsChain(p: ProjectPatch,
      s1: seq<Step<ProjectItem>>, s2: seq<Step<ProjectItem>>, s3: seq<Step<ProjectItem>>, s4: seq<Step<ProjectItem>>, s5: seq<Step<ProjectItem>>, s6: seq<Step<ProjectItem>>, s7: seq<Step<ProjectItem>>)
    requires s1 == When(Truthy(p.title), [Push(Title, p.title)])
    requires s2 == s1 + When(Defined(p.description), [Push(Description, p.description)])
    requires s3 == s2 + When(Truthy(p.status), [Push(Status, p.status)])
    requires s4 == s3 + When(Truthy(p.status) && p.status == Str("completed"), [Literal(CompletedAtNow)])
    requires s5 == s4 + When(Defined(p.progress), [Push(Progress, p.progress)])
    requires s6 == s5 + When(Truthy(p.priority), [Push(Priority, p.priority)])
    requires s7 == s6 + When(Defined(p.assignedTo), [Push(AssignedTo, Or(p.assignedTo, Null))])
    ensures s7 == ProjectDetailSteps(p)
  {
  }

  /** The steps after each block, one after the other, amount to the plan steps. */
  lemma ProjectPlanChain(p: ProjectPatch,
      s0: seq<Step<ProjectItem>>, s1: seq<Step<ProjectItem>>, s2: seq<Step<ProjectItem>>, s3: seq<Step<ProjectItem>>, s4: seq<Step<ProjectItem>>, s5: seq<Step<ProjectItem>>, s6: seq<Step<ProjectItem>>, s7: seq<Step<ProjectItem>>, s8: seq<Step<ProjectItem>>, s9: seq<Step<ProjectItem>>)
    requires s1 == s0 + When(Defined(p.startDate), [Push(StartDate, p.startDate)])
    requires s2 == s1 + When(Defined(p.estimatedDelivery), [Push(EstimatedDelivery, p.estimatedDelivery)])
    requires s3 == s2 + When(Defined(p.notes), [Push(Notes, p.notes)])
    requires s4 == s3 + When(Defined(p.totalPrice), [Push(TotalPrice, p.totalPrice)])
    requires s5 == s4 + When(Defined(p.depositPaid), [Push(DepositPaid, p.depositPaid)])
    requires s6 == s5 + When(Defined(p.depositAmount), [Push(DepositAmount, p.depositAmount)])
    requires s7 == s6 + When(Defined(p.finalPaid), [Push(FinalPaid, p.finalPaid)])
    requires s8 == s7 + When(Defined(p.stagingUrl), [Push(StagingUrl, p.stagingUrl)])
    requires s9 == s8 + When(Defined(p.productionUrl), [Push(ProductionUrl, p.productionUrl)])
    ensures s9 == ProjectPlanSteps(p, s0)
  {
  }

  /** Runs the blocks from `title` to `assigned_to` on a new builder. */
  method PushProjectDetails(p: ProjectPatch) returns (b: Builder<ProjectItem>)
    ensures fresh(b) && b.Valid() && b.steps == ProjectDetailSteps(p)
  {
    b := new Builder<ProjectItem>();
    b.PushWhen(Truthy(p.title), Title, p.title);
    ghost var s1 := b.steps;
    b.PushWhen(Defined(p.description), Description, p.description);
    ghost var s2 := b.steps;
    b.PushWhen(Truthy(p.status), Status, p.status);
    ghost var s3 := b.steps;
    b.LiteralWhen(Truthy(p.status) && p.status == Str("completed"), CompletedAtNow);
    ghost var s4 := b.steps;
    b.PushWhen(Defined(p.progress), Progress, p.progress);
    ghost var s5 := b.steps;
    b.PushWhen(Truthy(p.priority), Priority, p.priority);
    ghost var s6 := b.steps;
    b.PushWhen(Defined(p.assignedTo), AssignedTo, Or(p.assignedTo, Null));
    ghost var s7 := b.steps;
    ProjectDetailsChain(p, s1, s2, s3, s4, s5, s6, s7);
  }

  /** Runs the blocks from `start_date` to `production_url` on the builder. */
  method PushProjectPlan(b: Builder<ProjectItem>, p: ProjectPatch)
    requires b.Valid()
    modifies b
    ensures b.Valid() && b.steps == ProjectPlanSteps(p, old(b.steps))
  {
    ghost var s0 := b.steps;
    b.PushWhen(Defined(p.startDate), StartDate, p.startDate);
    ghost var s1 := b.steps;
    b.PushWhen(Defined(p.estimatedDelivery), EstimatedDelivery, p.estimatedDelivery);
    ghost var s2 := b.steps;
    b.PushWhen(Defined(p.notes), Notes, p.notes);
    ghost var s3 := b.steps;
    b.PushWhen(Defined(p.totalPrice), TotalPrice, p.totalPrice);
    ghost var s4 := b.steps;
    b.PushWhen(Defined(p.depositPaid), DepositPaid, p.depositPaid);
    ghost var s5 := b.steps;
    b.PushWhen(Defined(p.depositAmount), DepositAmount, p.depositAmount);
    ghost var s6 := b.steps;
    b.PushWhen(Defined(p.finalPaid), FinalPaid, p.finalPaid);
    ghost var s7 := b.steps;
    b.PushWhen(Defined(p.stagingUrl), StagingUrl, p.stagingUrl);
    ghost var s8 := b.steps;
    b.PushWhen(Defined(p.productionUrl), ProductionUrl, p.productionUrl);
    ghost var s9 := b.steps;
    ProjectPlanChain(p, s0, s1, s2, s3, s4, s5, s6, s7, s8, s9);
  }

  /** Builds the project UPDATE as the handler does. */
  method BuildProjectUpdate(p: ProjectPatch, id: Value) returns (r: Result<UpdateQuery<ProjectItem>, Failure>)
    ensures r == ProjectUpdateSpec(p, id)
  {
    var b := PushProjectDetails(p);
    PushProjectPlan(b, p);
    if |b.fragments| == 0 {
      return Err(NothingToUpdate);
    }
    b.Literal(UpdatedAtNow);
    r := Ok(b.UpdateOf(ProjectsTable, id));
  }

  /** What the handler does after the project UPDATE. `updated` is the row RETURNING
      gives back, if any. The project's owner is notified, then the update is logged
      under the acting admin with the body's `status` and `progress` as metadata. */
  function AfterProjectUpdate(p: ProjectPatch, id: Value, adminId: Value, updated: Option<ProjectRow>): Outcome
  {
    if updated.None? then Reject(ProjectNotFound)
    else
      Outcome([Notify(updated.value.userId, "Mise à jour de votre projet",
                      "Votre projet \"" + ToText(updated.value.title) + "\" a été mis à jour.", id),
               Insert(ActivityLogTable, [adminId, id, p.status, p.progress])],
              Succeeded)
  }

  /** No returned row answers 404 with nothing more written. Otherwise the owner of
      the returned row (not anyone named in the body) is notified first, with a message
      quoting the project's title, and the activity log comes last. */
  lemma AfterProjectUpdateRules(p: ProjectPatch, id: Value, adminId: Value, updated: Option<ProjectRow>)
    ensures var o := AfterProjectUpdate(p, id, adminId, updated);
      && (o.reply == Failed(ProjectNotFound) <==> updated.None?)
      && (updated.None? ==> o.writes == [])
      && (updated.Some? ==>
            && o.reply == Succeeded && |o.writes| == 2
            && o.writes[0].Insert? && o.writes[0].table == NotificationsTable
            && |o.writes[0].values| == 4
            && o.writes[0].values[0] == updated.value.userId
            && o.writes[0].values[1] == Str("Mise à jour de votre projet")
            && o.writes[0].values[3] == id
            && o.writes[0].values[2].Str?
            && o.writes[1] == Insert(ActivityLogTable, [adminId, id, p.status, p.progress]))
    ensures updated.Some? ==>
      var text := AfterProjectUpdate(p, id, adminId, updated).writes[0].values[2].s;
      var title := ToText(updated.value.title);
      && |text| == |"Votre projet \""| + |title| + |"\" a été mis à jour."|
      && text[|"Votre projet \""|..|"Votre projet \""| + |title|] == title
  {
  }

  /** The parameters of the detail blocks: the value of each present field, in order;
      `completed_at` takes none. */
  function ProjectDetailParameters(p: ProjectPatch): seq<Value>
  {
    IfPresent(Truthy(p.title), p.title)
      + IfPresent(Defined(p.description), p.description)
      + IfPresent(Truthy(p.status), p.status)
      + IfPresent(Defined(p.progress), p.progress)
      + IfPresent(Truthy(p.priority), p.priority)
      + IfPresent(Defined(p.assignedTo), Or(p.assignedTo, Null))
  }

  /** The parameters of the plan blocks, after those bound `before` them. */
  function ProjectPlanParameters(p: ProjectPatch, before: seq<Value>): seq<Value>
  {
    before
      + IfPresent(Defined(p.startDate), p.startDate)
      + IfPresent(Defined(p.estimatedDelivery), p.estimatedDelivery)
      + IfPresent(Defined(p.notes), p.notes)
      + IfPresent(Defined(p.totalPrice), p.totalPrice)
      + IfPresent(Defined(p.depositPaid), p.depositPaid)
      + IfPresent(Defined(p.depositAmount), p.depositAmount)
      + IfPresent(Defined(p.finalPaid), p.finalPaid)
      + IfPresent(Defined(p.stagingUrl), p.stagingUrl)
      + IfPresent(Defined(p.productionUrl), p.productionUrl)
  }

  /** The detail blocks bind the detail parameters. */
  lemma ProjectDetailBinds(p: ProjectPatch)
    ensures ParamsOf(ProjectDetailSteps(p)) == ProjectDetailParameters(p)
  {
    var w1 := When(Truthy(p.title), [Push(Title, p.title)]);
    var w2 := When(Defined(p.description), [Push(Description, p.description)]);
    var w3 := When(Truthy(p.status), [Push(Status, p.status)]);
    var w4 := When(Truthy(p.status) && p.status == Str("completed"), [Literal(CompletedAtNow)]);
    var w5 := When(Defined(p.progress), [Push(Progress, p.progress)]);
    var w6 := When(Truthy(p.priority), [Push(Priority, p.priority)]);
    var w7 := When(Defined(p.assignedTo), [Push(AssignedTo, Or(p.assignedTo, Null))]);
    OnePush(Truthy(p.title), Title, p.title);
    ParamsOfPushWhen(w1, Defined(p.description), Description, p.description);
    ParamsOfPushWhen(w1 + w2, Truthy(p.status), Status, p.status);
    ParamsOfLiteralWhen(w1 + w2 + w3, Truthy(p.status) && p.status == Str("completed"), CompletedAtNow);
    ParamsOfPushWhen(w1 + w2 + w3 + w4, Defined(p.progress), Progress, p.progress);
    ParamsOfPushWhen(w1 + w2 + w3 + w4 + w5, Truthy(p.priority), Priority, p.priority);
    ParamsOfPushWhen(w1 + w2 + w3 + w4 + w5 + w6, Defined(p.assignedTo), AssignedTo, Or(p.assignedTo, Null));
  }

  /** The `start_date` to `total_price` blocks bind their present values after those
      bound before them. */
  lemma ProjectScheduleBinds(p: ProjectPatch, s: seq<Step<ProjectItem>>)
    ensures ParamsOf(s + When(Defined(p.startDate), [Push(StartDate, p.startDate)])
                       + When(Defined(p.estimatedDelivery), [Push(EstimatedDelivery, p.estimatedDelivery)])
                       + When(Defined(p.notes), [Push(Notes, p.notes)])
                       + When(Defined(p.totalPrice), [Push(TotalPrice, p.totalPrice)]))
         == ParamsOf(s) + IfPresent(Defined(p.startDate), p.startDate)
                        + IfPresent(Defined(p.estimatedDelivery), p.estimatedDelivery)
                        + IfPresent(Defined(p.notes), p.notes)
                        + IfPresent(Defined(p.totalPrice), p.totalPrice)
  {
    var t1 := s + When(Defined(p.startDate), [Push(StartDate, p.startDate)]);
    var t2 := t1 + When(Defined(p.estimatedDelivery), [Push(EstimatedDelivery, p.estimatedDelivery)]);
    var t3 := t2 + When(Defined(p.notes), [Push(Notes, p.notes)]);
    ParamsOfPushWhen(s, Defined(p.startDate), StartDate, p.startDate);
    ParamsOfPushWhen(t1, Defined(p.estimatedDelivery), EstimatedDelivery, p.estimatedDelivery);
    ParamsOfPushWhen(t2, Defined(p.notes), Notes, p.notes);
    ParamsOfPushWhen(t3, Defined(p.totalPrice), TotalPrice, p.totalPrice);
  }

  /** The `deposit_paid` to `production_url` blocks bind their present values after
      those bound before them. */
  lemma ProjectBillingBinds(p: ProjectPatch, s: seq<Step<ProjectItem>>)
    ensures ParamsOf(s + When(Defined(p.depositPaid), [Push(DepositPaid, p.depositPaid)])
                       + When(Defined(p.depositAmount), [Push(DepositAmount, p.depositAmount)])
                       + When(Defined(p.finalPaid), [Push(FinalPaid, p.finalPaid)])
                       + When(Defined(p.stagingUrl), [Push(StagingUrl, p.stagingUrl)])
                       + When(Defined(p.productionUrl), [Push(ProductionUrl, p.productionUrl)]))
         == ParamsOf(s) + IfPresent(Defined(p.depositPaid), p.depositPaid)
                        + IfPresent(Defined(p.depositAmount), p.depositAmount)
                        + IfPresent(Defined(p.finalPaid), p.finalPaid)
                        + IfPresent(Defined(p.stagingUrl), p.stagingUrl)
                        + IfPresent(Defined(p.productionUrl), p.productionUrl)
  {
    var t1 := s + When(Defined(p.depositPaid), [Push(DepositPaid, p.depositPaid)]);
    var t2 := t1 + When(Defined(p.depositAmount), [Push(DepositAmount, p.depositAmount)]);
    var t3 := t2 + When(Defined(p.finalPaid), [Push(FinalPaid, p.finalPaid)]);
    var t4 := t3 + When(Defined(p.stagingUrl), [Push(StagingUrl, p.stagingUrl)]);
    ParamsOfPushWhen(s, Defined(p.depositPaid), DepositPaid, p.depositPaid);
    ParamsOfPushWhen(t1, Defined(p.depositAmount), DepositAmount, p.depositAmount);
    ParamsOfPushWhen(t2, Defined(p.finalPaid), FinalPaid, p.finalPaid);
    ParamsOfPushWhen(t3, Defined(p.stagingUrl), StagingUrl, p.stagingUrl);
    ParamsOfPushWhen(t4, Defined(p.productionUrl), ProductionUrl, p.productionUrl);
  }

  /** The plan blocks bind the plan parameters after whatever came before. */
  lemma ProjectPlanBinds(p: ProjectPatch, s: seq<Step<ProjectItem>>)
    ensures ParamsOf(ProjectPlanSteps(p, s)) == ProjectPlanParameters(p, ParamsOf(s))
  {
    var t := s + When(Defined(p.startDate), [Push(StartDate, p.startDate)])
               + When(Defined(p.estimatedDelivery), [Push(EstimatedDelivery, p.estimatedDelivery)])
               + When(Defined(p.notes), [Push(Notes, p.notes)])
               + When(Defined(p.totalPrice), [Push(TotalPrice, p.totalPrice)]);
    ProjectScheduleBinds(p, s);
    ProjectBillingBinds(p, t);
  }

  /** The parameters of a project update, before the id: the value of every field the
      body carries, in source order. */
  function ProjectParameters(p: ProjectPatch): seq<Value>
  {
    ProjectPlanParameters(p, ProjectDetailParameters(p))
  }

  /** The body carries at least one field the update takes into account. */
  predicate ProjectHasField(p: ProjectPatch)
  {
    || Truthy(p.title) || Defined(p.description) || Truthy(p.status) || Defined(p.progress)
    || Truthy(p.priority) || Defined(p.assignedTo) || Defined(p.startDate)
    || Defined(p.estimatedDelivery) || Defined(p.notes) || Defined(p.totalPrice)
    || Defined(p.depositPaid) || Defined(p.depositAmount) || Defined(p.finalPaid)
    || Defined(p.stagingUrl) || Defined(p.productionUrl)
  }

  /** The update answers 400 exactly when the body carries no field; `updated_at` alone
      never makes an update non-empty. */
  lemma ProjectUpdateRejectsEmpty(p: ProjectPatch, id: Value)
    ensures ProjectUpdateSpec(p, id) == Err(NothingToUpdate) <==> !ProjectHasField(p)
    ensures ProjectUpdateSpec(p, id).Ok? <==> ProjectHasField(p)
  {
  }

  /** A successful update binds the fields' values in source order and then the id;
      its placeholders are `$1 .. $k` in push order, the WHERE clause names `$(k+1)`,
      the last parameter, and `updated_at` is the last SET item. */
  lemma ProjectUpdateNumbering(p: ProjectPatch, id: Value)
    requires ProjectHasField(p)
    ensures var steps, q := ProjectSteps(p), ProjectUpdateSpec(p, id).value;
      && q.table == ProjectsTable
      && q.params == ProjectParameters(p) + [id]
      && q.whereIndex == |q.params|
      && BoundIndices(q.items) + [q.whereIndex] == Upto(|q.params|)
      && |q.items| == |steps| + 1 && q.items[|steps|] == Fixed(UpdatedAtNow)
      && forall k :: 0 <= k < |steps| ==> Renders(q.items[k], steps[k], q.params)
  {
    ProjectUpdateRejectsEmpty(p, id);
    var steps := ProjectSteps(p);
    var all := steps + [Literal(UpdatedAtNow)];
    ProjectDetailBinds(p);
    ProjectPlanBinds(p, ProjectDetailSteps(p));
    assert all == steps + When(true, [Literal(UpdatedAtNow)]);
    ParamsOfLiteralWhen(steps, true, UpdatedAtNow);
    UpdateStatementSound(ProjectsTable, all, id);
    var q := ProjectUpdateSpec(p, id).value;
    forall k | 0 <= k < |steps| ensures Renders(q.items[k], steps[k], q.params) {
      assert all[k] == steps[k];
    }
    assert all[|steps|] == Literal(UpdatedAtNow);
  }

  /** `title`, `status` and `priority` are skipped when falsy: such a value updates
      exactly as an absent one does. */
  lemma ProjectFalsyFieldsSkipped(p: ProjectPatch, v: Value)
    requires !Truthy(v)
    ensures ProjectSteps(p.(title := v)) == ProjectSteps(p.(title := Undefined))
    ensures ProjectSteps(p.(status := v)) == ProjectSteps(p.(status := Undefined))
    ensures ProjectSteps(p.(priority := v)) == ProjectSteps(p.(priority := Undefined))
  {
  }

  /** The other fields are written whenever they are not `undefined`, falsy or not; a
      falsy `assigned_to` is written as `NULL`. */
  lemma ProjectDefinedFieldsKept(p: ProjectPatch, v: Value)
    requires Defined(v)
    ensures Push(Description, v) in ProjectSteps(p.(description := v))
    ensures Push(Progress, v) in ProjectSteps(p.(progress := v))
    ensures Push(AssignedTo, Or(v, Null)) in ProjectSteps(p.(assignedTo := v))
    ensures Push(StartDate, v) in ProjectSteps(p.(startDate := v))
    ensures Push(EstimatedDelivery, v) in ProjectSteps(p.(estimatedDelivery := v))
    ensures Push(Notes, v) in ProjectSteps(p.(notes := v))
    ensures Push(TotalPrice, v) in ProjectSteps(p.(totalPrice := v))
    ensures Push(DepositPaid, v) in ProjectSteps(p.(depositPaid := v))
    ensures Push(DepositAmount, v) in ProjectSteps(p.(depositAmount := v))
    ensures Push(FinalPaid, v) in ProjectSteps(p.(finalPaid := v))
    ensures Push(StagingUrl, v) in ProjectSteps(p.(stagingUrl := v))
    ensures Push(ProductionUrl, v) in ProjectSteps(p.(productionUrl := v))
  {
  }

  /** A falsy `assigned_to` is stored as `NULL`: it updates exactly as `null` does. */
  lemma ProjectFalsyAssigneeIsNull(p: ProjectPatch, v: Value)
    requires Defined(v) && !Truthy(v)
    ensures ProjectSteps(p.(assignedTo := v)) == ProjectSteps(p.(assignedTo := Null))
  {
  }

  /** `completed_at = CURRENT_TIMESTAMP` is set exactly when the status is
      `'completed'` (it binds no parameter: `ProjectParameters` has none for it), and
      `updated_at` is not among the field steps, so it cannot make an update
      non-empty. */
  lemma ProjectCompletedAt(p: ProjectPatch)
    ensures Literal(CompletedAtNow) in ProjectSteps(p) <==> p.status == Str("completed")
    ensures Literal(UpdatedAtNow) !in ProjectSteps(p)
  {
    ProjectDetailCompletion(p);
    ProjectDetailNoUpdatedAt(p);
    ProjectPlanKeepsLiterals(p, ProjectDetailSteps(p), CompletedAtNow);
    ProjectPlanKeepsLiterals(p, ProjectDetailSteps(p), UpdatedAtNow);
  }

  /** Among the detail blocks, only the `status` block sets `completed_at`, and only
      for `'completed'`. */
  lemma ProjectDetailCompletion(p: ProjectPatch)
    ensures Literal(CompletedAtNow) in ProjectDetailSteps(p) <==> p.status == Str("completed")
  {
    var w1 := When(Truthy(p.title), [Push(Title, p.title)]);
    var w2 := When(Defined(p.description), [Push(Description, p.description)]);
    var w3 := When(Truthy(p.status), [Push(Status, p.status)]);
    var w4 := When(Truthy(p.status) && p.status == Str("completed"), [Literal(CompletedAtNow)]);
    var w5 := When(Defined(p.progress), [Push(Progress, p.progress)]);
    var w6 := When(Truthy(p.priority), [Push(Priority, p.priority)]);
    var w7 := When(Defined(p.assignedTo), [Push(AssignedTo, Or(p.assignedTo, Null))]);
    assert ProjectDetailSteps(p) == w1 + w2 + w3 + w4 + w5 + w6 + w7;
    var x := Literal(CompletedAtNow);
    assert x !in w1 && x !in w2 && x !in w3 && x !in w5 && x !in w6 && x !in w7;
    assert x in w4 <==> p.status == Str("completed");
  }

  /** No detail block sets `updated_at`. */
  lemma ProjectDetailNoUpdatedAt(p: ProjectPatch)
    ensures Literal(UpdatedAtNow) !in ProjectDetailSteps(p)
  {
    var w1 := When(Truthy(p.title), [Push(Title, p.title)]);
    var w2 := When(Defined(p.description), [Push(Description, p.description)]);
    var w3 := When(Truthy(p.status), [Push(Status, p.status)]);
    var w4 := When(Truthy(p.status) && p.status == Str("completed"), [Literal(CompletedAtNow)]);
    var w5 := When(Defined(p.progress), [Push(Progress, p.progress)]);
    var w6 := When(Truthy(p.priority), [Push(Priority, p.priority)]);
    var w7 := When(Defined(p.assignedTo), [Push(AssignedTo, Or(p.assignedTo, Null))]);
    assert ProjectDetailSteps(p) == w1 + w2 + w3 + w4 + w5 + w6 + w7;
    var x := Literal(UpdatedAtNow);
    assert x !in w1 && x !in w2 && x !in w3 && x !in w4 && x !in w5 && x !in w6 && x !in w7;
  }

  /** The `start_date` to `total_price` blocks each push a value: they append no
      literal item. */
  lemma ProjectScheduleKeepsLiterals(p: ProjectPatch, s: seq<Step<ProjectItem>>, x: ProjectItem)
    ensures Literal(x) in s + When(Defined(p.startDate), [Push(StartDate, p.startDate)])
                            + When(Defined(p.estimatedDelivery), [Push(EstimatedDelivery, p.estimatedDelivery)])
                            + When(Defined(p.notes), [Push(Notes, p.notes)])
                            + When(Defined(p.totalPrice), [Push(TotalPrice, p.totalPrice)])
        <==> Literal(x) in s
  {
    var t1 := s + When(Defined(p.startDate), [Push(StartDate, p.startDate)]);
    var t2 := t1 + When(Defined(p.estimatedDelivery), [Push(EstimatedDelivery, p.estimatedDelivery)]);
    var t3 := t2 + When(Defined(p.notes), [Push(Notes, p.notes)]);
    PushKeepsLiterals(s, Defined(p.startDate), StartDate, p.startDate, x);
    PushKeepsLiterals(t1, Defined(p.estimatedDelivery), EstimatedDelivery, p.estimatedDelivery, x);
    PushKeepsLiterals(t2, Defined(p.notes), Notes, p.notes, x);
    PushKeepsLiterals(t3, Defined(p.totalPrice), TotalPrice, p.totalPrice, x);
  }

  /** The `deposit_paid` to `production_url` blocks each push a value: they append no
      literal item. */
  lemma ProjectBillingKeepsLiterals(p: ProjectPatch, s: seq<Step<ProjectItem>>, x: ProjectItem)
    ensures Literal(x) in s + When(Defined(p.depositPaid), [Push(DepositPaid, p.depositPaid)])
                            + When(Defined(p.depositAmount), [Push(DepositAmount, p.depositAmount)])
                            + When(Defined(p.finalPaid), [Push(FinalPaid, p.finalPaid)])
                            + When(Defined(p.stagingUrl), [Push(StagingUrl, p.stagingUrl)])
                            + When(Defined(p.productionUrl), [Push(ProductionUrl, p.productionUrl)])
        <==> Literal(x) in s
  {
    var t1 := s + When(Defined(p.depositPaid), [Push(DepositPaid, p.depositPaid)]);
    var t2 := t1 + When(Defined(p.depositAmount), [Push(DepositAmount, p.depositAmount)]);
    var t3 := t2 + When(Defined(p.finalPaid), [Push(FinalPaid, p.finalPaid)]);
    var t4 := t3 + When(Defined(p.stagingUrl), [Push(StagingUrl, p.stagingUrl)]);
    PushKeepsLiterals(s, Defined(p.depositPaid), DepositPaid, p.depositPaid, x);
    PushKeepsLiterals(t1, Defined(p.depositAmount), DepositAmount, p.depositAmount, x);
    PushKeepsLiterals(t2, Defined(p.finalPaid), FinalPaid, p.finalPaid, x);
    PushKeepsLiterals(t3, Defined(p.stagingUrl), StagingUrl, p.stagingUrl, x);
    PushKeepsLiterals(t4, Defined(p.productionUrl), ProductionUrl, p.productionUrl, x);
  }

  /** The plan blocks append no literal item: neither `completed_at` nor `updated_at`
      comes from them. */
  lemma ProjectPlanKeepsLiterals(p: ProjectPatch, s: seq<Step<ProjectItem>>, x: ProjectItem)
    ensures Literal(x) in ProjectPlanSteps(p, s) <==> Literal(x) in s
  {
    var t := s + When(Defined(p.startDate), [Push(StartDate, p.startDate)])
               + When(Defined(p.estimatedDelivery), [Push(EstimatedDelivery, p.estimatedDelivery)])
               + When(Defined(p.notes), [Push(Notes, p.notes)])
               + When(Defined(p.totalPrice), [Push(TotalPrice, p.totalPrice)]);
    ProjectScheduleKeepsLiterals(p, s, x);
    ProjectBillingKeepsLiterals(p, t, x);
  }

  // ===========================================================================
  // PUT /admin/projects/tasks/:taskId

  /** The SET items of a task update. */
  datatype TaskItem =
    | TaskTitle | TaskDescription | TaskStatus | TaskCompletedAtNow | TaskPriority
    | TaskAssignedTo | DueDate

  /** The request body of a task update. */
  datatype TaskPatch = TaskPatch(title: Value, description: Value, status: Value, priority: Value,
                                 assignedTo: Value, dueDate: Value)

  const TasksTable := "project_tasks"

  /** The steps of the field-by-field `if` blocks of a task update; no `updated_at`. */
  function TaskSteps(t: TaskPatch): seq<Step<TaskItem>>
  {
    When(Truthy(t.title), [Push(TaskTitle, t.title)])
      + When(Defined(t.description), [Push(TaskDescription, t.description)])
      + When(Truthy(t.status), [Push(TaskStatus, t.status)])
      + When(Truthy(t.status) && t.status == Str("completed"), [Literal(TaskCompletedAtNow)])
      + When(Truthy(t.priority), [Push(TaskPriority, t.priority)])
      + When(Defined(t.assignedTo), [Push(TaskAssignedTo, Or(t.assignedTo, Null))])
      + When(Defined(t.dueDate), [Push(DueDate, t.dueDate)])
  }

  /** The UPDATE of a task, or the 400 when the body carries no field. */
  function TaskUpdateSpec(t: TaskPatch, id: Value): Result<UpdateQuery<TaskItem>, Failure>
  {
    var steps := TaskSteps(t);
    if steps == [] then Err(NothingToUpdate) else Ok(UpdateStatement(TasksTable, steps, id))
  }

  /** The steps after each block, one after the other, amount to the task steps. */
  lemma TaskStepsChain(t: TaskPatch,
      s1: seq<Step<TaskItem>>, s2: seq<Step<TaskItem>>, s3: seq<Step<TaskItem>>, s4: seq<Step<TaskItem>>, s5: seq<Step<TaskItem>>, s6: seq<Step<TaskItem>>, s7: seq<Step<TaskItem>>)
    requires s1 == When(Truthy(t.title), [Push(TaskTitle, t.title)])
    requires s2 == s1 + When(Defined(t.description), [Push(TaskDescription, t.description)])
    requires s3 == s2 + When(Truthy(t.status), [Push(TaskStatus, t.status)])
    requires s4 == s3 + When(Truthy(t.status) && t.status == Str("completed"), [Literal(TaskCompletedAtNow)])
    requires s5 == s4 + When(Truthy(t.priority), [Push(TaskPriority, t.priority)])
    requires s6 == s5 + When(Defined(t.assignedTo), [Push(TaskAssignedTo, Or(t.assignedTo, Null))])
    requires s7 == s6 + When(Defined(t.dueDate), [Push(DueDate, t.dueDate)])
    ensures s7 == TaskSteps(t)
  {
  }

  /** Runs the field-by-field blocks of the task update on a new builder. */
  method PushTaskFields(t: TaskPatch) returns (b: Builder<TaskItem>)
    ensures fresh(b) && b.Valid() && b.steps == TaskSteps(t)
  {
    b := new Builder<TaskItem>();
    b.PushWhen(Truthy(t.title), TaskTitle, t.title);
    ghost var s1 := b.steps;
    b.PushWhen(Defined(t.description), TaskDescription, t.description);
    ghost var s2 := b.steps;
    b.PushWhen(Truthy(t.status), TaskStatus, t.status);
    ghost var s3 := b.steps;
    b.LiteralWhen(Truthy(t.status) && t.status == Str("completed"), TaskCompletedAtNow);
    ghost var s4 := b.steps;
    b.PushWhen(Truthy(t.priority), TaskPriority, t.priority);
    ghost var s5 := b.steps;
    b.PushWhen(Defined(t.assignedTo), TaskAssignedTo, Or(t.assignedTo, Null));
    ghost var s6 := b.steps;
    b.PushWhen(Defined(t.dueDate), DueDate, t.dueDate);
    ghost var s7 := b.steps;
    TaskStepsChain(t, s1, s2, s3, s4, s5, s6, s7);
  }

  /** Builds the task UPDATE as the handler does. */
  method BuildTaskUpdate(t: TaskPatch, id: Value) returns (r: Result<UpdateQuery<TaskItem>, Failure>)
    ensures r == TaskUpdateSpec(t, id)
  {
    var b := PushTaskFields(t);
    if |b.fragments| == 0 {
      return Err(NothingToUpdate);
    }
    r := Ok(b.UpdateOf(TasksTable, id));
  }

  const TaskNotFound := Failure(404, "Tâche non trouvée")

  /** What the handler does after the task UPDATE: `found` says whether RETURNING gave
      back a row. */
  function AfterTaskUpdate(found: bool): Outcome
  {
    if found then Outcome([], Succeeded) else Reject(TaskNotFound)
  }

  /** The task update answers 404 exactly when no row was updated, and writes nothing
      after the UPDATE either way. */
  lemma AfterTaskUpdateRules(found: bool)
    ensures AfterTaskUpdate(found).reply == Failed(TaskNotFound) <==> !found
    ensures AfterTaskUpdate(found).reply == Succeeded <==> found
    ensures AfterTaskUpdate(found).writes == []
  {
  }

  /** The parameters of a task update before the id. */
  function TaskParameters(t: TaskPatch): seq<Value>
  {
    IfPresent(Truthy(t.title), t.title)
      + IfPresent(Defined(t.description), t.description)
      + IfPresent(Truthy(t.status), t.status)
      + IfPresent(Truthy(t.priority), t.priority)
      + IfPresent(Defined(t.assignedTo), Or(t.assignedTo, Null))
      + IfPresent(Defined(t.dueDate), t.dueDate)
  }

  predicate TaskHasField(t: TaskPatch)
  {
    || Truthy(t.title) || Defined(t.description) || Truthy(t.status) || Truthy(t.priority)
    || Defined(t.assignedTo) || Defined(t.dueDate)
  }

  /** The task blocks bind the task parameters. */
  lemma TaskBinds(t: TaskPatch)
    ensures ParamsOf(TaskSteps(t)) == TaskParameters(t)
  {
    var w1 := When(Truthy(t.title), [Push(TaskTitle, t.title)]);
    var w2 := When(Defined(t.description), [Push(TaskDescription, t.description)]);
    var w3 := When(Truthy(t.status), [Push(TaskStatus, t.status)]);
    var w4 := When(Truthy(t.status) && t.status == Str("completed"), [Literal(TaskCompletedAtNow)]);
    var w5 := When(Truthy(t.priority), [Push(TaskPriority, t.priority)]);
    var w6 := When(Defined(t.assignedTo), [Push(TaskAssignedTo, Or(t.assignedTo, Null))]);
    var w7 := When(Defined(t.dueDate), [Push(DueDate, t.dueDate)]);
    OnePush(Truthy(t.title), TaskTitle, t.title);
    ParamsOfPushWhen(w1, Defined(t.description), TaskDescription, t.description);
    ParamsOfPushWhen(w1 + w2, Truthy(t.status), TaskStatus, t.status);
    ParamsOfLiteralWhen(w1 + w2 + w3, Truthy(t.status) && t.status == Str("completed"), TaskCompletedAtNow);
    ParamsOfPushWhen(w1 + w2 + w3 + w4, Truthy(t.priority), TaskPriority, t.priority);
    ParamsOfPushWhen(w1 + w2 + w3 + w4 + w5, Defined(t.assignedTo), TaskAssignedTo, Or(t.assignedTo, Null));
    ParamsOfPushWhen(w1 + w2 + w3 + w4 + w5 + w6, Defined(t.dueDate), DueDate, t.dueDate);
  }

  /** A task update answers 400 exactly when the body carries no field; otherwise it
      binds the fields' values and then the id, numbered `$1 .. $(k+1)`, and its SET
      items are exactly the field steps: no `updated_at` is added. */
  lemma TaskUpdateRules(t: TaskPatch, id: Value)
    ensures TaskUpdateSpec(t, id) == Err(NothingToUpdate) <==> !TaskHasField(t)
    ensures TaskHasField(t) ==>
      var q := TaskUpdateSpec(t, id).value;
      && q.table == TasksTable
      && q.params == TaskParameters(t) + [id]
      && q.whereIndex == |q.params|
      && BoundIndices(q.items) + [q.whereIndex] == Upto(|q.params|)
      && |q.items| == |TaskSteps(t)|
      && forall k :: 0 <= k < |TaskSteps(t)| ==> Renders(q.items[k], TaskSteps(t)[k], q.params)
  {
    TaskBinds(t);
    UpdateStatementSound(TasksTable, TaskSteps(t), id);
  }

  /** `completed_at` is set exactly when the task's status is `'completed'`; falsy
      `title`, `status` and `priority` are skipped, and a falsy `assigned_to` is
      written as `NULL`. */
  lemma TaskFieldRules(t: TaskPatch, v: Value)
    ensures Literal(TaskCompletedAtNow) in TaskSteps(t) <==> t.status == Str("completed")
    ensures !Truthy(v) ==> TaskSteps(t.(title := v)) == TaskSteps(t.(title := Undefined))
    ensures !Truthy(v) ==> TaskSteps(t.(status := v)) == TaskSteps(t.(status := Undefined))
    ensures !Truthy(v) ==> TaskSteps(t.(priority := v)) == TaskSteps(t.(priority := Undefined))
    ensures Defined(v) && !Truthy(v) ==> TaskSteps(t.(assignedTo := v)) == TaskSteps(t.(assignedTo := Null))
  {
  }

  // ===========================================================================
  // PUT /admin/projects/milestones/:milestoneId

  /** The SET items of a milestone update. */
  datatype MilestoneItem =
    | MilestoneTitle | MilestoneDescription | TargetDate | IsCompleted
    | MilestoneCompletedAtNow | MilestoneCompletedAtNull | DisplayOrder

  /** The request body of a milestone update. */
  datatype MilestonePatch = MilestonePatch(title: Value, description: Value, targetDate: Value,
                                           isCompleted: Value, displayOrder: Value)

  const MilestonesTable := "project_milestones"

  /** The steps of the field-by-field `if` blocks of a milestone update: a present
      `is_completed` sets `completed_at` to the timestamp when truthy and to `NULL`
      otherwise. */
  function MilestoneSteps(m: MilestonePatch): seq<Step<MilestoneItem>>
  {
    When(Truthy(m.title), [Push(MilestoneTitle, m.title)])
      + When(Defined(m.description), [Push(MilestoneDescription, m.description)])
      + When(Defined(m.targetDate), [Push(TargetDate, m.targetDate)])
      + When(Defined(m.isCompleted), [Push(IsCompleted, m.isCompleted)])
      + When(Defined(m.isCompleted) && Truthy(m.isCompleted), [Literal(MilestoneCompletedAtNow)])
      + When(Defined(m.isCompleted) && !Truthy(m.isCompleted), [Literal(MilestoneCompletedAtNull)])
      + When(Defined(m.displayOrder), [Push(DisplayOrder, m.displayOrder)])
  }

  function MilestoneUpdateSpec(m: MilestonePatch, id: Value): Result<UpdateQuery<MilestoneItem>, Failure>
  {
    var steps := MilestoneSteps(m);
    if steps == [] then Err(NothingToUpdate) else Ok(UpdateStatement(MilestonesTable, steps, id))
  }

  /** The steps after each block, one after the other, amount to the milestone steps. */
  lemma MilestoneStepsChain(m: MilestonePatch,
      s1: seq<Step<MilestoneItem>>, s2: seq<Step<MilestoneItem>>, s3: seq<Step<MilestoneItem>>, s4: seq<Step<MilestoneItem>>, s5: seq<Step<MilestoneItem>>, s6: seq<Step<MilestoneItem>>, s7: seq<Step<MilestoneItem>>)
    requires s1 == When(Truthy(m.title), [Push(MilestoneTitle, m.title)])
    requires s2 == s1 + When(Defined(m.description), [Push(MilestoneDescription, m.description)])
    requires s3 == s2 + When(Defined(m.targetDate), [Push(TargetDate, m.targetDate)])
    requires s4 == s3 + When(Defined(m.isCompleted), [Push(IsCompleted, m.isCompleted)])
    requires s5 == s4 + When(Defined(m.isCompleted) && Truthy(m.isCompleted), [Literal(MilestoneCompletedAtNow)])
    requires s6 == s5 + When(Defined(m.isCompleted) && !Truthy(m.isCompleted), [Literal(MilestoneCompletedAtNull)])
    requires s7 == s6 + When(Defined(m.displayOrder), [Push(DisplayOrder, m.displayOrder)])
    ensures s7 == MilestoneSteps(m)
  {
  }

  /** Runs the field-by-field blocks of the milestone update on a new builder. */
  method PushMilestoneFields(m: MilestonePatch) returns (b: Builder<MilestoneItem>)
    ensures fresh(b) && b.Valid() && b.steps == MilestoneSteps(m)
  {
    b := new Builder<MilestoneItem>();
    b.PushWhen(Truthy(m.title), MilestoneTitle, m.title);
    ghost var s1 := b.steps;
    b.PushWhen(Defined(m.description), MilestoneDescription, m.description);
    ghost var s2 := b.steps;
    b.PushWhen(Defined(m.targetDate), TargetDate, m.targetDate);
    ghost var s3 := b.steps;
    b.PushWhen(Defined(m.isCompleted), IsCompleted, m.isCompleted);
    ghost var s4 := b.steps;
    b.LiteralWhen(Defined(m.isCompleted) && Truthy(m.isCompleted), MilestoneCompletedAtNow);
    ghost var s5 := b.steps;
    b.LiteralWhen(Defined(m.isCompleted) && !Truthy(m.isCompleted), MilestoneCompletedAtNull);
    ghost var s6 := b.steps;
    b.PushWhen(Defined(m.displayOrder), DisplayOrder, m.displayOrder);
    ghost var s7 := b.steps;
    MilestoneStepsChain(m, s1, s2, s3, s4, s5, s6, s7);
  }

  /** Builds the milestone UPDATE as the handler does. */
  method BuildMilestoneUpdate(m: MilestonePatch, id: Value) returns (r: Result<UpdateQuery<MilestoneItem>, Failure>)
    ensures r == MilestoneUpdateSpec(m, id)
  {
    var b := PushMilestoneFields(m);
    if |b.fragments| == 0 {
      return Err(NothingToUpdate);
    }
    r := Ok(b.UpdateOf(MilestonesTable, id));
  }

  const MilestoneNotFound := Failure(404, "Jalon non trouvé")

  /** What the handler does after the milestone UPDATE: `found` says whether RETURNING
      gave back a row. */
  function AfterMilestoneUpdate(found: bool): Outcome
  {
    if found then Outcome([], Succeeded) else Reject(MilestoneNotFound)
  }

  /** The milestone update answers 404 exactly when no row was updated, and writes
      nothing after the UPDATE either way. */
  lemma AfterMilestoneUpdateRules(found: bool)
    ensures AfterMilestoneUpdate(found).reply == Failed(MilestoneNotFound) <==> !found
    ensures AfterMilestoneUpdate(found).reply == Succeeded <==> found
    ensures AfterMilestoneUpdate(found).writes == []
  {
  }

  /** The parameters of a milestone update before the id; neither `completed_at` item
      takes one. */
  function MilestoneParameters(m: MilestonePatch): seq<Value>
  {
    IfPresent(Truthy(m.title), m.title)
      + IfPresent(Defined(m.description), m.description)
      + IfPresent(Defined(m.targetDate), m.targetDate)
      + IfPresent(Defined(m.isCompleted), m.isCompleted)
      + IfPresent(Defined(m.displayOrder), m.displayOrder)
  }

  predicate MilestoneHasField(m: MilestonePatch)
  {
    Truthy(m.title) || Defined(m.description) || Defined(m.targetDate) || Defined(m.isCompleted)
    || Defined(m.displayOrder)
  }

  /** The milestone blocks bind the milestone parameters. */
  lemma MilestoneBinds(m: MilestonePatch)
    ensures ParamsOf(MilestoneSteps(m)) == MilestoneParameters(m)
  {
    var w1 := When(Truthy(m.title), [Push(MilestoneTitle, m.title)]);
    var w2 := When(Defined(m.description), [Push(MilestoneDescription, m.description)]);
    var w3 := When(Defined(m.targetDate), [Push(TargetDate, m.targetDate)]);
    var w4 := When(Defined(m.isCompleted), [Push(IsCompleted, m.isCompleted)]);
    var w5 := When(Defined(m.isCompleted) && Truthy(m.isCompleted), [Literal(MilestoneCompletedAtNow)]);
    var w6 := When(Defined(m.isCompleted) && !Truthy(m.isCompleted), [Literal(MilestoneCompletedAtNull)]);
    var w7 := When(Defined(m.displayOrder), [Push(DisplayOrder, m.displayOrder)]);
    OnePush(Truthy(m.title), MilestoneTitle, m.title);
    ParamsOfPushWhen(w1, Defined(m.description), MilestoneDescription, m.description);
    ParamsOfPushWhen(w1 + w2, Defined(m.targetDate), TargetDate, m.targetDate);
    ParamsOfPushWhen(w1 + w2 + w3, Defined(m.isCompleted), IsCompleted, m.isCompleted);
    ParamsOfLiteralWhen(w1 + w2 + w3 + w4, Defined(m.isCompleted) && Truthy(m.isCompleted), MilestoneCompletedAtNow);
    ParamsOfLiteralWhen(w1 + w2 + w3 + w4 + w5, Defined(m.isCompleted) && !Truthy(m.isCompleted), MilestoneCompletedAtNull);
    ParamsOfPushWhen(w1 + w2 + w3 + w4 + w5 + w6, Defined(m.displayOrder), DisplayOrder, m.displayOrder);
  }

  /** A milestone update answers 400 exactly when the body carries no field; otherwise
      it binds the fields' values and then the id, numbered `$1 .. $(k+1)`. */
  lemma MilestoneUpdateRules(m: MilestonePatch, id: Value)
    ensures MilestoneUpdateSpec(m, id) == Err(NothingToUpdate) <==> !MilestoneHasField(m)
    ensures MilestoneHasField(m) ==>
      var q := MilestoneUpdateSpec(m, id).value;
      && q.table == MilestonesTable
      && q.params == MilestoneParameters(m) + [id]
      && q.whereIndex == |q.params|
      && BoundIndices(q.items) + [q.whereIndex] == Upto(|q.params|)
      && |q.items| == |MilestoneSteps(m)|
      && forall k :: 0 <= k < |MilestoneSteps(m)| ==> Renders(q.items[k], MilestoneSteps(m)[k], q.params)
  {
    MilestoneBinds(m);
    UpdateStatementSound(MilestonesTable, MilestoneSteps(m), id);
  }

  /** A present `is_completed` sets `completed_at` to the timestamp when truthy and to
      `NULL` when falsy, and an absent one touches neither. */
  lemma MilestoneCompletion(m: MilestonePatch)
    ensures Literal(MilestoneCompletedAtNow) in MilestoneSteps(m) <==> Truthy(m.isCompleted)
    ensures Literal(MilestoneCompletedAtNull) in MilestoneSteps(m) <==> Defined(m.isCompleted) && !Truthy(m.isCompleted)
  {
    var t1 := When(Truthy(m.title), [Push(MilestoneTitle, m.title)]);
    var t2 := t1 + When(Defined(m.description), [Push(MilestoneDescription, m.description)]);
    var t3 := t2 + When(Defined(m.targetDate), [Push(TargetDate, m.targetDate)]);
    var t4 := t3 + When(Defined(m.isCompleted), [Push(IsCompleted, m.isCompleted)]);
    var t5 := t4 + When(Defined(m.isCompleted) && Truthy(m.isCompleted), [Literal(MilestoneCompletedAtNow)]);
    var t6 := t5 + When(Defined(m.isCompleted) && !Truthy(m.isCompleted), [Literal(MilestoneCompletedAtNull)]);
    forall x | x == MilestoneCompletedAtNow || x == MilestoneCompletedAtNull
      ensures Literal(x) in MilestoneSteps(m) <==> Literal(x) in t6
      ensures Literal(x) in t4 <==> false
    {
      assert Literal(x) !in t1;
      PushKeepsLiterals(t1, Defined(m.description), MilestoneDescription, m.description, x);
      PushKeepsLiterals(t2, Defined(m.targetDate), TargetDate, m.targetDate, x);
      PushKeepsLiterals(t3, Defined(m.isCompleted), IsCompleted, m.isCompleted, x);
      PushKeepsLiterals(t6, Defined(m.displayOrder), DisplayOrder, m.displayOrder, x);
    }
    LiteralWhenAdds(t4, Defined(m.isCompleted) && Truthy(m.isCompleted), MilestoneCompletedAtNow, MilestoneCompletedAtNow);
    LiteralWhenAdds(t5, Defined(m.isCompleted) && !Truthy(m.isCompleted), MilestoneCompletedAtNull, MilestoneCompletedAtNow);
    LiteralWhenAdds(t4, Defined(m.isCompleted) && Truthy(m.isCompleted), MilestoneCompletedAtNow, MilestoneCompletedAtNull);
    LiteralWhenAdds(t5, Defined(m.isCompleted) && !Truthy(m.isCompleted), MilestoneCompletedAtNull, MilestoneCompletedAtNull);
  }

  // ===========================================================================
  // POST /admin/projects/:id/tasks and POST /admin/projects/:id/milestones

  /** The request body of a new task. */
  datatype TaskDraft = TaskDraft(title: Value, description: Value, status: Value, priority: Value,
                                 assignedTo: Value, dueDate: Value)

  const TitleRequired := Failure(400, "Le titre est requis")

  /** The INSERT of a new task in project `id` and the activity-log entry naming it;
      `taskId` is the id the database gives the new row. */
  function CreateTask(id: Value, adminId: Value, d: TaskDraft, taskId: Value): Outcome
  {
    if !Truthy(d.title) then Reject(TitleRequired)
    else
      Outcome([Insert(TasksTable, [id, d.title, Or(d.description, Null), Or(d.status, Str("todo")),
                                   Or(d.priority, Str("normal")), Or(d.assignedTo, Null), Or(d.dueDate, Null)]),
               Insert(ActivityLogTable, [adminId, taskId, Str("Tâche créée: " + ToText(d.title))])],
              Succeeded)
  }

  const ActivityLogTable := "admin_activity_logs"

  /** A task without a truthy title is refused before any write; otherwise the task is
      inserted first, with `todo`, `normal` and `NULL` for the options left falsy and
      the given values for the others, and then logged as created under its title. */
  lemma CreateTaskRules(id: Value, adminId: Value, d: TaskDraft, taskId: Value)
    ensures CreateTask(id, adminId, d, taskId).reply == Failed(TitleRequired) <==> !Truthy(d.title)
    ensures !Truthy(d.title) ==> CreateTask(id, adminId, d, taskId).writes == []
    ensures Truthy(d.title) ==>
      var w := CreateTask(id, adminId, d, taskId).writes;
      && |w| == 2 && w[0].table == TasksTable && w[1].table == ActivityLogTable
      && |w[0].values| == 7 && w[0].values[0] == id && w[0].values[1] == d.title
      && (Truthy(d.status) ==> w[0].values[3] == d.status)
      && (!Truthy(d.status) ==> w[0].values[3] == Str("todo"))
      && (Truthy(d.priority) ==> w[0].values[4] == d.priority)
      && (!Truthy(d.priority) ==> w[0].values[4] == Str("normal"))
      && (Truthy(d.description) ==> w[0].values[2] == d.description)
      && (!Truthy(d.description) ==> w[0].values[2] == Null)
      && (Truthy(d.assignedTo) ==> w[0].values[5] == d.assignedTo)
      && (!Truthy(d.assignedTo) ==> w[0].values[5] == Null)
      && (Truthy(d.dueDate) ==> w[0].values[6] == d.dueDate)
      && (!Truthy(d.dueDate) ==> w[0].values[6] == Null)
      && w[1].values == [adminId, taskId, Str("Tâche créée: " + ToText(d.title))]
      && CreateTask(id, adminId, d, taskId).reply == Succeeded
  {
  }

  /** The request body of a new milestone. */
  datatype MilestoneDraft = MilestoneDraft(title: Value, description: Value, targetDate: Value,
                                           displayOrder: Value)

  /** The INSERT of a new milestone in project `id`. */
  function CreateMilestone(id: Value, d: MilestoneDraft): Outcome
  {
    if !Truthy(d.title) then Reject(TitleRequired)
    else
      Outcome([Insert(MilestonesTable, [id, d.title, Or(d.description, Null), Or(d.targetDate, Null),
                                        Or(d.displayOrder, Num(0))])],
              Succeeded)
  }

  /** A milestone without a truthy title is refused before any write; otherwise its
      order defaults to 0 and its optional fields to `NULL`. */
  lemma CreateMilestoneRules(id: Value, d: MilestoneDraft)
    ensures CreateMilestone(id, d).reply == Failed(TitleRequired) <==> !Truthy(d.title)
    ensures !Truthy(d.title) ==> CreateMilestone(id, d).writes == []
    ensures Truthy(d.title) ==>
      var w := CreateMilestone(id, d).writes;
      && |w| == 1 && w[0].Insert? && w[0].table == MilestonesTable && |w[0].values| == 5
      && w[0].values[0] == id && w[0].values[1] == d.title
      && (Truthy(d.description) ==> w[0].values[2] == d.description)
      && (!Truthy(d.description) ==> w[0].values[2] == Null)
      && (Truthy(d.targetDate) ==> w[0].values[3] == d.targetDate)
      && (!Truthy(d.targetDate) ==> w[0].values[3] == Null)
      && (Truthy(d.displayOrder) ==> w[0].values[4] == d.displayOrder)
      && (!Truthy(d.displayOrder) ==> w[0].values[4] == Num(0))
      && CreateMilestone(id, d).reply == Succeeded
  {
  }

  // ===========================================================================
  // POST /admin/projects/:id/comments

  /** The columns of a project the comment, file and update-message handlers read:
      `SELECT user_id, title FROM client_projects WHERE id = $1`. */
  datatype ProjectRow = ProjectRow(userId: Value, title: Value)

  const NotificationsTable := "user_notifications"
  const CommentsTable := "project_comments"
  const CommentRequired := Failure(400, "Le commentaire ne peut pas être vide")

  /** A notification of type `project_update` about project `id`. */
  function Notify(userId: Value, title: string, message: string, id: Value): Write
  {
    Insert(NotificationsTable, [userId, Str(title), Str(message), id])
  }

  /** The comment handler. `project` is what the project lookup returns; it is only
      looked up for a public comment. A truthy comment that is not a string has no
      `trim` method: the call throws and the handler answers 500. */
  function AddComment(id: Value, adminId: Value, comment: Value, isInternal: Value,
                      project: Option<ProjectRow>): Outcome
  {
    if !Truthy(comment) then Reject(CommentRequired)
    else if !comment.Str? then Reject(ServerError)
    else if Trim(comment.s) == "" then Reject(CommentRequired)
    else
      var insert := Insert(CommentsTable, [id, adminId, comment, Or(isInternal, Bool(false))]);
      if !Truthy(isInternal) && project.Some? then
        Outcome([insert, Notify(project.value.userId, "Nouveau commentaire sur votre projet",
                                "Un commentaire a été ajouté sur \"" + ToText(project.value.title) + "\"", id)],
                Succeeded)
      else Outcome([insert], Succeeded)
  }

  /** A comment is refused with 400, before any write, exactly when it is missing,
      empty or made of white space only; a public comment on an existing project
      notifies its owner, and an internal one notifies no one. */
  lemma CommentRules(id: Value, adminId: Value, comment: Value, isInternal: Value, project: Option<ProjectRow>)
    ensures var o := AddComment(id, adminId, comment, isInternal, project);
      && (o.reply == Failed(CommentRequired) <==>
            comment.Undefined? || comment.Null? || comment == Bool(false) || comment == Num(0)
            || (comment.Str? && forall i :: 0 <= i < |comment.s| ==> IsSpace(comment.s[i])))
      && (o.reply.Failed? ==> o.writes == [])
      && (o.reply == Succeeded ==>
            && o.writes[0] == Insert(CommentsTable, [id, adminId, comment, Or(isInternal, Bool(false))])
            && (|o.writes| == 2 <==> !Truthy(isInternal) && project.Some?)
            && (|o.writes| == 2 ==> o.writes[1].table == NotificationsTable
                                    && o.writes[1].values[0] == project.value.userId))
  {
    if comment.Str? {
      TrimEmptyIff(comment.s);
    }
  }

  // ===========================================================================
  // POST /admin/projects/:id/files

  const FilesTable := "project_files"
  const FileFieldsRequired := Failure(400, "Nom et URL du fichier requis")
  const ProjectNotFound := Failure(404, "Projet non trouvé")

  /** The request body of a new file. */
  datatype FileDraft = FileDraft(fileName: Value, fileUrl: Value, fileType: Value, fileSize: Value,
                                 mimeType: Value, description: Value)

  /** The file handler: `project` is what the project lookup returns and `fileId` the
      id the database gives the new row. */
  function AddFile(id: Value, adminId: Value, d: FileDraft, project: Option<ProjectRow>, fileId: Value): Outcome
  {
    if !Truthy(d.fileName) || !Truthy(d.fileUrl) then Reject(FileFieldsRequired)
    else if project.None? then Reject(ProjectNotFound)
    else
      Outcome([Insert(FilesTable, [id, adminId, d.fileName, d.fileUrl, Or(d.fileType, Str("other")),
                                   Or(d.fileSize, Null), Or(d.mimeType, Str("application/octet-stream")),
                                   Or(d.description, Null)]),
               Notify(project.value.userId, "Nouveau fichier ajouté",
                      "Un fichier \"" + ToText(d.fileName) + "\" a été ajouté à votre projet \""
                      + ToText(project.value.title) + "\"", id),
               Insert(ActivityLogTable, [adminId, fileId, Str("Fichier ajouté: " + ToText(d.fileName))])],
              Succeeded)
  }

  /** A file needs a name and a URL (400), then an existing project (404), and is
      refused before any write otherwise; an accepted file is inserted, its project's
      owner notified and the upload logged, in that order. */
  lemma FileRules(id: Value, adminId: Value, d: FileDraft, project: Option<ProjectRow>, fileId: Value)
    ensures var o := AddFile(id, adminId, d, project, fileId);
      && (o.reply == Failed(FileFieldsRequired) <==> !Truthy(d.fileName) || !Truthy(d.fileUrl))
      && (o.reply == Failed(ProjectNotFound) <==> Truthy(d.fileName) && Truthy(d.fileUrl) && project.None?)
      && (o.reply.Failed? ==> o.writes == [])
      && (o.reply == Succeeded ==>
            && |o.writes| == 3
            && o.writes[0].table == FilesTable && o.writes[1].table == NotificationsTable
            && o.writes[2].table == ActivityLogTable
            && o.writes[1].values[0] == project.value.userId
            && (!Truthy(d.fileType) ==> o.writes[0].values[4] == Str("other"))
            && (!Truthy(d.mimeType) ==> o.writes[0].values[6] == Str("application/octet-stream")))
  {
  }

  // ===========================================================================
  // POST /admin/projects/:id/update-message

  const UpdatesTable := "project_updates"
  const TitleAndMessageRequired := Failure(400, "Titre et message requis")

  /** The update-message handler. The notification carries the first 200 characters
      of the message, and `...` when it is longer; a truthy message that is not a
      string has no `substring` method, so the handler answers 500 after the update
      row is written. */
  function SendUpdateMessage(id: Value, adminId: Value, title: Value, message: Value, updateType: Value,
                             project: Option<ProjectRow>): Outcome
  {
    if !Truthy(title) || !Truthy(message) then Reject(TitleAndMessageRequired)
    else if project.None? then Reject(ProjectNotFound)
    else
      var update := Insert(UpdatesTable, [id, adminId, title, message, Or(updateType, Str("info"))]);
      if !message.Str? then Outcome([update], Failed(ServerError))
      else
        Outcome([update, Insert(NotificationsTable, [project.value.userId, title, Str(Truncate(message.s, 200)), id])],
                Succeeded)
  }

  /** A title and a message are required (400) and the project must exist (404), with
      nothing written otherwise; the notification text is the message when it has at
      most 200 characters, and otherwise its first 200 characters followed by `...`,
      so it never exceeds 203 characters. */
  lemma UpdateMessageRules(id: Value, adminId: Value, title: Value, message: Value, updateType: Value,
                           project: Option<ProjectRow>)
    ensures var o := SendUpdateMessage(id, adminId, title, message, updateType, project);
      && (o.reply == Failed(TitleAndMessageRequired) <==> !Truthy(title) || !Truthy(message))
      && (o.reply == Failed(ProjectNotFound) <==> Truthy(title) && Truthy(message) && project.None?)
      && (o.reply == Failed(TitleAndMessageRequired) || o.reply == Failed(ProjectNotFound) ==> o.writes == [])
      && (o.reply == Succeeded ==>
            && message.Str? && |o.writes| == 2
            && o.writes[0] == Insert(UpdatesTable, [id, adminId, title, message, Or(updateType, Str("info"))])
            && o.writes[1].table == NotificationsTable
            && var text := o.writes[1].values[2].s;
               && |text| <= 203
               && (|message.s| <= 200 ==> text == message.s)
               && (|message.s| > 200 ==> text == message.s[..200] + "..."))
  {
  }
}
