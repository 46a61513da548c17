/** Where approvals come from and what becomes of them: every row and every mark
    on it goes back to an event, who may act is decided by what was recorded, and
    a handler that nothing disturbs does its whole work. */
module ApprovalTraces {
  import opened Text
  import opened Approvals

  // ---------- every row was requested ----------

  /** The workflow last configured. */
  function InForce(config: Workflow, events: seq<Event>): Workflow {
    if events == [] then config
    else if events[|events| - 1].Configure? then events[|events| - 1].config
    else InForce(config, events[..|events| - 1])
  }

  lemma {:induction false} ConfigIsInForce(config: Workflow, events: seq<Event>)
    ensures Run(Initial(config), events).config == InForce(config, events)
    decreases |events|
  {
    if events != [] {
      var front, last := events[..|events| - 1], events[|events| - 1];
      assert events == front + [last];
      RunSnoc(Initial(config), front, last);
      ConfigIsInForce(config, front);
    }
  }

  /** The event that asked for it, and the workflow in force when it did. */
  ghost predicate RequestedAt(config: Workflow, events: seq<Event>, i: int, id: int, requester: User, target: Target,
                              workflow: Workflow) {
    0 <= i < |events| && events[i] == Request(id, requester, target)
    && InForce(config, events[..i]) == workflow
  }

  ghost predicate WasRequested(config: Workflow, events: seq<Event>, id: int, d: Details) {
    d.workflow.Some? && exists i :: RequestedAt(config, events, i, id, User(d.requestedById, d.requestedBy), d.target,
                                                d.workflow.value)
  }

  ghost predicate AllRequested(config: Workflow, events: seq<Event>, s: State) {
    forall id | id in s.rows :: WasRequested(config, events, id, s.rows[id].details)
  }

  lemma {:induction false} RunSnoc(s: State, front: seq<Event>, last: Event)
    ensures Run(s, front + [last]) == Step(Run(s, front), last)
    decreases |front|
  {
    if front == [] {
      assert [last][1..] == [];
    } else {
      assert (front + [last])[1..] == front[1..] + [last];
      RunSnoc(Step(s, front[0]), front[1..], last);
    }
  }

  /** What is settled when the row is made. */
  predicate SameRequest(d: Details, e: Details) {
    d.requestedById == e.requestedById && d.requestedBy == e.requestedBy && d.workflow == e.workflow
    && d.target == e.target
  }

  lemma StepKeepsRequests(s: State, e: Event, id: int)
    requires Inv(s) && id in s.rows
    ensures id in Step(s, e).rows && SameRequest(s.rows[id].details, Step(s, e).rows[id].details)
  {
    if e.Proceed? && e.handler in s.handlers {
      assert HandlerOk(s, s.handlers[e.handler]);
    }
  }

  lemma NewRow(s: State, e: Event, id: int)
    requires id in Step(s, e).rows && id !in s.rows
    ensures e.Request? && e.id == id && e.requester.id > 0
    ensures Step(s, e).rows[id].details
            == Details(e.requester.id, e.requester.name, Some(s.config), e.target, None, None, None)
  {
  }

  lemma LongerTrace(config: Workflow, front: seq<Event>, last: Event, id: int, d: Details)
    requires WasRequested(config, front, id, d)
    ensures WasRequested(config, front + [last], id, d)
  {
    var requester := User(d.requestedById, d.requestedBy);
    var i :| RequestedAt(config, front, i, id, requester, d.target, d.workflow.value);
    assert (front + [last])[..i] == front[..i];
    assert RequestedAt(config, front + [last], i, id, requester, d.target, d.workflow.value);
  }

  lemma {:induction false} RunIsRequested(config: Workflow, events: seq<Event>)
    ensures AllRequested(config, events, Run(Initial(config), events))
    decreases |events|
  {
    if events != [] {
      var front, last := events[..|events| - 1], events[|events| - 1];
      var s := Run(Initial(config), front);
      assert events == front + [last];
      RunSnoc(Initial(config), front, last);
      RunIsRequested(config, front);
      RunKeeps(Initial(config), front);
      var t := Step(s, last);
      forall id | id in t.rows
        ensures WasRequested(config, events, id, t.rows[id].details)
      {
        if id in s.rows {
          StepKeepsRequests(s, last, id);
          LongerTrace(config, front, last, id, s.rows[id].details);
        } else {
          NewRow(s, last, id);
          ConfigIsInForce(config, front);
          assert events[..|front|] == front;
          var d := t.rows[id].details;
          assert RequestedAt(config, events, |front|, id, User(d.requestedById, d.requestedBy), d.target,
                             d.workflow.value);
        }
      }
    }
  }

  /** Every action that was run is one somebody asked for, on the server and with
      the action of that request; the row records who asked, and the workflow in
      force when they did. */
  lemma RunsWereRequested(config: Workflow, events: seq<Event>, k: nat)
    requires k < |Run(Initial(config), events).runs|
    ensures var s := Run(Initial(config), events);
            var run := s.runs[k];
            && run.id in s.rows && s.rows[run.id].details.workflow.Some?
            && var d := s.rows[run.id].details;
               exists i :: RequestedAt(config, events, i, run.id, User(d.requestedById, d.requestedBy), run.target,
                                       d.workflow.value)
  {
    RunKeeps(Initial(config), events);
    RunIsRequested(config, events);
    SeparationOfDuties(config, events, k);
  }

  // ---------- every mark was made by its author ----------

  ghost predicate ReviewBegun(events: seq<Event>, id: int, author: User, reason: string) {
    exists e | e in events :: e.BeginReview? && e.id == id && e.actor == author && e.reason == reason
  }

  ghost predicate ApprovalBegun(events: seq<Event>, id: int, author: User, reason: string) {
    exists e | e in events :: e.BeginApprove? && e.id == id && e.actor == author && e.reason == reason
  }

  ghost predicate RejectionBegun(events: seq<Event>, id: int, author: User, reason: string) {
    exists e | e in events :: e.BeginReject? && e.id == id && e.actor == author && e.reason == reason
  }

  ghost predicate MarksBegun(events: seq<Event>, id: int, d: Details) {
    && (d.review.Some? ==> ReviewBegun(events, id, d.review.value.author, d.review.value.reason))
    && (d.execution.Some? ==> ApprovalBegun(events, id, d.execution.value.author, d.execution.value.reason))
    && (d.rejection.Some? ==> RejectionBegun(events, id, d.rejection.value.author, d.rejection.value.reason))
  }

  ghost predicate HandlerBegun(events: seq<Event>, h: Handler) {
    match h
    case Reviewing(id, actor, _, reason) => ReviewBegun(events, id, actor, reason)
    case Approving(id, actor, _, reason) => ApprovalBegun(events, id, actor, reason)
    case Rejecting(id, actor, _, reason) => RejectionBegun(events, id, actor, reason)
    case _ => true
  }

  ghost predicate AllBegun(events: seq<Event>, s: State) {
    && (forall id | id in s.rows :: MarksBegun(events, id, s.rows[id].details))
    && (forall t | t in s.handlers :: HandlerBegun(events, s.handlers[t]))
  }

  lemma BegunLonger(front: seq<Event>, last: Event, s: State)
    requires AllBegun(front, s)
    ensures AllBegun(front + [last], s)
  {
    assert forall e | e in front :: e in front + [last];
    forall id | id in s.rows
      ensures MarksBegun(front + [last], id, s.rows[id].details)
    {
    }
    forall t | t in s.handlers
      ensures HandlerBegun(front + [last], s.handlers[t])
    {
    }
  }

  lemma StepKeepsBegun(events: seq<Event>, s: State, e: Event)
    requires Inv(s) && AllBegun(events, s) && e in events
    ensures AllBegun(events, Step(s, e))
  {
    if e.Proceed? && e.handler in s.handlers {
      assert HandlerOk(s, s.handlers[e.handler]) && HandlerBegun(events, s.handlers[e.handler]);
    }
  }

  lemma {:induction false} RunIsBegun(config: Workflow, events: seq<Event>)
    ensures AllBegun(events, Run(Initial(config), events))
    decreases |events|
  {
    if events != [] {
      var front, last := events[..|events| - 1], events[|events| - 1];
      assert events == front + [last];
      RunSnoc(Initial(config), front, last);
      RunIsBegun(config, front);
      RunKeeps(Initial(config), front);
      BegunLonger(front, last, Run(Initial(config), front));
      StepKeepsBegun(events, Run(Initial(config), front), last);
    }
  }

  /** Reviews, executions and rejections on record were made by the people they
      name, for that approval, with that reason. */
  lemma MarksAreTheirAuthors(config: Workflow, events: seq<Event>, id: int)
    requires id in Run(Initial(config), events).rows
    ensures MarksBegun(events, id, Run(Initial(config), events).rows[id].details)
  {
    RunIsBegun(config, events);
  }

  /** Whoever is on record as running an action asked to approve it. */
  lemma RunnersApproved(config: Workflow, events: seq<Event>, k: nat)
    requires k < |Run(Initial(config), events).runs|
    ensures var run := Run(Initial(config), events).runs[k];
            exists e | e in events :: e.BeginApprove? && e.id == run.id && e.actor == run.approver
  {
    RunKeeps(Initial(config), events);
    var s := Run(Initial(config), events);
    MarksAreTheirAuthors(config, events, s.runs[k].id);
  }

  // ---------- the history is the statuses given ----------

  /** A step gives at most one row a status, and puts it on record. */
  lemma HistoryRecordsStatuses(s: State, e: Event, id: int)
    requires Inv(s) && id in Step(s, e).rows
    requires id !in s.rows || Step(s, e).rows[id] != s.rows[id]
    ensures Step(s, e).history == s.history + [(id, Step(s, e).rows[id].status)]
    ensures forall other | other in s.rows && other != id ::
              other in Step(s, e).rows && Step(s, e).rows[other] == s.rows[other]
    ensures id in s.rows ==> Rank(s.rows[id].status) < Rank(Step(s, e).rows[id].status)
  {
    if e.Proceed? && e.handler in s.handlers {
      assert HandlerOk(s, s.handlers[e.handler]);
    }
  }

  // ---------- who may act ----------

  predicate Reasoned(d: Details, reason: string) {
    d.workflow.Some? && (d.workflow.value.requireReason ==> TrimSpace(reason) != "")
  }

  /** Once a row is made, who may review, approve and reject it is decided by what
      was recorded, whatever the configuration has become. */
  lemma ActingExactly(row: Approval, config: Workflow, actor: User, reason: string)
    requires RowOk(row) && actor.id > 0
    ensures var d := row.details;
            && (MayReview(row, config, actor, reason)
                <==> row.status == PendingReview && Reasoned(d, reason) && actor.id != d.requestedById)
            && (MayApprove(row, config, actor, reason)
                <==> row.status == Pending && Reasoned(d, reason) && actor.id != d.requestedById
                     && (d.review.Some? ==> actor.id != d.review.value.author.id))
            && (MayReject(row, config, actor, reason)
                <==> (row.status == Pending || row.status == PendingReview) && Reasoned(d, reason)
                     && actor.id != d.requestedById)
  {
  }

  /** Which refusal it is, for rows that recorded ids. */
  lemma ConflictById(d: Details, actor: User, stage: Stage)
    requires d.requestedById > 0 && actor.id > 0 && (d.review.Some? ==> d.review.value.author.id > 0)
    ensures ActorConflict(d, actor, stage) == SelfForbidden(stage) <==> actor.id == d.requestedById
    ensures ActorConflict(d, actor, stage) == ReviewerApproverConflict
            <==> actor.id != d.requestedById && stage == ApproveStage && d.review.Some?
                 && actor.id == d.review.value.author.id
  {
  }

  /** Rows from before ids were recorded go by name, blanks and case aside. */
  lemma ConflictByName(d: Details, actor: User, stage: Stage)
    requires d.requestedById == 0 && (d.review.Some? ==> d.review.value.author.id == 0)
    ensures ActorConflict(d, actor, stage) == SelfForbidden(stage)
            <==> d.requestedBy != "" && Lower(TrimSpace(d.requestedBy)) == Lower(TrimSpace(actor.name))
    ensures ActorConflict(d, actor, stage) == ReviewerApproverConflict
            <==> && ActorConflict(d, actor, stage) != SelfForbidden(stage) && stage == ApproveStage && d.review.Some?
                 && d.review.value.author.name != ""
                 && Lower(TrimSpace(d.review.value.author.name)) == Lower(TrimSpace(actor.name))
  {
  }

  /** What a fresh request waits for: a review exactly when managers review, an
      approval exactly when they do not, by anybody but the requester. */
  lemma RequestAwaits(s: State, id: int, requester: User, target: Target, config: Workflow, actor: User, reason: string)
    requires id !in s.rows && requester.id > 0 && actor.id > 0
    ensures var t := Step(s, Request(id, requester, target));
            var may := actor.id != requester.id && (s.config.requireReason ==> TrimSpace(reason) != "");
            && id in t.rows
            && (MayReview(t.rows[id], config, actor, reason) <==> s.config.managerReview && may)
            && (MayApprove(t.rows[id], config, actor, reason) <==> !s.config.managerReview && may)
            && (MayReject(t.rows[id], config, actor, reason) <==> may)
  {
  }

  // ---------- a handler that nothing disturbs ----------

  lemma RunTwo(s: State, a: Event, b: Event)
    ensures Run(s, [a, b]) == Step(Step(s, a), b)
  {
    assert [a, b][1..] == [b] && [b][1..] == [];
    assert Run(Step(s, a), [b]) == Run(Step(Step(s, a), b), []);
  }

  lemma RunFour(s: State, a: Event, b: Event, c: Event, d: Event)
    ensures Run(s, [a, b, c, d]) == Step(Step(Step(Step(s, a), b), c), d)
  {
    assert [a, b, c, d][1..] == [b, c, d] && [b, c, d][1..] == [c, d];
    RunTwo(Step(Step(s, a), b), c, d);
  }

  /** An undisturbed review leaves the row pending, with the review on it. */
  lemma UndisturbedReview(s: State, h: int, id: int, actor: User, reason: string)
    requires Inv(s) && h !in s.handlers && actor.id > 0 && id in s.rows
    requires MayReview(s.rows[id], s.config, actor, reason)
    ensures var d := s.rows[id].details;
            Run(s, [BeginReview(h, id, actor, reason), Proceed(h, true)])
            == s.(rows := s.rows[id := Approval(Pending, d.(review := Some(Mark(actor, reason))))],
                  history := s.history + [(id, Pending)])
  {
    RunTwo(s, BeginReview(h, id, actor, reason), Proceed(h, true));
    assert s.handlers[h := Reviewing(id, actor, s.rows[id], reason)] - {h} == s.handlers;
  }

  /** An undisturbed rejection closes the row. */
  lemma UndisturbedRejection(s: State, h: int, id: int, actor: User, reason: string)
    requires Inv(s) && h !in s.handlers && actor.id > 0 && id in s.rows
    requires MayReject(s.rows[id], s.config, actor, reason)
    ensures var d := s.rows[id].details;
            Run(s, [BeginReject(h, id, actor, reason), Proceed(h, true)])
            == s.(rows := s.rows[id := Approval(Rejected, d.(rejection := Some(Mark(actor, reason))))],
                  history := s.history + [(id, Rejected)])
  {
    RunTwo(s, BeginReject(h, id, actor, reason), Proceed(h, true));
    assert s.handlers[h := Rejecting(id, actor, s.rows[id], reason)] - {h} == s.handlers;
  }

  /** An undisturbed approval claims the row, runs the requested action once, and
      records how it went. */
  lemma UndisturbedApproval(s: State, h: int, id: int, actor: User, reason: string, ok: bool)
    requires Inv(s) && h !in s.handlers && actor.id > 0 && id in s.rows
    requires MayApprove(s.rows[id], s.config, actor, reason)
    ensures var d := s.rows[id].details.(execution := Some(Mark(actor, reason)));
            var last := if ok then Approved else Failed;
            Run(s, [BeginApprove(h, id, actor, reason), Proceed(h, true), Proceed(h, ok), Proceed(h, true)])
            == s.(rows := s.rows[id := Approval(last, d)],
                  runs := s.runs + [ActionRun(id, actor, d.target, ok)],
                  history := s.history + [(id, Executing), (id, last)])
  {
    var d := s.rows[id].details.(execution := Some(Mark(actor, reason)));
    RunFour(s, BeginApprove(h, id, actor, reason), Proceed(h, true), Proceed(h, ok), Proceed(h, true));
    var a := Step(s, BeginApprove(h, id, actor, reason));
    assert a.handlers[h] == Approving(id, actor, s.rows[id], reason);
    var b := Step(a, Proceed(h, true));
    assert b.handlers[h] == Claimed(id, actor, d) && b.rows[id] == Approval(Executing, d);
    var c := Step(b, Proceed(h, ok));
    assert c.handlers[h] == Finishing(id, actor, d, ok) && c.rows == b.rows;
    var last := if ok then Approved else Failed;
    var e := Step(c, Proceed(h, true));
    assert e.handlers == s.handlers;
    assert e.rows == s.rows[id := Approval(last, d)];
    assert e.history == s.history + [(id, Executing)] + [(id, last)];
  }
}
