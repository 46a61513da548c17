/** The approval workflow: rows moved by a compare-and-swap on status, and
    handlers that read a row, decide, and swap an arbitrary time later. */
module Approvals {
  import opened Text

  datatype Status = PendingReview | Pending | Executing | Approved | Failed | Rejected

  datatype Workflow = Workflow(managerReview: bool, requireReason: bool)
  datatype User = User(id: int, name: string)
  datatype Mark = Mark(author: User, reason: string)
  datatype Target = Target(serverId: int, action: string)

  /** The JSON details of an approval, by the members the handlers touch. */
  datatype Details = Details(requestedById: int, requestedBy: string, workflow: Option<Workflow>, target: Target,
                             review: Option<Mark>, execution: Option<Mark>, rejection: Option<Mark>)
  datatype Approval = Approval(status: Status, details: Details)

  // ---------- pure checks ----------

  function EffectiveWorkflow(d: Details, config: Workflow): Workflow {
    if d.workflow.Some? then d.workflow.value else config
  }

  predicate ReasonOk(required: bool, reason: string) {
    required ==> TrimSpace(reason) != ""
  }

  predicate SameName(recorded: string, actor: string) {
    recorded != "" && EqualFold(TrimSpace(recorded), TrimSpace(actor))
  }

  /** The recorded person is the actor: by id, or by name when no id was recorded. */
  predicate Recorded(id: int, name: string, actor: User) {
    if id == 0 then SameName(name, actor.name) else id > 0 && actor.id > 0 && id == actor.id
  }

  datatype Stage = ReviewStage | ApproveStage | RejectStage
  datatype Conflict = NoConflict | SelfForbidden(stage: Stage) | ReviewerApproverConflict

  function ActorConflict(d: Details, actor: User, stage: Stage): Conflict {
    if Recorded(d.requestedById, d.requestedBy, actor) then SelfForbidden(stage)
    else if stage == ApproveStage && d.review.Some?
         && Recorded(d.review.value.author.id, d.review.value.author.name, actor) then ReviewerApproverConflict
    else NoConflict
  }

  // ---------- the state machine ----------

  /** What a handler holds between its atomic steps. */
  datatype Handler =
    | Reviewing(id: int, actor: User, seen: Approval, reason: string)
    | Approving(id: int, actor: User, seen: Approval, reason: string)
    | Rejecting(id: int, actor: User, seen: Approval, reason: string)
    | Claimed(id: int, actor: User, details: Details)
    | Finishing(id: int, actor: User, details: Details, ok: bool)

  datatype ActionRun = ActionRun(id: int, approver: User, target: Target, ok: bool)

  /** runs: the remote actions carried out. history: every status an approval was
      given, in order. lost: final transitions that found another status. */
  datatype State = State(rows: map<int, Approval>, handlers: map<int, Handler>, config: Workflow,
                         runs: seq<ActionRun>, history: seq<(int, Status)>, lost: nat)

  datatype Event =
    | Configure(config: Workflow)
    | Request(id: int, requester: User, target: Target)
    | BeginReview(handler: int, id: int, actor: User, reason: string)
    | BeginApprove(handler: int, id: int, actor: User, reason: string)
    | BeginReject(handler: int, id: int, actor: User, reason: string)
    | Proceed(handler: int, ok: bool)
    | Crash(handler: int)

  predicate MayReview(row: Approval, config: Workflow, actor: User, reason: string) {
    var w := EffectiveWorkflow(row.details, config);
    row.status == PendingReview && w.managerReview && ReasonOk(w.requireReason, reason)
        && ActorConflict(row.details, actor, ReviewStage) == NoConflict
  }

  predicate MayApprove(row: Approval, config: Workflow, actor: User, reason: string) {
    row.status == Pending && ReasonOk(EffectiveWorkflow(row.details, config).requireReason, reason)
    && ActorConflict(row.details, actor, ApproveStage) == NoConflict
  }

  predicate MayReject(row: Approval, config: Workflow, actor: User, reason: string) {
    row.status in {Pending, PendingReview} && ReasonOk(EffectiveWorkflow(row.details, config).requireReason, reason)
    && ActorConflict(row.details, actor, RejectStage) == NoConflict
  }

  /** UPDATE resources ... WHERE id=$2 AND status=$3: whether it wins. */
  predicate Wins(rows: map<int, Approval>, id: int, expected: Status) {
    id in rows && rows[id].status == expected
  }

  function Swap(s: State, id: int, expected: Status, next: Approval): State {
    if Wins(s.rows, id, expected) then s.(rows := s.rows[id := next], history := s.history + [(id, next.status)]) else s
  }

  function Drop(s: State, handler: int): State {
    s.(handlers := s.handlers - {handler})
  }

  function Begin(s: State, handler: int, h: Handler): State {
    if handler in s.handlers then s else s.(handlers := s.handlers[handler := h])
  }

  /** A server action that needs approval creates the row with the requester and
      the workflow in force. */
  function CreateRequest(s: State, id: int, requester: User, target: Target): State {
    if id in s.rows || requester.id <= 0 then s
    else
      var status := if s.config.managerReview then PendingReview else Pending;
      var details := Details(requester.id, requester.name, Some(s.config), target, None, None, None);
      s.(rows := s.rows[id := Approval(status, details)], history := s.history + [(id, status)])
  }

  /** The next atomic step of one handler. */
  function Advance(s: State, handler: int, ok: bool): State
    requires handler in s.handlers
  {
    match s.handlers[handler]
    case Reviewing(id, actor, seen, reason) =>
      Drop(Swap(s, id, PendingReview, Approval(Pending, seen.details.(review := Some(Mark(actor, reason))))), handler)
    case Rejecting(id, actor, seen, reason) =>
      Drop(Swap(s, id, seen.status, Approval(Rejected, seen.details.(rejection := Some(Mark(actor, reason))))), handler)
    case Approving(id, actor, seen, reason) =>
      var details := seen.details.(execution := Some(Mark(actor, reason)));
      if Wins(s.rows, id, Pending) then
        var t := Swap(s, id, Pending, Approval(Executing, details));
        t.(handlers := t.handlers[handler := Claimed(id, actor, details)])
      else Drop(s, handler)
    case Claimed(id, actor, details) =>
      s.(runs := s.runs + [ActionRun(id, actor, details.target, ok)],
         handlers := s.handlers[handler := Finishing(id, actor, details, ok)])
    case Finishing(id, _, details, succeeded) =>
      var t := Drop(Swap(s, id, Executing, Approval(if succeeded then Approved else Failed, details)), handler);
      if Wins(s.rows, id, Executing) then t else t.(lost := t.lost + 1)
  }

  function Step(s: State, e: Event): State {
    match e
    case Configure(config) => s.(config := config)
    case Request(id, requester, target) => CreateRequest(s, id, requester, target)
    case BeginReview(h, id, actor, reason) =>
      if actor.id > 0 && id in s.rows && MayReview(s.rows[id], s.config, actor, reason)
          then Begin(s, h, Reviewing(id, actor, s.rows[id], reason)) else s
    case BeginApprove(h, id, actor, reason) =>
      if actor.id > 0 && id in s.rows && MayApprove(s.rows[id], s.config, actor, reason)
          then Begin(s, h, Approving(id, actor, s.rows[id], reason)) else s
    case BeginReject(h, id, actor, reason) =>
      if actor.id > 0 && id in s.rows && MayReject(s.rows[id], s.config, actor, reason)
          then Begin(s, h, Rejecting(id, actor, s.rows[id], reason)) else s
    case Proceed(h, ok) => if h in s.handlers then Advance(s, h, ok) else s
    case Crash(h) => Drop(s, h)
  }

  function Run(s: State, events: seq<Event>): State
    decreases |events|
  {
    if events == [] then s else Run(Step(s, events[0]), events[1..])
  }

  // ---------- what holds of every row ----------

  function Rank(s: Status): nat {
    match s case PendingReview => 0 case Pending => 1 case Executing => 2 case _ => 3
  }

  predicate Reviewed(d: Details) {
    d.review.Some? && d.review.value.author.id > 0 && d.review.value.author.id != d.requestedById
  }

  /** Separation of duties, status by status. */
  predicate RowOk(row: Approval) {
    var d := row.details;
    && d.requestedById > 0 && d.workflow.Some?
    && (d.review.Some? ==> Reviewed(d))
    && (row.status == PendingReview ==> d.workflow.value.managerReview && d.review.None?)
    && (row.status in {Pending, Executing, Approved, Failed} && d.workflow.value.managerReview ==> Reviewed(d))
    && (row.status in {Executing, Approved, Failed} ==>
          d.execution.Some? && d.execution.value.author.id != d.requestedById
              && (d.review.Some? ==> d.review.value.author.id != d.execution.value.author.id))
    && (row.status == Rejected ==> d.rejection.Some? && d.rejection.value.author.id != d.requestedById)
  }

  /** A handler that read a row and finds its status unchanged finds the whole
      row unchanged. */
  ghost predicate HandlerOk(s: State, h: Handler) {
    && h.id in s.rows && h.actor.id > 0
    && (h.Reviewing? || h.Approving? || h.Rejecting? ==>
          && Rank(h.seen.status) <= Rank(s.rows[h.id].status) && Rank(h.seen.status) < 2
          && (h.seen.status == s.rows[h.id].status ==> h.seen == s.rows[h.id]))
    && (h.Reviewing? ==> h.seen.status == PendingReview
                         && ActorConflict(h.seen.details, h.actor, ReviewStage) == NoConflict)
    && (h.Approving? ==> h.seen.status == Pending && ActorConflict(h.seen.details, h.actor, ApproveStage) == NoConflict)
    && (h.Rejecting? ==> ActorConflict(h.seen.details, h.actor, RejectStage) == NoConflict)
    && (h.Claimed? || h.Finishing? ==> s.rows[h.id] == Approval(Executing, h.details) && h.details.execution.Some?
                                       && h.details.execution.value.author == h.actor)
  }

  predicate Holds(h: Handler, id: int) {
    (h.Claimed? || h.Finishing?) && h.id == id
  }

  ghost predicate HandlersOk(s: State) {
    && (forall t | t in s.handlers :: HandlerOk(s, s.handlers[t]))
    && (forall t, u | t in s.handlers && u in s.handlers && Holds(s.handlers[t], s.handlers[t].id)
        && Holds(s.handlers[u], s.handlers[t].id) :: t == u)
  }

  ghost predicate Ran(runs: seq<ActionRun>, id: int) {
    exists i :: 0 <= i < |runs| && runs[i].id == id
  }

  /** At most one run per approval, by its recorded approver, on its target; none
      before the claim is acted on; final statuses only after it. */
  ghost predicate RunsOk(s: State) {
    && (forall i, j | 0 <= i < |s.runs| && 0 <= j < |s.runs| && s.runs[i].id == s.runs[j].id :: i == j)
    && (forall i | 0 <= i < |s.runs| ::
          var r := s.runs[i];
          && r.id in s.rows && s.rows[r.id].status in {Executing, Approved, Failed}
          && s.rows[r.id].details.execution.Some? && s.rows[r.id].details.execution.value.author == r.approver
          && s.rows[r.id].details.target == r.target
          && (s.rows[r.id].status == Approved ==> r.ok) && (s.rows[r.id].status == Failed ==> !r.ok))
    && (forall t | t in s.handlers && s.handlers[t].Claimed? :: !Ran(s.runs, s.handlers[t].id))
    && (forall t | t in s.handlers && s.handlers[t].Finishing? :: exists i ::
            0 <= i < |s.runs| && s.runs[i].id == s.handlers[t].id && s.runs[i].ok == s.handlers[t].ok)
    && (forall id | id in s.rows && s.rows[id].status in {Approved, Failed} :: Ran(s.runs, id))
  }

  /** Statuses only advance. */
  ghost predicate HistoryOk(s: State) {
    && (forall i | 0 <= i < |s.history| :: s.history[i].0 in s.rows
                                          && Rank(s.history[i].1) <= Rank(s.rows[s.history[i].0].status))
    && (forall i, j | 0 <= i < j < |s.history| && s.history[i].0 == s.history[j].0 ::
            Rank(s.history[i].1) < Rank(s.history[j].1))
  }

  ghost predicate Inv(s: State) {
    && (forall id | id in s.rows :: RowOk(s.rows[id]))
    && HandlersOk(s) && RunsOk(s) && HistoryOk(s) && s.lost == 0
  }

  // ---------- one row moves forward ----------

  /** The shape of every change to a row: its rank rises, the rest stays. */
  ghost predicate Moved(s: State, t: State, id: int) {
    && id in s.rows && id in t.rows && t.rows == s.rows[id := t.rows[id]]
    && Rank(s.rows[id].status) < Rank(t.rows[id].status)
    && t.history == s.history + [(id, t.rows[id].status)]
  }

  lemma MoveKeepsHistory(s: State, t: State, id: int)
    requires HistoryOk(s) && id in t.rows && Moved(s, t, id)
    ensures HistoryOk(t)
  {
  }

  /** Readers of other rows are unaffected; readers of this row now hold a lower rank. */
  lemma MoveKeepsReaders(s: State, t: State, id: int, h: Handler)
    requires Moved(s, t, id) && HandlerOk(s, h) && !Holds(h, id)
    ensures HandlerOk(t, h)
  {
  }

  lemma ReviewKeeps(s: State, t: int)
    requires Inv(s) && t in s.handlers && s.handlers[t].Reviewing?
    ensures Inv(Advance(s, t, true))
  {
    var h, u := s.handlers[t], Advance(s, t, true);
    if Wins(s.rows, h.id, PendingReview) {
      assert h.seen == s.rows[h.id];
      MovedKeeps(s, u, h.id, t);
    }
  }

  lemma RejectKeeps(s: State, t: int)
    requires Inv(s) && t in s.handlers && s.handlers[t].Rejecting?
    ensures Inv(Advance(s, t, true))
  {
    var h, u := s.handlers[t], Advance(s, t, true);
    if Wins(s.rows, h.id, h.seen.status) {
      MovedKeeps(s, u, h.id, t);
    }
  }

  /** Moving a row that nobody holds and nobody has run. */
  lemma MovedKeeps(s: State, u: State, id: int, t: int)
    requires Inv(s) && Moved(s, u, id) && RowOk(u.rows[id])
    requires u.handlers == s.handlers - {t} && u.runs == s.runs && u.lost == s.lost
    requires Rank(s.rows[id].status) < 2 && u.rows[id].status !in {Approved, Failed}
    ensures Inv(u)
  {
    MoveKeepsHistory(s, u, id);
    forall v | v in u.handlers
      ensures HandlerOk(u, u.handlers[v])
    {
      MoveKeepsReaders(s, u, id, u.handlers[v]);
    }
  }

  lemma ClaimKeeps(s: State, t: int)
    requires Inv(s) && t in s.handlers && s.handlers[t].Approving?
    ensures Inv(Advance(s, t, true))
  {
    var h, u := s.handlers[t], Advance(s, t, true);
    if Wins(s.rows, h.id, Pending) {
      assert h.seen == s.rows[h.id];
      var swapped := Drop(Swap(s, h.id, Pending, u.rows[h.id]), t);
      MovedKeeps(s, swapped, h.id, t);
      assert u == swapped.(handlers := swapped.handlers[t := u.handlers[t]]);
      assert !Ran(s.runs, h.id);
      ClaimerJoins(swapped, t, u.handlers[t]);
    }
  }

  /** A fresh claim on a row nobody holds or has run. */
  lemma ClaimerJoins(s: State, t: int, h: Handler)
    requires Inv(s) && t !in s.handlers && h.Claimed? && HandlerOk(s, h) && !Ran(s.runs, h.id)
    requires forall v | v in s.handlers :: !Holds(s.handlers[v], h.id)
    ensures Inv(s.(handlers := s.handlers[t := h]))
  {
    var u := s.(handlers := s.handlers[t := h]);
    forall v | v in u.handlers
      ensures HandlerOk(u, u.handlers[v])
    {
      assert v == t || HandlerOk(s, s.handlers[v]);
    }
  }

  lemma ExecuteKeeps(s: State, t: int, ok: bool)
    requires Inv(s) && t in s.handlers && s.handlers[t].Claimed?
    ensures Inv(Advance(s, t, ok))
  {
    var h, u := s.handlers[t], Advance(s, t, ok);
    assert !Ran(s.runs, h.id);
    assert u.runs[|s.runs|].id == h.id;
    forall id | Ran(s.runs, id)
      ensures Ran(u.runs, id)
    {
      var i :| 0 <= i < |s.runs| && s.runs[i].id == id;
      assert u.runs[i].id == id;
    }
    forall v | v in u.handlers && u.handlers[v].Finishing? && v != t
      ensures exists i :: 0 <= i < |u.runs| && u.runs[i].id == u.handlers[v].id && u.runs[i].ok == u.handlers[v].ok
    {
      var i :| 0 <= i < |s.runs| && s.runs[i].id == s.handlers[v].id && s.runs[i].ok == s.handlers[v].ok;
      assert u.runs[i] == s.runs[i];
    }
    forall v | v in u.handlers && u.handlers[v].Claimed?
      ensures !Ran(u.runs, u.handlers[v].id)
    {
      assert u.handlers[v].id != h.id;
    }
  }

  lemma FinishMoves(s: State, t: int)
    requires Inv(s) && t in s.handlers && s.handlers[t].Finishing?
    ensures var h, u := s.handlers[t], Advance(s, t, true);
            && Moved(s, u, h.id) && u.handlers == s.handlers - {t} && u.runs == s.runs && u.lost == 0
            && u.rows[h.id] == Approval(if h.ok then Approved else Failed, h.details)
            && s.rows[h.id] == Approval(Executing, h.details)
  {
  }

  lemma FinishKeepsRuns(s: State, t: int)
    requires Inv(s) && t in s.handlers && s.handlers[t].Finishing?
    ensures RunsOk(Advance(s, t, true))
  {
    var h, u := s.handlers[t], Advance(s, t, true);
    FinishMoves(s, t);
    var i :| 0 <= i < |s.runs| && s.runs[i].id == h.id && s.runs[i].ok == h.ok;
    assert Ran(u.runs, h.id);
  }

  lemma FinishKeeps(s: State, t: int)
    requires Inv(s) && t in s.handlers && s.handlers[t].Finishing?
    ensures Inv(Advance(s, t, true))
  {
    var h, u := s.handlers[t], Advance(s, t, true);
    FinishMoves(s, t);
    FinishKeepsRuns(s, t);
    MoveKeepsHistory(s, u, h.id);
    forall v | v in u.handlers
      ensures HandlerOk(u, u.handlers[v])
    {
      MoveKeepsReaders(s, u, h.id, u.handlers[v]);
    }
  }

  lemma BeginKeeps(s: State, t: int, h: Handler)
    requires Inv(s) && HandlerOk(s, h) && !h.Claimed? && !h.Finishing?
    ensures Inv(Begin(s, t, h))
  {
  }

  lemma RequestKeeps(s: State, id: int, requester: User, target: Target)
    requires Inv(s)
    ensures Inv(CreateRequest(s, id, requester, target))
  {
    var u := CreateRequest(s, id, requester, target);
    assert forall t | t in s.handlers :: s.handlers[t].id in s.rows;
  }

  lemma StepKeeps(s: State, e: Event)
    requires Inv(s)
    ensures Inv(Step(s, e))
  {
    match e
    case Configure(_) =>
    case Request(id, requester, target) => RequestKeeps(s, id, requester, target);
    case BeginReview(h, id, actor, reason) =>
      if Step(s, e) != s { BeginKeeps(s, h, Reviewing(id, actor, s.rows[id], reason)); }
    case BeginApprove(h, id, actor, reason) =>
      if Step(s, e) != s { BeginKeeps(s, h, Approving(id, actor, s.rows[id], reason)); }
    case BeginReject(h, id, actor, reason) =>
      if Step(s, e) != s { BeginKeeps(s, h, Rejecting(id, actor, s.rows[id], reason)); }
    case Proceed(h, ok) =>
      if h in s.handlers {
        match s.handlers[h]
        case Reviewing(_, _, _, _) => ReviewKeeps(s, h);
        case Rejecting(_, _, _, _) => RejectKeeps(s, h);
        case Approving(_, _, _, _) => ClaimKeeps(s, h);
        case Claimed(_, _, _) => ExecuteKeeps(s, h, ok);
        case Finishing(_, _, _, _) => FinishKeeps(s, h);
      }
    case Crash(h) =>
  }

  lemma {:induction false} RunKeeps(s: State, events: seq<Event>)
    requires Inv(s)
    ensures Inv(Run(s, events))
    decreases |events|
  {
    if events != [] {
      StepKeeps(s, events[0]);
      RunKeeps(Step(s, events[0]), events[1..]);
    }
  }

  // ---------- the main results ----------

  ghost function Initial(config: Workflow): State {
    State(map[], map[], config, [], [], 0)
  }

  /** In every interleaving of requests, reviews, approvals, rejections and
      crashes: each approval's action runs at most once, its statuses only
      advance, and no claimer ever loses its final transition. */
  lemma AtMostOnce(config: Workflow, events: seq<Event>)
    ensures var s := Run(Initial(config), events);
            && (forall i, j | 0 <= i < j < |s.runs| :: s.runs[i].id != s.runs[j].id)
            && (forall i, j | 0 <= i < j < |s.history| && s.history[i].0 == s.history[j].0 ::
                    s.history[i].1 != s.history[j].1)
            && s.lost == 0
  {
    RunKeeps(Initial(config), events);
  }

  /** Whoever ran an action is not its requester; when the request was made under
      manager review, a third person reviewed it. */
  lemma SeparationOfDuties(config: Workflow, events: seq<Event>, i: nat)
    requires i < |Run(Initial(config), events).runs|
    ensures var s := Run(Initial(config), events);
            var run := s.runs[i];
            run.id in s.rows &&
            var d := s.rows[run.id].details;
            && run.approver.id != d.requestedById && run.target == d.target
            && (d.workflow.Some? && d.workflow.value.managerReview ==>
                  d.review.Some? && d.review.value.author.id != d.requestedById
                      && d.review.value.author.id != run.approver.id)
  {
    RunKeeps(Initial(config), events);
    var s := Run(Initial(config), events);
    assert RowOk(s.rows[s.runs[i].id]);
  }

  /** An approved row's action ran and succeeded; a failed row's ran and failed. */
  lemma OutcomeMatchesRun(config: Workflow, events: seq<Event>, id: int)
    requires id in Run(Initial(config), events).rows
    ensures var s := Run(Initial(config), events);
            s.rows[id].status in {Approved, Failed} ==>
              exists i :: 0 <= i < |s.runs| && s.runs[i].id == id && (s.runs[i].ok <==> s.rows[id].status == Approved)
  {
    RunKeeps(Initial(config), events);
    var s := Run(Initial(config), events);
    if s.rows[id].status in {Approved, Failed} {
      var i :| 0 <= i < |s.runs| && s.runs[i].id == id;
    }
  }

  // ---------- the handlers' code ----------

  datatype Code = Continue | ReviewClosed | ReviewDisabled | ReasonRequired | ReviewRequired | ApprovalClosed
      | ConflictCode(conflict: Conflict)

  /** Everything approvalReview checks before it swaps, in its order. */
  method CheckReview(row: Approval, config: Workflow, actor: User, reason: string) returns (code: Code)
    ensures code == Continue <==> MayReview(row, config, actor, reason)
    ensures code == ReviewClosed <==> row.status != PendingReview
    ensures code == ReviewDisabled
            <==> row.status == PendingReview && !EffectiveWorkflow(row.details, config).managerReview
    ensures code == ReasonRequired
            <==> && row.status == PendingReview && EffectiveWorkflow(row.details, config).managerReview
                 && EffectiveWorkflow(row.details, config).requireReason && TrimSpace(reason) == ""
    ensures code.ConflictCode? ==> code.conflict == ActorConflict(row.details, actor, ReviewStage)
                                   && code.conflict != NoConflict
  {
    if row.status != PendingReview {
      return ReviewClosed;
    }
    var cfg := EffectiveWorkflow(row.details, config);
    if !cfg.managerReview {
      return ReviewDisabled;
    }
    if cfg.requireReason && TrimSpace(reason) == "" {
      return ReasonRequired;
    }
    var conflict := ActorConflict(row.details, actor, ReviewStage);
    code := if conflict != NoConflict then ConflictCode(conflict) else Continue;
  }

  method CheckApprove(row: Approval, config: Workflow, actor: User, reason: string) returns (code: Code)
    ensures code == Continue <==> MayApprove(row, config, actor, reason)
    ensures code == ReviewRequired <==> row.status == PendingReview
    ensures code == ReasonRequired
            <==> && row.status == Pending && EffectiveWorkflow(row.details, config).requireReason
                 && TrimSpace(reason) == ""
    ensures code == ApprovalClosed <==> row.status !in {Pending, PendingReview}
    ensures code.ConflictCode? ==> code.conflict == ActorConflict(row.details, actor, ApproveStage)
                                   && code.conflict != NoConflict
  {
    if row.status == PendingReview {
      return ReviewRequired;
    }
    if row.status != Pending {
      return ApprovalClosed;
    }
    var cfg := EffectiveWorkflow(row.details, config);
    if cfg.requireReason && TrimSpace(reason) == "" {
      return ReasonRequired;
    }
    var conflict := ActorConflict(row.details, actor, ApproveStage);
    code := if conflict != NoConflict then ConflictCode(conflict) else Continue;
  }

  method CheckReject(row: Approval, config: Workflow, actor: User, reason: string) returns (code: Code)
    ensures code == Continue <==> MayReject(row, config, actor, reason)
    ensures code == ApprovalClosed <==> row.status !in {Pending, PendingReview}
    ensures code == ReasonRequired
            <==> && row.status in {Pending, PendingReview} && EffectiveWorkflow(row.details, config).requireReason
                 && TrimSpace(reason) == ""
    ensures code.ConflictCode? ==> code.conflict == ActorConflict(row.details, actor, RejectStage)
                                   && code.conflict != NoConflict
  {
    if row.status != Pending && row.status != PendingReview {
      return ApprovalClosed;
    }
    var cfg := EffectiveWorkflow(row.details, config);
    if cfg.requireReason && TrimSpace(reason) == "" {
      return ReasonRequired;
    }
    var conflict := ActorConflict(row.details, actor, RejectStage);
    code := if conflict != NoConflict then ConflictCode(conflict) else Continue;
  }

  class ApprovalTable {
    var rows: map<int, Approval>
    ghost var history: seq<(int, Status)>

    constructor ()
      ensures rows == map[] && history == []
    {
      rows, history := map[], [];
    }

    /** The table as the only handler h sees it. */
    ghost function With(h: Handler): State
      reads this
    {
      State(rows, map[0 := h], Workflow(false, false), [], history, 0)
    }

    method TransitionResource(id: int, expected: Status, status: Status, details: Details) returns (won: bool)
      modifies this
      ensures won <==> Wins(old(rows), id, expected)
      ensures rows == if won then old(rows)[id := Approval(status, details)] else old(rows)
      ensures history == if won then old(history) + [(id, status)] else old(history)
    {
      won := id in rows && rows[id].status == expected;
      if won {
        rows := rows[id := Approval(status, details)];
        history := history + [(id, status)];
      }
    }

    method CommitReview(h: Handler) returns (won: bool)
      requires h.Reviewing?
      modifies this
      ensures var t := Advance(old(With(h)), 0, true); rows == t.rows && history == t.history
      ensures won <==> Wins(old(rows), h.id, PendingReview)
    {
      won := TransitionResource(h.id, PendingReview, Pending, h.seen.details.(review := Some(Mark(h.actor, h.reason))));
    }

    method CommitReject(h: Handler) returns (won: bool)
      requires h.Rejecting?
      modifies this
      ensures var t := Advance(old(With(h)), 0, true); rows == t.rows && history == t.history
      ensures won <==> Wins(old(rows), h.id, h.seen.status)
    {
      won := TransitionResource(h.id, h.seen.status, Rejected,
                                h.seen.details.(rejection := Some(Mark(h.actor, h.reason))));
    }

    method Claim(h: Handler) returns (next: Option<Handler>)
      requires h.Approving?
      modifies this
      ensures var t := Advance(old(With(h)), 0, true);
              rows == t.rows && history == t.history && (next.Some? <==> 0 in t.handlers)
                  && (next.Some? ==> t.handlers[0] == next.value)
    {
      var details := h.seen.details.(execution := Some(Mark(h.actor, h.reason)));
      var claimed := TransitionResource(h.id, Pending, Executing, details);
      next := if claimed then Some(Claimed(h.id, h.actor, details)) else None;
    }

    method Finish(h: Handler) returns (won: bool)
      requires h.Finishing?
      modifies this
      ensures var t := Advance(old(With(h)), 0, true); rows == t.rows && history == t.history && (won <==> t.lost == 0)
    {
      if !h.ok {
        won := TransitionResource(h.id, Executing, Failed, h.details);
      } else {
        won := TransitionResource(h.id, Executing, Approved, h.details);
      }
    }
  }
}
