/**
 * The approval gate and the action executor: which actions may touch the host, and what
 * the audit trail says about them.
 */
module Approval {
  import opened Wrappers
  import opened Sequences
  import opened Containment
  import Audit

  datatype Status = Recommended | PendingApproval | Approved | Rejected | Executed | Failed

  datatype AuditEvent = AutoApproved | HumanApproved | HumanRejected | Execution | ExecutionFailed

  function EventName(e: AuditEvent): (r: string) {
    match e
    case AutoApproved => "auto_approved"
    case HumanApproved => "approved"
    case HumanRejected => "rejected"
    case Execution => "execution"
    case ExecutionFailed => "execution_failed"
  }

  /** An action with its status; `fault` is the error text a failed execution appends to the rationale. */
  datatype Item = Item(action: Action, status: Status, fault: Option<Fault>)

  /** `DESTRUCTIVE_ACTION_TYPES`: the four types that have a containment handler. */
  predicate Destructive(a: Action) {
    a.KillProcess? || a.FreezeProcess? || a.BlockIp? || a.QuarantineFile?
  }

  /* ------------------------------------------------- one action through the gate */

  function ProcessItem(auto: bool, it: Item): (r: (Item, Option<AuditEvent>)) {
    if it.status != Recommended then (it, None)
    else if Destructive(it.action) && !auto then (it.(status := PendingApproval), None)
    else (it.(status := Approved), Some(AutoApproved))
  }

  function ApproveItem(it: Item): (r: (Item, Option<AuditEvent>)) {
    if it.status != PendingApproval then (it, None) else (it.(status := Approved), Some(HumanApproved))
  }

  function RejectItem(it: Item): (r: (Item, Option<AuditEvent>)) {
    if it.status != PendingApproval then (it, None) else (it.(status := Rejected), Some(HumanRejected))
  }

  /** `outcome` is what containment answered for an approved action. */
  function ExecuteItem(it: Item, outcome: ApplyOutcome): (r: (Item, Option<AuditEvent>)) {
    if it.status != Approved then (it, None)
    else if outcome.Raised? then (Item(it.action, Failed, Some(outcome.fault)), Some(ExecutionFailed))
    else (it.(status := Executed), Some(Execution))
  }

  /* ------------------------------------------------------------------- the objects */

  class ResponseAction {
    const action: Action
    var status: Status
    var fault: Option<Fault>

    ghost function Abs(): (it: Item)
      reads this
    {
      Item(action, status, fault)
    }

    constructor (action: Action)
      ensures Abs() == Item(action, Recommended, None)
    {
      this.action := action;
      status := Recommended;
      fault := None;
    }
  }

  /** How audit records are written: the signer, the text of an action, and the clock reading. */
  datatype Scribe = Scribe(signer: Option<string>, describe: Item -> string, ts: string)

  function AuditRecord(s: Scribe, e: AuditEvent, actor: string, reportId: Option<string>, it: Item): (ev: Audit.Event) {
    Audit.Event(EventName(e), reportId, actor, s.describe(it), s.ts)
  }

  ghost function TrailOf(audit: Audit.AuditTrail?): (t: Option<Audit.Trail>)
    reads audit, if audit == null then {} else {audit.file}
  {
    if audit == null then None else audit.Abs()
  }

  /** The trail after an optional record. */
  ghost function TrailAfter(
    audit: Audit.AuditTrail?, before: Option<Audit.Trail>, signer: Option<string>, ev: Option<Audit.Event>)
    : (t: Option<Audit.Trail>)
  {
    if audit == null || before.None? || ev.None? then before
    else Some(Audit.UseStep(audit.p, signer, before.value, Audit.Write(ev.value)))
  }

  method WriteAudit(audit: Audit.AuditTrail?, signer: Option<string>, ev: Audit.Event)
    modifies audit, if audit == null then {} else {audit.file}
    ensures TrailOf(audit) == TrailAfter(audit, old(TrailOf(audit)), signer, Some(ev))
  {
    if audit != null {
      var _ := audit.Record(ev, signer);
    }
  }

  class ApprovalGate {
    const autoApproveDestructive: bool
    const audit: Audit.AuditTrail?

    constructor (auto: bool, audit: Audit.AuditTrail?)
      ensures autoApproveDestructive == auto && this.audit == audit
    {
      autoApproveDestructive := auto;
      this.audit := audit;
    }

    method Process(a: ResponseAction, s: Scribe)
      modifies a, audit, if audit == null then {} else {audit.file}
      ensures var (it, e) := ProcessItem(autoApproveDestructive, old(a.Abs()));
        && a.Abs() == it
        && TrailOf(audit) == TrailAfter(audit, old(TrailOf(audit)), s.signer,
             if e.None? then None else Some(AuditRecord(s, e.value, "system", None, it)))
    {
      if a.status != Recommended {
        return;
      }
      if Destructive(a.action) && !autoApproveDestructive {
        a.status := PendingApproval;
      } else {
        a.status := Approved;
        WriteAudit(audit, s.signer, AuditRecord(s, AutoApproved, "system", None, Item(a.action, a.status, a.fault)));
      }
    }

    method Approve(a: ResponseAction, actor: string, reportId: Option<string>, s: Scribe)
      modifies a, audit, if audit == null then {} else {audit.file}
      ensures var (it, e) := ApproveItem(old(a.Abs()));
        && a.Abs() == it
        && TrailOf(audit) == TrailAfter(audit, old(TrailOf(audit)), s.signer,
             if e.None? then None else Some(AuditRecord(s, e.value, actor, reportId, it)))
    {
      if a.status != PendingApproval {
        return;
      }
      a.status := Approved;
      WriteAudit(audit, s.signer, AuditRecord(s, HumanApproved, actor, reportId, Item(a.action, a.status, a.fault)));
    }

    method Reject(a: ResponseAction, actor: string, reportId: Option<string>, s: Scribe)
      modifies a, audit, if audit == null then {} else {audit.file}
      ensures var (it, e) := RejectItem(old(a.Abs()));
        && a.Abs() == it
        && TrailOf(audit) == TrailAfter(audit, old(TrailOf(audit)), s.signer,
             if e.None? then None else Some(AuditRecord(s, e.value, actor, reportId, it)))
    {
      if a.status != PendingApproval {
        return;
      }
      a.status := Rejected;
      WriteAudit(audit, s.signer, AuditRecord(s, HumanRejected, actor, reportId, Item(a.action, a.status, a.fault)));
    }
  }

  class ActionExecutor {
    const containment: ContainmentManager
    const audit: Audit.AuditTrail?

    constructor (containment: ContainmentManager, audit: Audit.AuditTrail?)
      ensures this.containment == containment && this.audit == audit
    {
      this.containment := containment;
      this.audit := audit;
    }

    /** `id` and `now` are the entry id and clock second containment would use. */
    method Execute(a: ResponseAction, reportId: Option<string>, id: string, now: nat, s: Scribe)
      modifies a, containment, containment.runner, containment.file
      modifies audit, if audit == null then {} else {audit.file}
      ensures var (after, outcome) :=
          ApplyStep(containment.cfg, old(containment.Abs()), Request(id, a.action, reportId, now));
        var (it, e) := ExecuteItem(old(a.Abs()), outcome);
        && a.Abs() == it
        && containment.Abs() == (if old(a.status) == Approved then after else old(containment.Abs()))
        && TrailOf(audit) == TrailAfter(audit, old(TrailOf(audit)), s.signer,
             if e.None? then None else Some(AuditRecord(s, e.value, "system", reportId, it)))
    {
      if a.status != Approved {
        return;
      }
      var outcome := containment.Apply(Request(id, a.action, reportId, now));
      if outcome.Raised? {
        a.status := Failed;
        a.fault := Some(outcome.fault);
        WriteAudit(audit, s.signer, AuditRecord(s, ExecutionFailed, "system", reportId, Item(a.action, a.status, a.fault)));
        return;
      }
      a.status := Executed;
      WriteAudit(audit, s.signer, AuditRecord(s, Execution, "system", reportId, Item(a.action, a.status, a.fault)));
    }
  }

  /** A report as far as the dashboard's action buttons go. */
  datatype ThreatReport = ThreatReport(reportId: string, actions: seq<ResponseAction>)

  /** The first report with the id. */
  function FindReport(reports: seq<ThreatReport>, reportId: string): (r: Option<ThreatReport>)
    ensures r.Some? ==> r.value in reports && r.value.reportId == reportId
    ensures r.None? <==> forall report :: report in reports ==> report.reportId != reportId
  {
    if reports == [] then None
    else if reports[0].reportId == reportId then Some(reports[0])
    else FindReport(reports[1..], reportId)
  }

  /** The action the button stands for, if the report and the index exist. */
  function FindAction(reports: seq<ThreatReport>, reportId: string, index: int): (r: Option<ResponseAction>)
    ensures r.Some? ==> FindReport(reports, reportId).Some? && r.value in FindReport(reports, reportId).value.actions
  {
    match FindReport(reports, reportId)
    case None => None
    case Some(report) => if 0 <= index < |report.actions| then Some(report.actions[index]) else None
  }

  /** An approval by a human and then, if that leaves the action approved, one execution. */
  function ApproveThenExecute(it: Item, outcome: ApplyOutcome): (r: (Item, Option<AuditEvent>, Option<AuditEvent>)) {
    var (approved, e1) := ApproveItem(it);
    var (executed, e2) := ExecuteItem(approved, outcome);
    (executed, e1, e2)
  }

  method ExecuteAction(
      reports: seq<ThreatReport>, gate: ApprovalGate, executor: ActionExecutor, reportId: string, index: int,
      actor: string, id: string, now: nat, s: Scribe) returns (r: Option<ThreatReport>)
    requires gate.audit == executor.audit
    modifies set report, a | report in reports && a in report.actions :: a
    modifies executor.containment, executor.containment.runner, executor.containment.file
    modifies gate.audit, if gate.audit == null then {} else {gate.audit.file}
    ensures r == if FindAction(reports, reportId, index).Some? then FindReport(reports, reportId) else None
    ensures r.None? ==>
      && executor.containment.Abs() == old(executor.containment.Abs())
      && TrailOf(gate.audit) == old(TrailOf(gate.audit))
      && forall report, x | report in reports && x in report.actions :: x.Abs() == old(x.Abs())
    ensures r.Some? ==>
      var a := FindAction(reports, reportId, index).value;
      var (after, outcome) := ApplyStep(executor.containment.cfg, old(executor.containment.Abs()),
                                        Request(id, a.action, Some(reportId), now));
      var approved := ApproveItem(old(a.Abs())).0;
      var (it, e1, e2) := ApproveThenExecute(old(a.Abs()), outcome);
      && a.Abs() == it
      && executor.containment.Abs()
         == (if approved.status == Approved then after else old(executor.containment.Abs()))
      && TrailOf(gate.audit) == TrailAfter(gate.audit,
           TrailAfter(gate.audit, old(TrailOf(gate.audit)), s.signer,
             if e1.None? then None else Some(AuditRecord(s, e1.value, actor, Some(reportId), approved))),
           s.signer, if e2.None? then None else Some(AuditRecord(s, e2.value, "system", Some(reportId), it)))
      && forall report, x | report in reports && x in report.actions && x != a :: x.Abs() == old(x.Abs())
  {
    var i := Locate(reports, reportId);
    if i == |reports| || !(0 <= index < |reports[i].actions|) {
      return None;
    }
    var report := reports[i];
    var action := report.actions[index];
    assert report in reports && action in report.actions;
    gate.Approve(action, actor, Some(report.reportId), s);
    executor.Execute(action, Some(report.reportId), id, now, s);
    r := Some(report);
  }

  /** The search through the reports. */
  method Locate(reports: seq<ThreatReport>, reportId: string) returns (i: nat)
    ensures i <= |reports|
    ensures FindReport(reports, reportId) == if i < |reports| then Some(reports[i]) else None
  {
    i := 0;
    while i < |reports| && reports[i].reportId != reportId
      invariant i <= |reports|
      invariant FindReport(reports, reportId) == FindReport(reports[i..], reportId)
    {
      i := i + 1;
    }
  }

  /* --------------------------------------------------------- the whole response loop */

  datatype Settings = Settings(auto: bool, auditing: bool, cfg: Config)

  /** One audit record: what happened, and to which action. */
  datatype Mark = Mark(event: AuditEvent, item: nat)

  /** All actions, the audit records, the containment calls in order, and containment itself. */
  datatype Sys = Sys(items: seq<Item>, marks: seq<Mark>, calls: seq<nat>, contained: State)

  /** Gate and executor calls; `execute_action` is an `Approve` followed by an `Execute`. */
  datatype Step =
    | Process(i: nat)
    | Approve(i: nat)
    | Reject(i: nat)
    | Execute(i: nat, id: string, reportId: Option<string>, now: nat)
    | Rollback(report: Option<string>)

  function Put(cfg: Settings, s: Sys, i: nat, r: (Item, Option<AuditEvent>)): (s1: Sys)
    requires i < |s.items|
  {
    s.(items := s.items[i := r.0],
       marks := if cfg.auditing && r.1.Some? then s.marks + [Mark(r.1.value, i)] else s.marks)
  }

  function Next(cfg: Settings, s: Sys, step: Step): (r: Sys) {
    match step
    case Process(i) => if i < |s.items| then Put(cfg, s, i, ProcessItem(cfg.auto, s.items[i])) else s
    case Approve(i) => if i < |s.items| then Put(cfg, s, i, ApproveItem(s.items[i])) else s
    case Reject(i) => if i < |s.items| then Put(cfg, s, i, RejectItem(s.items[i])) else s
    case Execute(i, id, reportId, now) =>
      if i < |s.items| && s.items[i].status == Approved then
        var (after, outcome) := ApplyStep(cfg.cfg, s.contained, Request(id, s.items[i].action, reportId, now));
        Put(cfg, s, i, ExecuteItem(s.items[i], outcome)).(calls := s.calls + [i], contained := after)
      else s
    case Rollback(report) => s.(contained := RollbackAllStep(cfg.cfg, s.contained, report).0)
  }

  function Begin(actions: seq<Action>, contained: State): (s: Sys) {
    Sys(seq(|actions|, i requires 0 <= i < |actions| => Item(actions[i], Recommended, None)), [], [], contained)
  }

  function RunSteps(cfg: Settings, s: Sys, steps: seq<Step>): (r: Sys) {
    if steps == [] then s else Next(cfg, RunSteps(cfg, s, steps[..|steps| - 1]), steps[|steps| - 1])
  }

  /* -------------------------------------------------------------- per-action history */

  /** The statuses an action may move between in one call. */
  predicate Allowed(a: Status, b: Status) {
    || a == b
    || (a == Recommended && (b == PendingApproval || b == Approved))
    || (a == PendingApproval && (b == Approved || b == Rejected))
    || (a == Approved && (b == Executed || b == Failed))
  }

  /** Only gated actions wait for a human; the others are approved automatically. */
  predicate Gated(cfg: Settings, a: Action) {
    Destructive(a) && !cfg.auto
  }

  predicate Consistent(cfg: Settings, it: Item) {
    && (it.status == PendingApproval || it.status == Rejected ==> Gated(cfg, it.action))
    && (it.fault.Some? <==> it.status == Failed)
  }

  /** The audit records of an action are a function of its status. */
  function ExpectedHistory(cfg: Settings, it: Item): (r: seq<AuditEvent>) {
    var approval := if Gated(cfg, it.action) then HumanApproved else AutoApproved;
    if !cfg.auditing then []
    else
      match it.status
      case Recommended => []
      case PendingApproval => []
      case Approved => [approval]
      case Rejected => [HumanRejected]
      case Executed => [approval, Execution]
      case Failed => [approval, ExecutionFailed]
  }

  function History(marks: seq<Mark>, i: nat): (r: seq<AuditEvent>) {
    if marks == [] then []
    else
      var last := marks[|marks| - 1];
      History(marks[..|marks| - 1], i) + if last.item == i then [last.event] else []
  }

  function Calls(calls: seq<nat>, i: nat): (r: nat) {
    if calls == [] then 0
    else Calls(calls[..|calls| - 1], i) + if calls[|calls| - 1] == i then 1 else 0
  }

  ghost predicate ItemInv(cfg: Settings, s: Sys, i: nat)
    requires i < |s.items|
  {
    var it := s.items[i];
    && Consistent(cfg, it)
    && History(s.marks, i) == ExpectedHistory(cfg, it)
    && Calls(s.calls, i) == if it.status == Executed || it.status == Failed then 1 else 0
  }

  lemma HistorySnoc(marks: seq<Mark>, m: Mark, i: nat)
    ensures History(marks + [m], i) == History(marks, i) + if m.item == i then [m.event] else []
  {
    assert (marks + [m])[..|marks|] == marks;
  }

  lemma CallsSnoc(calls: seq<nat>, k: nat, i: nat)
    ensures Calls(calls + [k], i) == Calls(calls, i) + if k == i then 1 else 0
  {
    assert (calls + [k])[..|calls|] == calls;
  }

  /** One action through one call: an allowed move, and the record its new status calls for. */
  lemma MoveRecorded(cfg: Settings, it: Item, r: (Item, Option<AuditEvent>), outcome: ApplyOutcome)
    requires Consistent(cfg, it)
    requires r in {ProcessItem(cfg.auto, it), ApproveItem(it), RejectItem(it), ExecuteItem(it, outcome)}
    ensures r.0.action == it.action && Allowed(it.status, r.0.status) && Consistent(cfg, r.0)
    ensures ExpectedHistory(cfg, r.0)
         == ExpectedHistory(cfg, it) + if cfg.auditing && r.1.Some? then [r.1.value] else []
  {
  }

  lemma PutKeepsOthers(cfg: Settings, s: Sys, k: nat, r: (Item, Option<AuditEvent>), i: nat)
    requires k < |s.items| && i < |s.items| && i != k && ItemInv(cfg, s, i)
    ensures ItemInv(cfg, Put(cfg, s, k, r), i)
  {
    if cfg.auditing && r.1.Some? {
      HistorySnoc(s.marks, Mark(r.1.value, k), i);
    }
  }

  /** A call on action `i` itself; `called` says whether it went through to containment. */
  lemma PutKeepsItem(cfg: Settings, s: Sys, i: nat, r: (Item, Option<AuditEvent>), outcome: ApplyOutcome)
    requires i < |s.items| && ItemInv(cfg, s, i)
    requires r in {ProcessItem(cfg.auto, s.items[i]), ApproveItem(s.items[i]), RejectItem(s.items[i]),
                   ExecuteItem(s.items[i], outcome)}
    ensures var s1 := Put(cfg, s, i, r);
      && Consistent(cfg, s1.items[i]) && Allowed(s.items[i].status, s1.items[i].status)
      && s1.items[i].action == s.items[i].action
      && History(s1.marks, i) == ExpectedHistory(cfg, s1.items[i])
  {
    MoveRecorded(cfg, s.items[i], r, outcome);
    if cfg.auditing && r.1.Some? {
      HistorySnoc(s.marks, Mark(r.1.value, i), i);
    }
  }

  ghost predicate ItemMoved(cfg: Settings, s: Sys, s1: Sys, i: nat)
    requires i < |s.items|
  {
    && |s1.items| == |s.items| && s1.items[i].action == s.items[i].action
    && Allowed(s.items[i].status, s1.items[i].status)
    && ItemInv(cfg, s1, i)
  }

  lemma ExecuteMoves(cfg: Settings, s: Sys, step: Step, i: nat)
    requires i < |s.items| && ItemInv(cfg, s, i)
    requires step.Execute? && step.i < |s.items| && s.items[step.i].status == Approved
    ensures ItemMoved(cfg, s, Next(cfg, s, step), i)
  {
    var k := step.i;
    var outcome := ApplyStep(cfg.cfg, s.contained, Request(step.id, s.items[k].action, step.reportId, step.now)).1;
    var r := ExecuteItem(s.items[k], outcome);
    CallsSnoc(s.calls, k, i);
    if i == k {
      PutKeepsItem(cfg, s, i, r, outcome);
    } else {
      PutKeepsOthers(cfg, s, k, r, i);
    }
  }

  lemma CallMoves(cfg: Settings, s: Sys, k: nat, r: (Item, Option<AuditEvent>), i: nat)
    requires i < |s.items| && k < |s.items| && ItemInv(cfg, s, i)
    requires r in {ProcessItem(cfg.auto, s.items[k]), ApproveItem(s.items[k]), RejectItem(s.items[k])}
    ensures ItemMoved(cfg, s, Put(cfg, s, k, r), i)
  {
    if i == k {
      PutKeepsItem(cfg, s, i, r, NoHandler);
    } else {
      PutKeepsOthers(cfg, s, k, r, i);
    }
  }

  lemma ItemStep(cfg: Settings, s: Sys, step: Step, i: nat)
    requires i < |s.items| && ItemInv(cfg, s, i)
    ensures ItemMoved(cfg, s, Next(cfg, s, step), i)
  {
    match step
    case Process(k) => if k < |s.items| { CallMoves(cfg, s, k, ProcessItem(cfg.auto, s.items[k]), i); }
    case Approve(k) => if k < |s.items| { CallMoves(cfg, s, k, ApproveItem(s.items[k]), i); }
    case Reject(k) => if k < |s.items| { CallMoves(cfg, s, k, RejectItem(s.items[k]), i); }
    case Execute(k, id, reportId, now) =>
      if k < |s.items| && s.items[k].status == Approved {
        ExecuteMoves(cfg, s, step, i);
      }
    case Rollback(report) =>
  }

  /**
   * In every run, the audit records of each action are exactly those its status calls
   * for, approval by a human when it is gated; and it reached containment once if it is
   * executed or failed, else never.
   */
  lemma {:induction false} ActionHistory(cfg: Settings, actions: seq<Action>, contained: State, steps: seq<Step>,
        i: nat)
    requires i < |actions|
    ensures var s := RunSteps(cfg, Begin(actions, contained), steps);
      |s.items| == |actions| && s.items[i].action == actions[i] && ItemInv(cfg, s, i)
  {
    if steps != [] {
      var n := |steps| - 1;
      ActionHistory(cfg, actions, contained, steps[..n], i);
      ItemStep(cfg, RunSteps(cfg, Begin(actions, contained), steps[..n]), steps[n], i);
    }
  }

  /** From one prefix of a run to the next, a status changes only along an allowed transition. */
  lemma StatusMovesForward(cfg: Settings, actions: seq<Action>, contained: State,
        steps: seq<Step>, k: nat, i: nat)
    requires i < |actions| && k < |steps|
    ensures var before := RunSteps(cfg, Begin(actions, contained), steps[..k]);
      var after := RunSteps(cfg, Begin(actions, contained), steps[..k + 1]);
      && |before.items| == |after.items| == |actions|
      && Allowed(before.items[i].status, after.items[i].status)
  {
    ActionHistory(cfg, actions, contained, steps[..k], i);
    assert steps[..k + 1][..k] == steps[..k];
    ItemStep(cfg, RunSteps(cfg, Begin(actions, contained), steps[..k]), steps[k], i);
  }

  /* --------------------------------------------------------------- the execute button */

  /** A press of the button of action `i`: an approval and then an execution. */
  function Press(cfg: Settings, s: Sys, i: nat, actor: Presser): (r: Sys) {
    Next(cfg, Next(cfg, s, Approve(i)), Execute(i, actor.id, actor.reportId, actor.now))
  }

  /** The entry id, report and time of one press. */
  datatype Presser = Presser(id: string, reportId: Option<string>, now: nat)

  lemma PressIsTwoSteps(cfg: Settings, s: Sys, steps: seq<Step>, i: nat, p: Presser)
    ensures RunSteps(cfg, s, steps + [Approve(i), Execute(i, p.id, p.reportId, p.now)])
            == Press(cfg, RunSteps(cfg, s, steps), i, p)
  {
    var all := steps + [Approve(i), Execute(i, p.id, p.reportId, p.now)];
    assert all[..|steps| + 1] == steps + [Approve(i)];
    assert (steps + [Approve(i)])[..|steps|] == steps;
  }

  /**
   * In every run, a press leaves an action that was neither recommended nor rejected run
   * exactly once, whether it ran now or before, and any other never run; and pressing
   * again changes nothing at all.
   */
  lemma ButtonRunsOnce(cfg: Settings, actions: seq<Action>, contained: State, steps: seq<Step>,
        i: nat, p: Presser, again: Presser)
    requires i < |actions|
    ensures var s := RunSteps(cfg, Begin(actions, contained), steps);
      var pressed := Press(cfg, s, i, p);
      && |s.items| == |actions| == |pressed.items|
      && Calls(pressed.calls, i) == (if s.items[i].status in {Recommended, Rejected} then 0 else 1)
      && Press(cfg, pressed, i, again) == pressed
  {
    var s := RunSteps(cfg, Begin(actions, contained), steps);
    ActionHistory(cfg, actions, contained, steps, i);
    PressIsTwoSteps(cfg, Begin(actions, contained), steps, i, p);
    ActionHistory(cfg, actions, contained, steps + [Approve(i), Execute(i, p.id, p.reportId, p.now)], i);
    PressSettles(cfg, s, i, p);
    PressOfSettled(cfg, Press(cfg, s, i, p), i, again);
  }

  lemma PressSettles(cfg: Settings, s: Sys, i: nat, p: Presser)
    requires i < |s.items|
    ensures var s1 := Press(cfg, s, i, p);
      && |s1.items| == |s.items|
      && (s1.items[i].status in {Recommended, Rejected} <==> s.items[i].status in {Recommended, Rejected})
      && s1.items[i].status in {Recommended, Rejected, Executed, Failed}
  {
  }

  lemma PressOfSettled(cfg: Settings, s: Sys, i: nat, p: Presser)
    requires i < |s.items| && s.items[i].status in {Recommended, Rejected, Executed, Failed}
    ensures Press(cfg, s, i, p) == s
  {
    assert s.items[i := s.items[i]] == s.items;
  }

  /* ----------------------------------------------------------------------- safety */

  /** The one call that takes a gated action past its gate. */
  lemma PassesGate(cfg: Settings, s: Sys, step: Step, i: nat)
    requires i < |s.items| && i < |Next(cfg, s, step).items| && Gated(cfg, s.items[i].action)
    requires s.items[i].status !in {Approved, Executed, Failed}
    requires Next(cfg, s, step).items[i].status in {Approved, Executed, Failed}
    ensures step == Approve(i)
  {
  }

  /** The one call that takes an action to containment. */
  lemma ReachesContainment(cfg: Settings, s: Sys, step: Step, i: nat)
    requires Calls(Next(cfg, s, step).calls, i) > Calls(s.calls, i)
    ensures i < |s.items| && s.items[i].status == Approved
  {
    if step.Execute? {
      CallsSnoc(s.calls, step.i, i);
    }
  }

  lemma HistoryActions(cfg: Settings, actions: seq<Action>, contained: State, steps: seq<Step>,
        i: nat)
    requires i < |actions|
    ensures var s := RunSteps(cfg, Begin(actions, contained), steps);
      |s.items| == |actions| && s.items[i].action == actions[i]
  {
    ActionHistory(cfg, actions, contained, steps, i);
  }

  predicate Passed(s: Sys, i: nat) {
    i < |s.items| && s.items[i].status in {Approved, Executed, Failed}
  }

  /** A gated action past its gate was approved by a human earlier in the run. */
  lemma {:induction false} ApprovedByHuman(cfg: Settings, actions: seq<Action>, contained: State, steps: seq<Step>,
        i: nat)
    requires i < |actions| && Gated(cfg, actions[i])
    requires Passed(RunSteps(cfg, Begin(actions, contained), steps), i)
    ensures Approve(i) in steps
  {
    if steps != [] {
      var n := |steps| - 1;
      var before := RunSteps(cfg, Begin(actions, contained), steps[..n]);
      HistoryActions(cfg, actions, contained, steps[..n], i);
      if Passed(before, i) {
        ApprovedByHuman(cfg, actions, contained, steps[..n], i);
        assert steps[..n] <= steps;
      } else {
        PassesGate(cfg, before, steps[n], i);
      }
    }
  }

  /**
   * With automatic approval off, an action with a containment handler reaches containment
   * at step `k` only if a human approved it at an earlier step.
   */
  lemma ContainmentNeedsHumanApproval(
      cfg: Settings, actions: seq<Action>, contained: State, steps: seq<Step>, k: nat, i: nat)
    requires !cfg.auto && i < |actions| && Destructive(actions[i]) && k < |steps|
    requires var before := RunSteps(cfg, Begin(actions, contained), steps[..k]);
      var after := RunSteps(cfg, Begin(actions, contained), steps[..k + 1]);
      Calls(after.calls, i) > Calls(before.calls, i)
    ensures exists j :: 0 <= j < k && steps[j] == Approve(i)
  {
    var before := RunSteps(cfg, Begin(actions, contained), steps[..k]);
    assert RunSteps(cfg, Begin(actions, contained), steps[..k + 1]) == Next(cfg, before, steps[k]) by {
      assert steps[..k + 1][..k] == steps[..k];
    }
    ReachesContainment(cfg, before, steps[k], i);
    ApprovedByHuman(cfg, actions, contained, steps[..k], i);
    var j :| 0 <= j < k && steps[..k][j] == Approve(i);
    assert steps[j] == Approve(i);
  }

  /** With automatic approval off and no human approval in the run, the host is never touched. */
  lemma {:induction false} NoApprovalNoEffect(cfg: Settings, actions: seq<Action>, contained: State, steps: seq<Step>)
    requires !cfg.auto && contained.entries == []
    requires forall i :: Approve(i) !in steps
    ensures RunSteps(cfg, Begin(actions, contained), steps).contained == contained
  {
    if steps != [] {
      var n := |steps| - 1;
      assert forall i :: Approve(i) in steps[..n] ==> Approve(i) in steps;
      NoApprovalNoEffect(cfg, actions, contained, steps[..n]);
      var before := RunSteps(cfg, Begin(actions, contained), steps[..n]);
      match steps[n]
      case Execute(i, id, reportId, now) =>
        if i < |actions| {
          ActionHistory(cfg, actions, contained, steps[..n], i);
          if before.items[i].status == Approved {
            if Destructive(actions[i]) {
              ApprovedByHuman(cfg, actions, contained, steps[..n], i);
            }
          }
        } else if actions != [] {
          ActionHistory(cfg, actions, contained, steps[..n], 0);
        } else {
          NoItems(cfg, contained, steps[..n]);
        }
      case Rollback(report) =>
      case _ =>
    }
  }

  lemma {:induction false} NoItems(cfg: Settings, contained: State, steps: seq<Step>)
    ensures RunSteps(cfg, Begin([], contained), steps).items == []
  {
    if steps != [] {
      NoItems(cfg, contained, steps[..|steps| - 1]);
    }
  }

  /* ------------------------------------------------------------------- bookkeeping */

  function CountMarks(marks: seq<Mark>, events: set<AuditEvent>): (n: nat) {
    if marks == [] then 0
    else CountMarks(marks[..|marks| - 1], events) + if marks[|marks| - 1].event in events then 1 else 0
  }

  function CountItems(items: seq<Item>, statuses: set<Status>): (n: nat) {
    if items == [] then 0
    else CountItems(items[..|items| - 1], statuses) + if items[|items| - 1].status in statuses then 1 else 0
  }

  lemma {:induction false} CountUpdate(items: seq<Item>, i: nat, it: Item, statuses: set<Status>)
    requires i < |items|
    ensures CountItems(items[i := it], statuses) + (if items[i].status in statuses then 1 else 0)
         == CountItems(items, statuses) + (if it.status in statuses then 1 else 0)
  {
    var n := |items| - 1;
    if i == n {
      assert items[i := it][..n] == items[..n];
    } else {
      CountUpdate(items[..n], i, it, statuses);
      assert items[i := it][..n] == items[..n][i := it];
    }
  }

  lemma {:induction false} NoneCounted(items: seq<Item>, statuses: set<Status>)
    requires forall it :: it in items ==> it.status !in statuses
    ensures CountItems(items, statuses) == 0
  {
    if items != [] {
      assert items[|items| - 1] in items;
      NoneCounted(items[..|items| - 1], statuses);
    }
  }

  ghost predicate Balanced(s: Sys) {
    && CountMarks(s.marks, {HumanApproved, AutoApproved}) == CountItems(s.items, {Approved, Executed, Failed})
    && CountMarks(s.marks, {HumanRejected}) == CountItems(s.items, {Rejected})
    && CountMarks(s.marks, {Execution}) == CountItems(s.items, {Executed})
    && CountMarks(s.marks, {ExecutionFailed}) == CountItems(s.items, {Failed})
  }

  lemma MarkSnoc(marks: seq<Mark>, m: Mark, events: set<AuditEvent>)
    ensures CountMarks(marks + [m], events) == CountMarks(marks, events) + if m.event in events then 1 else 0
  {
    assert (marks + [m])[..|marks|] == marks;
  }

  lemma BalancedPut(cfg: Settings, s: Sys, i: nat, it: Item, e: AuditEvent)
    requires i < |s.items| && cfg.auditing && Balanced(s)
    requires match e
      case AutoApproved => s.items[i].status == Recommended && it.status == Approved
      case HumanApproved => s.items[i].status == PendingApproval && it.status == Approved
      case HumanRejected => s.items[i].status == PendingApproval && it.status == Rejected
      case Execution => s.items[i].status == Approved && it.status == Executed
      case ExecutionFailed => s.items[i].status == Approved && it.status == Failed
    ensures Balanced(Put(cfg, s, i, (it, Some(e))))
  {
    CountsMove(s, i, it, e, {HumanApproved, AutoApproved}, {Approved, Executed, Failed});
    CountsMove(s, i, it, e, {HumanRejected}, {Rejected});
    CountsMove(s, i, it, e, {Execution}, {Executed});
    CountsMove(s, i, it, e, {ExecutionFailed}, {Failed});
  }

  /** One kind of record and the statuses it stands for go up or stay together. */
  lemma CountsMove(s: Sys, i: nat, it: Item, e: AuditEvent, events: set<AuditEvent>, statuses: set<Status>)
    requires i < |s.items| && CountMarks(s.marks, events) == CountItems(s.items, statuses)
    requires (if e in events then 1 else 0)
             == (if it.status in statuses then 1 else 0) - (if s.items[i].status in statuses then 1 else 0)
    ensures CountMarks(s.marks + [Mark(e, i)], events) == CountItems(s.items[i := it], statuses)
  {
    MarkSnoc(s.marks, Mark(e, i), events);
    CountUpdate(s.items, i, it, statuses);
  }

  lemma BalancedSilent(cfg: Settings, s: Sys, i: nat, it: Item)
    requires i < |s.items| && Balanced(s)
    requires it.status == s.items[i].status ||
      (s.items[i].status == Recommended && it.status == PendingApproval)
    ensures Balanced(Put(cfg, s, i, (it, None)))
  {
    CountUpdate(s.items, i, it, {Approved, Executed, Failed});
    CountUpdate(s.items, i, it, {Rejected});
    CountUpdate(s.items, i, it, {Executed});
    CountUpdate(s.items, i, it, {Failed});
  }

  lemma BalancedEffect(cfg: Settings, s: Sys, i: nat, r: (Item, Option<AuditEvent>))
    requires i < |s.items| && cfg.auditing && Balanced(s)
    requires r in {ProcessItem(cfg.auto, s.items[i]), ApproveItem(s.items[i]), RejectItem(s.items[i])}
      || exists outcome :: r == ExecuteItem(s.items[i], outcome)
    ensures Balanced(Put(cfg, s, i, r))
  {
    if r.1.Some? {
      BalancedPut(cfg, s, i, r.0, r.1.value);
    } else {
      BalancedSilent(cfg, s, i, r.0);
    }
  }

  /**
   * With auditing on, at every point of every run: approvals of both kinds count the
   * actions past approval, rejections the rejected, executions the executed and failed
   * executions the failed ones.
   */
  lemma {:induction false} AuditBalances(cfg: Settings, actions: seq<Action>, contained: State, steps: seq<Step>)
    requires cfg.auditing
    ensures Balanced(RunSteps(cfg, Begin(actions, contained), steps))
  {
    if steps == [] {
      var items := Begin(actions, contained).items;
      NoneCounted(items, {Approved, Executed, Failed});
      NoneCounted(items, {Rejected});
      NoneCounted(items, {Executed});
      NoneCounted(items, {Failed});
    } else {
      AuditBalances(cfg, actions, contained, steps[..|steps| - 1]);
      BalancedStep(cfg, RunSteps(cfg, Begin(actions, contained), steps[..|steps| - 1]), steps[|steps| - 1]);
    }
  }

  lemma BalancedStep(cfg: Settings, s: Sys, step: Step)
    requires cfg.auditing && Balanced(s)
    ensures Balanced(Next(cfg, s, step))
  {
    match step
    case Process(i) => if i < |s.items| { BalancedEffect(cfg, s, i, ProcessItem(cfg.auto, s.items[i])); }
    case Approve(i) => if i < |s.items| { BalancedEffect(cfg, s, i, ApproveItem(s.items[i])); }
    case Reject(i) => if i < |s.items| { BalancedEffect(cfg, s, i, RejectItem(s.items[i])); }
    case Execute(i, id, reportId, now) =>
      if i < |s.items| {
        var outcome := ApplyStep(cfg.cfg, s.contained, Request(id, s.items[i].action, reportId, now)).1;
        BalancedEffect(cfg, s, i, ExecuteItem(s.items[i], outcome));
      }
    case Rollback(report) =>
  }
}
