/** The progress indicator shown on a transaction's detail page: the status
    is projected onto a row of display steps, each flagged active, past or
    neither, with connectors between neighbours. */
module StatusStepper {
  import opened Domain

  datatype Step = Step(status: Status, caption: string)

  /** The forward path of a transaction. */
  const Steps: seq<Step> := [
    Step(Draft, "Draft"),
    Step(PendingApproval, "Pending"),
    Step(Approved, "Approved"),
    Step(Executed, "Executed")
  ]

  /** The step shown in place of the last two when a transaction was rejected. */
  const RejectedStep: Step := Step(Rejected, "Rejected")

  /** `Array.prototype.findIndex` on the status of each step: the first
      position holding `s`, or -1 when none does. */
  function FindIndex(steps: seq<Step>, s: Status): (r: int)
    ensures -1 <= r < |steps|
    ensures r == -1 <==> forall j :: 0 <= j < |steps| ==> steps[j].status != s
    ensures r >= 0 ==> steps[r].status == s && forall j :: 0 <= j < r ==> steps[j].status != s
  {
    if steps == [] then -1
    else if steps[0].status == s then 0
    else
      var k := FindIndex(steps[1..], s);
      if k == -1 then -1 else k + 1
  }

  /** The position of the current status; a rejection sits right after Pending. */
  function StatusIndex(s: Status): (r: int)
    ensures 0 <= r < |DisplaySteps(s)| && DisplaySteps(s)[r].status == s
  {
    if s == Rejected then 2 else FindIndex(Steps, s)
  }

  /** The steps on display for a status. */
  function DisplaySteps(s: Status): seq<Step> {
    if s == Rejected then [Steps[0], Steps[1], RejectedStep] else Steps
  }

  function Statuses(steps: seq<Step>): seq<Status> {
    seq(|steps|, i requires 0 <= i < |steps| => steps[i].status)
  }

  /** How one displayed step is drawn. */
  datatype StepView = StepView(step: Step, active: bool, past: bool, destructive: bool)

  /** The rendered row: a step is active when it holds the current status,
      past when it lies before the current index, and destructive when it is
      the active rejection step. */
  function Project(s: Status): (p: seq<StepView>)
    ensures |p| == |DisplaySteps(s)|
    ensures forall i :: 0 <= i < |p| ==> p[i].step == DisplaySteps(s)[i]
  {
    var d := DisplaySteps(s);
    var current := StatusIndex(s);
    seq(|d|, i requires 0 <= i < |d| =>
      var active := d[i].status == s;
      StepView(d[i], active, i < current, active && d[i].status == Rejected))
  }

  /** The connectors after every step but the last; `true` is highlighted. */
  function Connectors(s: Status): (c: seq<bool>)
    ensures |c| == |DisplaySteps(s)| - 1
  {
    var d := DisplaySteps(s);
    var current := StatusIndex(s);
    seq(|d| - 1, i requires 0 <= i < |d| - 1 => i < current)
  }

  /** The step sequences: the full forward path unless rejected, where it
      collapses to Draft, Pending, Rejected. */
  lemma DisplayedStatuses(s: Status)
    ensures s != Rejected ==> Statuses(DisplaySteps(s)) == [Draft, PendingApproval, Approved, Executed]
    ensures s == Rejected ==> Statuses(DisplaySteps(s)) == [Draft, PendingApproval, Rejected]
  {
  }

  /** Where each status sits on the row. */
  lemma {:induction false} StatusIndexValues(s: Status)
    ensures StatusIndex(s) == match s
      case Draft => 0
      case PendingApproval => 1
      case Approved => 2
      case Rejected => 2
      case Executed => 3
  {
    assert Steps[0].status == Draft;
    assert Steps[1].status == PendingApproval;
    assert Steps[2].status == Approved;
    assert Steps[3].status == Executed;
  }

  /** Exactly one displayed step is active, the one at the current index. */
  lemma {:induction false} ExactlyOneActive(s: Status)
    ensures 0 <= StatusIndex(s) < |Project(s)|
    ensures forall i :: 0 <= i < |Project(s)| ==> (Project(s)[i].active <==> i == StatusIndex(s))
  {
    StatusIndexValues(s);
  }

  /** A displayed step is past exactly when the active step lies after it:
      the active step is not past, and the steps after it are neither past
      nor active. */
  lemma {:induction false} PastSteps(s: Status)
    ensures forall i :: 0 <= i < |Project(s)| ==>
      (Project(s)[i].past <==> exists j :: i < j < |Project(s)| && Project(s)[j].active)
    ensures forall i :: 0 <= i < |Project(s)| && Project(s)[i].active ==> !Project(s)[i].past
    ensures forall i :: StatusIndex(s) < i < |Project(s)| ==> !Project(s)[i].past && !Project(s)[i].active
  {
    ExactlyOneActive(s);
  }

  /** One connector fewer than steps; connector i is highlighted iff i lies
      before the current index. */
  lemma {:induction false} ConnectorFlags(s: Status)
    ensures |Connectors(s)| == |DisplaySteps(s)| - 1
    ensures forall i :: 0 <= i < |Connectors(s)| ==> (Connectors(s)[i] <==> i < StatusIndex(s))
  {
  }

  /** Destructive styling is drawn on a step iff the transaction is rejected
      and the step is the active one. */
  lemma {:induction false} DestructiveOnlyWhenRejected(s: Status)
    ensures forall i :: 0 <= i < |Project(s)| ==>
      (Project(s)[i].destructive <==> s == Rejected && Project(s)[i].active)
  {
  }

  /** A draft has no past steps; an executed or rejected transaction has
      every step before the last one past. */
  lemma {:induction false} PastAtTheEnds(s: Status)
    ensures s == Draft ==> forall i :: 0 <= i < |Project(s)| ==> !Project(s)[i].past
    ensures s == Executed || s == Rejected ==>
      forall i :: 0 <= i < |Project(s)| - 1 ==> Project(s)[i].past
    ensures s == Executed || s == Rejected ==> Project(s)[|Project(s)| - 1].active
  {
    StatusIndexValues(s);
  }
}
