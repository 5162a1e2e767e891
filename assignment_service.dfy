/**
 * `assignBug`: checks that the developer exists, appends an assignment row and
 * marks the bug ASSIGNED. The two writes are separate statements with no
 * transaction around them, so a store that rejects the second one leaves the
 * first in place. Which statement the store rejects is an input (`Fault`).
 */
module AssignmentService {
  import opened Wrappers

  type BugId = int
  type DeveloperId = int

  /** A row of the append-only `assignments` table. */
  datatype Assignment = Assignment(bugId: BugId, developerId: DeveloperId)

  /** The statement the store rejects during one call, if any. */
  datatype Fault = NoFault | LookupFails | InsertFails | UpdateFails

  /** Why `assignBug` threw. */
  datatype Error = DeveloperNotFound | QueryFailed

  /** The three tables `assignBug` touches. */
  datatype Tables = Tables(
    developers: set<DeveloperId>,
    assignments: seq<Assignment>,
    bugStatus: map<BugId, string>)

  /** The tables after one call, and what the call returned or threw. */
  datatype Step = Step(after: Tables, result: Result<string, Error>)

  const ASSIGNED: string := "ASSIGNED"
  const ASSIGNED_MESSAGE: string := "Bug assigned successfully"

  /** The message of the thrown `Error`. */
  function ErrorMessage(e: Error): (m: string)
    ensures m == "Developer not found" <==> e.DeveloperNotFound?
  {
    match e
    case DeveloperNotFound => "Developer not found"
    case QueryFailed => "query failed"
  }

  /** `UPDATE bugs SET status = s WHERE id = bugId`: no row matches an unknown id. */
  function SetStatus(status: map<BugId, string>, bugId: BugId, s: string): (r: map<BugId, string>)
    ensures r.Keys == status.Keys
    ensures bugId in status ==> r[bugId] == s
    ensures forall b :: b in status && b != bugId ==> r[b] == status[b]
  {
    if bugId in status then status[bugId := s] else status
  }

  /** The whole effect of `assignBug(bugId, developerId)` on the tables. */
  function AssignBugSpec(t: Tables, bugId: BugId, developerId: DeveloperId, fault: Fault): (s: Step)
    ensures s.after.developers == t.developers
    ensures s.result.Success? <==> fault.NoFault? && developerId in t.developers
    ensures s.result.Success? ==> s.result.value == "Bug assigned successfully"
    ensures s.result == Failure(DeveloperNotFound) <==> !fault.LookupFails? && developerId !in t.developers
  {
    if fault.LookupFails? then Step(t, Failure(QueryFailed))
    else if developerId !in t.developers then Step(t, Failure(DeveloperNotFound))
    else if fault.InsertFails? then Step(t, Failure(QueryFailed))
    else
      var inserted := t.(assignments := t.assignments + [Assignment(bugId, developerId)]);
      if fault.UpdateFails? then Step(inserted, Failure(QueryFailed))
      else Step(inserted.(bugStatus := SetStatus(t.bugStatus, bugId, ASSIGNED)), Success(ASSIGNED_MESSAGE))
  }

  /** The backing store of the three tables, changed in place by `AssignBug`. */
  class AssignmentStore {
    var developers: set<DeveloperId>
    var assignments: seq<Assignment>
    var bugStatus: map<BugId, string>

    function Snapshot(): Tables
      reads this
    {
      Tables(developers, assignments, bugStatus)
    }

    constructor (t: Tables)
      ensures Snapshot() == t
    {
      developers := t.developers;
      assignments := t.assignments;
      bugStatus := t.bugStatus;
    }

    /** Look the developer up, insert the assignment row, then update the bug's status. */
    method AssignBug(bugId: BugId, developerId: DeveloperId, fault: Fault) returns (r: Result<string, Error>)
      modifies this
      ensures Step(Snapshot(), r) == AssignBugSpec(old(Snapshot()), bugId, developerId, fault)
      ensures developers == old(developers)
      ensures old(assignments) <= assignments
      ensures developerId !in developers ==> r.Failure? && unchanged(this)
      ensures r.Success? ==> assignments == old(assignments) + [Assignment(bugId, developerId)]
      ensures r.Success? ==> bugStatus == SetStatus(old(bugStatus), bugId, ASSIGNED)
    {
      if fault.LookupFails? {
        return Failure(QueryFailed);
      }
      if developerId !in developers {
        return Failure(DeveloperNotFound);
      }
      if fault.InsertFails? {
        return Failure(QueryFailed);
      }
      assignments := assignments + [Assignment(bugId, developerId)];
      if fault.UpdateFails? {
        return Failure(QueryFailed);
      }
      if bugId in bugStatus {
        bugStatus := bugStatus[bugId := ASSIGNED];
      }
      return Success(ASSIGNED_MESSAGE);
    }
  }

  /** The number of assignment rows recorded for `bugId`. */
  function CountRows(rows: seq<Assignment>, bugId: BugId): nat {
    if rows == [] then 0
    else CountRows(rows[..|rows| - 1], bugId) + (if rows[|rows| - 1].bugId == bugId then 1 else 0)
  }

  /** Counting distributes over concatenation. */
  lemma {:induction false} CountRowsAppend(xs: seq<Assignment>, ys: seq<Assignment>, bugId: BugId)
    ensures CountRows(xs + ys, bugId) == CountRows(xs, bugId) + CountRows(ys, bugId)
    decreases |ys|
  {
    if ys == [] {
      assert xs + ys == xs;
    } else {
      var last := |ys| - 1;
      assert (xs + ys)[..|xs + ys| - 1] == xs + ys[..last];
      CountRowsAppend(xs, ys[..last], bugId);
    }
  }

  /** An unknown developer is rejected before anything is written. */
  lemma UnknownDeveloperWritesNothing(t: Tables, bugId: BugId, developerId: DeveloperId, fault: Fault)
    requires developerId !in t.developers
    ensures AssignBugSpec(t, bugId, developerId, fault).after == t
    ensures AssignBugSpec(t, bugId, developerId, fault).result.Failure?
    ensures !fault.LookupFails? ==>
      ErrorMessage(AssignBugSpec(t, bugId, developerId, fault).result.error) == "Developer not found"
  {
  }

  /** The assignments table only grows, by at most the one new row, and no
      existing row is rewritten. */
  lemma AssignmentsAppendOnly(t: Tables, bugId: BugId, developerId: DeveloperId, fault: Fault)
    ensures t.assignments <= AssignBugSpec(t, bugId, developerId, fault).after.assignments
    ensures AssignBugSpec(t, bugId, developerId, fault).after.assignments == t.assignments
         || AssignBugSpec(t, bugId, developerId, fault).after.assignments == t.assignments + [Assignment(bugId, developerId)]
  {
  }

  /** A successful call appends exactly the row (bugId, developerId), marks
      that bug ASSIGNED if it exists, and leaves every other bug's status alone. */
  lemma SuccessEffect(t: Tables, bugId: BugId, developerId: DeveloperId)
    requires developerId in t.developers
    ensures AssignBugSpec(t, bugId, developerId, NoFault).result == Success("Bug assigned successfully")
    ensures AssignBugSpec(t, bugId, developerId, NoFault).after.assignments
         == t.assignments + [Assignment(bugId, developerId)]
    ensures bugId in t.bugStatus ==> AssignBugSpec(t, bugId, developerId, NoFault).after.bugStatus[bugId] == "ASSIGNED"
    ensures AssignBugSpec(t, bugId, developerId, NoFault).after.bugStatus.Keys == t.bugStatus.Keys
    ensures forall b :: b in t.bugStatus && b != bugId ==>
      AssignBugSpec(t, bugId, developerId, NoFault).after.bugStatus[b] == t.bugStatus[b]
  {
  }

  /** A rejected status update leaves the new assignment row in place and every
      status as it was: the two writes are not rolled back together. */
  lemma NoRollbackOnUpdateFailure(t: Tables, bugId: BugId, developerId: DeveloperId)
    requires developerId in t.developers
    ensures AssignBugSpec(t, bugId, developerId, UpdateFails).result.Failure?
    ensures AssignBugSpec(t, bugId, developerId, UpdateFails).after.assignments
         == t.assignments + [Assignment(bugId, developerId)]
    ensures AssignBugSpec(t, bugId, developerId, UpdateFails).after.bugStatus == t.bugStatus
  {
  }

  /** A failing developer lookup throws before either write, whether or not
      the developer exists. */
  lemma LookupFailureWritesNothing(t: Tables, bugId: BugId, developerId: DeveloperId)
    ensures AssignBugSpec(t, bugId, developerId, LookupFails).after == t
    ensures AssignBugSpec(t, bugId, developerId, LookupFails).result == Failure(QueryFailed)
  {
  }

  /** A rejected insert fails before the status update, so nothing changes. */
  lemma InsertFailureWritesNothing(t: Tables, bugId: BugId, developerId: DeveloperId)
    ensures AssignBugSpec(t, bugId, developerId, InsertFails).after == t
    ensures AssignBugSpec(t, bugId, developerId, InsertFails).result.Failure?
  {
  }

  /** Each successful call adds one row for its bug. */
  lemma SuccessCountsOneRow(t: Tables, bugId: BugId, developerId: DeveloperId)
    requires developerId in t.developers
    ensures CountRows(AssignBugSpec(t, bugId, developerId, NoFault).after.assignments, bugId)
         == CountRows(t.assignments, bugId) + 1
  {
    CountRowsAppend(t.assignments, [Assignment(bugId, developerId)], bugId);
  }

  /** A successful call adds no row for any other bug. */
  lemma SuccessKeepsOtherCounts(t: Tables, bugId: BugId, developerId: DeveloperId, other: BugId)
    requires developerId in t.developers
    requires other != bugId
    ensures CountRows(AssignBugSpec(t, bugId, developerId, NoFault).after.assignments, other)
         == CountRows(t.assignments, other)
  {
    CountRowsAppend(t.assignments, [Assignment(bugId, developerId)], other);
  }

  /** Assigning the same bug twice yields two rows, the first kept as it was. */
  lemma AssignTwiceKeepsBothRows(t: Tables, bugId: BugId, dev1: DeveloperId, dev2: DeveloperId)
    requires dev1 in t.developers && dev2 in t.developers
    ensures AssignBugSpec(AssignBugSpec(t, bugId, dev1, NoFault).after, bugId, dev2, NoFault).after.assignments
         == t.assignments + [Assignment(bugId, dev1), Assignment(bugId, dev2)]
    ensures CountRows(AssignBugSpec(AssignBugSpec(t, bugId, dev1, NoFault).after, bugId, dev2, NoFault).after.assignments, bugId)
         == CountRows(t.assignments, bugId) + 2
  {
    var mid := AssignBugSpec(t, bugId, dev1, NoFault).after;
    SuccessCountsOneRow(t, bugId, dev1);
    SuccessCountsOneRow(mid, bugId, dev2);
  }
}
