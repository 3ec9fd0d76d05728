/**
 The diagnostic-test handlers: assigning tests to a patient, starting and
 completing one test, and the waiting-tests queue.

 Each handler is one atomic step from a store to a new store or an error.
 None of them checks the state a record is in before overwriting it: a test
 can be started again, completed without being started, and completing any
 one test sends its patient to the doctor's queue.
 */
module TestController {
  import opened Records
  import opened Payload
  import PriorityQueue

  /** The server's `testDurations` table: the expected length of each test
      type in minutes, reported when a test starts. */
  function ExpectedDurationMin(t: TestType): nat {
    match t
    case Vision => 5
    case Refraction => 10
    case Iop => 5
    case Oct => 15
    case Field => 20
    case Preop => 25
  }

  /** A freshly assigned tests row. */
  function NewTest(patientId: nat, t: TestType): Test {
    Test(patientId, t, TestStatus.Pending, None, None)
  }

  /** The rows inserted by createTests' loop: one pending row per listed type,
      in list order, under the ids `next`, `next + 1`, ... */
  function InsertTests(m: map<nat, Test>, patientId: nat, types: seq<TestType>, next: nat): (r: map<nat, Test>)
    decreases |types|
    ensures forall k :: k in r <==> k in m || next <= k < next + |types|
    ensures forall k :: next <= k < next + |types| ==> r[k] == NewTest(patientId, types[k - next])
    ensures forall k :: k in m && !(next <= k < next + |types|) ==> r[k] == m[k]
  {
    if |types| == 0 then m
    else InsertTests(m[next := NewTest(patientId, types[0])], patientId, types[1..], next + 1)
  }

  /** The ids `next`, `next + 1`, ..., `next + n - 1`. */
  function IdRange(next: nat, n: nat): (r: seq<nat>)
    decreases n
    ensures |r| == n
    ensures forall i :: 0 <= i < n ==> r[i] == next + i
  {
    if n == 0 then [] else [next] + IdRange(next + 1, n - 1)
  }

  /** An id is in the range exactly when it lies between its bounds. */
  lemma IdRangeMembers(next: nat, n: nat)
    ensures forall k :: k in IdRange(next, n) <==> next <= k < next + n
  {
    var ids := IdRange(next, n);
    forall k | next <= k < next + n
      ensures k in ids
    {
      assert ids[k - next] == k;
    }
  }

  /** Adding tests under the next `n` ids, and moving the counter past them,
      keeps a valid store valid. */
  lemma AddTestsKeepsValid(s: Store, tests: map<nat, Test>, n: nat)
    requires Valid(s)
    requires forall k :: k in tests <==> k in s.tests || s.nextTestId <= k < s.nextTestId + n
    ensures Valid(s.(tests := tests, nextTestId := s.nextTestId + n))
  {
  }

  datatype Assigned = Assigned(store: Store, testIds: seq<nat>)

  /** POST /tests: validate the body, look the patient up, insert the tests. */
  function CreateTests(s: Store, body: Json): (r: Result<Assigned>)
    ensures !CreateTestsBodyOk(body) ==> r == Err(ValidationError)
    ensures CreateTestsBodyOk(body) ==>
      var req := ParseCreateTests(body).value;
      (r.Err? <==> req.patientId !in s.patients) && (r.Err? ==> r.error == NotFound(PatientRecord))
    ensures r.Ok? ==>
      var req := ParseCreateTests(body).value;
      var s' := r.value.store;
      var ids := r.value.testIds;
      && |ids| == |req.testTypes|
      && (forall i :: 0 <= i < |ids| ==> ids[i] == s.nextTestId + i)
      && (forall i :: 0 <= i < |ids| ==>
            ids[i] in s'.tests && s'.tests[ids[i]] == NewTest(req.patientId, req.testTypes[i]))
      && (forall k :: k in s'.tests <==> k in s.tests || k in ids)
      && (forall k :: k in s.tests && k !in ids ==> s'.tests[k] == s.tests[k])
      && (Valid(s) ==> forall i :: 0 <= i < |ids| ==> ids[i] !in s.tests)
      && s'.nextTestId == s.nextTestId + |ids|
      && s'.patients == s.patients
      && s'.bills == s.bills
      && s'.log == s.log
      && s'.outbox == s.outbox
      && s'.nextBillId == s.nextBillId
    ensures r.Ok? && Valid(s) ==> Valid(r.value.store)
  {
    match ParseCreateTests(body)
    case Err(e) => Err(e)
    case Ok(req) =>
      if req.patientId !in s.patients then Err(NotFound(PatientRecord))
      else
        var n := |req.testTypes|;
        var ids := IdRange(s.nextTestId, n);
        IdRangeMembers(s.nextTestId, n);
        var tests := InsertTests(s.tests, req.patientId, req.testTypes, s.nextTestId);
        assert Valid(s) ==> Valid(s.(tests := tests, nextTestId := s.nextTestId + n)) by {
          if Valid(s) {
            AddTestsKeepsValid(s, tests, n);
          }
        }
        Ok(Assigned(s.(tests := tests, nextTestId := s.nextTestId + n), ids))
  }

  datatype Started = Started(store: Store, expectedDurationMin: nat)

  /** PUT /tests/start/:id */
  function StartTest(s: Store, id: nat, now: Timestamp): (r: Result<Started>)
    ensures r.Err? <==> id !in s.tests
    ensures r.Err? ==> r.error == NotFound(TestRecord)
    ensures r.Ok? ==>
      var t := s.tests[id];
      var s' := r.value.store;
      && s'.tests.Keys == s.tests.Keys
      && s'.tests[id] == t.(status := TestStatus.InProgress, startTime := Some(now))
      && (forall k :: k in s.tests && k != id ==> s'.tests[k] == s.tests[k])
      && s'.patients.Keys == s.patients.Keys
      && (t.patientId in s.patients ==>
            s'.patients[t.patientId]
            == s.patients[t.patientId].(stage := Screening, status := PatientStatus.InProgress))
      && (forall p :: p in s.patients && p != t.patientId ==> s'.patients[p] == s.patients[p])
      && s'.bills == s.bills
      && s'.log == s.log
      && s'.nextTestId == s.nextTestId
      && s'.nextBillId == s.nextBillId
      && NotifiedAtMostOnce(s, s'.outbox, t.patientId, TestStarted(t.testType))
      && r.value.expectedDurationMin == ExpectedDurationMin(t.testType)
    ensures r.Ok? && Valid(s) ==> Valid(r.value.store)
  {
    if id !in s.tests then Err(NotFound(TestRecord))
    else
      var t := s.tests[id];
      var tests := s.tests[id := t.(status := TestStatus.InProgress, startTime := Some(now))];
      var patients :=
        if t.patientId in s.patients
        then s.patients[t.patientId := s.patients[t.patientId].(stage := Screening, status := PatientStatus.InProgress)]
        else s.patients;
      var s1 := s.(tests := tests, patients := patients);
      Ok(Started(s1.(outbox := Notify(s1, t.patientId, TestStarted(t.testType))), ExpectedDurationMin(t.testType)))
  }

  /** The text of the log entry written when a test completes. */
  function CompletedAction(t: TestType): string {
    "Completed " + TestTypeName(t) + " test"
  }

  /** PUT /tests/complete/:id, performed by the staff member `actor`. */
  function CompleteTest(s: Store, id: nat, actor: nat, now: Timestamp): (r: Result<Store>)
    ensures r.Err? <==> id !in s.tests
    ensures r.Err? ==> r.error == NotFound(TestRecord)
    ensures r.Ok? ==>
      var t := s.tests[id];
      var s' := r.value;
      && s'.tests.Keys == s.tests.Keys
      && s'.tests[id] == t.(status := TestStatus.Completed, endTime := Some(now))
      && (forall k :: k in s.tests && k != id ==> s'.tests[k] == s.tests[k])
      && s'.patients.Keys == s.patients.Keys
      && (t.patientId in s.patients ==>
            s'.patients[t.patientId] == s.patients[t.patientId].(stage := Doctor, status := Waiting))
      && (forall p :: p in s.patients && p != t.patientId ==> s'.patients[p] == s.patients[p])
      && s'.log == s.log + [LogEntry(actor, CompletedAction(t.testType), t.patientId)]
      && s'.bills == s.bills
      && s'.nextTestId == s.nextTestId
      && s'.nextBillId == s.nextBillId
      && NotifiedAtMostOnce(s, s'.outbox, t.patientId, TestCompleted(t.testType))
    ensures r.Ok? && Valid(s) ==> Valid(r.value)
  {
    if id !in s.tests then Err(NotFound(TestRecord))
    else
      var t := s.tests[id];
      var tests := s.tests[id := t.(status := TestStatus.Completed, endTime := Some(now))];
      var patients :=
        if t.patientId in s.patients
        then s.patients[t.patientId := s.patients[t.patientId].(stage := Doctor, status := Waiting)]
        else s.patients;
      var log := s.log + [LogEntry(actor, CompletedAction(t.testType), t.patientId)];
      var s1 := s.(tests := tests, patients := patients, log := log);
      Ok(s1.(outbox := Notify(s1, t.patientId, TestCompleted(t.testType))))
  }

  /** A row of the waiting-tests response: the test row with its id and its
      patient's name. The queue entry around it carries the patient's
      priority level, which the response includes, and token number, which
      only orders the rows and is not returned. */
  datatype TestRow = TestRow(testId: nat, test: Test, patientName: string)

  type WaitingRow = PriorityQueue.Queued<TestRow>

  /** Test `id` belongs in the waiting queue: it exists, is not completed,
      and its patient row exists (the query is an inner join). */
  predicate Waits(s: Store, id: nat) {
    && id in s.tests
    && s.tests[id].status != TestStatus.Completed
    && s.tests[id].patientId in s.patients
  }

  /** The joined row the query produces for a waiting test. */
  function RowOf(s: Store, id: nat): WaitingRow
    requires Waits(s, id)
  {
    var t := s.tests[id];
    var p := s.patients[t.patientId];
    PriorityQueue.Queued(TestRow(id, t, p.name), p.priority, p.tokenNumber)
  }

  /** The filter and join of the query over the test ids `ids`, before ordering. */
  function JoinWaiting(s: Store, ids: seq<nat>): (r: seq<WaitingRow>)
    ensures forall row :: row in r ==>
      Waits(s, row.item.testId) && row == RowOf(s, row.item.testId) && row.item.testId in ids
    ensures forall k :: k in ids && Waits(s, k) ==> RowOf(s, k) in r
    ensures Increasing(ids) ==> PriorityQueue.NoDuplicates(r)
  {
    if |ids| == 0 then []
    else
      var rest := JoinWaiting(s, ids[1..]);
      assert forall k :: k in ids ==> k == ids[0] || k in ids[1..];
      if Waits(s, ids[0]) then
        assert Increasing(ids) ==> RowOf(s, ids[0]) !in rest by {
          if Increasing(ids) {
            assert forall k :: k in ids[1..] ==> ids[0] < k;
          }
        }
        [RowOf(s, ids[0])] + rest
      else rest
  }

  /** Rows that are each the join of their own test id are told apart by
      that id alone. */
  lemma DistinctRowsHaveDistinctIds(s: Store, r: seq<WaitingRow>)
    requires PriorityQueue.NoDuplicates(r)
    requires forall row :: row in r ==> Waits(s, row.item.testId) && row == RowOf(s, row.item.testId)
    ensures forall i, j :: 0 <= i < j < |r| ==> r[i].item.testId != r[j].item.testId
  {
    forall i, j | 0 <= i < j < |r|
      ensures r[i].item.testId != r[j].item.testId
    {
      assert r[i] in r && r[j] in r;
      assert r[i] != r[j];
    }
  }

  /** GET /tests/waiting */
  function WaitingTests(s: Store): (r: seq<WaitingRow>)
    ensures PriorityQueue.Ordered(r)
    ensures forall row :: row in r ==> Waits(s, row.item.testId) && row == RowOf(s, row.item.testId)
    ensures Valid(s) ==> forall k :: Waits(s, k) ==> RowOf(s, k) in r
    ensures forall i, j :: 0 <= i < j < |r| ==> r[i].item.testId != r[j].item.testId
  {
    var joined := JoinWaiting(s, IdsBelow(s.tests, s.nextTestId));
    var r := PriorityQueue.Sort(joined);
    PriorityQueue.SortKeepsDistinct(joined);
    assert forall row :: row in r ==> row in joined by {
      forall row | row in r
        ensures row in joined
      {
        assert row in multiset(r);
      }
    }
    assert forall k :: Valid(s) && Waits(s, k) ==> RowOf(s, k) in r by {
      forall k | Valid(s) && Waits(s, k)
        ensures RowOf(s, k) in r
      {
        assert RowOf(s, k) in multiset(joined);
      }
    }
    DistinctRowsHaveDistinctIds(s, r);
    r
  }
}
