/**
 The request handlers taken together: a staff action is one handler call,
 a failed call (HTTP 400 or 404) leaves the store as it was, and a working
 day is a sequence of actions. The lemmas state what every such sequence
 preserves, and the behaviours of the handlers as written that a
 stricter workflow would forbid.
 */
module Workflow {
  import opened Records
  import opened Payload
  import TestController
  import BillingController
  import TestTimer

  /** One staff request. */
  datatype Action =
    | AssignTests(body: Json)
    | StartTest(testId: nat, now: Timestamp)
    | CompleteTest(testId: nat, actor: nat, now: Timestamp)
    | CreateBill(body: Json)
    | PayBill(billId: nat, body: Json)

  function Apply(s: Store, a: Action): Result<Store> {
    match a
    case AssignTests(body) =>
      (match TestController.CreateTests(s, body)
       case Ok(v) => Ok(v.store)
       case Err(e) => Err(e))
    case StartTest(id, now) =>
      (match TestController.StartTest(s, id, now)
       case Ok(v) => Ok(v.store)
       case Err(e) => Err(e))
    case CompleteTest(id, actor, now) => TestController.CompleteTest(s, id, actor, now)
    case CreateBill(body) =>
      (match BillingController.CreateBilling(s, body)
       case Ok(v) => Ok(v.store)
       case Err(e) => Err(e))
    case PayBill(id, body) => BillingController.PayBilling(s, id, body)
  }

  /** The store after one request: unchanged when the handler fails. */
  function Step(s: Store, a: Action): Store {
    match Apply(s, a)
    case Ok(s') => s'
    case Err(_) => s
  }

  /** The store after a sequence of requests, handled one at a time. */
  function Run(s: Store, actions: seq<Action>): Store
    decreases |actions|
  {
    if |actions| == 0 then s else Run(Step(s, actions[0]), actions[1..])
  }

  /** The columns of a patient row no handler here writes. */
  predicate SameIdentity(p: Patient, q: Patient) {
    && p.uhid == q.uhid
    && p.name == q.name
    && p.phone == q.phone
    && p.tokenNumber == q.tokenNumber
    && p.priority == q.priority
  }

  /** What no handler ever undoes when going from `s` to `t`: no patient row
      appears or disappears or changes identity; test and bill rows are never
      deleted and keep their owner, type and amount; a paid bill stays paid;
      the log and the outbox only grow at the end. */
  predicate Evolves(s: Store, t: Store) {
    && s.patients.Keys == t.patients.Keys
    && (forall p :: p in s.patients ==> SameIdentity(s.patients[p], t.patients[p]))
    && s.tests.Keys <= t.tests.Keys
    && (forall k :: k in s.tests ==>
          t.tests[k].patientId == s.tests[k].patientId && t.tests[k].testType == s.tests[k].testType)
    && s.bills.Keys <= t.bills.Keys
    && (forall k :: k in s.bills ==>
          t.bills[k].patientId == s.bills[k].patientId && t.bills[k].amount == s.bills[k].amount)
    && (forall k :: k in s.bills && s.bills[k].status == Paid ==> t.bills[k].status == Paid)
    && s.log <= t.log
    && s.outbox <= t.outbox
  }

  lemma EvolvesTransitive(s: Store, t: Store, u: Store)
    requires Evolves(s, t) && Evolves(t, u)
    ensures Evolves(s, u)
  {
  }

  lemma AssignEvolves(s: Store, body: Json)
    requires Valid(s)
    ensures TestController.CreateTests(s, body).Ok? ==> Evolves(s, TestController.CreateTests(s, body).value.store)
  {
  }

  lemma StartEvolves(s: Store, id: nat, now: Timestamp)
    requires Valid(s)
    ensures TestController.StartTest(s, id, now).Ok? ==> Evolves(s, TestController.StartTest(s, id, now).value.store)
  {
  }

  lemma CompleteEvolves(s: Store, id: nat, actor: nat, now: Timestamp)
    requires Valid(s)
    ensures TestController.CompleteTest(s, id, actor, now).Ok? ==>
      Evolves(s, TestController.CompleteTest(s, id, actor, now).value)
  {
  }

  lemma CreateBillEvolves(s: Store, body: Json)
    requires Valid(s)
    ensures BillingController.CreateBilling(s, body).Ok? ==>
      Evolves(s, BillingController.CreateBilling(s, body).value.store)
  {
  }

  lemma PayEvolves(s: Store, id: nat, body: Json)
    requires Valid(s)
    ensures BillingController.PayBilling(s, id, body).Ok? ==> Evolves(s, BillingController.PayBilling(s, id, body).value)
  {
  }

  /** Every handler, on a valid store, keeps the store valid and evolves it. */
  lemma StepEvolves(s: Store, a: Action)
    requires Valid(s)
    ensures Valid(Step(s, a))
    ensures Evolves(s, Step(s, a))
  {
    match a
    case AssignTests(body) => AssignEvolves(s, body);
    case StartTest(id, now) => StartEvolves(s, id, now);
    case CompleteTest(id, actor, now) => CompleteEvolves(s, id, actor, now);
    case CreateBill(body) => CreateBillEvolves(s, body);
    case PayBill(id, body) => PayEvolves(s, id, body);
  }

  /** Any sequence of requests keeps a valid store valid and only evolves it. */
  lemma {:induction false} RunEvolves(s: Store, actions: seq<Action>)
    requires Valid(s)
    ensures Valid(Run(s, actions))
    ensures Evolves(s, Run(s, actions))
    decreases |actions|
  {
    if |actions| > 0 {
      var s1 := Step(s, actions[0]);
      StepEvolves(s, actions[0]);
      RunEvolves(s1, actions[1..]);
      EvolvesTransitive(s, s1, Run(s1, actions[1..]));
    }
  }

  /** Only completing a test writes the log, one entry per completion, so the
      log grows by exactly the number of successful completions. */
  function Completions(s: Store, actions: seq<Action>): nat
    decreases |actions|
  {
    if |actions| == 0 then 0
    else
      var done := if actions[0].CompleteTest? && actions[0].testId in s.tests then 1 else 0;
      done + Completions(Step(s, actions[0]), actions[1..])
  }

  lemma {:induction false} LogCountsCompletions(s: Store, actions: seq<Action>)
    ensures |Run(s, actions).log| == |s.log| + Completions(s, actions)
    decreases |actions|
  {
    if |actions| > 0 {
      LogCountsCompletions(Step(s, actions[0]), actions[1..]);
    }
  }

  /** The server's and the client's duration tables agree on every test type. */
  lemma DurationTablesAgree(t: TestType)
    ensures TestController.ExpectedDurationMin(t) == TestTimer.DurationMinutes(t)
    ensures TestTimer.CountdownSeconds(t) == 60 * TestController.ExpectedDurationMin(t)
  {
  }

  /** Starting a test does not look at its status: a test already running or
      already completed is started again, and its start time is replaced. */
  lemma StartIgnoresStatus(s: Store, id: nat, first: Timestamp, second: Timestamp)
    requires id in s.tests
    ensures var s1 := TestController.StartTest(s, id, first).value.store;
            && TestController.StartTest(s1, id, second).Ok?
            && TestController.StartTest(s1, id, second).value.store.tests[id].startTime == Some(second)
    ensures s.tests[id].status == TestStatus.Completed ==>
            TestController.StartTest(s, id, first).value.store.tests[id].status == TestStatus.InProgress
  {
  }

  /** Completing one test of a patient moves the patient to the doctor's
      queue even while another of their tests still waits for screening. */
  lemma AnyCompletionMovesToDoctor(s: Store, done: nat, other: nat, actor: nat, now: Timestamp)
    requires done in s.tests && other in s.tests && done != other
    requires s.tests[done].patientId == s.tests[other].patientId
    requires TestController.Waits(s, other)
    ensures var s' := TestController.CompleteTest(s, done, actor, now).value;
            && s'.patients[s.tests[done].patientId].stage == Doctor
            && s'.patients[s.tests[done].patientId].status == Waiting
            && TestController.Waits(s', other)
  {
  }

  /** Starting a test moves its patient back to screening from any stage,
      a completed visit included. */
  lemma StartReopensVisit(s: Store, id: nat, now: Timestamp)
    requires id in s.tests && s.tests[id].patientId in s.patients
    requires s.patients[s.tests[id].patientId].stage == Stage.Completed
    ensures TestController.StartTest(s, id, now).value.store.patients[s.tests[id].patientId].stage == Screening
  {
  }

  /** Paying a bill twice is accepted: the second payment replaces the mode,
      the amount stays, and the patient's stage and status end where one
      payment leaves them. */
  lemma PayTwice(s: Store, id: nat, first: Json, second: Json)
    requires id in s.bills
    requires PayBodyOk(first) && PayBodyOk(second)
    ensures var s1 := BillingController.PayBilling(s, id, first).value;
            var r := BillingController.PayBilling(s1, id, second);
            && r.Ok?
            && r.value.bills[id].status == Paid
            && r.value.bills[id].paymentMode == Some(ParsePay(second).value)
            && r.value.bills[id].amount == s.bills[id].amount
            && r.value.patients == s1.patients
  {
    var s1 := BillingController.PayBilling(s, id, first).value;
    var pid := s.bills[id].patientId;
    assert s1.bills[id].patientId == pid;
    if pid in s.patients {
      assert s1.patients[pid].stage == Stage.Completed;
    }
  }

  /** The countdown of test `id` itself runs out only when the test is
      running and a full duration has passed since its recorded start; the
      completion it then asks for is of that very test, and it moves the
      patient to the doctor's queue. */
  lemma ExpiryCompletesTest(s: Store, id: nat, actor: nat, now: Timestamp, nows: seq<int>)
    requires id in s.tests && s.tests[id].patientId in s.patients
    requires TestTimer.Timer(id, s.tests[id], nows).completed.Some?
    ensures var t := s.tests[id];
            && TestTimer.CountdownRuns(t)
            && exists i :: 0 <= i < |nows| && nows[i] - t.startTime.value >= 1000 * TestTimer.CountdownSeconds(t.testType)
    ensures var c := TestTimer.Timer(id, s.tests[id], nows);
            && c.completed.value == id
            && var s' := TestController.CompleteTest(s, c.completed.value, actor, now).value;
            && s'.tests[id].status == TestStatus.Completed
            && s'.tests[id].startTime == s.tests[id].startTime
            && s'.patients[s.tests[id].patientId].stage == Doctor
  {
  }

  /** A visit from assignment to payment, for an emergency patient holding
      token 7 who is assigned a vision and an IOP test. Only the vision test
      is run; completing it is enough to reach the doctor, and the bill can
      be generated and paid without any consultation step. */
  function VisitPatient(): Patient {
    Patient("UH-7", "Asha", "8000000000", 7, Emergency, Registered, Waiting)
  }

  function VisitStore(): Store {
    Store(map[1 := VisitPatient()], map[], map[], [], [], 1, 1)
  }

  function AssignBody(): Json {
    Obj(map["patient_id" := Num(1.0), "test_types" := Arr([Str("vision"), Str("iop")])])
  }

  /** The store once both tests are assigned. */
  function AssignedStore(): Store {
    Store(map[1 := VisitPatient()],
          map[1 := TestController.NewTest(1, Vision), 2 := TestController.NewTest(1, Iop)],
          map[], [], [], 3, 1)
  }

  lemma VisitAssign()
    ensures TestController.CreateTests(VisitStore(), AssignBody()) == Ok(TestController.Assigned(AssignedStore(), [1, 2]))
  {
    var body := AssignBody();
    assert CreateTestsBodyOk(body);
    var req := ParseCreateTests(body).value;
    assert req.testTypes == [Vision, Iop] by {
      var got := req.testTypes;
      assert Str(TestTypeName(got[0])) == Str("vision");
      assert Str(TestTypeName(got[1])) == Str("iop");
      TestTypeNameRoundTrip(got[0]);
      TestTypeNameRoundTrip(got[1]);
    }
    var a := TestController.CreateTests(VisitStore(), body);
    assert a.value.testIds == [1, 2];
    assert a.value.store.tests == AssignedStore().tests;
  }

  /** Both assigned tests, and nothing else, wait in the screening queue. */
  lemma VisitQueue()
    ensures var w := TestController.WaitingTests(AssignedStore());
            && TestController.RowOf(AssignedStore(), 1) in w
            && TestController.RowOf(AssignedStore(), 2) in w
            && (forall row :: row in w ==> row.item.testId == 1 || row.item.testId == 2)
  {
    var s := AssignedStore();
    assert Valid(s);
    assert s.tests.Keys == {1, 2};
    assert TestController.Waits(s, 1) && TestController.Waits(s, 2);
    var w := TestController.WaitingTests(s);
    assert forall row :: row in w ==> row.item.testId in s.tests.Keys;
  }

  /** The store while the vision test runs: started at 100, the patient in
      screening, one notice sent. */
  function InScreening(): Store {
    var p := VisitPatient().(stage := Screening, status := PatientStatus.InProgress);
    Store(map[1 := p],
          map[1 := Test(1, Vision, TestStatus.InProgress, Some(100), None), 2 := TestController.NewTest(1, Iop)],
          map[], [],
          [Notice("8000000000", 1, TestStarted(Vision))],
          3, 1)
  }

  /** The technician starts the vision test at 100: it is expected to take
      five minutes. */
  lemma VisitStart()
    ensures TestController.StartTest(AssignedStore(), 1, 100)
            == Ok(TestController.Started(InScreening(), 5))
  {
    var s2 := TestController.StartTest(AssignedStore(), 1, 100).value.store;
    assert s2.tests == InScreening().tests;
    assert s2.patients == InScreening().patients;
    assert s2.outbox == InScreening().outbox;
  }

  /** The store once the vision test has been run, started at 100 and
      completed at 200 by staff member 9. */
  function Screened(): Store {
    var p := VisitPatient().(stage := Doctor, status := Waiting);
    Store(map[1 := p],
          map[1 := Test(1, Vision, TestStatus.Completed, Some(100), Some(200)), 2 := TestController.NewTest(1, Iop)],
          map[], [LogEntry(9, "Completed vision test", 1)],
          [Notice("8000000000", 1, TestStarted(Vision)), Notice("8000000000", 1, TestCompleted(Vision))],
          3, 1)
  }

  /** Staff member 9 completes the vision test at 200: the patient waits for
      the doctor, with the Iop test still pending. */
  lemma VisitComplete()
    ensures TestController.CompleteTest(InScreening(), 1, 9, 200) == Ok(Screened())
  {
    var s3 := TestController.CompleteTest(InScreening(), 1, 9, 200).value;
    assert TestController.CompletedAction(Vision) == "Completed vision test";
    assert s3.tests == Screened().tests;
    assert s3.patients == Screened().patients;
    assert s3.log == Screened().log;
    assert s3.outbox == Screened().outbox;
  }

  function BillBody(): Json {
    Obj(map["patient_id" := Num(1.0), "amount" := Num(500.0)])
  }

  function PayBody(): Json {
    Obj(map["payment_mode" := Str("cash")])
  }

  /** The bill of 500 is generated and paid in cash: the visit is complete,
      with one log entry and four notices to the patient. */
  lemma VisitBilling()
    ensures var b := BillingController.CreateBilling(Screened(), BillBody());
            && b.Ok? && b.value.id == 1
            && var r := BillingController.PayBilling(b.value.store, 1, PayBody());
            && r.Ok?
            && r.value.patients[1].stage == Stage.Completed
            && r.value.patients[1].status == PatientStatus.Completed
            && r.value.bills[1] == Bill(1, 500.0, Paid, Some(Cash))
            && r.value.tests[2].status == TestStatus.Pending
            && r.value.log == [LogEntry(9, "Completed vision test", 1)]
            && r.value.outbox == Screened().outbox + [
                 Notice("8000000000", 1, BillGenerated(500.0)),
                 Notice("8000000000", 1, PaymentReceived(500.0, Cash))]
  {
    assert CreateBillingBodyOk(BillBody());
    var b := BillingController.CreateBilling(Screened(), BillBody());
    assert b.value.store.bills[1] == Bill(1, 500.0, BillStatus.Pending, None);
    assert PayBodyOk(PayBody());
    assert ParsePay(PayBody()).value == Cash;
  }
}
