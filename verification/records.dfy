/**
 The clinic store: patients, diagnostic tests, bills, the activity log and the
 outbox of patient notifications, together with the enumerations the store's
 text columns take and the result type the request handlers return.

 The SQL tables become finite maps from row id to record. Row ids handed out by
 an INSERT (the driver's `lastID`) come from the counters `nextTestId` and
 `nextBillId`; `Valid` says every id in use is below its counter.
 */
module Records {

  datatype Option<+T> = None | Some(value: T)

  /** Coarse phase of a patient's visit (column patients.current_stage). */
  datatype Stage = Registered | Screening | Doctor | Billing | Completed

  /** Status inside the current stage (column patients.status). */
  datatype PatientStatus = Waiting | InProgress | Completed

  /** Column tests.status. */
  datatype TestStatus = Pending | InProgress | Completed

  /** Column billing.status. */
  datatype BillStatus = Pending | Paid

  /** Column patients.priority_level. The four labels the application uses
      have their own constructors; any other stored text is kept as it is. */
  datatype Priority = Emergency | Vip | Senior | Normal | Other(text: string)

  /** Each stored text has one representation: `Other` holds only text
      that is none of the four named labels. */
  predicate CanonicalPriority(p: Priority) {
    p.Other? ==> p.text != "emergency" && p.text != "vip" && p.text != "senior" && p.text != "normal"
  }

  /** The text stored in the priority_level column. */
  function PriorityLabel(p: Priority): string {
    match p
    case Emergency => "emergency"
    case Vip => "vip"
    case Senior => "senior"
    case Normal => "normal"
    case Other(text) => text
  }

  /** In their one representation, two priorities are the same exactly when
      they store the same text. */
  lemma LabelDeterminesPriority(p: Priority, q: Priority)
    requires CanonicalPriority(p) && CanonicalPriority(q)
    ensures PriorityLabel(p) == PriorityLabel(q) <==> p == q
  {
  }

  datatype PaymentMode = Cash | Card | Upi | Insurance

  datatype TestType = Vision | Refraction | Iop | Oct | Field | Preop

  function TestTypeName(t: TestType): string {
    match t
    case Vision => "vision"
    case Refraction => "refraction"
    case Iop => "iop"
    case Oct => "oct"
    case Field => "field"
    case Preop => "preop"
  }

  /** The enum check of a test type label: exactly the six names are accepted. */
  function ParseTestType(s: string): (r: Option<TestType>)
    ensures r.Some? ==> TestTypeName(r.value) == s
  {
    if s == "vision" then Some(Vision)
    else if s == "refraction" then Some(Refraction)
    else if s == "iop" then Some(Iop)
    else if s == "oct" then Some(Oct)
    else if s == "field" then Some(Field)
    else if s == "preop" then Some(Preop)
    else None
  }

  lemma TestTypeNameRoundTrip(t: TestType)
    ensures ParseTestType(TestTypeName(t)) == Some(t)
  {
  }

  function PaymentModeName(m: PaymentMode): string {
    match m
    case Cash => "cash"
    case Card => "card"
    case Upi => "upi"
    case Insurance => "insurance"
  }

  /** The enum check of a payment mode label. */
  function ParsePaymentMode(s: string): (r: Option<PaymentMode>)
    ensures r.Some? ==> PaymentModeName(r.value) == s
  {
    if s == "cash" then Some(Cash)
    else if s == "card" then Some(Card)
    else if s == "upi" then Some(Upi)
    else if s == "insurance" then Some(Insurance)
    else None
  }

  lemma PaymentModeNameRoundTrip(m: PaymentMode)
    ensures ParsePaymentMode(PaymentModeName(m)) == Some(m)
  {
  }

  /** Value of the database's CURRENT_TIMESTAMP at the moment of a write. */
  type Timestamp = int

  /** A patients row. An empty `phone` stands for both NULL and the empty
      string: the handlers only notify when the phone is truthy. */
  datatype Patient = Patient(
    uhid: string,
    name: string,
    phone: string,
    tokenNumber: int,
    priority: Priority,
    stage: Stage,
    status: PatientStatus)

  /** A tests row. */
  datatype Test = Test(
    patientId: nat,
    testType: TestType,
    status: TestStatus,
    startTime: Option<Timestamp>,
    endTime: Option<Timestamp>)

  /** A billing row. JavaScript numbers are kept as exact reals. */
  datatype Bill = Bill(
    patientId: nat,
    amount: real,
    status: BillStatus,
    paymentMode: Option<PaymentMode>)

  /** A logs row as the handlers insert it (the id and timestamp columns are
      filled by the database). */
  datatype LogEntry = LogEntry(userId: nat, action: string, patientId: nat)

  /** What a notification to the patient announces. */
  datatype Event =
    | TestStarted(testType: TestType)
    | TestCompleted(testType: TestType)
    | BillGenerated(amount: real)
    | PaymentReceived(paid: real, mode: PaymentMode)

  /** One message handed to the messaging service. */
  datatype Notice = Notice(phone: string, patientId: nat, event: Event)

  datatype Store = Store(
    patients: map<nat, Patient>,
    tests: map<nat, Test>,
    bills: map<nat, Bill>,
    log: seq<LogEntry>,
    outbox: seq<Notice>,
    nextTestId: nat,
    nextBillId: nat)

  /** Every row id in use is positive and below the counter its next INSERT
      draws from, so inserted ids are always fresh; and every patient's
      priority is held in its one representation. */
  predicate Valid(s: Store) {
    && (forall k :: k in s.patients ==> CanonicalPriority(s.patients[k].priority))
    && 0 < s.nextTestId
    && 0 < s.nextBillId
    && (forall k :: k in s.tests ==> 0 < k < s.nextTestId)
    && (forall k :: k in s.bills ==> 0 < k < s.nextBillId)
  }

  datatype RecordKind = PatientRecord | TestRecord | BillRecord

  /** The handlers' failures: HTTP 400 and HTTP 404. */
  datatype Error = ValidationError | NotFound(kind: RecordKind)

  datatype Result<+T> = Ok(value: T) | Err(error: Error)

  predicate HasPhone(p: Patient) {
    |p.phone| > 0
  }

  /** The outbox after a handler re-reads patient `pid` and, when the row
      exists and has a phone, sends it one notice about `e`. */
  function Notify(s: Store, pid: nat, e: Event): seq<Notice> {
    if pid in s.patients && HasPhone(s.patients[pid])
    then s.outbox + [Notice(s.patients[pid].phone, pid, e)]
    else s.outbox
  }

  /** `after` keeps every notice of `before` and adds at most one: a notice
      about `e` to patient `pid`'s phone, sent exactly when that patient
      exists and has a phone. */
  predicate NotifiedAtMostOnce(before: Store, after: seq<Notice>, pid: nat, e: Event) {
    && |before.outbox| <= |after| <= |before.outbox| + 1
    && after[..|before.outbox|] == before.outbox
    && (|after| == |before.outbox| + 1 <==> pid in before.patients && HasPhone(before.patients[pid]))
    && (|after| == |before.outbox| + 1 ==>
          after[|before.outbox|] == Notice(before.patients[pid].phone, pid, e))
  }

  predicate Increasing(ids: seq<nat>) {
    forall i, j :: 0 <= i < j < |ids| ==> ids[i] < ids[j]
  }

  /** The ids of `m` below `n`, in ascending order: the order of a table scan. */
  function IdsBelow<V>(m: map<nat, V>, n: nat): (r: seq<nat>)
    ensures forall k :: k in r <==> k in m && k < n
    ensures Increasing(r)
    ensures forall i :: 0 <= i < |r| ==> r[i] < n
  {
    if n == 0 then []
    else
      var below := IdsBelow(m, n - 1);
      if n - 1 in m then below + [n - 1] else below
  }
}
