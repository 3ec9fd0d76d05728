/**
 The billing handlers: generating a bill, recording its payment, and the list
 of pending bills.

 Generating a bill neither looks at nor changes the patient's stage. Paying a
 bill does not check that it is still pending: it always marks the bill paid
 and moves the patient to the completed stage.
 */
module BillingController {
  import opened Records
  import opened Payload

  datatype BillCreated = BillCreated(store: Store, id: nat, status: BillStatus)

  /** POST /billing */
  function CreateBilling(s: Store, body: Json): (r: Result<BillCreated>)
    ensures r.Err? <==> !CreateBillingBodyOk(body)
    ensures r.Err? ==> r.error == ValidationError
    ensures r.Ok? ==>
      var req := ParseCreateBilling(body).value;
      var s' := r.value.store;
      && r.value.id == s.nextBillId
      && r.value.status == BillStatus.Pending
      && (Valid(s) ==> r.value.id !in s.bills)
      && s'.bills == s.bills[r.value.id := Bill(req.patientId, req.amount, BillStatus.Pending, None)]
      && s'.nextBillId == s.nextBillId + 1
      && s'.patients == s.patients
      && s'.tests == s.tests
      && s'.log == s.log
      && s'.nextTestId == s.nextTestId
      && NotifiedAtMostOnce(s, s'.outbox, req.patientId, BillGenerated(req.amount))
    ensures r.Ok? && Valid(s) ==> Valid(r.value.store)
  {
    match ParseCreateBilling(body)
    case Err(e) => Err(e)
    case Ok(req) =>
      var id := s.nextBillId;
      var s1 := s.(bills := s.bills[id := Bill(req.patientId, req.amount, BillStatus.Pending, None)],
                   nextBillId := id + 1);
      Ok(BillCreated(s1.(outbox := Notify(s1, req.patientId, BillGenerated(req.amount))), id, BillStatus.Pending))
  }

  /** PUT /billing/pay/:id. The body is checked before the bill is looked up. */
  function PayBilling(s: Store, id: nat, body: Json): (r: Result<Store>)
    ensures !PayBodyOk(body) ==> r == Err(ValidationError)
    ensures PayBodyOk(body) ==> (r.Err? <==> id !in s.bills)
    ensures PayBodyOk(body) && id !in s.bills ==> r == Err(NotFound(BillRecord))
    ensures r.Ok? ==>
      var mode := ParsePay(body).value;
      var b := s.bills[id];
      var s' := r.value;
      && s'.bills.Keys == s.bills.Keys
      && s'.bills[id].status == Paid
      && s'.bills[id].paymentMode == Some(mode)
      && s'.bills[id].amount == b.amount
      && s'.bills[id].patientId == b.patientId
      && (forall k :: k in s.bills && k != id ==> s'.bills[k] == s.bills[k])
      && s'.patients.Keys == s.patients.Keys
      && (b.patientId in s.patients ==>
            s'.patients[b.patientId]
            == s.patients[b.patientId].(stage := Stage.Completed, status := PatientStatus.Completed))
      && (forall p :: p in s.patients && p != b.patientId ==> s'.patients[p] == s.patients[p])
      && s'.tests == s.tests
      && s'.log == s.log
      && s'.nextTestId == s.nextTestId
      && s'.nextBillId == s.nextBillId
      && NotifiedAtMostOnce(s, s'.outbox, b.patientId, PaymentReceived(b.amount, mode))
    ensures r.Ok? && Valid(s) ==> Valid(r.value)
  {
    match ParsePay(body)
    case Err(e) => Err(e)
    case Ok(mode) =>
      if id !in s.bills then Err(NotFound(BillRecord))
      else
        var b := s.bills[id];
        var patients :=
          if b.patientId in s.patients
          then s.patients[b.patientId := s.patients[b.patientId].(stage := Stage.Completed, status := PatientStatus.Completed)]
          else s.patients;
        var s1 := s.(bills := s.bills[id := b.(status := Paid, paymentMode := Some(mode))], patients := patients);
        Ok(s1.(outbox := Notify(s1, b.patientId, PaymentReceived(b.amount, mode))))
  }

  /** A row of the pending-bills response: the bill with its id, joined to its
      patient's name, UHID and token number. */
  datatype BillRow = BillRow(billId: nat, bill: Bill, name: string, uhid: string, tokenNumber: int)

  /** Bill `id` is listed: it exists, is pending, and its patient row exists
      (the query is an inner join). */
  predicate Listed(s: Store, id: nat) {
    && id in s.bills
    && s.bills[id].status == BillStatus.Pending
    && s.bills[id].patientId in s.patients
  }

  function BillRowOf(s: Store, id: nat): BillRow
    requires Listed(s, id)
  {
    var b := s.bills[id];
    var p := s.patients[b.patientId];
    BillRow(id, b, p.name, p.uhid, p.tokenNumber)
  }

  /** The filter and join of the query over the bill ids `ids`. */
  function JoinPending(s: Store, ids: seq<nat>): (r: seq<BillRow>)
    ensures forall row :: row in r ==>
      Listed(s, row.billId) && row == BillRowOf(s, row.billId) && row.billId in ids
    ensures forall k :: k in ids && Listed(s, k) ==> BillRowOf(s, k) in r
    ensures Increasing(ids) ==> forall i, j :: 0 <= i < j < |r| ==> r[i].billId < r[j].billId
  {
    if |ids| == 0 then []
    else
      var rest := JoinPending(s, ids[1..]);
      assert forall k :: k in ids ==> k == ids[0] || k in ids[1..];
      if Listed(s, ids[0]) then
        assert Increasing(ids) ==> forall row :: row in rest ==> ids[0] < row.billId by {
          if Increasing(ids) {
            assert forall k :: k in ids[1..] ==> ids[0] < k;
          }
        }
        [BillRowOf(s, ids[0])] + rest
      else rest
  }

  /** GET /billing/pending. The query has no ORDER BY, so no order is
      promised; each pending bill appears exactly once. */
  function PendingBills(s: Store): (r: seq<BillRow>)
    ensures forall row :: row in r ==> Listed(s, row.billId) && row == BillRowOf(s, row.billId)
    ensures Valid(s) ==> forall k :: Listed(s, k) ==> BillRowOf(s, k) in r
    ensures forall i, j :: 0 <= i < j < |r| ==> r[i].billId != r[j].billId
  {
    JoinPending(s, IdsBelow(s.bills, s.nextBillId))
  }
}
