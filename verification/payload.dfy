/**
 Request bodies and the three schemas the billing and test handlers check them
 against. A body is a parsed JSON value; a schema either rejects it (HTTP 400,
 `ValidationError`) or yields the typed fields the handler goes on with. Keys a
 schema does not mention are ignored, as the schema library strips them.
 */
module Payload {
  import opened Records

  datatype Json =
    | Null
    | Bool(b: bool)
    | Num(n: real)
    | Str(s: string)
    | Arr(items: seq<Json>)
    | Obj(fields: map<string, Json>)

  /** `z.number().int().positive()` */
  predicate IsPositiveInt(v: Json) {
    v.Num? && v.n > 0.0 && v.n.Floor as real == v.n
  }

  /** `z.number().positive()` */
  predicate IsPositiveNumber(v: Json) {
    v.Num? && v.n > 0.0
  }

  /** `z.enum([...six test types...])` on one array element. */
  predicate IsTestTypeLabel(v: Json) {
    v.Str? && ParseTestType(v.s).Some?
  }

  /** The object field `key`, when the body is an object that has it. */
  predicate HasField(body: Json, key: string) {
    body.Obj? && key in body.fields
  }

  function PositiveInt(v: Json): (r: Option<nat>)
    ensures r.Some? <==> IsPositiveInt(v)
    ensures r.Some? ==> r.value > 0 && r.value as real == v.n
  {
    if IsPositiveInt(v) then Some(v.n.Floor as nat) else None
  }

  /** The array of test type labels, element by element, in input order. */
  function TestTypes(items: seq<Json>): (r: Option<seq<TestType>>)
    ensures r.Some? <==> forall i :: 0 <= i < |items| ==> IsTestTypeLabel(items[i])
    ensures r.Some? ==> |r.value| == |items|
    ensures r.Some? ==> forall i :: 0 <= i < |items| ==> items[i] == Str(TestTypeName(r.value[i]))
  {
    if |items| == 0 then Some([])
    else
      match TestTypes(items[1..])
      case None => None
      case Some(rest) =>
        if IsTestTypeLabel(items[0]) then Some([ParseTestType(items[0].s).value] + rest)
        else None
  }

  datatype CreateTestsInput = CreateTestsInput(patientId: nat, testTypes: seq<TestType>)

  /** Every condition `createTestsSchema` places on a body. */
  predicate CreateTestsBodyOk(body: Json) {
    && HasField(body, "patient_id")
    && IsPositiveInt(body.fields["patient_id"])
    && HasField(body, "test_types")
    && body.fields["test_types"].Arr?
    && |body.fields["test_types"].items| >= 1
    && forall i :: 0 <= i < |body.fields["test_types"].items| ==>
         IsTestTypeLabel(body.fields["test_types"].items[i])
  }

  /** `createTestsSchema.safeParse(body)` */
  function ParseCreateTests(body: Json): (r: Result<CreateTestsInput>)
    ensures r.Ok? <==> CreateTestsBodyOk(body)
    ensures r.Err? ==> r.error == ValidationError
    ensures r.Ok? ==>
      && r.value.patientId > 0
      && r.value.patientId as real == body.fields["patient_id"].n
      && |r.value.testTypes| == |body.fields["test_types"].items|
      && forall i :: 0 <= i < |r.value.testTypes| ==>
           body.fields["test_types"].items[i] == Str(TestTypeName(r.value.testTypes[i]))
  {
    if !HasField(body, "patient_id") || !HasField(body, "test_types") then Err(ValidationError)
    else
      var id := PositiveInt(body.fields["patient_id"]);
      var list := body.fields["test_types"];
      if id.None? || !list.Arr? || |list.items| < 1 then Err(ValidationError)
      else
        match TestTypes(list.items)
        case None => Err(ValidationError)
        case Some(types) => Ok(CreateTestsInput(id.value, types))
  }

  /** The body the assign-tests page sends: `{ patient_id, test_types }`. */
  function CreateTestsBody(patientId: nat, types: seq<TestType>): Json {
    Obj(map[
      "patient_id" := Num(patientId as real),
      "test_types" := Arr(seq(|types|, i requires 0 <= i < |types| => Str(TestTypeName(types[i]))))])
  }

  /** A body built from a positive id and a non-empty list of test types is
      accepted and yields exactly that id and list; the schema rejects the
      body when either condition fails. */
  lemma CreateTestsBodyRoundTrip(patientId: nat, types: seq<TestType>)
    ensures patientId > 0 && |types| >= 1 <==> ParseCreateTests(CreateTestsBody(patientId, types)).Ok?
    ensures patientId > 0 && |types| >= 1 ==>
      ParseCreateTests(CreateTestsBody(patientId, types)) == Ok(CreateTestsInput(patientId, types))
  {
    var body := CreateTestsBody(patientId, types);
    var items := body.fields["test_types"].items;
    forall i | 0 <= i < |items|
      ensures IsTestTypeLabel(items[i])
    {
      TestTypeNameRoundTrip(types[i]);
    }
    if patientId > 0 && |types| >= 1 {
      var r := ParseCreateTests(body);
      var got := r.value.testTypes;
      assert |got| == |types|;
      forall i | 0 <= i < |types|
        ensures got[i] == types[i]
      {
        assert Str(TestTypeName(got[i])) == Str(TestTypeName(types[i]));
        TestTypeNameRoundTrip(got[i]);
        TestTypeNameRoundTrip(types[i]);
      }
      assert got == types;
    }
  }

  datatype CreateBillingInput = CreateBillingInput(patientId: nat, amount: real)

  /** Every condition `createBillingSchema` places on a body. */
  predicate CreateBillingBodyOk(body: Json) {
    && HasField(body, "patient_id")
    && IsPositiveInt(body.fields["patient_id"])
    && HasField(body, "amount")
    && IsPositiveNumber(body.fields["amount"])
  }

  /** `createBillingSchema.safeParse(body)` */
  function ParseCreateBilling(body: Json): (r: Result<CreateBillingInput>)
    ensures r.Ok? <==> CreateBillingBodyOk(body)
    ensures r.Err? ==> r.error == ValidationError
    ensures r.Ok? ==>
      && r.value.patientId > 0
      && r.value.patientId as real == body.fields["patient_id"].n
      && r.value.amount > 0.0
      && r.value.amount == body.fields["amount"].n
  {
    if !HasField(body, "patient_id") || !HasField(body, "amount") then Err(ValidationError)
    else
      var id := PositiveInt(body.fields["patient_id"]);
      var amount := body.fields["amount"];
      if id.None? || !IsPositiveNumber(amount) then Err(ValidationError)
      else Ok(CreateBillingInput(id.value, amount.n))
  }

  /** Every condition `paySchema` places on a body. */
  predicate PayBodyOk(body: Json) {
    && HasField(body, "payment_mode")
    && body.fields["payment_mode"].Str?
    && ParsePaymentMode(body.fields["payment_mode"].s).Some?
  }

  /** `paySchema.safeParse(body)` */
  function ParsePay(body: Json): (r: Result<PaymentMode>)
    ensures r.Ok? <==> PayBodyOk(body)
    ensures r.Err? ==> r.error == ValidationError
    ensures r.Ok? ==> body.fields["payment_mode"] == Str(PaymentModeName(r.value))
  {
    if !HasField(body, "payment_mode") || !body.fields["payment_mode"].Str? then Err(ValidationError)
    else
      match ParsePaymentMode(body.fields["payment_mode"].s)
      case None => Err(ValidationError)
      case Some(mode) => Ok(mode)
  }
}
