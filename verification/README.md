# Clinic patient workflow: a Dafny model

This project models the core of a clinic's patient-flow server and of its
screening countdown. A patient is registered, assigned diagnostic tests,
screened, seen by a doctor, billed, and completed. The model covers three
parts of the code:

- the test handlers: assign tests, start a test, complete a test, and the
  waiting-tests queue ordered by priority tier and token number;
- the billing handlers: generate a bill, pay a bill, and list pending bills;
- the countdown shown for a running test: its length, the seconds left, the
  automatic completion when time runs out, and the `mm:ss` text.

The store is three finite maps from row id to record (patients, tests, bills)
and two append-only sequences: the activity log, and an outbox of the notices
handed to the messaging service. Each handler is a pure function from a store and a request
to a new store or an error (`ValidationError` for HTTP 400, `NotFound` for
HTTP 404). Each handler is treated as one atomic step. Request bodies are JSON
values, checked against the same schemas as the server. Row ids returned by an
INSERT come from per-table counters. `Valid` says every id in use is below its
counter, and that each patient's priority is held in one representation.
Every handler keeps `Valid`.

Modules, one file each: `Records` (record types and the store),
`Payload` (JSON bodies and schemas), `PriorityQueue` (the queue order and an
insertion sort), `TestController`, `BillingController`, `TestTimer`, and
`Workflow` (request sequences and cross-handler properties).

## Behaviour as written

No handler checks the state a record is in before changing it, and the model
follows the code:

- Starting a test does not check its status. A running or completed test can
  be started again, and its start time is replaced (`Workflow.StartIgnoresStatus`).
- Starting a test moves its patient to screening from any stage, a completed
  visit included (`Workflow.StartReopensVisit`).
- Completing any one test sends the patient to the doctor, even while other
  tests of theirs still wait (`Workflow.AnyCompletionMovesToDoctor`). The
  patient moves on at each completion, not once all tests are done.
- Paying a bill does not check that it is pending. Paying twice succeeds,
  replaces the payment mode and leaves the patient completed (`Workflow.PayTwice`).
- Generating a bill neither checks nor changes the patient's stage, and does
  not look the patient up before inserting.
- Only completing a test writes the activity log. Starting a test, billing
  and paying write none (`Workflow.LogCountsCompletions`).
- The waiting-tests query orders by tier and token number only. Two tests of
  the same patient may come out in either order, so the model promises an
  ordered permutation and not a stable sort.
- The countdown's render check looks only at the status. A running test with
  no start time, and every running test before the first interval callback,
  is drawn as `00:00` and flagged urgent, because JavaScript reads the
  missing time as 0.

## Model

| member | source | states |
|---|---|---|
| Records.ParseTestType | server/controllers/testController.js:16 | a label is accepted as a test type only when it is that type's name |
| Records.TestTypeNameRoundTrip | server/controllers/testController.js:16 | each of the six test type names is accepted and yields its own type |
| Records.ParsePaymentMode | server/controllers/billingController.js:11 | a label is accepted as a payment mode only when it is that mode's name |
| Records.PaymentModeNameRoundTrip | server/controllers/billingController.js:11 | each of the four payment mode names is accepted and yields its own mode |
| Payload.PositiveInt | server/controllers/testController.js:15 | a value passes exactly when it is a number, integral and positive, and yields that number |
| Payload.TestTypes | server/controllers/testController.js:16 | an array passes exactly when every element is a test type label; the result lists the types in input order, duplicates kept |
| Payload.ParseCreateTests | server/controllers/testController.js:14-23 | the body is accepted exactly when patient_id is a positive integer and test_types is a non-empty array of test type labels; otherwise ValidationError |
| Payload.CreateTestsBodyRoundTrip | client/src/api/client.js:34-37 | the body the assign-tests page sends is accepted exactly when the id is positive and the list non-empty, and then yields the same id and list |
| Payload.ParseCreateBilling | server/controllers/billingController.js:5-8 | the body is accepted exactly when patient_id is a positive integer and amount a positive number; otherwise ValidationError |
| Payload.ParsePay | server/controllers/billingController.js:10-12 | the body is accepted exactly when payment_mode is one of cash, card, upi, insurance; otherwise ValidationError |
| Records.LabelDeterminesPriority | server/controllers/testController.js:94-99 | in their one representation, two priorities are equal exactly when they store the same text |
| PriorityQueue.Rank | server/controllers/testController.js:94-99 | the rank is between 1 and 4, and it is 1, 2 or 3 exactly when the stored label text is emergency, vip or senior |
| PriorityQueue.RankOrder | server/controllers/testController.js:94-99 | emergency ranks before vip, vip before senior, senior before normal; other stored text ranks by its content, so "vip" stored as text ranks as vip and unknown text ranks with normal |
| PriorityQueue.BeforeIsTotalPreorder | server/controllers/testController.js:93-100 | the (rank, token) order compares any two items and is transitive |
| PriorityQueue.OrderedMeansRankThenToken | server/controllers/testController.js:93-100 | in an ordered queue rank never decreases, and token never decreases within a rank |
| PriorityQueue.PrependOrdered | server/controllers/testController.js:93-100 | an item served no later than every item of an ordered queue can head it |
| PriorityQueue.ServedAfterPermutation | server/controllers/testController.js:93-100 | a lower bound on every item survives any rearrangement |
| PriorityQueue.PrependNoDuplicates | server/controllers/testController.js:88-92 | adding a new item in front of a duplicate-free list keeps it duplicate-free |
| PriorityQueue.Insert | server/controllers/testController.js:93-100 | inserting into an ordered queue keeps it ordered and adds exactly that item |
| PriorityQueue.Sort | server/controllers/testController.js:93-100 | the output is ordered by (rank, token) and is a permutation of the input |
| PriorityQueue.InsertKeepsDistinct | server/controllers/testController.js:88-100 | inserting an item not yet present keeps the items distinct |
| PriorityQueue.SortKeepsDistinct | server/controllers/testController.js:88-100 | sorting distinct items yields distinct items |
| PriorityQueue.SortNormalVip | server/controllers/testController.js:93-100 | a normal patient with token 1 is served after a vip with token 2 |
| PriorityQueue.TierDominatesToken | server/controllers/testController.js:93-100 | emergency with token 3, normal with token 1 and vip with token 2 are served emergency, vip, normal |
| Records.IdsBelow | server/controllers/testController.js:88-92 | the scan lists exactly the ids below the bound, each once, ascending |
| TestController.InsertTests | server/controllers/testController.js:31-38 | one pending test per listed type under consecutive ids in list order; every other row unchanged |
| TestController.IdRange | server/controllers/testController.js:37 | the returned ids are the consecutive ids the inserts received |
| TestController.AddTestsKeepsValid | server/controllers/testController.js:32-38 | inserting under the next ids and advancing the counter keeps every id below it |
| TestController.IdRangeMembers | server/controllers/testController.js:37 | an id was returned exactly when it lies between the first new id and the next free one |
| TestController.CreateTests | server/controllers/testController.js:19-44 | invalid body gives ValidationError and unknown patient gives NotFound, both writing nothing; otherwise one fresh pending test per listed type in order, ids returned, patients, bills, log and outbox unchanged |
| TestController.StartTest | server/controllers/testController.js:46-63 | unknown id gives NotFound; otherwise whatever its status the test becomes in_progress with the new start time, its patient becomes (screening, in_progress), nothing else changes, at most one notice, and the expected duration is reported |
| TestController.CompleteTest | server/controllers/testController.js:65-84 | unknown id gives NotFound; otherwise the test becomes completed with an end time, its patient (doctor, waiting) whatever its other tests, exactly one log entry "Completed <type> test" is appended, at most one notice |
| TestController.JoinWaiting | server/controllers/testController.js:88-92 | exactly the listed tests that are not completed and whose patient exists, each joined to its patient's name and priority level; the token number is carried only as the sort key, not as a response column |
| TestController.DistinctRowsHaveDistinctIds | server/controllers/testController.js:88-92 | distinct joined rows carry distinct test ids |
| TestController.WaitingTests | server/controllers/testController.js:86-103 | no test appears twice; on a valid store (every id below the next free id), every test not completed, with an existing patient, appears with its patient's priority; nothing else appears; the rows are ordered by rank then token |
| BillingController.CreateBilling | server/controllers/billingController.js:14-32 | invalid body gives ValidationError and writes nothing; otherwise exactly one fresh pending bill with the given amount, id returned with status pending, patients, tests and log unchanged, at most one notice |
| BillingController.PayBilling | server/controllers/billingController.js:34-52 | an invalid mode gives ValidationError even for an unknown bill; unknown bill gives NotFound; otherwise the bill is paid with that mode, amount and owner kept, its patient (completed, completed), nothing else changes, at most one notice |
| BillingController.JoinPending | server/controllers/billingController.js:56-61 | exactly the listed bills that are pending and whose patient exists, joined to the patient's name, UHID and token |
| BillingController.PendingBills | server/controllers/billingController.js:54-63 | no bill appears twice and only pending bills of existing patients appear; on a valid store (every id below the next free id) every such bill appears; no order is promised |
| TestTimer.CountdownSeconds | client/src/components/TestTimer.jsx:3-18 | the countdown is the type's minutes times 60: a whole number of minutes between 5 and 25 |
| TestTimer.ElapsedSeconds | client/src/components/TestTimer.jsx:23 | the elapsed seconds are the millisecond difference over 1000 rounded down |
| TestTimer.RemainingSeconds | client/src/components/TestTimer.jsx:22-24 | remaining = duration minus the elapsed whole seconds |
| TestTimer.OnTick | client/src/components/TestTimer.jsx:22-32 | time is up exactly when a full duration has passed since the start; otherwise the positive remaining seconds are shown |
| TestTimer.Countdown | client/src/components/TestTimer.jsx:21-33 | a reported completion carries the test's id and ends the callbacks; without one, every instant produced a shown value |
| TestTimer.ExpiryInTail | client/src/components/TestTimer.jsx:26-32 | when the first callback still runs, time is up at some instant exactly when it is up at some later instant |
| TestTimer.CountdownShows | client/src/components/TestTimer.jsx:22-30 | each callback shows 0 when time is up and otherwise the remaining seconds; a 0 appears only as the last value, and exactly when completion was reported |
| TestTimer.CountdownCompletes | client/src/components/TestTimer.jsx:26-32 | completion is reported exactly when some callback found the full duration elapsed |
| TestTimer.Timer | client/src/components/TestTimer.jsx:15-36 | no countdown runs and nothing is reported unless the test is in_progress with a start time; otherwise completion is reported exactly when some instant is a full duration past the start |
| TestTimer.Decimal | client/src/components/TestTimer.jsx:62 | `String(n)` has at least one digit, exactly one below 10 and at most two below 100 |
| TestTimer.DecimalRoundTrip | client/src/components/TestTimer.jsx:62 | the decimal text of n reads back as n |
| TestTimer.LeadingZeroKeepsValue | client/src/components/TestTimer.jsx:62 | a leading zero does not change the value of a digit string |
| TestTimer.PadTwo | client/src/components/TestTimer.jsx:62 | padding gives at least two characters, leaves longer text alone, and keeps the value |
| TestTimer.ClockTextRoundTrip | client/src/components/TestTimer.jsx:40-41 | the `mm:ss` text reads back as the seconds it shows, and is five characters under 100 minutes |
| TestTimer.Render | client/src/components/TestTimer.jsx:38-46 | something is drawn exactly when the test is in_progress; minutes*60 + seconds = t with seconds < 60; urgent exactly when t < 60, that is when the minutes are 0 |
| Workflow.AssignEvolves | server/controllers/testController.js:19-44 | assigning tests deletes nothing, keeps owners, amounts and identities, and only appends to log and outbox |
| Workflow.StartEvolves | server/controllers/testController.js:46-63 | starting a test deletes nothing, keeps owners, amounts and identities, and only appends |
| Workflow.CompleteEvolves | server/controllers/testController.js:65-84 | completing a test deletes nothing, keeps owners, amounts and identities, and only appends |
| Workflow.CreateBillEvolves | server/controllers/billingController.js:14-32 | generating a bill deletes nothing, keeps owners, amounts and identities, and only appends |
| Workflow.PayEvolves | server/controllers/billingController.js:34-52 | paying deletes nothing, keeps a paid bill paid, and only appends |
| Workflow.EvolvesTransitive | server/controllers/testController.js:19-84 | the properties no handler undoes compose over two steps |
| Workflow.StepEvolves | server/controllers/testController.js:19-84 | any single request, test or billing, keeps the store valid and undoes none of those properties |
| Workflow.RunEvolves | server/controllers/testController.js:19-84 | any sequence of test and billing requests keeps the store valid, never deletes a row, never changes a patient's identity, a row's owner or a bill's amount, never unpays a bill, and only appends to log and outbox |
| Workflow.LogCountsCompletions | server/controllers/testController.js:72-75 | after any sequence of requests the log has grown by exactly the number of successful test completions |
| Workflow.DurationTablesAgree | server/controllers/testController.js:5-12 | the server's duration table equals the client's, and the countdown is 60 times it |
| Workflow.StartIgnoresStatus | server/controllers/testController.js:48-52 | starting an already started or completed test succeeds, sets it in_progress and replaces its start time |
| Workflow.AnyCompletionMovesToDoctor | server/controllers/testController.js:70-71 | completing one test moves the patient to (doctor, waiting) while another of their tests still waits |
| Workflow.StartReopensVisit | server/controllers/testController.js:52 | starting a test of a completed patient moves them back to screening |
| Workflow.PayTwice | server/controllers/billingController.js:39-47 | a second payment succeeds, keeps the bill paid and its amount, records the new mode, and leaves the patients as the first payment did |
| Workflow.ExpiryCompletesTest | client/src/components/TestTimer.jsx:16-29 | a test's own countdown reports completion only when the test runs and a full duration has passed since the start the browser reads from start_time; it reports that test's id, and completing it marks it completed and the patient at the doctor stage |
| Workflow.VisitAssign | server/controllers/testController.js:31-43 | assigning vision and iop to a patient creates tests 1 and 2, both pending |
| Workflow.VisitQueue | server/controllers/testController.js:86-103 | both assigned tests, and nothing else, are in the waiting queue |
| Workflow.VisitStart | server/controllers/testController.js:46-63 | starting the vision test puts the patient in screening, records the start time, sends one notice and reports five minutes |
| Workflow.VisitComplete | server/controllers/testController.js:65-84 | completing the vision test moves the patient to the doctor with iop still pending, one log entry and a second notice |
| Workflow.VisitBilling | server/controllers/billingController.js:14-52 | a bill of 500 paid in cash completes the visit: bill paid, patient completed, one log entry and four notices in order |

## Left out

- Message delivery: `sendWhatsApp` is a foreign service. The outbox records
  each call's phone, patient and event, not the message text. A failed send
  is not modelled; in the code it is not caught, after the writes are done.
- Storage: the SQLite connection, schema loading and the schema file are not
  part of this model. Tables are in-memory maps, and `lastID` is a counter.
- Foreign keys: server/config/db.js:28 turns foreign-key checks on, but the
  schema is not part of this model, so the checks are not modelled. Two
  members depend on this. `BillingController.CreateBilling` is Ok for an
  unknown patient, and `TestController.CompleteTest` appends a log row for a
  missing patient. If the schema declares those keys, the INSERT is refused
  and the promise rejects inside the async handler. That is neither a 400 nor
  a 404, and the `Result` type has no case for it.
- TestTimer.Timer: the start time is taken to be the instant the test
  started, in milliseconds, on the browser's clock. In the code, start_time is
  CURRENT_TIMESTAMP, UTC text without a zone (server/controllers/testController.js:51).
  `new Date(...)` (client/src/components/TestTimer.jsx:19) may read that text as
  local time. East of UTC that moves the start into the past, and the first
  callback can then find the time up. The model does not cover that shift.
- Workflow.ExpiryCompletesTest: it rests on the same assumption as
  `TestTimer.Timer`, that parsing start_time returns the recorded instant.
  The timing it states is about the start the browser reads, not about the
  server's clock.
- Timestamps: CURRENT_TIMESTAMP is a `now` parameter. In the timer the start
  time is taken as milliseconds directly; parsing the date text is left out.
- Route parameters are modelled as natural-number ids. A non-numeric id
  matches no row, which the model covers as an unknown id.
- Concurrency: each handler is one atomic step. In the code it is several
  separate writes with no transaction, so concurrent staff requests may
  interleave.
- Registration, consultation and the dashboard: their controllers are not
  part of this model. Patient creation, which sets `registered`, and the
  consultation step from doctor to billing are absent. Assigning tests leaves
  a registered patient registered; starting a test is what moves the patient
  to screening (`TestController.StartTest`).
- HTTP wiring, authentication and authorization middleware are left out.
  The acting user's id is a parameter of test completion.
- The React pages, invoice, queue card and layout are rendering only. Their
  one-line stage filters on the patient list are not modelled.
- TestTimer: the progress bar percentage is floating point and is left out.
  Scheduling by `setInterval` is the list of callback instants. A re-run of
  the effect when the test prop changes is a fresh countdown. The completion
  callback is taken to be present, as the screening page always passes it.
- Numbers: `Json.Num` holds the double that `JSON.parse` produced as an exact
  real, and bill amounts are kept as reals. Rounding of amounts in floating
  point and in the database column is not modelled.
- Response messages and HTTP status codes are reduced to the result kinds;
  the text of the log entry is kept exactly.
