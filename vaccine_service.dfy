/**
 * The vaccine record gateway (src/services/api/VaccineService.js): a stateless
 * facade over a hosted record store. Each operation shapes the request, hands it
 * to the store and folds the store's envelope into one returned value plus the
 * error notifications (`toast.error`) it raises, in order.
 *
 * The store is a black box: it is a parameter, a function from the request an
 * operation sends to the reply it gets back. `Threw(reason)` stands for an
 * exception raised inside the operation's `try` block (no SDK on the page, a
 * transport failure), with the value thrown. Every catch block logs
 * `error.message`, which itself throws when that value is `null` or
 * `undefined`; the operation's promise then rejects instead of returning.
 */
module VaccineService {
  import opened Options
  import opened JsRuntime

  /** One field-level complaint in a per-record result. */
  datatype FieldError = FieldError(fieldLabel: string, message: string)

  /**
   * One per-record result of a batch call. A missing `errors` list reads as
   * the empty list and a missing `message` as "" (both are skipped alike).
   */
  datatype RecordResult = RecordResult(success: bool, data: JsValue, errors: seq<FieldError>, message: string)

  /** The store's reply envelope `{success, message, data, results}`. */
  datatype Envelope = Envelope(success: bool, message: string, data: JsValue, results: Option<seq<RecordResult>>)

  /** What a call into the store produces: an envelope, or an exception with the value thrown. */
  datatype Reply = Answered(envelope: Envelope) | Threw(reason: JsValue)

  /** How an operation's promise settles: with a value, or rejected by an exception that escaped. */
  datatype Outcome = Returned(value: JsValue) | Escaped

  /**
   * What a catch block makes of an exception: the operation's failure value,
   * unless the thrown value is `null` or `undefined`, where reading
   * `error.message` throws again and the exception escapes.
   */
  function Caught(reason: JsValue, failure: JsValue): (r: Outcome)
    ensures r.Escaped? <==> reason == Null || reason == Undefined
    ensures r.Returned? ==> r.value == failure
  {
    if reason == Null || reason == Undefined then Escaped else Returned(failure)
  }

  /** The store's call threw a value the catch block cannot log, so the operation rejects. */
  predicate Escapes(reply: Reply) {
    reply.Threw? && (reply.reason == Null || reply.reason == Undefined)
  }

  /** The columns of the store's vaccine record kind that the gateway writes. */
  datatype Column =
    | Id | CommercialName | GenericName | LotNumber | Quantity
    | ExpirationDate | ReceivedDate | QuantityOnHand | AdministeredDoses

  /** The store's name for a column. */
  function ColumnName(c: Column): string {
    match c
    case Id => "Id"
    case CommercialName => "commercialName_c"
    case GenericName => "genericName_c"
    case LotNumber => "lotNumber_c"
    case Quantity => "quantity_c"
    case ExpirationDate => "expirationDate_c"
    case ReceivedDate => "receivedDate_c"
    case QuantityOnHand => "quantityOnHand_c"
    case AdministeredDoses => "administeredDoses_c"
  }

  /** A partial record as `update` sends it, keyed by column. */
  type StoreRecord = map<Column, JsValue>

  const UpdatableColumns: set<Column> :=
    {CommercialName, GenericName, LotNumber, Quantity, ExpirationDate, ReceivedDate, QuantityOnHand, AdministeredDoses}

  /** The columns whose values the gateway passes through `parseInt`. */
  predicate IsCount(c: Column) {
    c == Quantity || c == QuantityOnHand || c == AdministeredDoses
  }

  // ---------------------------------------------------------------------------
  // Payload builders

  /**
   * The record `create` sends: one value per updatable column (an `undefined`
   * value is sent as a missing field).
   */
  datatype NewRecord = NewRecord(
    commercialName: JsValue, genericName: JsValue, lotNumber: JsValue, quantity: JsValue,
    expirationDate: JsValue, receivedDate: JsValue, quantityOnHand: JsValue, administeredDoses: JsValue)

  /**
   * The record `create` builds from its input. The names and the lot number
   * come from the unsuffixed keys, the two dates from the `_c` keys, the counts
   * go through `parseInt`, and a falsy administered count becomes 0.
   */
  function CreatePayload(input: Object): (r: NewRecord)
    ensures !Truthy(Get(input, "administeredDoses_c")) ==> r.administeredDoses == Num(Int(0))
    ensures r.quantity.Num? && r.quantityOnHand.Num? && r.administeredDoses.Num?
  {
    ParseIntOrZeroOfFalsy(Get(input, "administeredDoses_c"));
    NewRecord(
      commercialName := Get(input, "commercialName"),
      genericName := Get(input, "genericName"),
      lotNumber := Get(input, "lotNumber"),
      quantity := Num(ParseIntValue(Get(input, "quantity_c"))),
      expirationDate := Get(input, "expirationDate_c"),
      receivedDate := Get(input, "receivedDate_c"),
      quantityOnHand := Num(ParseIntValue(Get(input, "quantityOnHand_c"))),
      administeredDoses := Num(ParseIntValue(Or(Get(input, "administeredDoses_c"), Num(Int(0))))))
  }

  /** Whether `update` sends column `c`: `data.k !== undefined`. */
  predicate UpdateSends(input: Object, c: Column) {
    c == Id || (c in UpdatableColumns && Get(input, ColumnName(c)) != Undefined)
  }

  /** The value `update` sends for column `c`: `parseInt` for the id and the counts. */
  function UpdateValue(id: JsValue, input: Object, c: Column): JsValue {
    if c == Id then Num(ParseIntValue(id))
    else if IsCount(c) then Num(ParseIntValue(Get(input, ColumnName(c))))
    else Get(input, ColumnName(c))
  }

  /**
   * The record `update` sends: `Id`, then each updatable column the input
   * defines (`...(data.k !== undefined && { k: v })`), and nothing else.
   */
  function UpdatePayload(id: JsValue, input: Object): (r: StoreRecord)
    ensures Id in r && r[Id] == Num(ParseIntValue(id))
    ensures forall c :: c in r <==> c == Id || (c in UpdatableColumns && Get(input, ColumnName(c)) != Undefined)
    ensures forall c :: c in r && IsCount(c) ==> r[c] == Num(ParseIntValue(Get(input, ColumnName(c))))
    ensures forall c :: c in r && c != Id && !IsCount(c) ==> r[c] == Get(input, ColumnName(c))
  {
    map c | c in {Id} + UpdatableColumns && UpdateSends(input, c) :: UpdateValue(id, input, c)
  }

  // ---------------------------------------------------------------------------
  // Folding a batch of per-record results

  function Successful(results: seq<RecordResult>): (r: seq<RecordResult>)
    ensures forall x :: x in r <==> x in results && x.success
  {
    if results == [] then []
    else (if results[0].success then [results[0]] else []) + Successful(results[1..])
  }

  function Failed(results: seq<RecordResult>): (r: seq<RecordResult>)
    ensures forall x :: x in r <==> x in results && !x.success
  {
    if results == [] then []
    else (if results[0].success then [] else [results[0]]) + Failed(results[1..])
  }

  /** `successful.length > 0 ? successful[0].data : null`. */
  function FirstSuccessData(results: seq<RecordResult>): JsValue {
    var ok := Successful(results);
    if |ok| > 0 then ok[0].data else Null
  }

  function FieldErrorNotice(e: FieldError): string {
    e.fieldLabel + ": " + e.message
  }

  function FieldErrorNotices(errors: seq<FieldError>): (r: seq<string>)
    ensures |r| == |errors|
  {
    seq(|errors|, i requires 0 <= i < |errors| => FieldErrorNotice(errors[i]))
  }

  /**
   * What one failed record reports: one notice per field error (create and
   * update only), then its message when it has one.
   */
  function RecordNotices(record: RecordResult, withFieldErrors: bool): seq<string> {
    (if withFieldErrors then FieldErrorNotices(record.errors) else [])
    + (if record.message != "" then [record.message] else [])
  }

  /** The notices of a list of failed records, in order. */
  function Notices(failed: seq<RecordResult>, withFieldErrors: bool): seq<string> {
    if failed == [] then [] else RecordNotices(failed[0], withFieldErrors) + Notices(failed[1..], withFieldErrors)
  }

  lemma {:induction false} NoticesAppend(failed: seq<RecordResult>, record: RecordResult, withFieldErrors: bool)
    ensures Notices(failed + [record], withFieldErrors)
         == Notices(failed, withFieldErrors) + RecordNotices(record, withFieldErrors)
  {
    if failed == [] {
      assert failed + [record] == [record];
    } else {
      assert (failed + [record])[1..] == failed[1..] + [record];
      NoticesAppend(failed[1..], record, withFieldErrors);
    }
  }

  /** One more failed record adds its own notices at the end. */
  lemma NoticesOfLonger(failed: seq<RecordResult>, i: nat, withFieldErrors: bool)
    requires i < |failed|
    ensures Notices(failed[..i + 1], withFieldErrors)
         == Notices(failed[..i], withFieldErrors) + RecordNotices(failed[i], withFieldErrors)
  {
    assert failed[..i + 1] == failed[..i] + [failed[i]];
    NoticesAppend(failed[..i], failed[i], withFieldErrors);
  }

  /** The inner `forEach`: one `label: message` notice per field error, in order. */
  method NotifyFieldErrors(errors: seq<FieldError>) returns (notices: seq<string>)
    ensures notices == FieldErrorNotices(errors)
  {
    notices := [];
    var j := 0;
    while j < |errors|
      invariant 0 <= j <= |errors|
      invariant |notices| == j
      invariant forall k :: 0 <= k < j ==> notices[k] == FieldErrorNotice(errors[k])
    {
      notices := notices + [FieldErrorNotice(errors[j])];
      j := j + 1;
    }
  }

  /**
   * The nested `forEach` over the failed records of a batch: the notices it
   * raises, in the order it raises them.
   */
  method NotifyFailures(results: seq<RecordResult>, withFieldErrors: bool) returns (notices: seq<string>)
    ensures notices == Notices(Failed(results), withFieldErrors)
  {
    var failed := Failed(results);
    notices := [];
    var i := 0;
    while i < |failed|
      invariant 0 <= i <= |failed|
      invariant notices == Notices(failed[..i], withFieldErrors)
    {
      var record := failed[i];
      var recordNotices: seq<string> := [];
      if withFieldErrors {
        recordNotices := NotifyFieldErrors(record.errors);
      }
      if record.message != "" {
        recordNotices := recordNotices + [record.message];
      }
      assert recordNotices == RecordNotices(record, withFieldErrors);
      NoticesOfLonger(failed, i, withFieldErrors);
      notices := notices + recordNotices;
      i := i + 1;
    }
    assert failed[..i] == failed;
  }

  // ---------------------------------------------------------------------------
  // Operations

  /** The store answered with a top-level failure. */
  predicate Refused(reply: Reply) {
    reply.Answered? && !reply.envelope.success
  }

  /** The store answered with success and no per-record results. */
  predicate AcceptedWithoutResults(reply: Reply) {
    reply.Answered? && reply.envelope.success && reply.envelope.results.None?
  }

  /** The store answered with success and a list of per-record results. */
  predicate AcceptedWithResults(reply: Reply) {
    reply.Answered? && reply.envelope.success && reply.envelope.results.Some?
  }

  /**
   * The notices `create`, `update` (with field errors) and `delete` (without)
   * raise for a reply: the store's message on a top-level failure, the notices
   * of the failed records of a batch, and nothing otherwise.
   */
  function BatchNotices(reply: Reply, withFieldErrors: bool): seq<string> {
    match reply
    case Threw(_) => []
    case Answered(response) =>
      if !response.success then [response.message]
      else if response.results.None? then []
      else Notices(Failed(response.results.value), withFieldErrors)
  }

  /** `getAll()`: the listed records, or `[]` on a failure; a returned value is never falsy. */
  method GetAll(store: Reply) returns (result: Outcome, notices: seq<string>)
    ensures result.Returned? ==> Truthy(result.value)
    ensures store.Threw? ==> result == Caught(store.reason, Arr([])) && notices == []
    ensures Refused(store) ==> result == Returned(Arr([])) && notices == [store.envelope.message]
    ensures store.Answered? && store.envelope.success ==>
      notices == [] && result == Returned(Or(store.envelope.data, Arr([])))
  {
    match store
    case Threw(reason) =>
      result, notices := Caught(reason, Arr([])), [];
    case Answered(response) =>
      if !response.success {
        result, notices := Returned(Arr([])), [response.message];
      } else {
        result, notices := Returned(Or(response.data, Arr([]))), [];
      }
  }

  /** `getById(id)`: the record data, or `null` on a failure. */
  method GetById(id: JsValue, store: Number -> Reply) returns (result: Outcome, notices: seq<string>)
    ensures var reply := store(ParseIntValue(id));
      reply.Threw? ==> result == Caught(reply.reason, Null) && notices == []
    ensures var reply := store(ParseIntValue(id));
      Refused(reply) ==> result == Returned(Null) && notices == [reply.envelope.message]
    ensures var reply := store(ParseIntValue(id));
      reply.Answered? && reply.envelope.success ==> result == Returned(reply.envelope.data) && notices == []
  {
    var reply := store(ParseIntValue(id));
    match reply
    case Threw(reason) =>
      result, notices := Caught(reason, Null), [];
    case Answered(response) =>
      if !response.success {
        result, notices := Returned(Null), [response.message];
      } else {
        result, notices := Returned(response.data), [];
      }
  }

  /**
   * `create(vaccineData)`: `null` on a top-level failure or a caught exception;
   * with per-record results, the data of the first record that succeeded (or
   * `null`); `undefined` when the store succeeded without per-record results.
   * The notices are those of `BatchNotices`, field errors included.
   */
  method Create(vaccineData: Object, store: NewRecord -> Reply) returns (result: Outcome, notices: seq<string>)
    ensures var reply := store(CreatePayload(vaccineData));
      notices == BatchNotices(reply, true)
    ensures var reply := store(CreatePayload(vaccineData));
      reply.Threw? ==> result == Caught(reply.reason, Null)
    ensures var reply := store(CreatePayload(vaccineData));
      Refused(reply) ==> result == Returned(Null)
    ensures var reply := store(CreatePayload(vaccineData));
      AcceptedWithoutResults(reply) ==> result == Returned(Undefined)
    ensures var reply := store(CreatePayload(vaccineData));
      AcceptedWithResults(reply) ==> result == Returned(FirstSuccessData(reply.envelope.results.value))
  {
    var reply := store(CreatePayload(vaccineData));
    result, notices := FoldBatch(reply, Null, true);
    if AcceptedWithResults(reply) {
      result := Returned(FirstSuccessData(reply.envelope.results.value));
    }
  }

  /**
   * `update(id, updatedData)`: sends only the defined columns and folds the
   * reply exactly as `create` does.
   */
  method Update(id: JsValue, updatedData: Object, store: StoreRecord -> Reply) returns (result: Outcome, notices: seq<string>)
    ensures var reply := store(UpdatePayload(id, updatedData));
      notices == BatchNotices(reply, true)
    ensures var reply := store(UpdatePayload(id, updatedData));
      reply.Threw? ==> result == Caught(reply.reason, Null)
    ensures var reply := store(UpdatePayload(id, updatedData));
      Refused(reply) ==> result == Returned(Null)
    ensures var reply := store(UpdatePayload(id, updatedData));
      AcceptedWithoutResults(reply) ==> result == Returned(Undefined)
    ensures var reply := store(UpdatePayload(id, updatedData));
      AcceptedWithResults(reply) ==> result == Returned(FirstSuccessData(reply.envelope.results.value))
  {
    var reply := store(UpdatePayload(id, updatedData));
    result, notices := FoldBatch(reply, Null, true);
    if AcceptedWithResults(reply) {
      result := Returned(FirstSuccessData(reply.envelope.results.value));
    }
  }

  /**
   * `delete(id)`: `false` on a top-level failure or a caught exception; with
   * per-record results, whether any deletion succeeded; `undefined` when the
   * store succeeded without per-record results. The notices are those of
   * `BatchNotices` without field errors: only the failed records' messages.
   */
  method Delete(id: JsValue, store: seq<Number> -> Reply) returns (result: Outcome, notices: seq<string>)
    ensures var reply := store([ParseIntValue(id)]);
      notices == BatchNotices(reply, false)
    ensures var reply := store([ParseIntValue(id)]);
      reply.Threw? ==> result == Caught(reply.reason, Bool(false))
    ensures var reply := store([ParseIntValue(id)]);
      Refused(reply) ==> result == Returned(Bool(false))
    ensures var reply := store([ParseIntValue(id)]);
      AcceptedWithoutResults(reply) ==> result == Returned(Undefined)
    ensures var reply := store([ParseIntValue(id)]);
      AcceptedWithResults(reply) ==>
        result == Returned(Bool(exists r :: r in reply.envelope.results.value && r.success))
  {
    var reply := store([ParseIntValue(id)]);
    result, notices := FoldBatch(reply, Bool(false), false);
    if AcceptedWithResults(reply) {
      var ok := Successful(reply.envelope.results.value);
      result := Returned(Bool(|ok| > 0));
      assert |ok| > 0 ==> ok[0] in ok;
    }
  }

  /**
   * What `create`, `update` and `delete` share: the failure value on a caught
   * exception or a top-level failure, `undefined` without per-record results,
   * and the notices. With per-record results the caller picks the value.
   */
  method FoldBatch(reply: Reply, failure: JsValue, withFieldErrors: bool) returns (result: Outcome, notices: seq<string>)
    ensures notices == BatchNotices(reply, withFieldErrors)
    ensures reply.Threw? ==> result == Caught(reply.reason, failure)
    ensures Refused(reply) ==> result == Returned(failure)
    ensures AcceptedWithoutResults(reply) ==> result == Returned(Undefined)
  {
    match reply
    case Threw(reason) =>
      result, notices := Caught(reason, failure), [];
    case Answered(response) =>
      if !response.success {
        result, notices := Returned(failure), [response.message];
      } else if response.results.None? {
        result, notices := Returned(Undefined), [];
      } else {
        notices := NotifyFailures(response.results.value, withFieldErrors);
        result := Returned(Undefined);
      }
  }

  /** `searchByName` sends the store a query only for a string term that is not blank. */
  predicate SearchableTerm(term: JsValue) {
    term.Str? && Trim(term.s) != ""
  }

  /**
   * `searchByName(term)`: for a missing or blank term, `[]` without querying
   * the store (likewise for a truthy term that is not a string: its `trim`
   * throws a TypeError, which the catch block turns into `[]`); otherwise the
   * store is queried with the term, and the result is its data, or `[]` on a
   * failure. It never notifies. `query` is the term the store was asked for.
   */
  method SearchByName(term: JsValue, store: string -> Reply)
    returns (query: Option<string>, result: Outcome, notices: seq<string>)
    ensures notices == []
    ensures result.Returned? ==> Truthy(result.value)
    ensures !SearchableTerm(term) ==> query == None && result == Returned(Arr([]))
    ensures SearchableTerm(term) ==> query == Some(term.s)
    ensures SearchableTerm(term) && store(term.s).Threw? ==> result == Caught(store(term.s).reason, Arr([]))
    ensures SearchableTerm(term) && Refused(store(term.s)) ==> result == Returned(Arr([]))
    ensures SearchableTerm(term) ==> var reply := store(term.s);
      reply.Answered? && reply.envelope.success ==> result == Returned(Or(reply.envelope.data, Arr([])))
  {
    notices := [];
    if !Truthy(term) || !term.Str? || Trim(term.s) == "" {
      query, result := None, Returned(Arr([]));
      return;
    }
    query := Some(term.s);
    var reply := store(term.s);
    match reply
    case Threw(reason) =>
      result := Caught(reason, Arr([]));
    case Answered(response) =>
      if !response.success {
        result := Returned(Arr([]));
      } else {
        result := Returned(Or(response.data, Arr([])));
      }
  }

  /** A call where neither the store nor any record failed raises no notice. */
  lemma SilentWithoutFailure(reply: Reply, withFieldErrors: bool)
    requires !Refused(reply)
    requires AcceptedWithResults(reply) ==> Failed(reply.envelope.results.value) == []
    ensures BatchNotices(reply, withFieldErrors) == []
  {
  }

  // ---------------------------------------------------------------------------
  // Properties of the folding

  /**
   * The value `create` and `update` return from a batch is the data of the
   * first record that succeeded.
   */
  lemma {:induction false} FirstSuccessIsFirst(results: seq<RecordResult>, i: nat)
    requires i < |results| && results[i].success
    requires forall j :: 0 <= j < i ==> !results[j].success
    ensures FirstSuccessData(results) == results[i].data
  {
    if i == 0 {
      assert Successful(results)[0] == results[0];
    } else {
      assert Successful(results) == Successful(results[1..]);
      assert results[1..][i - 1] == results[i];
      forall j | 0 <= j < i - 1
        ensures !results[1..][j].success
      {
        assert results[1..][j] == results[j + 1];
      }
      FirstSuccessIsFirst(results[1..], i - 1);
    }
  }

  /** A batch in which no record succeeded returns `null`. */
  lemma NoSuccessIsNull(results: seq<RecordResult>)
    requires forall i :: 0 <= i < |results| ==> !results[i].success
    ensures FirstSuccessData(results) == Null
  {
  }

  lemma {:induction false} FailedDistributes(a: seq<RecordResult>, b: seq<RecordResult>)
    ensures Failed(a + b) == Failed(a) + Failed(b)
  {
    if a == [] {
      assert a + b == b;
    } else {
      assert (a + b)[1..] == a[1..] + b;
      FailedDistributes(a[1..], b);
    }
  }

  lemma {:induction false} NoticesDistribute(a: seq<RecordResult>, b: seq<RecordResult>, withFieldErrors: bool)
    ensures Notices(a + b, withFieldErrors) == Notices(a, withFieldErrors) + Notices(b, withFieldErrors)
  {
    if a == [] {
      assert a + b == b;
    } else {
      assert (a + b)[1..] == a[1..] + b;
      NoticesDistribute(a[1..], b, withFieldErrors);
    }
  }

  /** A record that succeeded adds no notice, wherever it stands in the batch. */
  lemma SuccessesAreSilent(before: seq<RecordResult>, ok: RecordResult, after: seq<RecordResult>, withFieldErrors: bool)
    requires ok.success
    ensures Notices(Failed(before + [ok] + after), withFieldErrors) == Notices(Failed(before + after), withFieldErrors)
  {
    FailedDistributes(before + [ok], after);
    FailedDistributes(before, [ok]);
    FailedDistributes(before, after);
    assert [ok][1..] == [];
    assert Failed([ok]) == [];
    assert Failed(before) + Failed([ok]) == Failed(before);
  }

  /** `notice` is one that the failed `record` raises. */
  predicate NoticeOf(record: RecordResult, withFieldErrors: bool, notice: string) {
    notice == record.message || (withFieldErrors && exists e :: e in record.errors && notice == FieldErrorNotice(e))
  }

  /**
   * Every notice of a batch comes from a failed record: one of its field errors
   * (create and update only) or its message.
   */
  lemma {:induction false} NoticesComeFromFailures(failed: seq<RecordResult>, withFieldErrors: bool, k: int)
    requires 0 <= k < |Notices(failed, withFieldErrors)|
    ensures exists r :: r in failed && NoticeOf(r, withFieldErrors, Notices(failed, withFieldErrors)[k])
  {
    var head := RecordNotices(failed[0], withFieldErrors);
    var ns := Notices(failed, withFieldErrors);
    if k < |head| {
      assert ns[k] == head[k];
      var fe := if withFieldErrors then FieldErrorNotices(failed[0].errors) else [];
      if k < |fe| {
        assert ns[k] == FieldErrorNotice(failed[0].errors[k]);
        assert failed[0].errors[k] in failed[0].errors;
      }
      assert NoticeOf(failed[0], withFieldErrors, ns[k]);
    } else {
      NoticesComeFromFailures(failed[1..], withFieldErrors, k - |head|);
      assert ns[k] == Notices(failed[1..], withFieldErrors)[k - |head|];
      var r :| r in failed[1..] && NoticeOf(r, withFieldErrors, Notices(failed[1..], withFieldErrors)[k - |head|]);
      assert r in failed;
    }
  }

  /** The number of notices: one per field error (when counted) and one per non-empty message. */
  lemma {:induction false} NoticeCount(failed: seq<RecordResult>)
    ensures |Notices(failed, true)| == |Notices(failed, false)| + ErrorCount(failed)
    ensures |Notices(failed, false)| <= |failed|
  {
    if failed != [] {
      NoticeCount(failed[1..]);
    }
  }

  function ErrorCount(failed: seq<RecordResult>): nat {
    if failed == [] then 0 else |failed[0].errors| + ErrorCount(failed[1..])
  }

  /**
   * A batch with one record rejected on one field (and no message) and one
   * record accepted: `create` returns the accepted record and raises exactly
   * one notice.
   */
  lemma CreateMixedBatch(rejected: RecordResult, accepted: RecordResult)
    requires rejected == RecordResult(false, Null, [FieldError("Lot Number", "is invalid")], "")
    requires accepted.success
    ensures FirstSuccessData([rejected, accepted]) == accepted.data
    ensures Notices(Failed([rejected, accepted]), true) == ["Lot Number: is invalid"]
  {
    var batch := [rejected, accepted];
    assert batch[1..] == [accepted] && [accepted][1..] == [];
    assert Successful(batch) == [accepted] by {
      assert Successful([accepted]) == [accepted];
    }
    assert Failed(batch) == [rejected] by {
      assert Failed([accepted]) == [];
    }
    assert RecordNotices(rejected, true) == ["Lot Number: is invalid"] by {
      assert FieldErrorNotice(rejected.errors[0]) == "Lot Number: is invalid";
      assert FieldErrorNotices(rejected.errors) == ["Lot Number: is invalid"];
    }
    assert [rejected][1..] == [];
  }
}
