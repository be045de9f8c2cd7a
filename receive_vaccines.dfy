/**
 * The "Receive Vaccines" intake form (src/components/pages/ReceiveVaccines.jsx):
 * the search-or-create selection of a catalog entry, the per-field input
 * handler, the submission-time validation and reconciliation rules, and the
 * submit step that hands a payload to the record gateway and resets the form.
 *
 * Form inputs are strings, as the page keeps them; numbers are read with
 * `parseInt`, including its NaN result for text that starts with no digit.
 */
module ReceiveVaccines {
  import opened Options
  import opened JsRuntime
  import VaccineService

  /** An entry of the loaded vaccine catalog, as the form reads it. */
  datatype CatalogEntry = CatalogEntry(id: int, commercialName: string, genericName: string)

  /** The inputs of the intake form. */
  datatype Field =
    | CommercialName | GenericName | LotNumber | QuantitySent | QuantityReceived
    | ExpirationDate | ReceivedDate | DosesPassed | DosesFailed | DiscrepancyReason

  /** The values of the form's inputs, all kept as strings. */
  datatype FormData = FormData(
    commercialName: string, genericName: string, lotNumber: string, quantitySent: string,
    quantityReceived: string, expirationDate: string, receivedDate: string,
    dosesPassed: string, dosesFailed: string, discrepancyReason: string)
  {
    /** `formData[f]`. */
    function Get(f: Field): string {
      match f
      case CommercialName => commercialName
      case GenericName => genericName
      case LotNumber => lotNumber
      case QuantitySent => quantitySent
      case QuantityReceived => quantityReceived
      case ExpirationDate => expirationDate
      case ReceivedDate => receivedDate
      case DosesPassed => dosesPassed
      case DosesFailed => dosesFailed
      case DiscrepancyReason => discrepancyReason
    }

    /** `{...formData, [f]: v}`: only input `f` changes. */
    function With(f: Field, v: string): (r: FormData)
      ensures r.Get(f) == v
      ensures forall g :: g != f ==> r.Get(g) == Get(g)
    {
      match f
      case CommercialName => this.(commercialName := v)
      case GenericName => this.(genericName := v)
      case LotNumber => this.(lotNumber := v)
      case QuantitySent => this.(quantitySent := v)
      case QuantityReceived => this.(quantityReceived := v)
      case ExpirationDate => this.(expirationDate := v)
      case ReceivedDate => this.(receivedDate := v)
      case DosesPassed => this.(dosesPassed := v)
      case DosesFailed => this.(dosesFailed := v)
      case DiscrepancyReason => this.(discrepancyReason := v)
    }
  }

  /** A fresh form: every input empty except the received date, which is `today`. */
  function EmptyForm(today: string): FormData {
    FormData("", "", "", "", "", "", today, "", "", "")
  }

  /** The keys of the error map: one per input, plus the cross-field `inspection` error. */
  datatype ErrorKey = On(field: Field) | Inspection

  /** `errors[k]` is truthy: the form shows a message for `k`. */
  predicate Shows(errors: map<ErrorKey, string>, k: ErrorKey) {
    k in errors && errors[k] != ""
  }

  /** A toast shown to the user. */
  datatype Notice = Error(text: string) | Success(text: string)

  /** The gateway's error toasts, in order. */
  function ErrorNotices(texts: seq<string>): (r: seq<Notice>)
    ensures |r| == |texts|
    ensures forall i :: 0 <= i < |texts| ==> r[i] == Error(texts[i])
  {
    seq(|texts|, i requires 0 <= i < |texts| => Error(texts[i]))
  }

  // ---------------------------------------------------------------------------
  // Catalog filter

  /** An entry matches when either name, lower-cased, contains the needle. */
  predicate Matches(e: CatalogEntry, needle: string) {
    Contains(Lower(e.commercialName), needle) || Contains(Lower(e.genericName), needle)
  }

  /** `r` is `s` with some elements left out and the rest in their order. */
  predicate SubsequenceOf<T(==)>(r: seq<T>, s: seq<T>)
    decreases |s|
  {
    if r == [] then true
    else if s == [] then false
    else if r[0] == s[0] then SubsequenceOf(r[1..], s[1..])
    else SubsequenceOf(r, s[1..])
  }

  /** `vaccines.filter(...)`: the entries that match, in catalog order. */
  function Matching(vaccines: seq<CatalogEntry>, needle: string): (r: seq<CatalogEntry>)
    ensures SubsequenceOf(r, vaccines)
    ensures forall e :: e in r ==> Matches(e, needle)
    ensures forall e :: Matches(e, needle) ==> multiset(r)[e] == multiset(vaccines)[e]
  {
    if vaccines == [] then []
    else
      var rest := Matching(vaccines[1..], needle);
      assert vaccines == [vaccines[0]] + vaccines[1..];
      if Matches(vaccines[0], needle) then [vaccines[0]] + rest else rest
  }

  /**
   * The filter effect: nothing for a blank search; otherwise every entry whose
   * commercial or generic name contains the search text (untrimmed), ignoring
   * case, in catalog order, each as often as it occurs in the catalog.
   */
  function FilterCatalog(vaccines: seq<CatalogEntry>, searchTerm: string): (r: seq<CatalogEntry>)
    ensures Trim(searchTerm) == "" ==> r == []
    ensures SubsequenceOf(r, vaccines)
    ensures forall e :: e in r ==> Matches(e, Lower(searchTerm))
    ensures Trim(searchTerm) != "" ==>
      forall e :: Matches(e, Lower(searchTerm)) ==> multiset(r)[e] == multiset(vaccines)[e]
  {
    if Trim(searchTerm) == "" then [] else Matching(vaccines, Lower(searchTerm))
  }

  /** The search text shown once an entry is chosen: `${commercialName} (${genericName})`. */
  function SelectionLabel(e: CatalogEntry): string {
    e.commercialName + " (" + e.genericName + ")"
  }

  // ---------------------------------------------------------------------------
  // Validation

  const CommercialNameRequired := "Commercial name is required"
  const GenericNameRequired := "Generic name is required"
  const LotNumberRequired := "Lot number is required"
  const QuantityReceivedPositive := "Quantity received must be greater than 0"
  const ExpirationDateRequired := "Expiration date is required"
  const DosesPassedRequired := "Doses passed inspection is required"
  const DiscrepancyReasonRequired := "Discrepancy reason is required when doses failed"
  const InspectionMismatch := "Total inspected doses must equal quantity received"
  const FixErrorsMessage := "Please fix the form errors before submitting"
  const ReceiveFailedMessage := "Failed to receive vaccine shipment. Please try again."

  /**
   * `parseInt(s || 0)` for an input string: an empty input reads as 0
   * (`ParseIntOfStringOrZero` shows this is `parseInt(s || 0)`).
   */
  function IntOrZero(s: string): Number {
    if s == "" then Int(0) else ParseInt(s)
  }

  /** Whether the form breaks the rule recorded under `k`; inputs without a rule never do. */
  predicate Violates(fd: FormData, k: ErrorKey) {
    match k
    case On(CommercialName) => Trim(fd.commercialName) == ""
    case On(GenericName) => Trim(fd.genericName) == ""
    case On(LotNumber) => Trim(fd.lotNumber) == ""
    case On(QuantityReceived) => !Truthy(Str(fd.quantityReceived)) || Le(ParseInt(fd.quantityReceived), Int(0))
    case On(ExpirationDate) => !Truthy(Str(fd.expirationDate))
    case On(DosesPassed) => !Truthy(Str(fd.dosesPassed)) || Lt(ParseInt(fd.dosesPassed), Int(0))
    case On(DiscrepancyReason) => Gt(IntOrZero(fd.dosesFailed), Int(0)) && Trim(fd.discrepancyReason) == ""
    case Inspection =>
      !SumEquals(IntOrZero(fd.dosesPassed), IntOrZero(fd.dosesFailed), IntOrZero(fd.quantityReceived))
    case On(_) => false
  }

  function Message(k: ErrorKey): string {
    match k
    case On(CommercialName) => CommercialNameRequired
    case On(GenericName) => GenericNameRequired
    case On(LotNumber) => LotNumberRequired
    case On(QuantityReceived) => QuantityReceivedPositive
    case On(ExpirationDate) => ExpirationDateRequired
    case On(DosesPassed) => DosesPassedRequired
    case On(DiscrepancyReason) => DiscrepancyReasonRequired
    case Inspection => InspectionMismatch
    case On(_) => ""
  }

  /** The keys `validateForm` has a rule for, in the order it applies them. */
  const RuleOrder: seq<ErrorKey> := [
    On(CommercialName), On(GenericName), On(LotNumber), On(QuantityReceived),
    On(ExpirationDate), On(DosesPassed), On(DiscrepancyReason), Inspection]

  /** One step of `validateForm`: record the message for `k` when its rule is broken. */
  function Check(errors: map<ErrorKey, string>, k: ErrorKey, broken: bool): (r: map<ErrorKey, string>)
    ensures broken ==> r == errors[k := Message(k)]
    ensures !broken ==> r == errors
  {
    if broken then errors[k := Message(k)] else errors
  }

  /**
   * The error map `validateForm` commits: one entry per broken rule, holding
   * that rule's message, and nothing else.
   */
  function ValidationErrors(fd: FormData): map<ErrorKey, string> {
    ErrorsWhere(k => Violates(fd, k))
  }

  /** The error map with an entry, holding its message, for each rule that `broken` reports. */
  function ErrorsWhere(broken: ErrorKey -> bool): map<ErrorKey, string> {
    ErrorsAmong(RuleOrder, broken)
  }

  /** The error map of the rules in `rules` that `broken` reports. */
  function ErrorsAmong(rules: seq<ErrorKey>, broken: ErrorKey -> bool): map<ErrorKey, string> {
    map k | k in rules && broken(k) :: Message(k)
  }

  /** Applying one more rule adds its message exactly when it is broken. */
  lemma OneMoreRule(rules: seq<ErrorKey>, k: ErrorKey, broken: ErrorKey -> bool)
    ensures ErrorsAmong(rules + [k], broken) == Check(ErrorsAmong(rules, broken), k, broken(k))
  {
    var after := ErrorsAmong(rules + [k], broken);
    var stepped := Check(ErrorsAmong(rules, broken), k, broken(k));
    forall j ensures (j in after <==> j in stepped) && (j in after ==> after[j] == stepped[j]) {
      assert j in rules + [k] <==> j in rules || j == k;
    }
  }

  /**
   * Applying the rules one by one in `validateForm`'s order, each adding its
   * message when broken, builds the error map of the broken rules.
   */
  lemma StepsBuildErrors(broken: ErrorKey -> bool)
    ensures ErrorsWhere(broken) ==
      var e0: map<ErrorKey, string> := map[];
      var e1 := Check(e0, On(CommercialName), broken(On(CommercialName)));
      var e2 := Check(e1, On(GenericName), broken(On(GenericName)));
      var e3 := Check(e2, On(LotNumber), broken(On(LotNumber)));
      var e4 := Check(e3, On(QuantityReceived), broken(On(QuantityReceived)));
      var e5 := Check(e4, On(ExpirationDate), broken(On(ExpirationDate)));
      var e6 := Check(e5, On(DosesPassed), broken(On(DosesPassed)));
      var e7 := Check(e6, On(DiscrepancyReason), broken(On(DiscrepancyReason)));
      Check(e7, Inspection, broken(Inspection))
  {
    var r := RuleOrder;
    assert ErrorsAmong([], broken) == map[];
    assert r[..0] + [r[0]] == r[..1];
    OneMoreRule(r[..0], r[0], broken);
    assert r[..1] + [r[1]] == r[..2];
    OneMoreRule(r[..1], r[1], broken);
    assert r[..2] + [r[2]] == r[..3];
    OneMoreRule(r[..2], r[2], broken);
    assert r[..3] + [r[3]] == r[..4];
    OneMoreRule(r[..3], r[3], broken);
    assert r[..4] + [r[4]] == r[..5];
    OneMoreRule(r[..4], r[4], broken);
    assert r[..5] + [r[5]] == r[..6];
    OneMoreRule(r[..5], r[5], broken);
    assert r[..6] + [r[6]] == r[..7];
    OneMoreRule(r[..6], r[6], broken);
    assert r[..7] + [r[7]] == r;
    OneMoreRule(r[..7], r[7], broken);
  }

  /** The keys `validateForm` has a rule for. */
  predicate HasRule(k: ErrorKey) {
    k.Inspection? || (k.field != QuantitySent && k.field != ReceivedDate && k.field != DosesFailed)
  }

  /** A key has a rule exactly when it is in the rule order; the other keys never fail. */
  lemma RuleOrderHasEveryRule(fd: FormData, k: ErrorKey)
    ensures k in RuleOrder <==> HasRule(k)
    ensures !HasRule(k) ==> !Violates(fd, k)
  {
    match k
    case Inspection =>
    case On(f) =>
      match f {
        case CommercialName =>
        case GenericName =>
        case LotNumber =>
        case QuantityReceived =>
        case ExpirationDate =>
        case DosesPassed =>
        case DiscrepancyReason =>
        case QuantitySent =>
        case ReceivedDate =>
        case DosesFailed =>
      }
  }

  /**
   * Validation collects every broken rule rather than stopping at the first:
   * a key is in the map exactly when its rule fails, with that rule's message.
   */
  lemma ValidationCollects(fd: FormData, k: ErrorKey)
    ensures k in ValidationErrors(fd) <==> Violates(fd, k)
    ensures k in ValidationErrors(fd) ==> ValidationErrors(fd)[k] == Message(k)
  {
    RuleOrderHasEveryRule(fd, k);
  }

  /** The text rules of `validateForm`, read off the error map it builds. */
  lemma TextRulesReported(fd: FormData)
    ensures On(CommercialName) in ValidationErrors(fd) <==> Trim(fd.commercialName) == ""
    ensures On(GenericName) in ValidationErrors(fd) <==> Trim(fd.genericName) == ""
    ensures On(LotNumber) in ValidationErrors(fd) <==> Trim(fd.lotNumber) == ""
    ensures On(ExpirationDate) in ValidationErrors(fd) <==> fd.expirationDate == ""
  {
    ValidationCollects(fd, On(CommercialName));
    ValidationCollects(fd, On(GenericName));
    ValidationCollects(fd, On(LotNumber));
    ValidationCollects(fd, On(ExpirationDate));
  }

  /** The count rules of `validateForm`, read off the error map it builds. */
  lemma CountRulesReported(fd: FormData)
    ensures On(QuantityReceived) in ValidationErrors(fd) <==>
              fd.quantityReceived == "" || Le(ParseInt(fd.quantityReceived), Int(0))
    ensures On(DosesPassed) in ValidationErrors(fd) <==>
              fd.dosesPassed == "" || Lt(ParseInt(fd.dosesPassed), Int(0))
    ensures On(DiscrepancyReason) in ValidationErrors(fd) <==>
              Gt(IntOrZero(fd.dosesFailed), Int(0)) && Trim(fd.discrepancyReason) == ""
    ensures Inspection in ValidationErrors(fd) <==>
              !SumEquals(IntOrZero(fd.dosesPassed), IntOrZero(fd.dosesFailed), IntOrZero(fd.quantityReceived))
  {
    assert On(QuantityReceived) in ValidationErrors(fd) <==>
             fd.quantityReceived == "" || Le(ParseInt(fd.quantityReceived), Int(0)) by {
      ValidationCollects(fd, On(QuantityReceived));
    }
    assert On(DosesPassed) in ValidationErrors(fd) <==>
             fd.dosesPassed == "" || Lt(ParseInt(fd.dosesPassed), Int(0)) by {
      ValidationCollects(fd, On(DosesPassed));
    }
    assert On(DiscrepancyReason) in ValidationErrors(fd) <==>
             Gt(IntOrZero(fd.dosesFailed), Int(0)) && Trim(fd.discrepancyReason) == "" by {
      ValidationCollects(fd, On(DiscrepancyReason));
    }
    ValidationCollects(fd, Inspection);
  }

  /** Every rule's message is non-empty, so a recorded error always shows. */
  lemma RuleMessagesShow(k: ErrorKey)
    requires HasRule(k)
    ensures Message(k) != ""
  {
    match k
    case Inspection =>
    case On(f) =>
      match f {
        case CommercialName =>
        case GenericName =>
        case LotNumber =>
        case QuantityReceived =>
        case ExpirationDate =>
        case DosesPassed =>
        case DiscrepancyReason =>
      }
  }

  /** Every rule holds. */
  predicate RulesHold(fd: FormData) {
    && !Violates(fd, On(CommercialName)) && !Violates(fd, On(GenericName))
    && !Violates(fd, On(LotNumber)) && !Violates(fd, On(QuantityReceived))
    && !Violates(fd, On(ExpirationDate)) && !Violates(fd, On(DosesPassed))
    && !Violates(fd, On(DiscrepancyReason)) && !Violates(fd, Inspection)
  }

  /** The form is valid (no error recorded) exactly when every rule holds. */
  lemma ValidIffRulesHold(fd: FormData)
    ensures ValidationErrors(fd) == map[] <==> RulesHold(fd)
  {
    if RulesHold(fd) {
      forall k ensures k !in ValidationErrors(fd) {
        ValidationCollects(fd, k);
        if k == Inspection {
        } else if k == On(CommercialName) {
        } else if k == On(GenericName) {
        } else if k == On(LotNumber) {
        } else if k == On(QuantityReceived) {
        } else if k == On(ExpirationDate) {
        } else if k == On(DosesPassed) {
        } else if k == On(DiscrepancyReason) {
        } else {
          RuleOrderHasEveryRule(fd, k);
        }
      }
    } else {
      ValidationCollects(fd, On(CommercialName));
      ValidationCollects(fd, On(GenericName));
      ValidationCollects(fd, On(LotNumber));
      ValidationCollects(fd, On(QuantityReceived));
      ValidationCollects(fd, On(ExpirationDate));
      ValidationCollects(fd, On(DosesPassed));
      ValidationCollects(fd, On(DiscrepancyReason));
      ValidationCollects(fd, Inspection);
    }
  }

  /** `String(n)`: how a number typed into a numeric input reads. */
  function IntString(n: int): string {
    NumberToString(Int(n))
  }

  lemma IntStringReads(n: int)
    ensures IntString(n) != ""
    ensures ParseInt(IntString(n)) == Int(n)
    ensures IntOrZero(IntString(n)) == Int(n)
  {
    ParseIntRoundTrip(n);
  }

  /**
   * For inputs that hold integers (an empty doses-failed input counting as 0),
   * the form is valid exactly when the names and lot number are not blank, an
   * expiration date is given, at least one dose was received, no passed count
   * is negative, a failed dose comes with a reason, and passed + failed equals
   * received.
   */
  lemma ValidExactlyWhenReconciled(fd: FormData, received: int, passed: int, failed: int)
    requires fd.quantityReceived == IntString(received)
    requires fd.dosesPassed == IntString(passed)
    requires fd.dosesFailed == IntString(failed) || (fd.dosesFailed == "" && failed == 0)
    ensures ValidationErrors(fd) == map[] <==>
      && Trim(fd.commercialName) != "" && Trim(fd.genericName) != "" && Trim(fd.lotNumber) != ""
      && fd.expirationDate != ""
      && received > 0 && passed >= 0
      && (failed > 0 ==> Trim(fd.discrepancyReason) != "")
      && passed + failed == received
  {
    IntStringReads(received);
    IntStringReads(passed);
    IntStringReads(failed);
    assert IntOrZero(fd.dosesFailed) == Int(failed);
    RulesHoldOnReadings(fd, Int(received), Int(passed), Int(failed));
    ValidIffRulesHold(fd);
  }

  /** How the count rules read once the three counts are known as numbers. */
  lemma CountRulesRead(fd: FormData, received: Number, passed: Number, failed: Number)
    requires fd.quantityReceived != "" && ParseInt(fd.quantityReceived) == received
    requires fd.dosesPassed != "" && ParseInt(fd.dosesPassed) == passed
    requires IntOrZero(fd.dosesFailed) == failed
    ensures Violates(fd, On(QuantityReceived)) <==> Le(received, Int(0))
    ensures Violates(fd, On(DosesPassed)) <==> Lt(passed, Int(0))
    ensures Violates(fd, On(DiscrepancyReason)) <==> Gt(failed, Int(0)) && Trim(fd.discrepancyReason) == ""
    ensures Violates(fd, Inspection) <==> !SumEquals(passed, failed, received)
  {
    assert IntOrZero(fd.quantityReceived) == received;
    assert IntOrZero(fd.dosesPassed) == passed;
  }

  /** `RulesHold` once the three counts are known as numbers. */
  lemma RulesHoldOnReadings(fd: FormData, received: Number, passed: Number, failed: Number)
    requires fd.quantityReceived != "" && ParseInt(fd.quantityReceived) == received
    requires fd.dosesPassed != "" && ParseInt(fd.dosesPassed) == passed
    requires IntOrZero(fd.dosesFailed) == failed
    ensures RulesHold(fd) <==>
      && Trim(fd.commercialName) != "" && Trim(fd.genericName) != "" && Trim(fd.lotNumber) != ""
      && fd.expirationDate != ""
      && !Le(received, Int(0)) && !Lt(passed, Int(0))
      && !(Gt(failed, Int(0)) && Trim(fd.discrepancyReason) == "")
      && SumEquals(passed, failed, received)
  {
    CountRulesRead(fd, received, passed, failed);
  }

  /**
   * Any valid form holds integers: received > 0, passed >= 0, and
   * passed + failed == received with an empty failed count read as 0 (each
   * comparison is false on NaN, so each reading is an integer).
   */
  lemma ValidFormHoldsIntegers(fd: FormData)
    requires ValidationErrors(fd) == map[]
    ensures Gt(ParseInt(fd.quantityReceived), Int(0))
    ensures Le(Int(0), ParseInt(fd.dosesPassed))
    ensures SumEquals(ParseInt(fd.dosesPassed), IntOrZero(fd.dosesFailed), ParseInt(fd.quantityReceived))
    ensures Gt(IntOrZero(fd.dosesFailed), Int(0)) ==> Trim(fd.discrepancyReason) != ""
  {
    var received, passed, failed := ParseInt(fd.quantityReceived), ParseInt(fd.dosesPassed), IntOrZero(fd.dosesFailed);
    ValidationCollects(fd, On(QuantityReceived));
    ValidationCollects(fd, On(DosesPassed));
    ValidationCollects(fd, On(DiscrepancyReason));
    ValidationCollects(fd, Inspection);
    assert fd.quantityReceived != "" && fd.dosesPassed != "";
    CountRulesRead(fd, received, passed, failed);
  }

  /**
   * A received quantity that starts with no digit is NaN: it slips past the
   * quantity rule (NaN <= 0 is false) and is reported only by the
   * reconciliation rule (NaN equals nothing).
   */
  lemma NonNumericReceivedFailsOnlyReconciliation(fd: FormData)
    requires fd.quantityReceived != "" && ParseInt(fd.quantityReceived) == NaN
    ensures On(QuantityReceived) !in ValidationErrors(fd)
    ensures Inspection in ValidationErrors(fd)
  {
    ValidationCollects(fd, On(QuantityReceived));
    ValidationCollects(fd, Inspection);
    assert IntOrZero(fd.quantityReceived) == NaN;
  }

  /** A passed count of "0" is accepted: only an empty or negative count is an error. */
  lemma ZeroPassedAccepted(fd: FormData)
    requires fd.dosesPassed == "0"
    ensures On(DosesPassed) !in ValidationErrors(fd)
  {
    ValidationCollects(fd, On(DosesPassed));
    IntStringReads(0);
    assert IntString(0) == "0";
  }

  /** An empty failed count reads as 0 and never asks for a discrepancy reason. */
  lemma EmptyFailedNeedsNoReason(fd: FormData)
    requires fd.dosesFailed == ""
    ensures On(DiscrepancyReason) !in ValidationErrors(fd)
  {
    ValidationCollects(fd, On(DiscrepancyReason));
  }

  /** When the reconciliation rule is the only one broken, it is the only error. */
  lemma OnlyInspectionBroken(fd: FormData)
    requires !Violates(fd, On(CommercialName)) && !Violates(fd, On(GenericName))
    requires !Violates(fd, On(LotNumber)) && !Violates(fd, On(QuantityReceived))
    requires !Violates(fd, On(ExpirationDate)) && !Violates(fd, On(DosesPassed))
    requires !Violates(fd, On(DiscrepancyReason)) && Violates(fd, Inspection)
    ensures ValidationErrors(fd) == map[Inspection := InspectionMismatch]
  {
    forall k ensures k in ValidationErrors(fd) <==> k == Inspection {
      ValidationCollects(fd, k);
      if k == On(CommercialName) {
      } else if k == On(GenericName) {
      } else if k == On(LotNumber) {
      } else if k == On(QuantityReceived) {
      } else if k == On(ExpirationDate) {
      } else if k == On(DosesPassed) {
      } else if k == On(DiscrepancyReason) {
      } else if k != Inspection {
        RuleOrderHasEveryRule(fd, k);
      }
    }
    ValidationCollects(fd, Inspection);
  }

  /** A form that is valid except for its counts, used by the examples below. */
  function SampleForm(received: string, passed: string, failed: string, reason: string): FormData {
    FormData("Daptacel SDV", "DTaP", "ABC123", "", received, "2027-01-31", "2026-10-16", passed, failed, reason)
  }

  /** The names, lot number and expiration date of the sample form pass their rules. */
  lemma SampleFormFieldsHold(fd: FormData)
    requires fd.commercialName == "Daptacel SDV" && fd.genericName == "DTaP" && fd.lotNumber == "ABC123"
    requires fd.expirationDate == "2027-01-31"
    ensures !Violates(fd, On(CommercialName)) && !Violates(fd, On(GenericName))
    ensures !Violates(fd, On(LotNumber)) && !Violates(fd, On(ExpirationDate))
  {
    assert Trim("Daptacel SDV") != "" by { assert TrimStart("Daptacel SDV") == "Daptacel SDV"; }
    assert Trim("DTaP") != "" by { assert TrimStart("DTaP") == "DTaP"; }
    assert Trim("ABC123") != "" by { assert TrimStart("ABC123") == "ABC123"; }
  }

  /** Received 10, passed 7, failed 2 (with a reason): the only error is `inspection`. */
  lemma InspectionOnlyExample(fd: FormData)
    requires fd == SampleForm("10", "7", "2", "damaged")
    ensures ValidationErrors(fd) == map[Inspection := InspectionMismatch]
  {
    assert !Violates(fd, On(QuantityReceived)) && !Violates(fd, On(DosesPassed)) && Violates(fd, Inspection)
        && !Violates(fd, On(DiscrepancyReason)) by {
      assert IntString(10) == "10" && IntString(7) == "7" && IntString(2) == "2";
      IntStringReads(10);
      IntStringReads(7);
      IntStringReads(2);
      CountRulesRead(fd, Int(10), Int(7), Int(2));
      assert Trim("damaged") != "" by { assert TrimStart("damaged") == "damaged"; }
    }
    SampleFormFieldsHold(fd);
    OnlyInspectionBroken(fd);
  }

  /** Failed 3 with no reason: a discrepancy-reason error. */
  lemma MissingReasonExample(fd: FormData)
    requires fd == SampleForm("10", "7", "3", "")
    ensures On(DiscrepancyReason) in ValidationErrors(fd)
  {
    assert IntString(3) == "3";
    IntStringReads(3);
    ValidationCollects(fd, On(DiscrepancyReason));
  }

  /**
   * The rules never look at the sign of the failed count: received 10,
   * passed 13, failed -3 passes validation.
   */
  lemma NegativeFailedAccepted(fd: FormData)
    requires fd == SampleForm("10", "13", "-3", "")
    ensures ValidationErrors(fd) == map[]
  {
    assert IntString(10) == "10" && IntString(13) == "13" && IntString(-3) == "-3";
    SampleFormFieldsHold(fd);
    ValidExactlyWhenReconciled(fd, 10, 13, -3);
  }

  // ---------------------------------------------------------------------------
  // Submission

  /** The object `handleSubmit` hands to the gateway's `create`. */
  function SubmitPayload(fd: FormData): Object {
    map[
      "commercialName" := Str(fd.commercialName),
      "genericName" := Str(fd.genericName),
      "lotNumber" := Str(fd.lotNumber),
      "quantity_c" := Num(ParseInt(fd.quantityReceived)),
      "expirationDate" := Str(fd.expirationDate),
      "receivedDate" := Str(fd.receivedDate),
      "quantityOnHand_c" := Num(ParseInt(fd.dosesPassed)),
      "administeredDoses" := Num(Int(0))
    ]
  }

  /** `Successfully received ${dosesPassed} doses of ${commercialName}`. */
  function SuccessMessage(fd: FormData): string {
    "Successfully received " + fd.dosesPassed + " doses of " + fd.commercialName
  }

  /** The keys `create` reads, looked up in the submitted object. */
  lemma SubmitPayloadReads(fd: FormData)
    ensures var payload := SubmitPayload(fd);
      && Get(payload, "commercialName") == Str(fd.commercialName)
      && Get(payload, "genericName") == Str(fd.genericName)
      && Get(payload, "lotNumber") == Str(fd.lotNumber)
      && Get(payload, "quantity_c") == Num(ParseInt(fd.quantityReceived))
      && Get(payload, "quantityOnHand_c") == Num(ParseInt(fd.dosesPassed))
      && Get(payload, "expirationDate_c") == Undefined
      && Get(payload, "receivedDate_c") == Undefined
      && Get(payload, "administeredDoses_c") == Undefined
  {
    var payload := SubmitPayload(fd);
    assert "expirationDate_c" !in payload && "receivedDate_c" !in payload && "administeredDoses_c" !in payload;
  }

  /**
   * What reaches the store from a submitted form: the names and lot number,
   * the received count as the quantity, the passed count as the quantity on
   * hand and 0 administered doses, but no dates: the form sends them under
   * `expirationDate` and `receivedDate`, which `create` does not read. (For a
   * valid form both counts are integers, by `ValidFormHoldsIntegers`.)
   */
  lemma SubmittedRecord(fd: FormData)
    ensures VaccineService.CreatePayload(SubmitPayload(fd)) == SubmittedRequest(fd)
    ensures var r := VaccineService.CreatePayload(SubmitPayload(fd));
      && r.commercialName == Str(fd.commercialName)
      && r.genericName == Str(fd.genericName)
      && r.lotNumber == Str(fd.lotNumber)
      && r.quantity == Num(ParseInt(fd.quantityReceived))
      && r.quantityOnHand == Num(ParseInt(fd.dosesPassed))
      && r.administeredDoses == Num(Int(0))
      && r.expirationDate == Undefined
      && r.receivedDate == Undefined
  {
    SubmitPayloadReads(fd);
    ParseIntOfNumber(ParseInt(fd.quantityReceived));
    ParseIntOfNumber(ParseInt(fd.dosesPassed));
  }

  /** The record a submitted form reaches the store as (by `SubmittedRecord`). */
  function SubmittedRequest(fd: FormData): VaccineService.NewRecord {
    VaccineService.NewRecord(
      commercialName := Str(fd.commercialName),
      genericName := Str(fd.genericName),
      lotNumber := Str(fd.lotNumber),
      quantity := Num(ParseInt(fd.quantityReceived)),
      expirationDate := Undefined,
      receivedDate := Undefined,
      quantityOnHand := Num(ParseInt(fd.dosesPassed)),
      administeredDoses := Num(Int(0)))
  }

  /** The outcome of a submit attempt: stopped by validation, or handed to `create`. */
  datatype Submission = Rejected | Sent(vaccineData: Object, result: VaccineService.Outcome)

  /**
   * The toasts of a submission that reached `create`: the gateway's error
   * toasts followed by the success toast, or, when an exception escaped
   * `create`, only the toast of `handleSubmit`'s own catch block.
   */
  function SubmitNotices(fd: FormData, reply: VaccineService.Reply): seq<Notice> {
    if VaccineService.Escapes(reply) then [Error(ReceiveFailedMessage)]
    else ErrorNotices(VaccineService.BatchNotices(reply, true)) + [Success(SuccessMessage(fd))]
  }

  /**
   * The success toast comes last exactly when `create` returned, whatever it
   * returned, after one error toast per gateway notice; every other toast is
   * an error.
   */
  lemma SubmitNoticesShape(fd: FormData, reply: VaccineService.Reply)
    ensures var n := SubmitNotices(fd, reply);
      && |n| >= 1
      && (n[|n| - 1] == Success(SuccessMessage(fd)) <==> !VaccineService.Escapes(reply))
      && (!VaccineService.Escapes(reply) ==> |n| == |VaccineService.BatchNotices(reply, true)| + 1)
      && forall i :: 0 <= i < |n| - 1 ==> n[i].Error?
  {
    var n := SubmitNotices(fd, reply);
    if !VaccineService.Escapes(reply) {
      var gateway := ErrorNotices(VaccineService.BatchNotices(reply, true));
      assert forall i :: 0 <= i < |n| - 1 ==> n[i] == gateway[i];
    }
  }

  // ---------------------------------------------------------------------------
  // The form session

  /** The state of one intake form, from opening to submission. */
  class FormSession {
    var vaccines: seq<CatalogEntry>
    var searchTerm: string
    var selected: Option<CatalogEntry>
    var isCreateNewMode: bool
    var isCreatingNew: bool
    var showDropdown: bool
    var formData: FormData
    var errors: map<ErrorKey, string>

    /**
     * The dropdown is only open over a non-blank search, and a chosen entry
     * stands in the search box (focusing the box may reopen the dropdown over it).
     */
    ghost predicate Valid()
      reads this
    {
      && (showDropdown ==> Trim(searchTerm) != "")
      && (selected.Some? ==> searchTerm == SelectionLabel(selected.value))
    }

    /** The catalog entries the dropdown offers. */
    function FilteredVaccines(): seq<CatalogEntry>
      reads this
    {
      FilterCatalog(vaccines, searchTerm)
    }

    constructor(catalog: seq<CatalogEntry>, today: string)
      ensures Valid()
      ensures vaccines == catalog && searchTerm == "" && selected == None
      ensures !isCreateNewMode && !isCreatingNew && !showDropdown
      ensures formData == EmptyForm(today) && errors == map[]
    {
      vaccines := catalog;
      searchTerm := "";
      selected := None;
      isCreateNewMode := false;
      isCreatingNew := false;
      showDropdown := false;
      formData := EmptyForm(today);
      errors := map[];
    }

    /**
     * `handleSearchChange`: the typed text becomes the search, the selection is
     * dropped, the dropdown opens exactly when the text is not blank, and
     * outside create-new mode both names are blanked.
     */
    method SearchChange(value: string)
      modifies this
      ensures Valid()
      ensures searchTerm == value && selected == None && showDropdown == (Trim(value) != "")
      ensures formData == if old(isCreateNewMode) then old(formData)
                          else old(formData).(commercialName := "", genericName := "")
      ensures vaccines == old(vaccines) && errors == old(errors)
      ensures isCreateNewMode == old(isCreateNewMode) && isCreatingNew == old(isCreatingNew)
    {
      searchTerm := value;
      selected := None;
      showDropdown := Trim(value) != "";
      if !isCreateNewMode {
        formData := formData.(commercialName := "", genericName := "");
      }
    }

    /**
     * `handleVaccineSelect`: the entry is chosen and shown in the search box,
     * both names are copied into the form (nothing else in it changes), the
     * dropdown closes, and neither name shows an error any more.
     */
    method VaccineSelect(vaccine: CatalogEntry)
      modifies this
      ensures Valid()
      ensures selected == Some(vaccine) && searchTerm == SelectionLabel(vaccine) && !showDropdown
      ensures formData.commercialName == vaccine.commercialName && formData.genericName == vaccine.genericName
      ensures forall f :: f != CommercialName && f != GenericName ==> formData.Get(f) == old(formData).Get(f)
      ensures !Shows(errors, On(CommercialName)) && !Shows(errors, On(GenericName))
      ensures forall k :: k != On(CommercialName) && k != On(GenericName) ==>
                (k in errors <==> k in old(errors)) && (k in errors ==> errors[k] == old(errors)[k])
      ensures vaccines == old(vaccines)
      ensures isCreateNewMode == old(isCreateNewMode) && isCreatingNew == old(isCreatingNew)
    {
      selected := Some(vaccine);
      searchTerm := SelectionLabel(vaccine);
      formData := formData.(commercialName := vaccine.commercialName, genericName := vaccine.genericName);
      showDropdown := false;
      if Shows(errors, On(CommercialName)) || Shows(errors, On(GenericName)) {
        errors := errors[On(CommercialName) := ""][On(GenericName) := ""];
      }
    }

    /**
     * `handleModeChange`: switches the mode and resets the search, the
     * selection, the dropdown, both names and both name errors.
     */
    method ModeChange(createNew: bool)
      modifies this
      ensures Valid()
      ensures isCreateNewMode == createNew
      ensures searchTerm == "" && selected == None && !showDropdown
      ensures formData == old(formData).(commercialName := "", genericName := "")
      ensures errors == old(errors)[On(CommercialName) := ""][On(GenericName) := ""]
      ensures vaccines == old(vaccines) && isCreatingNew == old(isCreatingNew)
    {
      isCreateNewMode := createNew;
      searchTerm := "";
      selected := None;
      showDropdown := false;
      formData := formData.(commercialName := "", genericName := "");
      errors := errors[On(CommercialName) := ""][On(GenericName) := ""];
    }

    /**
     * `handleCreateNew`: enters create-new, drops the selection and closes the
     * dropdown; a non-blank search seeds the commercial name (trimmed) and
     * blanks the generic name; both name errors are cleared.
     */
    method CreateNew()
      modifies this
      ensures Valid()
      ensures isCreatingNew && selected == None && !showDropdown
      ensures Trim(searchTerm) != "" ==> formData == old(formData).(commercialName := Trim(searchTerm), genericName := "")
      ensures Trim(searchTerm) == "" ==> formData == old(formData)
      ensures errors == old(errors)[On(CommercialName) := ""][On(GenericName) := ""]
      ensures vaccines == old(vaccines) && searchTerm == old(searchTerm) && isCreateNewMode == old(isCreateNewMode)
    {
      isCreatingNew := true;
      selected := None;
      showDropdown := false;
      if Trim(searchTerm) != "" {
        formData := formData.(commercialName := Trim(searchTerm), genericName := "");
      }
      errors := errors[On(CommercialName) := ""][On(GenericName) := ""];
    }

    /**
     * `handleInputChange`: stores the value in that one input (the lot number
     * upper-cased) and blanks that input's error if it was showing.
     */
    method InputChange(field: Field, value: string)
      modifies this
      ensures old(Valid()) ==> Valid()
      ensures formData == old(formData).With(field, if field == LotNumber then Upper(value) else value)
      ensures field == LotNumber ==> HasNoLowerCase(formData.lotNumber)
      ensures errors == if Shows(old(errors), On(field)) then old(errors)[On(field) := ""] else old(errors)
      ensures !Shows(errors, On(field))
      ensures vaccines == old(vaccines) && searchTerm == old(searchTerm) && selected == old(selected)
      ensures isCreateNewMode == old(isCreateNewMode) && isCreatingNew == old(isCreatingNew)
      ensures showDropdown == old(showDropdown)
    {
      var processed := if field == LotNumber then Upper(value) else value;
      UpperIsNormal(value);
      formData := formData.With(field, processed);
      if Shows(errors, On(field)) {
        errors := errors[On(field) := ""];
      }
    }

    /** The search box's `onFocus`: reopens the dropdown over a non-blank search. */
    method FocusSearch()
      modifies this`showDropdown
      ensures showDropdown == (Trim(searchTerm) != "")
      ensures old(Valid()) ==> Valid()
    {
      showDropdown := Trim(searchTerm) != "";
    }

    /**
     * `validateForm`: replaces the error map with the errors of the current
     * inputs and reports whether there are none.
     */
    method ValidateForm() returns (ok: bool)
      modifies this`errors
      ensures errors == ValidationErrors(formData)
      ensures ok <==> errors == map[]
    {
      var fd := formData;
      var broken := k => Violates(fd, k);
      var newErrors: map<ErrorKey, string> := map[];
      newErrors := Check(newErrors, On(CommercialName), broken(On(CommercialName)));
      newErrors := Check(newErrors, On(GenericName), broken(On(GenericName)));
      newErrors := Check(newErrors, On(LotNumber), broken(On(LotNumber)));
      newErrors := Check(newErrors, On(QuantityReceived), broken(On(QuantityReceived)));
      newErrors := Check(newErrors, On(ExpirationDate), broken(On(ExpirationDate)));
      newErrors := Check(newErrors, On(DosesPassed), broken(On(DosesPassed)));
      newErrors := Check(newErrors, On(DiscrepancyReason), broken(On(DiscrepancyReason)));
      newErrors := Check(newErrors, Inspection, broken(Inspection));
      StepsBuildErrors(broken);
      errors := newErrors;
      ok := |newErrors| == 0;
    }

    /**
     * The part of `handleSubmit` after validation: hand the form to the
     * gateway's `create`, then show its error toasts followed by the success
     * toast and reset the inputs, whatever `create` returned; when an exception
     * escapes `create`, show only the catch block's toast and keep the inputs.
     */
    method Dispatch(today: string, store: VaccineService.NewRecord -> VaccineService.Reply)
      returns (notices: seq<Notice>, submission: Submission)
      modifies this`formData
      ensures var reply := store(SubmittedRequest(old(formData)));
        && submission.Sent? && submission.vaccineData == SubmitPayload(old(formData))
        && notices == SubmitNotices(old(formData), reply)
        && formData == if VaccineService.Escapes(reply) then old(formData) else EmptyForm(today)
    {
      var vaccineData := SubmitPayload(formData);
      SubmittedRecord(formData);
      var result, failures := VaccineService.Create(vaccineData, store);
      if result.Escaped? {
        notices := [Error(ReceiveFailedMessage)];
      } else {
        notices := ErrorNotices(failures) + [Success(SuccessMessage(formData))];
        formData := EmptyForm(today);
      }
      submission := Sent(vaccineData, result);
    }

    /**
     * `handleSubmit`: an invalid form only shows its errors and one toast; a
     * valid one is sent to the gateway's `create`, then the success toast is
     * shown and the inputs are reset, whatever `create` returned; when an
     * exception escapes `create`, only the catch block's toast is shown and
     * the inputs are kept.
     */
    method Submit(today: string, store: VaccineService.NewRecord -> VaccineService.Reply)
      returns (notices: seq<Notice>, submission: Submission)
      modifies this`errors, this`formData
      ensures old(Valid()) ==> Valid()
      ensures errors == ValidationErrors(old(formData))
      ensures errors != map[] ==>
                submission == Rejected && notices == [Error(FixErrorsMessage)] && formData == old(formData)
      ensures errors == map[] ==>
                var reply := store(SubmittedRequest(old(formData)));
                && submission.Sent? && submission.vaccineData == SubmitPayload(old(formData))
                && notices == SubmitNotices(old(formData), reply)
                && formData == if VaccineService.Escapes(reply) then old(formData) else EmptyForm(today)
      ensures vaccines == old(vaccines) && searchTerm == old(searchTerm) && selected == old(selected)
      ensures isCreateNewMode == old(isCreateNewMode) && isCreatingNew == old(isCreatingNew)
      ensures showDropdown == old(showDropdown)
    {
      var ok := ValidateForm();
      if !ok {
        notices := [Error(FixErrorsMessage)];
        submission := Rejected;
      } else {
        notices, submission := Dispatch(today, store);
      }
    }
  }

  // ---------------------------------------------------------------------------
  // Examples

  const Daptacel := CatalogEntry(1, "Daptacel SDV", "DTaP")
  const Engerix := CatalogEntry(2, "Engerix", "HepB")

  /** Searching "Daptacel" finds only the Daptacel entry. */
  lemma FilterExample()
    ensures FilterCatalog([Daptacel, Engerix], "Daptacel") == [Daptacel]
  {
    var needle := Lower("Daptacel");
    assert needle == "daptacel";
    assert Trim("Daptacel") != "" by {
      assert TrimStart("Daptacel") == "Daptacel";
    }
    assert Matches(Daptacel, needle) by {
      assert Lower("Daptacel SDV") == "daptacel sdv";
      assert OccursAt("daptacel sdv", needle, 0);
    }
    assert !Matches(Engerix, needle) by {
      assert Lower("Engerix") == "engerix";
      assert Lower("HepB") == "hepb";
    }
    assert [Daptacel, Engerix][1..] == [Engerix];
    assert [Engerix][1..] == [];
  }

  /**
   * Choosing an entry and focusing the search box again reopens the dropdown
   * over the kept selection.
   */
  method ReopenAfterSelect(today: string) returns (s: FormSession)
    ensures s.selected == Some(Daptacel) && s.showDropdown && s.Valid()
  {
    s := new FormSession([Daptacel, Engerix], today);
    s.VaccineSelect(Daptacel);
    assert Trim(SelectionLabel(Daptacel)) != "" by {
      assert SelectionLabel(Daptacel)[0] == 'D';
      assert TrimStart(SelectionLabel(Daptacel)) == SelectionLabel(Daptacel);
    }
    s.FocusSearch();
  }

  /** Typing "abc123" into the lot number stores "ABC123". */
  lemma LotNumberExample()
    ensures Upper("abc123") == "ABC123"
  {
  }
}
