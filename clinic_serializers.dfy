/**
 * The business rules that the API serializers put on top of the models
 * (backend/clients/api/serializers.py): validation, creation and balance payment of sales orders,
 * a client's outstanding balance and payment status, and an examination's client name.
 */
module ClinicSerializers {
  import opened Common
  import opened ClinicModels

  // ---------------------------------------------------------------------------------------------
  // Request data of the sales serializer
  // ---------------------------------------------------------------------------------------------

  /** The free-text columns of `Sales`. */
  datatype TextAttr =
    FrameBrand | FrameModel | FrameColor | LensBrand | LensType | LensMaterial | LensCoating
    | FittingInstructions | BookedBy | ServedBy

  /** The three status columns, which the serializer declares read-only. */
  datatype StatusAttr = AdvanceStatus | BalanceStatus | OrderPaid

  /**
   * One entry of a request body for `SalesSerializer` (`fields = '__all__'`), keyed by the column it
   * names. Quantities are already parsed into `nat`, as the field validation of a
   * `PositiveIntegerField` leaves them; amounts are in cents.
   */
  datatype SaleField =
    | ExaminationField(exam: Uuid)
    | TextField(attr: TextAttr, text: string)
    | DeliveryDateField(date: Option<Date>)
    | PaymentMethodField(payment: PaymentMethod)
    | FrameQuantityField(quantity: nat)
    | FramePriceField(price: int)
    | LensQuantityField(quantity: nat)
    | LensPriceField(price: int)
    | TotalPriceField(price: int)
    | AdvancePaymentMethodField(advanceMethod: Option<PaymentMethod>)
    | AdvancePaidField(amount: int)
    | MpesaCodeField(code: Option<string>)
    | BalanceDueField(amount: int)
    | StatusField(status: StatusAttr, value: PaymentStatus)

  /** The attribute (column) names of `Sales` that a request may mention. */
  datatype Attr =
    | ExaminationAttr | Text(text: TextAttr) | DeliveryDateAttr | PaymentMethodAttr
    | FrameQuantityAttr | FramePriceAttr | LensQuantityAttr | LensPriceAttr | TotalPriceAttr
    | AdvancePaymentMethodAttr | AdvancePaidAttr | MpesaCodeAttr | BalanceDueAttr
    | Status(status: StatusAttr)

  /** The attribute an entry sets. */
  function Key(f: SaleField): Attr {
    match f
    case ExaminationField(_) => ExaminationAttr
    case TextField(a, _) => Text(a)
    case DeliveryDateField(_) => DeliveryDateAttr
    case PaymentMethodField(_) => PaymentMethodAttr
    case FrameQuantityField(_) => FrameQuantityAttr
    case FramePriceField(_) => FramePriceAttr
    case LensQuantityField(_) => LensQuantityAttr
    case LensPriceField(_) => LensPriceAttr
    case TotalPriceField(_) => TotalPriceAttr
    case AdvancePaymentMethodField(_) => AdvancePaymentMethodAttr
    case AdvancePaidField(_) => AdvancePaidAttr
    case MpesaCodeField(_) => MpesaCodeAttr
    case BalanceDueField(_) => BalanceDueAttr
    case StatusField(s, _) => Status(s)
  }

  /** The Django name of an attribute, as it appears in error dictionaries. */
  function AttrName(a: Attr): string {
    match a
    case ExaminationAttr => "examination"
    case Text(FrameBrand) => "frame_brand"
    case Text(FrameModel) => "frame_model"
    case Text(FrameColor) => "frame_color"
    case Text(LensBrand) => "lens_brand"
    case Text(LensType) => "lens_type"
    case Text(LensMaterial) => "lens_material"
    case Text(LensCoating) => "lens_coating"
    case Text(FittingInstructions) => "fitting_instructions"
    case Text(BookedBy) => "booked_by"
    case Text(ServedBy) => "served_by"
    case DeliveryDateAttr => "delivery_date"
    case PaymentMethodAttr => "payment_method"
    case FrameQuantityAttr => "frame_quantity"
    case FramePriceAttr => "frame_price"
    case LensQuantityAttr => "lens_quantity"
    case LensPriceAttr => "lens_price"
    case TotalPriceAttr => "total_price"
    case AdvancePaymentMethodAttr => "advance_payment_method"
    case AdvancePaidAttr => "advance_paid"
    case MpesaCodeAttr => "mpesa_transaction_code"
    case BalanceDueAttr => "balance_due"
    case Status(AdvanceStatus) => "advance_payment_status"
    case Status(BalanceStatus) => "balance_payment_status"
    case Status(OrderPaid) => "order_paid"
  }

  /** `read_only_fields = ['balance_due', 'order_paid', 'advance_payment_status', 'balance_payment_status']`. */
  predicate ReadOnlyAttr(a: Attr) {
    a == BalanceDueAttr || a.Status?
  }

  predicate ReadOnly(f: SaleField) {
    ReadOnlyAttr(Key(f))
  }

  /** No two entries name the same attribute, as in a parsed dictionary. */
  predicate DistinctKeys(v: seq<SaleField>) {
    forall i, j | 0 <= i < j < |v| :: Key(v[i]) != Key(v[j])
  }

  /**
   * `validated_data`: the request parsed into a dictionary (for each name only its last entry
   * survives) with the read-only entries dropped. Keys are distinct, so the order of the entries
   * (the serializer's field order in DRF) does not matter; the model keeps the request's.
   */
  function Validated(body: seq<SaleField>): (v: seq<SaleField>)
    ensures forall f | f in v :: f in body && !ReadOnly(f)
    ensures DistinctKeys(v)
  {
    if body == [] then []
    else if ReadOnly(body[0]) || HasAttr(body[1..], Key(body[0])) then Validated(body[1..])
    else
      var rest := Validated(body[1..]);
      assert forall f | f in rest :: Key(f) != Key(body[0]);
      assert forall j | 0 <= j < |rest| :: rest[j] in rest;
      [body[0]] + rest
  }

  /** Looking a writable name up in `validated_data` finds the request's last entry for it; a
      read-only name is never found. */
  lemma {:induction false} ValidatedLookup(body: seq<SaleField>, name: Attr)
    ensures Lookup(Validated(body), name) == if ReadOnlyAttr(name) then None else Lookup(body, name)
  {
    if body != [] {
      var b, rest := body[0], body[1..];
      assert body == [b] + rest;
      LookupConcat([b], rest, name);
      assert [b][..0] == [];
      ValidatedLookup(rest, name);
      if !(ReadOnly(b) || HasAttr(rest, Key(b))) {
        LookupConcat([b], Validated(rest), name);
      }
    }
  }

  /** An entry followed by a later one for the same name has no effect on `validated_data`. */
  lemma EarlierEntryOverridden(f: SaleField, body: seq<SaleField>)
    requires HasAttr(body, Key(f))
    ensures Validated([f] + body) == Validated(body)
  {
    assert ([f] + body)[1..] == body;
  }

  /** `data.get(name)`: the value of the entry for `name`; a later entry for the same name wins. */
  function Lookup(v: seq<SaleField>, name: Attr): (r: Option<SaleField>)
    ensures r.Some? ==> r.value in v && Key(r.value) == name
    ensures r.None? <==> forall f | f in v :: Key(f) != name
  {
    if v == [] then None
    else if Key(v[|v| - 1]) == name then Some(v[|v| - 1])
    else Lookup(v[..|v| - 1], name)
  }

  function ExaminationIn(v: seq<SaleField>): Option<Uuid> {
    match Lookup(v, ExaminationAttr)
    case Some(ExaminationField(u)) => Some(u)
    case _ => None
  }

  function AdvancePaymentMethodIn(v: seq<SaleField>): Option<PaymentMethod> {
    match Lookup(v, AdvancePaymentMethodAttr)
    case Some(AdvancePaymentMethodField(m)) => m
    case _ => None
  }

  /** `validated_data.get("advance_paid", 0)`. */
  function PaymentIn(v: seq<SaleField>): int {
    match Lookup(v, AdvancePaidAttr)
    case Some(AdvancePaidField(a)) => a
    case _ => 0
  }

  /** `data.get("mpesa_transaction_code")` is truthy: present, not null and not empty. */
  predicate HasMpesaCode(v: seq<SaleField>) {
    match Lookup(v, MpesaCodeAttr)
    case Some(MpesaCodeField(Some(c))) => c != ""
    case _ => false
  }

  // ---------------------------------------------------------------------------------------------
  // Validation
  // ---------------------------------------------------------------------------------------------

  function TextMaxLength(a: TextAttr): Option<nat> {
    match a
    case FrameColor => Some(50)
    case FittingInstructions => None
    case _ => Some(100)
  }

  /** Field-level validation of one entry: the examination key resolves, required text is not
      blank, text, quantities and decimals fit their columns. */
  predicate FieldValid(f: SaleField, examIds: set<Uuid>) {
    match f
    case ExaminationField(u) => u in examIds
    case TextField(a, t) =>
      (a != FittingInstructions ==> t != "")
      && (TextMaxLength(a).Some? ==> |t| <= TextMaxLength(a).value)
    case FrameQuantityField(q) => q <= MaxPositiveInteger
    case FramePriceField(p) => DecimalFits(p)
    case LensQuantityField(q) => q <= MaxPositiveInteger
    case LensPriceField(p) => DecimalFits(p)
    case TotalPriceField(p) => DecimalFits(p)
    case AdvancePaidField(a) => DecimalFits(a)
    case MpesaCodeField(c) => c.Some? ==> |c.value| <= 20
    case _ => true
  }

  /** The columns a new order must be given: those without a default that may not be blank. */
  const RequiredOnCreate: set<Attr> :=
    {ExaminationAttr, Text(FrameBrand), Text(FrameModel), Text(FrameColor), Text(LensBrand),
     Text(LensType), Text(LensMaterial), Text(LensCoating), Text(BookedBy), Text(ServedBy)}

  predicate HasAttr(v: seq<SaleField>, name: Attr) {
    Lookup(v, name).Some?
  }

  /** The keys of the serializer's error dictionary after field validation. */
  function FieldErrors(v: seq<SaleField>, examIds: set<Uuid>, creating: bool): (errs: set<Attr>)
    ensures errs == {} <==>
      (forall f | f in v :: FieldValid(f, examIds))
      && (creating ==> forall n | n in RequiredOnCreate :: HasAttr(v, n))
  {
    var invalid := set f | f in v && !FieldValid(f, examIds) :: Key(f);
    var missing := if creating then set n | n in RequiredOnCreate && !HasAttr(v, n) else {};
    assert forall f | f in v && !FieldValid(f, examIds) :: Key(f) in invalid;
    assert creating ==> forall n | n in RequiredOnCreate && !HasAttr(v, n) :: n in missing;
    invalid + missing
  }

  datatype SaleError =
    | InvalidFields(fields: set<Attr>)
    | MpesaCodeRequired
    | ExaminationRequired
    | SaleExists
    | AlreadyFullyPaid
    | ExceedsBalance(balanceDue: int)
      // `super().save()` raised `InvalidOperation` on a decimal wider than its column; the view
      // answers 500
    | DecimalOverflow

  /** The keys under which each rejection is reported. */
  function ErrorKeys(e: SaleError): set<string> {
    match e
    case InvalidFields(fs) => set a | a in fs :: AttrName(a)
    case MpesaCodeRequired => {"mpesa_transaction_code"}
    case ExaminationRequired => {"examination"}
    case SaleExists => {"examination"}
    case AlreadyFullyPaid => {"error"}
    case ExceedsBalance(_) => {"error"}
    case DecimalOverflow => {}
  }

  /** `SalesSerializer.validate`: the M-Pesa rule, then on creation the examination rules. */
  function Validate(v: seq<SaleField>, creating: bool, examsWithSale: set<Uuid>): (o: Outcome<SaleError>)
    ensures AdvancePaymentMethodIn(v) == Some(Mpesa) && !HasMpesaCode(v) ==> o == Fail(MpesaCodeRequired)
    ensures o.Fail? ==> "mpesa_transaction_code" in ErrorKeys(o.error) || "examination" in ErrorKeys(o.error)
    ensures o == Pass <==>
      (AdvancePaymentMethodIn(v) == Some(Mpesa) ==> HasMpesaCode(v))
      && (creating ==> ExaminationIn(v).Some? && ExaminationIn(v).value !in examsWithSale)
  {
    if AdvancePaymentMethodIn(v) == Some(Mpesa) && !HasMpesaCode(v) then Fail(MpesaCodeRequired)
    else if creating then
      match ExaminationIn(v)
      case None => Fail(ExaminationRequired)
      case Some(e) => if e in examsWithSale then Fail(SaleExists) else Pass
    else Pass
  }

  /** The verdict on a create request: field validation, then `validate`. */
  function CreateCheck(body: seq<SaleField>, examIds: set<Uuid>, examsWithSale: set<Uuid>): (o: Outcome<SaleError>)
    ensures o == Pass ==>
      var v := Validated(body);
      && ExaminationIn(v).Some? && ExaminationIn(v).value in examIds
      && ExaminationIn(v).value !in examsWithSale
      && (AdvancePaymentMethodIn(v) == Some(Mpesa) ==> HasMpesaCode(v))
  {
    var v := Validated(body);
    var errs := FieldErrors(v, examIds, true);
    if errs != {} then Fail(InvalidFields(errs))
    else
      FieldValidExamination(v, examIds);
      Validate(v, true, examsWithSale)
  }

  /** Data without field errors on creation names an examination that exists. */
  lemma FieldValidExamination(v: seq<SaleField>, examIds: set<Uuid>)
    requires FieldErrors(v, examIds, true) == {}
    ensures ExaminationIn(v).Some? && ExaminationIn(v).value in examIds
  {
    assert ExaminationAttr in RequiredOnCreate;
    var f := Lookup(v, ExaminationAttr).value;
    assert f in v && Key(f) == ExaminationAttr;
    assert FieldValid(f, examIds);
  }

  /** Data whose entries all pass field validation names, if any, an examination that exists. */
  lemma ValidExaminationKnown(v: seq<SaleField>, examIds: set<Uuid>)
    requires forall f | f in v :: FieldValid(f, examIds)
    ensures ExaminationIn(v).Some? ==> ExaminationIn(v).value in examIds
  {
    if ExaminationIn(v).Some? {
      var f := Lookup(v, ExaminationAttr).value;
      assert f in v;
    }
  }

  /** The verdict on a payment (update) request for a sale whose stored row is `row`:
      field validation, `validate`, then the two balance rules of `update`. */
  function UpdateCheck(row: SaleRow, body: seq<SaleField>, examIds: set<Uuid>): (o: Outcome<SaleError>)
    ensures row.balanceDue == 0 ==> o.Fail?
    ensures o == Pass ==> PaymentIn(Validated(body)) <= row.balanceDue
    ensures o == Pass ==> AdvancePaymentMethodIn(Validated(body)) == Some(Mpesa) ==> HasMpesaCode(Validated(body))
    ensures FieldErrors(Validated(body), examIds, false) == {} && Validate(Validated(body), false, {}) == Pass
            && row.balanceDue != 0 && PaymentIn(Validated(body)) > row.balanceDue
            ==> o == Fail(ExceedsBalance(row.balanceDue))
    ensures FieldErrors(Validated(body), examIds, false) == {} && Validate(Validated(body), false, {}) == Pass
            && row.balanceDue != 0 && PaymentIn(Validated(body)) <= row.balanceDue
            ==> o == Pass
  {
    var v := Validated(body);
    var errs := FieldErrors(v, examIds, false);
    if errs != {} then Fail(InvalidFields(errs))
    else match Validate(v, false, {})
      case Fail(e) => Fail(e)
      case Pass =>
        if row.balanceDue == 0 then Fail(AlreadyFullyPaid)
        else if PaymentIn(v) > row.balanceDue then Fail(ExceedsBalance(row.balanceDue))
        else Pass
  }

  // ---------------------------------------------------------------------------------------------
  // Assigning validated data to a row
  // ---------------------------------------------------------------------------------------------

  function SetText(t: SaleText, a: TextAttr, s: string): SaleText {
    match a
    case FrameBrand => t.(frameBrand := s)
    case FrameModel => t.(frameModel := s)
    case FrameColor => t.(frameColor := s)
    case LensBrand => t.(lensBrand := s)
    case LensType => t.(lensType := s)
    case LensMaterial => t.(lensMaterial := s)
    case LensCoating => t.(lensCoating := s)
    case FittingInstructions => t.(fittingInstructions := s)
    case BookedBy => t.(bookedBy := s)
    case ServedBy => t.(servedBy := s)
  }

  /** `setattr(instance, attr, value)` for one writable entry. */
  function SetAttr(r: SaleRow, f: SaleField): SaleRow
    requires !ReadOnly(f)
  {
    match f
    case ExaminationField(u) => r.(examination := u)
    case TextField(a, t) => r.(text := SetText(r.text, a, t))
    case DeliveryDateField(d) => r.(deliveryDate := d)
    case PaymentMethodField(m) => r.(paymentMethod := m)
    case FrameQuantityField(q) => r.(frameQuantity := q)
    case FramePriceField(p) => r.(framePrice := p)
    case LensQuantityField(q) => r.(lensQuantity := q)
    case LensPriceField(p) => r.(lensPrice := p)
    case TotalPriceField(p) => r.(totalPrice := p)
    case AdvancePaymentMethodField(m) => r.(advancePaymentMethod := m)
    case AdvancePaidField(a) => r.(advancePaid := a)
    case MpesaCodeField(c) => r.(mpesaTransactionCode := c)
  }

  /** One step of assignment; the update loop skips `advance_paid`. */
  function Assign(r: SaleRow, f: SaleField, skipAdvance: bool): SaleRow
    requires !ReadOnly(f)
  {
    if skipAdvance && Key(f) == AdvancePaidAttr then r else SetAttr(r, f)
  }

  /** Every entry of `v` assigned to `r` in order. */
  function Assigned(r: SaleRow, v: seq<SaleField>, skipAdvance: bool): SaleRow
    requires forall f | f in v :: !ReadOnly(f)
  {
    if v == [] then r
    else Assign(Assigned(r, v[..|v| - 1], skipAdvance), v[|v| - 1], skipAdvance)
  }

  /** The row `Sales.objects.create(**validated_data)` writes (it saves), before `create` saves again. */
  function NewRow(body: seq<SaleField>): SaleRow {
    var v := Validated(body);
    Assigned(DefaultSaleRow(ExaminationIn(v).GetOr("")), v, false)
  }

  /** The row `create` leaves in the table: `NewRow` saved twice. */
  function CreatedRow(body: seq<SaleField>): SaleRow {
    Reconcile(Reconcile(NewRow(body)))
  }

  /** Lines 88-97 of `update`: add the payment and write the provisional clamp and statuses. */
  function Pay(r: SaleRow, amount: int): (p: SaleRow)
    ensures amount <= 0 ==> p == r
    ensures p.(advancePaid := r.advancePaid, balanceDue := r.balanceDue,
               balancePaymentStatus := r.balancePaymentStatus, orderPaid := r.orderPaid) == r
    ensures amount > 0 ==>
      && p.advancePaid == r.advancePaid + amount
      && p.balanceDue == (if r.balanceDue - amount <= 0 then 0 else r.balanceDue - amount)
      && (p.orderPaid == Paid <==> r.balanceDue <= amount)
      && p.balancePaymentStatus == p.orderPaid
  {
    if amount > 0 then
      var paid := r.(advancePaid := r.advancePaid + amount, balanceDue := r.balanceDue - amount);
      if paid.balanceDue <= 0 then paid.(balanceDue := 0, balancePaymentStatus := Paid, orderPaid := Paid)
      else paid.(balancePaymentStatus := PartiallyPaid, orderPaid := PartiallyPaid)
    else r
  }

  /** The row an accepted `update` leaves in the table: payment, the other entries, then `save()`. */
  function UpdateResult(row: SaleRow, body: seq<SaleField>): SaleRow {
    var v := Validated(body);
    Reconcile(Assigned(Pay(row, PaymentIn(v)), v, true))
  }

  // ---------------------------------------------------------------------------------------------
  // Properties of assignment, creation and payment
  // ---------------------------------------------------------------------------------------------

  /** Assignment keeps the "same entries" relation between two rows. */
  lemma {:induction false} AssignedRespectsEntries(r: SaleRow, s: SaleRow, v: seq<SaleField>, skip: bool)
    requires forall f | f in v :: !ReadOnly(f)
    requires SameEntries(r, s)
    ensures SameEntries(Assigned(r, v, skip), Assigned(s, v, skip))
  {
    if v != [] {
      AssignedRespectsEntries(r, s, v[..|v| - 1], skip);
      AssignRespectsEntries(Assigned(r, v[..|v| - 1], skip), Assigned(s, v[..|v| - 1], skip), v[|v| - 1], skip);
    }
  }

  lemma AssignRespectsEntries(r: SaleRow, s: SaleRow, f: SaleField, skip: bool)
    requires !ReadOnly(f) && SameEntries(r, s)
    ensures SameEntries(Assign(r, f, skip), Assign(s, f, skip))
  {
  }

  /** The update loop never assigns `advance_paid`. */
  lemma {:induction false} AssignedSkippingKeepsAdvance(r: SaleRow, v: seq<SaleField>)
    requires forall f | f in v :: !ReadOnly(f)
    ensures Assigned(r, v, true).advancePaid == r.advancePaid
  {
    if v != [] {
      AssignedSkippingKeepsAdvance(r, v[..|v| - 1]);
    }
  }

  /** Creation sets the foreign key to the examination given in the request. */
  lemma {:induction false} AssignedExamination(r: SaleRow, v: seq<SaleField>, skip: bool)
    requires forall f | f in v :: !ReadOnly(f)
    ensures Assigned(r, v, skip).examination == ExaminationIn(v).GetOr(r.examination)
  {
    if v != [] {
      AssignedExamination(r, v[..|v| - 1], skip);
      var f := v[|v| - 1];
      if Key(f) != ExaminationAttr {
        assert Lookup(v, ExaminationAttr) == Lookup(v[..|v| - 1], ExaminationAttr);
      }
    }
  }

  /** Creation takes `advance_paid` from the request (default 0). */
  lemma {:induction false} AssignedAdvance(r: SaleRow, v: seq<SaleField>)
    requires forall f | f in v :: !ReadOnly(f)
    ensures Assigned(r, v, false).advancePaid == (if HasAttr(v, AdvancePaidAttr) then PaymentIn(v) else r.advancePaid)
  {
    if v != [] {
      AssignedAdvance(r, v[..|v| - 1]);
      var f := v[|v| - 1];
      if Key(f) != AdvancePaidAttr {
        assert Lookup(v, AdvancePaidAttr) == Lookup(v[..|v| - 1], AdvancePaidAttr);
      }
    }
  }

  /** The entries that change a line item's price or quantity. */
  predicate ChangesLineItems(f: SaleField) {
    f.FrameQuantityField? || f.FramePriceField? || f.LensQuantityField? || f.LensPriceField?
  }

  /** Assignment without price or quantity entries keeps the total `save` will compute. */
  lemma {:induction false} AssignedKeepsLineItems(r: SaleRow, v: seq<SaleField>, skip: bool)
    requires forall f | f in v :: !ReadOnly(f) && !ChangesLineItems(f)
    ensures var s := Assigned(r, v, skip);
      s.framePrice == r.framePrice && s.frameQuantity == r.frameQuantity
      && s.lensPrice == r.lensPrice && s.lensQuantity == r.lensQuantity
  {
    if v != [] {
      assert v[|v| - 1] in v;
      AssignedKeepsLineItems(r, v[..|v| - 1], skip);
    }
  }

  /** A created order is reconciled and carries the request's examination and advance. */
  lemma CreatedRowFacts(body: seq<SaleField>)
    ensures Reconciled(CreatedRow(body))
    ensures CreatedRow(body) == Reconcile(NewRow(body))
    ensures ExaminationIn(Validated(body)).Some? ==>
      CreatedRow(body).examination == ExaminationIn(Validated(body)).value
    ensures CreatedRow(body).advancePaid == PaymentIn(Validated(body))
  {
    var v := Validated(body);
    SaveIdempotent(NewRow(body));
    AssignedExamination(DefaultSaleRow(ExaminationIn(v).GetOr("")), v, false);
    AssignedAdvance(DefaultSaleRow(ExaminationIn(v).GetOr("")), v);
  }

  /** A second order for an examination that already has one is always rejected. */
  lemma SecondSaleRejected(body: seq<SaleField>, examIds: set<Uuid>, examsWithSale: set<Uuid>)
    requires ExaminationIn(Validated(body)).Some? && ExaminationIn(Validated(body)).value in examsWithSale
    ensures CreateCheck(body, examIds, examsWithSale).Fail?
  {
  }

  /** An accepted payment raises `advance_paid` by exactly the amount when it is positive and leaves
      it alone otherwise; an `advance_paid` entry is never assigned over the stored value. */
  lemma UpdateAddsPayment(row: SaleRow, body: seq<SaleField>)
    ensures var a := PaymentIn(Validated(body));
      UpdateResult(row, body).advancePaid == row.advancePaid + (if a > 0 then a else 0)
  {
    var v := Validated(body);
    AssignedSkippingKeepsAdvance(Pay(row, PaymentIn(v)), v);
  }

  /** The clamp and statuses that `update` writes before `save()` have no effect on the result:
      the final row is the payment added to `advance_paid`, the entries assigned, and `save`. */
  lemma UpdateClampOverwritten(row: SaleRow, body: seq<SaleField>)
    ensures var v := Validated(body);
      var a := PaymentIn(v);
      UpdateResult(row, body) == Reconcile(Assigned(Credited(row, a), v, true))
  {
    var v := Validated(body);
    assert UpdateResult(row, body) == Reconcile(Assigned(Pay(row, PaymentIn(v)), v, true));
    ClampIrrelevant(row, v, PaymentIn(v));
  }

  lemma ClampIrrelevant(row: SaleRow, v: seq<SaleField>, a: int)
    requires forall f | f in v :: !ReadOnly(f)
    ensures Reconcile(Assigned(Pay(row, a), v, true)) == Reconcile(Assigned(Credited(row, a), v, true))
  {
    var plain := Credited(row, a);
    PayKeepsEntries(row, a);
    AssignedRespectsEntries(Pay(row, a), plain, v, true);
    ReconcileDependsOnEntriesOnly(Assigned(Pay(row, a), v, true), Assigned(plain, v, true));
  }

  /** A payment changes no entry but `advance_paid`, which it raises by a positive amount. */
  lemma PayKeepsEntries(row: SaleRow, a: int)
    ensures SameEntries(Pay(row, a), Credited(row, a))
  {
  }

  /** `row` with a positive amount added to `advance_paid` and nothing else changed. */
  function Credited(row: SaleRow, a: int): SaleRow {
    row.(advancePaid := row.advancePaid + (if a > 0 then a else 0))
  }

  /** After an accepted update the balance and the statuses are the ones `save` derives. */
  lemma UpdateIsReconciled(row: SaleRow, body: seq<SaleField>)
    ensures Reconciled(UpdateResult(row, body))
    ensures UpdateResult(row, body).balanceDue
            == UpdateResult(row, body).totalPrice - UpdateResult(row, body).advancePaid
  {
  }

  /** A partial payment against an order whose line items are untouched lowers the balance by the
      amount; the balance status ends "Pending" (not "Partially Paid"), the other two
      "Partially Paid". */
  lemma PartialPayment(row: SaleRow, body: seq<SaleField>)
    requires Reconciled(row) && row.advancePaid >= 0
    requires forall f | f in Validated(body) :: !ChangesLineItems(f)
    requires 0 < PaymentIn(Validated(body)) < row.balanceDue
    ensures var s := UpdateResult(row, body);
      && s.advancePaid == row.advancePaid + PaymentIn(Validated(body))
      && s.balanceDue == row.balanceDue - PaymentIn(Validated(body))
      && s.balancePaymentStatus == PaymentStatus.Pending
      && s.advancePaymentStatus == PartiallyPaid && s.orderPaid == PartiallyPaid
  {
    var v := Validated(body);
    var a := PaymentIn(v);
    SettledBalance(row, body);
    var s := UpdateResult(row, body);
    assert s.balanceDue == row.balanceDue - a;
    assert s.advancePaid == row.advancePaid + a;
    assert Statuses(s.advancePaymentStatus, s.balancePaymentStatus, s.orderPaid)
           == StatusesFor(s.balanceDue, s.advancePaid);
  }

  /** With line items untouched, an accepted payment of `a` moves `a` from the balance to the
      amount paid. */
  lemma SettledBalance(row: SaleRow, body: seq<SaleField>)
    requires Reconciled(row)
    requires forall f | f in Validated(body) :: !ChangesLineItems(f)
    requires PaymentIn(Validated(body)) > 0
    ensures UpdateResult(row, body).advancePaid == row.advancePaid + PaymentIn(Validated(body))
    ensures UpdateResult(row, body).balanceDue == row.balanceDue - PaymentIn(Validated(body))
  {
    var v := Validated(body);
    var a := PaymentIn(v);
    var p := Pay(row, a);
    assert p.advancePaid == row.advancePaid + a;
    assert p.framePrice == row.framePrice && p.frameQuantity == row.frameQuantity;
    assert p.lensPrice == row.lensPrice && p.lensQuantity == row.lensQuantity;
    var q := Assigned(p, v, true);
    AssignedSkippingKeepsAdvance(p, v);
    AssignedKeepsLineItems(p, v, true);
    assert q.advancePaid == p.advancePaid;
    var s := Reconcile(q);
    assert s.totalPrice == TotalPrice(q.framePrice, q.frameQuantity, q.lensPrice, q.lensQuantity);
    assert TotalPrice(q.framePrice, q.frameQuantity, q.lensPrice, q.lensQuantity) == row.totalPrice;
    assert s.balanceDue == row.totalPrice - (row.advancePaid + a);
  }

  /** Paying exactly the balance of an order with untouched line items settles it: balance 0, all
      three statuses "Paid", and every later payment request is rejected. */
  lemma FullPayment(row: SaleRow, body: seq<SaleField>, later: seq<SaleField>, examIds: set<Uuid>)
    requires Reconciled(row)
    requires forall f | f in Validated(body) :: !ChangesLineItems(f)
    requires 0 < PaymentIn(Validated(body)) == row.balanceDue
    ensures var s := UpdateResult(row, body);
      && s.balanceDue == 0
      && s.advancePaymentStatus == s.balancePaymentStatus == s.orderPaid == Paid
      && UpdateCheck(s, later, examIds).Fail?
  {
    var v := Validated(body);
    SettledBalance(row, body);
    var s := UpdateResult(row, body);
    assert s.balanceDue == 0;
    assert Statuses(s.advancePaymentStatus, s.balancePaymentStatus, s.orderPaid)
           == StatusesFor(s.balanceDue, s.advancePaid);
  }

  /** Neither the "required" nor the "already exists" rule runs on update: an accepted update may
      move an order to any examination, including one that already has an order. */
  lemma UpdateMayMoveSale(row: SaleRow, exam: Uuid, examIds: set<Uuid>)
    requires exam in examIds && row.balanceDue > 0
    ensures UpdateCheck(row, [ExaminationField(exam)], examIds) == Pass
    ensures UpdateResult(row, [ExaminationField(exam)]).examination == exam
  {
    var v := [ExaminationField(exam)];
    assert Validated(v) == v;
    assert FieldErrors(v, examIds, false) == {};
  }

  /** Assigning entries that passed field validation keeps the prices and the amount paid within
      their columns. */
  lemma {:induction false} AssignedFits(r: SaleRow, v: seq<SaleField>, examIds: set<Uuid>, skip: bool)
    requires forall f | f in v :: !ReadOnly(f) && FieldValid(f, examIds)
    requires DecimalFits(r.framePrice) && DecimalFits(r.lensPrice) && DecimalFits(r.advancePaid)
    ensures var s := Assigned(r, v, skip);
      DecimalFits(s.framePrice) && DecimalFits(s.lensPrice) && DecimalFits(s.advancePaid)
  {
    if v != [] {
      assert v[|v| - 1] in v;
      AssignedFits(r, v[..|v| - 1], examIds, skip);
    }
  }

  /** Field validation bounds the prices and the amount paid, so a valid order fails to save
      exactly when its total or its balance needs more than ten digits. */
  lemma CreatedStorable(body: seq<SaleField>, examIds: set<Uuid>)
    requires FieldErrors(Validated(body), examIds, true) == {}
    ensures Storable(CreatedRow(body)) <==>
      DecimalFits(CreatedRow(body).totalPrice) && DecimalFits(CreatedRow(body).balanceDue)
  {
    var v := Validated(body);
    AssignedFits(DefaultSaleRow(ExaminationIn(v).GetOr("")), v, examIds, false);
    CreatedRowFacts(body);
  }

  /** An accepted payment that touches no line item always saves: the total stays, and the amount
      paid and the balance stay between their stored values and the total. */
  lemma PaymentStaysStorable(row: SaleRow, body: seq<SaleField>, examIds: set<Uuid>)
    requires Reconciled(row) && Storable(row)
    requires UpdateCheck(row, body, examIds) == Pass
    requires forall f | f in Validated(body) :: !ChangesLineItems(f)
    ensures Storable(UpdateResult(row, body))
  {
    var v := Validated(body);
    var a := PaymentIn(v);
    var p := Pay(row, a);
    AssignedKeepsLineItems(p, v, true);
    AssignedSkippingKeepsAdvance(p, v);
    var s := UpdateResult(row, body);
    assert s.totalPrice == row.totalPrice;
    if a > 0 {
      SettledBalance(row, body);
    }
  }

  /** An update that validation accepts and the table refuses: frame 99,999,999.99 x2 and lens
      50.00 x1 make a total of eleven digits. */
  lemma ScenarioWideUpdate(row: SaleRow, examIds: set<Uuid>)
    requires row.balanceDue > 0
    ensures UpdateCheck(row, OrderItems(MaxCents - 1), examIds) == Pass
    ensures UpdateResult(row, OrderItems(MaxCents - 1)).totalPrice >= MaxCents
    ensures !Storable(UpdateResult(row, OrderItems(MaxCents - 1)))
  {
    var w := OrderItems(MaxCents - 1);
    WideItemsAccepted(row, examIds);
    assert Pay(row, 0) == row;
    ItemsAssigned(row, MaxCents - 1, true);
  }

  lemma WideItemsAccepted(row: SaleRow, examIds: set<Uuid>)
    requires row.balanceDue > 0
    ensures Validated(OrderItems(MaxCents - 1)) == OrderItems(MaxCents - 1)
    ensures PaymentIn(OrderItems(MaxCents - 1)) == 0
    ensures UpdateCheck(row, OrderItems(MaxCents - 1), examIds) == Pass
  {
    var w := OrderItems(MaxCents - 1);
    assert Validated(w) == w by {
      OrderItemsDistinct(MaxCents - 1);
      ValidatedWritable(w);
    }
    ItemsValid(examIds, MaxCents - 1);
    assert PaymentIn(w) == 0 && AdvancePaymentMethodIn(w) == None by {
      NoPayment(w);
    }
    assert FieldErrors(w, examIds, false) == {};
    assert Validate(w, false, {}) == Pass;
  }

  /** A body without read-only entries or repeated names is its own `validated_data`. */
  lemma {:induction false} ValidatedWritable(body: seq<SaleField>)
    requires forall f | f in body :: !ReadOnly(f)
    requires DistinctKeys(body)
    ensures Validated(body) == body
  {
    if body != [] {
      var rest := body[1..];
      assert body[0] in body;
      forall f | f in rest
        ensures Key(f) != Key(body[0])
      {
        var j :| 0 <= j < |rest| && rest[j] == f;
        assert body[j + 1] == f;
      }
      assert DistinctKeys(rest) by {
        forall i, j | 0 <= i < j < |rest|
          ensures Key(rest[i]) != Key(rest[j])
        {
          assert rest[i] == body[i + 1] && rest[j] == body[j + 1];
        }
      }
      ValidatedWritable(rest);
      assert [body[0]] + rest == body;
    }
  }

  /** Two bodies with distinct names and no name in common concatenate to one with distinct names. */
  lemma DistinctKeysConcat(v: seq<SaleField>, w: seq<SaleField>)
    requires DistinctKeys(v) && DistinctKeys(w)
    requires forall f, g | f in v && g in w :: Key(f) != Key(g)
    ensures DistinctKeys(v + w)
  {
    var u := v + w;
    forall i, j | 0 <= i < j < |u|
      ensures Key(u[i]) != Key(u[j])
    {
      if j < |v| {
        assert u[i] == v[i] && u[j] == v[j];
      } else if i >= |v| {
        assert u[i] == w[i - |v|] && u[j] == w[j - |v|];
      } else {
        assert u[i] == v[i] && u[j] == w[j - |v|];
        assert v[i] in v && w[j - |v|] in w;
      }
    }
  }

  /** In `v + w` an entry of `w` hides the entries of `v` for the same name. */
  lemma {:induction false} LookupConcat(v: seq<SaleField>, w: seq<SaleField>, name: Attr)
    ensures Lookup(v + w, name) == if Lookup(w, name).Some? then Lookup(w, name) else Lookup(v, name)
  {
    if w == [] {
      assert v + w == v;
    } else {
      var w' := w[..|w| - 1];
      assert (v + w)[..|v + w| - 1] == v + w';
      assert (v + w)[|v + w| - 1] == w[|w| - 1];
      LookupConcat(v, w', name);
    }
  }

  /** Assigning `v + w` is assigning `v`, then `w`. */
  lemma {:induction false} AssignedConcat(r: SaleRow, v: seq<SaleField>, w: seq<SaleField>, skip: bool)
    requires forall f | f in v + w :: !ReadOnly(f)
    ensures Assigned(r, v + w, skip) == Assigned(Assigned(r, v, skip), w, skip)
  {
    if w == [] {
      assert v + w == v;
    } else {
      var w' := w[..|w| - 1];
      assert (v + w)[..|v + w| - 1] == v + w';
      assert (v + w)[|v + w| - 1] == w[|w| - 1];
      AssignedConcat(r, v, w', skip);
    }
  }

  /** The worked example, acceptance: the order passes field validation and `validate`, for any
      frame price that fits its column. */
  lemma ScenarioOrderAccepted(e: Uuid, fp: int)
    requires DecimalFits(fp)
    ensures CreateCheck(OrderRequest(e, fp), {e}, {}) == Pass
  {
    OrderRequestValid(e, fp);
  }

  /** The worked example, creation: frame 100.00 x2 and lens 50.00 x1 with nothing paid gives total
      250.00, balance 250.00 and all three statuses "Pending". */
  lemma ScenarioOrderCreated(e: Uuid)
    ensures var created := CreatedRow(OrderRequest(e, 10000));
      && Reconciled(created) && created.examination == e
      && created.totalPrice == 25000 && created.advancePaid == 0 && created.balanceDue == 25000
      && created.advancePaymentStatus == created.balancePaymentStatus == created.orderPaid
         == PaymentStatus.Pending
  {
    OrderRequestValid(e, 10000);
    OrderLineItems(e, 10000);
    CreatedTotals(e, OrderRequest(e, 10000));
  }

  /** A valid order the table cannot hold: frame 99,999,999.99 x2 passes every check of the
      serializer, but the saved total needs eleven digits, so the write fails. */
  lemma ScenarioWideOrder(e: Uuid)
    ensures CreateCheck(OrderRequest(e, MaxCents - 1), {e}, {}) == Pass
    ensures CreatedRow(OrderRequest(e, MaxCents - 1)).totalPrice >= MaxCents
    ensures !Storable(CreatedRow(OrderRequest(e, MaxCents - 1)))
  {
    var body := OrderRequest(e, MaxCents - 1);
    OrderRequestValid(e, MaxCents - 1);
    OrderLineItems(e, MaxCents - 1);
    CreatedRowFacts(body);
  }

  /** An order with these line items and nothing paid is created with these totals. */
  lemma CreatedTotals(e: Uuid, body: seq<SaleField>)
    requires var n := NewRow(body);
      n.framePrice == 10000 && n.frameQuantity == 2 && n.lensPrice == 5000 && n.lensQuantity == 1
    requires PaymentIn(Validated(body)) == 0 && ExaminationIn(Validated(body)) == Some(e)
    ensures var created := CreatedRow(body);
      && Reconciled(created) && created.examination == e
      && created.totalPrice == 25000 && created.advancePaid == 0 && created.balanceDue == 25000
      && created.advancePaymentStatus == created.balancePaymentStatus == created.orderPaid
         == PaymentStatus.Pending
  {
    CreatedRowFacts(body);
    var c := CreatedRow(body);
    assert c == Reconcile(NewRow(body));
    assert c.totalPrice == 25000;
    StatusRules(c);
  }

  /** The example order is its own validated data and passes field validation. Each fact is
      proved on its own, which keeps each proof over the 14-entry request small. */
  lemma OrderRequestValid(e: Uuid, fp: int)
    requires DecimalFits(fp)
    ensures Validated(OrderRequest(e, fp)) == OrderRequest(e, fp)
    ensures FieldErrors(OrderRequest(e, fp), {e}, true) == {}
    ensures ExaminationIn(OrderRequest(e, fp)) == Some(e)
    ensures PaymentIn(OrderRequest(e, fp)) == 0 && AdvancePaymentMethodIn(OrderRequest(e, fp)) == None
  {
    assert Validated(OrderRequest(e, fp)) == OrderRequest(e, fp) by {
      OrderDistinctKeys(e, fp);
      ValidatedWritable(OrderRequest(e, fp));
    }
    assert FieldErrors(OrderRequest(e, fp), {e}, true) == {} by {
      OrderNoFieldErrors(e, fp);
    }
    OrderExamination(e, fp);
    OrderNoPayment(e, fp);
  }

  /** The example order names each attribute once. */
  lemma OrderDistinctKeys(e: Uuid, fp: int)
    ensures DistinctKeys(OrderRequest(e, fp))
  {
    var texts, items := OrderTexts(), OrderItems(fp);
    OrderTextsDistinct();
    OrderItemsDistinct(fp);
    assert forall f | f in [ExaminationField(e)] :: Key(f) == ExaminationAttr;
    DistinctKeysConcat([ExaminationField(e)], texts);
    DistinctKeysConcat(OrderHeader(e), items);
  }

  lemma OrderTextsDistinct()
    ensures DistinctKeys(OrderTexts())
    ensures forall g | g in OrderTexts() :: Key(g).Text?
  {
    var texts := OrderTexts();
    forall i, j | 0 <= i < j < |texts|
      ensures Key(texts[i]) != Key(texts[j])
    {
      assert texts[i].attr != texts[j].attr;
    }
  }

  lemma OrderItemsDistinct(fp: int)
    ensures DistinctKeys(OrderItems(fp))
    ensures forall g | g in OrderItems(fp) :: !Key(g).Text? && Key(g) != ExaminationAttr
  {
  }

  lemma OrderNoFieldErrors(e: Uuid, fp: int)
    requires DecimalFits(fp)
    ensures FieldErrors(OrderRequest(e, fp), {e}, true) == {}
  {
    OrderFieldsValid(e, fp);
    OrderHasRequired(e, fp);
  }

  lemma OrderNoPayment(e: Uuid, fp: int)
    ensures PaymentIn(OrderRequest(e, fp)) == 0 && AdvancePaymentMethodIn(OrderRequest(e, fp)) == None
  {
    OrderKinds(e, fp);
    NoPayment(OrderRequest(e, fp));
  }

  /** A body of only examination, text and line-item entries carries no payment. */
  lemma NoPayment(v: seq<SaleField>)
    requires forall f | f in v :: f.ExaminationField? || f.TextField? || ChangesLineItems(f)
    ensures PaymentIn(v) == 0 && AdvancePaymentMethodIn(v) == None
  {
    assert Lookup(v, AdvancePaidAttr) == None;
    assert Lookup(v, AdvancePaymentMethodAttr) == None;
  }

  /** A body that starts with an examination and has no other examination entry names it. */
  lemma LeadingExamination(e: Uuid, rest: seq<SaleField>)
    requires forall f | f in rest :: f.TextField? || ChangesLineItems(f)
    ensures ExaminationIn([ExaminationField(e)] + rest) == Some(e)
  {
    var head := [ExaminationField(e)];
    assert Lookup(rest, ExaminationAttr) == None;
    LookupConcat(head, rest, ExaminationAttr);
    assert head[..0] == [];
    assert Lookup(head, ExaminationAttr) == Some(ExaminationField(e));
    assert Lookup(head + rest, ExaminationAttr) == Some(ExaminationField(e));
  }

  lemma OrderFieldsValid(e: Uuid, fp: int)
    requires DecimalFits(fp)
    ensures forall f | f in OrderRequest(e, fp) :: FieldValid(f, {e})
  {
    TextsValid(e);
    ItemsValid({e}, fp);
    forall f | f in OrderRequest(e, fp)
      ensures FieldValid(f, {e})
    {
      assert f == ExaminationField(e) || f in OrderTexts() || f in OrderItems(fp);
    }
  }

  lemma TextsValid(e: Uuid)
    ensures forall f | f in OrderTexts() :: FieldValid(f, {e})
  {
    forall f | f in OrderTexts()
      ensures FieldValid(f, {e})
    {
      assert f.TextField? && 0 < |f.text| <= 50;
      ShortTextValid(f.attr, f.text, {e});
    }
  }

  /** Any non-blank text of at most 50 characters fits every text column. */
  lemma ShortTextValid(a: TextAttr, t: string, ids: set<Uuid>)
    requires 0 < |t| <= 50
    ensures FieldValid(TextField(a, t), ids)
  {
  }

  lemma ItemsValid(examIds: set<Uuid>, fp: int)
    requires DecimalFits(fp)
    ensures forall f | f in OrderItems(fp) :: FieldValid(f, examIds) && ChangesLineItems(f)
  {
  }

  /** The example order holds the examination, text columns and line items, and nothing else. */
  lemma OrderKinds(e: Uuid, fp: int)
    ensures forall f | f in OrderTexts() + OrderItems(fp) :: f.TextField? || ChangesLineItems(f)
    ensures forall f | f in OrderRequest(e, fp) :: f.ExaminationField? || f.TextField? || ChangesLineItems(f)
  {
    assert forall f | f in OrderItems(fp) :: ChangesLineItems(f);
    assert forall f | f in OrderTexts() :: f.TextField?;
    assert OrderRequest(e, fp) == [ExaminationField(e)] + (OrderTexts() + OrderItems(fp));
  }

  lemma OrderExamination(e: Uuid, fp: int)
    ensures ExaminationIn(OrderRequest(e, fp)) == Some(e)
  {
    var rest := OrderTexts() + OrderItems(fp);
    OrderKinds(e, fp);
    LeadingExamination(e, rest);
    assert OrderRequest(e, fp) == [ExaminationField(e)] + rest;
  }

  lemma OrderHasRequired(e: Uuid, fp: int)
    ensures forall n | n in RequiredOnCreate :: HasAttr(OrderRequest(e, fp), n)
  {
    var v := OrderRequest(e, fp);
    forall n | n in RequiredOnCreate
      ensures HasAttr(v, n)
    {
      var k := match n
        case Text(FrameBrand) => 1
        case Text(FrameModel) => 2
        case Text(FrameColor) => 3
        case Text(LensBrand) => 4
        case Text(LensType) => 5
        case Text(LensMaterial) => 6
        case Text(LensCoating) => 7
        case Text(BookedBy) => 8
        case Text(ServedBy) => 9
        case _ => 0;
      assert Key(v[k]) == n;
      assert v[k] in v;
    }
  }

  /** The example order's row before `save` carries its four line items. */
  lemma OrderLineItems(e: Uuid, fp: int)
    requires DecimalFits(fp)
    ensures var r := NewRow(OrderRequest(e, fp));
      r.framePrice == fp && r.frameQuantity == 2 && r.lensPrice == 5000 && r.lensQuantity == 1
  {
    var v := OrderRequest(e, fp);
    OrderRequestValid(e, fp);
    var r := DefaultSaleRow(e);
    assert v == OrderHeader(e) + OrderItems(fp);
    AssignedConcat(r, OrderHeader(e), OrderItems(fp), false);
    ItemsAssigned(Assigned(r, OrderHeader(e), false), fp, false);
  }

  lemma ItemsAssigned(r: SaleRow, fp: int, skip: bool)
    ensures var s := Assigned(r, OrderItems(fp), skip);
      s.framePrice == fp && s.frameQuantity == 2 && s.lensPrice == 5000 && s.lensQuantity == 1
  {
    var w := OrderItems(fp);
    assert w[..1] == [FramePriceField(fp)] && w[..1][..0] == [];
    var a1 := Assigned(r, w[..1], skip);
    assert a1.framePrice == fp;
    assert w[..2][..1] == w[..1] && w[..2][1] == FrameQuantityField(2);
    var a2 := Assigned(r, w[..2], skip);
    assert a2 == SetAttr(a1, FrameQuantityField(2));
    assert w[..3][..2] == w[..2] && w[..3][2] == LensPriceField(5000);
    var a3 := Assigned(r, w[..3], skip);
    assert a3 == SetAttr(a2, LensPriceField(5000));
    assert w[..3] == w[..|w| - 1];
    assert Assigned(r, w, skip) == SetAttr(a3, LensQuantityField(1));
  }

  /** A body holding only a payment of `a` cents is its own validated data and passes field
      validation and `validate`. */
  lemma PaymentRequest(a: int, examIds: set<Uuid>)
    requires DecimalFits(a)
    ensures Validated([AdvancePaidField(a)]) == [AdvancePaidField(a)]
    ensures PaymentIn([AdvancePaidField(a)]) == a
    ensures FieldErrors([AdvancePaidField(a)], examIds, false) == {}
    ensures Validate([AdvancePaidField(a)], false, {}) == Pass
  {
    assert Lookup([AdvancePaidField(a)], AdvancePaidAttr) == Some(AdvancePaidField(a));
  }

  /** The worked example, payments: paying 100.00 against balance 250.00 leaves 150.00 with balance
      status "Pending"; paying 150.00 settles the order, and a further payment is rejected. */
  lemma ScenarioPayments(created: SaleRow, examIds: set<Uuid>)
    requires Reconciled(created) && created.totalPrice == 25000 && created.advancePaid == 0
    ensures UpdateCheck(created, [AdvancePaidField(10000)], examIds) == Pass
    ensures var first := UpdateResult(created, [AdvancePaidField(10000)]);
      && first.advancePaid == 10000 && first.balanceDue == 15000
      && first.balancePaymentStatus == PaymentStatus.Pending && first.orderPaid == PartiallyPaid
      && UpdateCheck(first, [AdvancePaidField(15000)], examIds) == Pass
      && var second := UpdateResult(first, [AdvancePaidField(15000)]);
      && second.balanceDue == 0 && second.orderPaid == Paid
      && UpdateCheck(second, [AdvancePaidField(1)], examIds) == Fail(AlreadyFullyPaid)
  {
    var p1 := [AdvancePaidField(10000)];
    PaymentRequest(10000, examIds);
    PartialPayment(created, p1);
    var first := UpdateResult(created, p1);
    var p2 := [AdvancePaidField(15000)];
    PaymentRequest(15000, examIds);
    var p3 := [AdvancePaidField(1)];
    PaymentRequest(1, examIds);
    FullPayment(first, p2, p3, examIds);
  }

  /** The order of the worked example, against examination `e`. */
  function OrderRequest(e: Uuid, framePrice: int): seq<SaleField> {
    OrderHeader(e) + OrderItems(framePrice)
  }

  function OrderHeader(e: Uuid): seq<SaleField> {
    [ExaminationField(e)] + OrderTexts()
  }

  function OrderTexts(): seq<SaleField> {
    [TextField(FrameBrand, "Ray"), TextField(FrameModel, "RX"), TextField(FrameColor, "Black"),
     TextField(LensBrand, "Zeiss"), TextField(LensType, "Single"), TextField(LensMaterial, "Poly"),
     TextField(LensCoating, "AR"), TextField(BookedBy, "Ann"), TextField(ServedBy, "Ben")]
  }

  function OrderItems(framePrice: int): seq<SaleField> {
    [FramePriceField(framePrice), FrameQuantityField(2), LensPriceField(5000), LensQuantityField(1)]
  }

  // ---------------------------------------------------------------------------------------------
  // Create and update against the database
  // ---------------------------------------------------------------------------------------------

  /** `setattr(instance, attr, value)` on the stored object; the examination key resolves to the
      examination object with that id. */
  method SetAttrOn(db: Clinic, sale: Sale, f: SaleField)
    requires !ReadOnly(f) && FieldValid(f, db.examinations.Keys)
    requires forall k | k in db.examinations :: db.examinations[k].id == k
    modifies sale
    ensures sale.Row() == SetAttr(old(sale.Row()), f)
    ensures sale.examination == old(sale.examination) || sale.examination in db.examinations.Values
  {
    if f.ExaminationField? {
      sale.examination := db.examinations[f.exam];
    } else {
      SetColumn(sale, f);
    }
  }

  /** `setattr` of an attribute that is a plain column of the order. */
  method SetColumn(sale: Sale, f: SaleField)
    requires !ReadOnly(f) && !f.ExaminationField?
    modifies sale
    ensures sale.Row() == SetAttr(old(sale.Row()), f)
    ensures sale.examination == old(sale.examination)
  {
    if IsAmount(f) {
      SetAmount(sale, f);
    } else {
      SetDetail(sale, f);
    }
  }

  /** The entries that set a quantity, a price or the amount paid. */
  predicate IsAmount(f: SaleField) {
    || f.FrameQuantityField? || f.FramePriceField? || f.LensQuantityField? || f.LensPriceField?
    || f.TotalPriceField? || f.AdvancePaidField?
  }

  method SetAmount(sale: Sale, f: SaleField)
    requires IsAmount(f)
    modifies sale
    ensures sale.Row() == SetAttr(old(sale.Row()), f)
    ensures sale.examination == old(sale.examination)
  {
    match f
    case FrameQuantityField(q) => sale.frameQuantity := q;
    case FramePriceField(p) => sale.framePrice := p;
    case LensQuantityField(q) => sale.lensQuantity := q;
    case LensPriceField(p) => sale.lensPrice := p;
    case TotalPriceField(p) => sale.totalPrice := p;
    case AdvancePaidField(a) => sale.advancePaid := a;
  }

  method SetDetail(sale: Sale, f: SaleField)
    requires !ReadOnly(f) && !f.ExaminationField? && !IsAmount(f)
    modifies sale
    ensures sale.Row() == SetAttr(old(sale.Row()), f)
    ensures sale.examination == old(sale.examination)
  {
    match f
    case TextField(a, t) => sale.text := SetText(sale.text, a, t);
    case DeliveryDateField(d) => sale.deliveryDate := d;
    case PaymentMethodField(m) => sale.paymentMethod := m;
    case AdvancePaymentMethodField(m) => sale.advancePaymentMethod := m;
    case MpesaCodeField(c) => sale.mpesaTransactionCode := c;
  }

  /**
   * `POST` of a sales order: validation, then `create` (`Sales.objects.create(**validated_data)`,
   * which saves, then `instance.save()`). A rejected request changes nothing. An accepted one
   * whose saved row does not fit its columns fails in the first save, after the examination's
   * flag was cleared, and stores no order.
   */
  method CreateSale(db: Clinic, id: Uuid, body: seq<SaleField>) returns (r: Result<Sale, SaleError>)
    requires db.Valid()
    requires forall i | 0 <= i < |db.sales| :: db.sales[i].id != id
    modifies db, db.examinations.Values
    ensures db.Valid()
    ensures db.clients == old(db.clients) && db.examinations == old(db.examinations)
    ensures var check := CreateCheck(body, old(db.examinations.Keys), old(db.ExaminationsWithSale()));
      && (r.Success? <==> check == Pass && Storable(CreatedRow(body)))
      && (check.Fail? ==>
            && r == Failure(check.error) && db.sales == old(db.sales)
            && forall e | e in db.examinations.Values :: unchanged(e))
      && (check == Pass ==>
            && var exam := db.examinations[ExaminationIn(Validated(body)).value];
            && exam.Snapshot() == old(exam.Snapshot()).(bookedForSales := false)
            && (forall e | e in db.examinations.Values && e != exam :: unchanged(e))
            && (!Storable(CreatedRow(body)) ==> r == Failure(DecimalOverflow) && db.sales == old(db.sales))
            && (r.Success? ==>
                  && fresh(r.value) && r.value.id == id && r.value.examination == exam
                  && db.sales == old(db.sales) + [r.value]
                  && r.value.Row() == CreatedRow(body)))
  {
    var check := CreateCheck(body, db.examinations.Keys, db.ExaminationsWithSale());
    if check.Fail? {
      return Failure(check.error);
    }
    var sale, stored := CreateAccepted(db, id, body);
    r := if stored then Success(sale) else Failure(DecimalOverflow);
  }

  /** `create` for a request that passed validation, so that it names a stored examination: the
      order joins the table saved twice when it fits its columns, and no order is stored when not. */
  method CreateAccepted(db: Clinic, id: Uuid, body: seq<SaleField>) returns (sale: Sale, stored: bool)
    requires db.Valid()
    requires forall i | 0 <= i < |db.sales| :: db.sales[i].id != id
    requires ExaminationIn(Validated(body)).Some? && ExaminationIn(Validated(body)).value in db.examinations
    modifies db, db.examinations.Values
    ensures db.Valid()
    ensures db.clients == old(db.clients) && db.examinations == old(db.examinations)
    ensures stored <==> Storable(CreatedRow(body))
    ensures fresh(sale) && sale.id == id
    ensures db.sales == if stored then old(db.sales) + [sale] else old(db.sales)
    ensures stored ==> sale.Row() == CreatedRow(body)
    ensures var exam := db.examinations[ExaminationIn(Validated(body)).value];
      && sale.examination == exam
      && exam.Snapshot() == old(exam.Snapshot()).(bookedForSales := false)
      && forall e | e in db.examinations.Values && e != exam :: unchanged(e)
  {
    var v := Validated(body);
    var u := ExaminationIn(v).value;
    var exam := db.examinations[u];
    var row := NewRow(body);
    assert row.examination == exam.id by {
      AssignedExamination(DefaultSaleRow(u), v, false);
    }
    assert CreatedRow(body) == Reconcile(row) by {
      SaveIdempotent(row);
    }
    sale, stored := db.CreateSaved(id, exam, row);
  }

  /**
   * `PUT` of a sales order (`update`, the balance payment): validation, the two balance rules,
   * the payment added to the stored amount, every other validated entry assigned in order, then
   * `save()`. A rejected request changes nothing; when the saved row would not fit its columns
   * the write fails, the stored order stays as it was, and only the flag of the examination the
   * order was pointed to is cleared.
   */
  method UpdateSale(db: Clinic, sale: Sale, body: seq<SaleField>) returns (r: Outcome<SaleError>)
    requires db.Valid() && sale in db.sales
    modifies sale, db.examinations.Values
    ensures db.Valid()
    ensures var check := UpdateCheck(old(sale.Row()), body, db.examinations.Keys);
      r == if check.Fail? then check
           else if Storable(UpdateResult(old(sale.Row()), body)) then Pass
           else Fail(DecimalOverflow)
    ensures UpdateCheck(old(sale.Row()), body, db.examinations.Keys).Fail? ==>
      unchanged(sale) && forall e | e in db.examinations.Values :: unchanged(e)
    ensures UpdateCheck(old(sale.Row()), body, db.examinations.Keys) == Pass ==>
      && UpdateResult(old(sale.Row()), body).examination in db.examinations
      && var e := db.examinations[UpdateResult(old(sale.Row()), body).examination];
      && e.Snapshot() == old(e.Snapshot()).(bookedForSales := false)
      && (forall d | d in db.examinations.Values && d != e :: unchanged(d))
      && (r == Pass ==> sale.Row() == UpdateResult(old(sale.Row()), body) && sale.examination == e)
      && (r != Pass ==> unchanged(sale))
  {
    var v := Validated(body);
    var errs := FieldErrors(v, db.examinations.Keys, false);
    if errs != {} {
      return Fail(InvalidFields(errs));
    }
    r := Validate(v, false, {});
    if r.Fail? {
      return;
    }
    if sale.balanceDue == 0 {
      return Fail(AlreadyFullyPaid);
    }
    var amount := PaymentIn(v);
    if amount > sale.balanceDue {
      return Fail(ExceedsBalance(sale.balanceDue));
    }

    var saved := UpdateAccepted(db, sale, v, amount);
    r := if saved then Pass else Fail(DecimalOverflow);
  }

  /**
   * The writes of an accepted `update`: the payment, the other validated entries, `save()`. The
   * instance's changes reach the table only through the final write, so when the row `save()`
   * would write does not fit its columns the model leaves the stored order untouched and makes
   * the one write that does happen: clearing the flag of the examination the order points to.
   */
  method UpdateAccepted(db: Clinic, sale: Sale, v: seq<SaleField>, amount: int) returns (saved: bool)
    requires db.Valid() && sale in db.sales
    requires forall f | f in v :: !ReadOnly(f) && FieldValid(f, db.examinations.Keys)
    modifies sale, db.examinations.Values
    ensures db.Valid()
    ensures var next := Reconcile(Assigned(Pay(old(sale.Row()), amount), v, true));
      && next.examination in db.examinations
      && (saved <==> Storable(next))
      && (saved ==> sale.Row() == next && sale.examination == db.examinations[next.examination])
      && (!saved ==> unchanged(sale))
      && var e := db.examinations[next.examination];
      && e.Snapshot() == old(e.Snapshot()).(bookedForSales := false)
      && forall d | d in db.examinations.Values && d != e :: unchanged(d)
  {
    var next := Reconcile(Assigned(Pay(sale.Row(), amount), v, true));
    assert next.examination in db.examinations by {
      AssignedExamination(Pay(sale.Row(), amount), v, true);
      ValidExaminationKnown(v, db.examinations.Keys);
    }
    if !Storable(next) {
      db.ClearBooking(db.examinations[next.examination]);
      return false;
    }
    ApplyPayment(sale, amount);
    AssignEntries(db, sale, v);
    saved := db.SaveSale(sale);
  }

  /** Lines 88-97 of `update` on the stored object. */
  method ApplyPayment(sale: Sale, amount: int)
    modifies sale
    ensures sale.Row() == Pay(old(sale.Row()), amount)
    ensures sale.examination == old(sale.examination)
  {
    if amount > 0 {
      sale.advancePaid := sale.advancePaid + amount;
      sale.balanceDue := sale.balanceDue - amount;
      if sale.balanceDue <= 0 {
        sale.balanceDue := 0;
        sale.balancePaymentStatus := Paid;
        sale.orderPaid := Paid;
      } else {
        sale.balancePaymentStatus := PartiallyPaid;
        sale.orderPaid := PartiallyPaid;
      }
    }
  }

  /** The `setattr` loop of `update`: every validated entry but `advance_paid`, in order. */
  method AssignEntries(db: Clinic, sale: Sale, v: seq<SaleField>)
    requires forall f | f in v :: !ReadOnly(f) && FieldValid(f, db.examinations.Keys)
    requires forall k | k in db.examinations :: db.examinations[k].id == k
    requires sale.examination in db.examinations.Values
    modifies sale
    ensures sale.Row() == Assigned(old(sale.Row()), v, true)
    ensures sale.examination in db.examinations.Values
  {
    var i := 0;
    while i < |v|
      invariant 0 <= i <= |v|
      invariant sale.Row() == Assigned(old(sale.Row()), v[..i], true)
      invariant sale.examination in db.examinations.Values
    {
      assert v[i] in v;
      if Key(v[i]) != AdvancePaidAttr {
        SetAttrOn(db, sale, v[i]);
      }
      assert v[..i + 1][..i] == v[..i];
      i := i + 1;
    }
    assert v[..i] == v;
  }

  // ---------------------------------------------------------------------------------------------
  // ClientSerializer and ExaminationSerializer read-outs
  // ---------------------------------------------------------------------------------------------

  /** The examinations of the given orders, which `Balance` reads through the foreign key. */
  function ExamsOf(sales: seq<Sale>): set<Examination>
    reads sales
  {
    set i | 0 <= i < |sales| :: sales[i].examination
  }

  /** The order at `i` belongs to `client` and still has something to pay. */
  predicate Owing(sales: seq<Sale>, i: int, client: Uuid)
    requires 0 <= i < |sales|
    reads sales, ExamsOf(sales)
  {
    sales[i].examination.client == client && sales[i].balanceDue > 0
  }

  /**
   * `get_balance`: the sum of `balance_due` over the client's orders with `balance_due > 0`
   * (0 when there are none).
   */
  function Balance(sales: seq<Sale>, client: Uuid): (b: int)
    reads sales, ExamsOf(sales)
    ensures b >= 0
    ensures b == 0 <==> forall i | 0 <= i < |sales| :: !Owing(sales, i, client)
    ensures forall i | 0 <= i < |sales| && Owing(sales, i, client) :: b >= sales[i].balanceDue
  {
    if sales == [] then 0
    else
      var init := sales[..|sales| - 1];
      var last := |sales| - 1;
      assert ExamsOf(init) <= ExamsOf(sales);
      assert forall i | 0 <= i < |init| :: Owing(init, i, client) == Owing(sales, i, client);
      Balance(init, client) + (if Owing(sales, last, client) then sales[last].balanceDue else 0)
  }

  /** `get_payment_status`. */
  function PaymentStatusOf(sales: seq<Sale>, client: Uuid): (status: string)
    reads sales, ExamsOf(sales)
    ensures status == "fully_paid" <==> Balance(sales, client) == 0
    ensures status == "fully_paid" || status == "pending_balance"
  {
    if Balance(sales, client) == 0 then "fully_paid" else "pending_balance"
  }

  /** `get_client_name`: the client's "first last", or `None` when the examination has no client. */
  function ClientName(clients: map<Uuid, Client>, exam: ExamRow): (name: Option<string>)
    ensures name.Some? <==> exam.client in clients
    ensures name.Some? ==>
      var c := clients[exam.client];
      && |name.value| == |c.firstName| + 1 + |c.lastName|
      && name.value[..|c.firstName|] == c.firstName && name.value[|c.firstName| + 1..] == c.lastName
  {
    if exam.client in clients then
      var c := clients[exam.client];
      Some(FullName(c.firstName, c.lastName))
    else None
  }
}
