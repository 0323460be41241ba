/**
 * The clinic's persistent entities (backend/clients/models.py): clients, examinations and sales
 * orders, the derived price, balance and payment statuses that `Sales.save` recomputes on every
 * write, and the database that holds the three tables.
 *
 * Money is in integer cents (the source uses two-decimal `DecimalField`s); refraction decimals are
 * in hundredths.
 */
module ClinicModels {
  import opened Common

  // ---------------------------------------------------------------------------------------------
  // Choice sets
  // ---------------------------------------------------------------------------------------------

  /** `Client.GENDER_CHOICES`: 'M', 'F' and 'O'. */
  datatype Gender = Male | Female | Other

  /** `Examination.EXAMINATION_STATE`. */
  datatype ExamState = Pending | Completed

  /** `Sales.PAYMENT_METHODS`. */
  datatype PaymentMethod = Cash | Mpesa | Card | Bank | Insurance

  /** `Sales.PAYMENT_STATUS`. */
  datatype PaymentStatus = Pending | PartiallyPaid | Paid

  // ---------------------------------------------------------------------------------------------
  // Client (a row nothing in the core updates after it is written)
  // ---------------------------------------------------------------------------------------------

  datatype Client = Client(
    firstName: string,
    lastName: string,
    dob: Date,
    phoneNumber: string,
    email: string,
    location: string,
    registeredBy: string,
    gender: Gender,
    previousPrescription: string,
    lastExaminationDate: Option<Date>,
    visitCount: nat,
    regNo: string)

  /** `visit_count` is declared with `default=1`. */
  const DefaultVisitCount: nat := 1

  /** The largest value of a `PositiveIntegerField` (`visit_count`, the sale quantities). */
  const MaxPositiveInteger: int := 2147483647

  // ---------------------------------------------------------------------------------------------
  // Examination
  // ---------------------------------------------------------------------------------------------

  /** One eye's refraction; a `None` is a NULL column. */
  datatype EyeFindings = EyeFindings(
    sph: Option<int>, cyl: Option<int>, axis: Option<int>, add: Option<int>, va: string, ipd: Option<int>)

  /** The column defaults of one eye: every measurement NULL, visual acuity "N/A". */
  const NoEyeFindings := EyeFindings(None, None, None, None, "N/A", None)

  /** The columns of an examination row other than its primary key. */
  datatype ExamRow = ExamRow(
    client: Uuid,
    examinedBy: string,
    clinicalHistory: string,
    right: EyeFindings,
    left: EyeFindings,
    state: ExamState,
    bookedForSales: bool)

  /** An examination record; the views and `Sales.save` update its fields in place. */
  class Examination {
    const id: Uuid
    var client: Uuid
    var examinedBy: string
    var clinicalHistory: string
    var right: EyeFindings
    var left: EyeFindings
    var state: ExamState
    var bookedForSales: bool

    /** The row as the database holds it. */
    function Snapshot(): ExamRow
      reads this
    {
      ExamRow(client, examinedBy, clinicalHistory, right, left, state, bookedForSales)
    }

    /** `Examination.objects.create(client=...)`: every other column takes its declared default. */
    constructor (id: Uuid, client: Uuid)
      ensures this.id == id
      ensures Snapshot() == ExamRow(client, "", "", NoEyeFindings, NoEyeFindings, ExamState.Pending, false)
    {
      this.id := id;
      this.client := client;
      examinedBy := "";
      clinicalHistory := "";
      right := NoEyeFindings;
      left := NoEyeFindings;
      state := ExamState.Pending;
      bookedForSales := false;
    }

    /** Overwrites every column with the ones of `row` (Django's `save()` after `setattr`s). */
    method Store(row: ExamRow)
      modifies this
      ensures Snapshot() == row
    {
      client := row.client;
      examinedBy := row.examinedBy;
      clinicalHistory := row.clinicalHistory;
      right := row.right;
      left := row.left;
      state := row.state;
      bookedForSales := row.bookedForSales;
    }
  }

  // ---------------------------------------------------------------------------------------------
  // Sales: line items, payment and the derived fields
  // ---------------------------------------------------------------------------------------------

  /** The free-text columns of an order; a column with no value holds Django's implicit default "". */
  datatype SaleText = SaleText(
    frameBrand: string,
    frameModel: string,
    frameColor: string,
    lensBrand: string,
    lensType: string,
    lensMaterial: string,
    lensCoating: string,
    fittingInstructions: string,
    bookedBy: string,
    servedBy: string)

  const EmptySaleText := SaleText("", "", "", "", "", "", "", "", "", "")

  /** The columns of a sales row other than its primary key; `examination` is the foreign key. */
  datatype SaleRow = SaleRow(
    examination: Uuid,
    text: SaleText,
    deliveryDate: Option<Date>,
    paymentMethod: PaymentMethod,
    frameQuantity: nat,
    framePrice: int,
    lensQuantity: nat,
    lensPrice: int,
    totalPrice: int,
    advancePaymentMethod: Option<PaymentMethod>,
    advancePaid: int,
    balanceDue: int,
    advancePaymentStatus: PaymentStatus,
    balancePaymentStatus: PaymentStatus,
    orderPaid: PaymentStatus,
    mpesaTransactionCode: Option<string>)

  /** A new order before any field is given: the column defaults of `Sales`. */
  function DefaultSaleRow(examination: Uuid): (r: SaleRow)
    ensures r.examination == examination
    ensures r.frameQuantity == 1 && r.lensQuantity == 1 && r.framePrice == 0 && r.lensPrice == 0
    ensures r.totalPrice == 0 && r.advancePaid == 0 && r.balanceDue == 0
    ensures r.paymentMethod == Cash && r.advancePaymentMethod == None && r.mpesaTransactionCode == None
    ensures r.advancePaymentStatus == r.balancePaymentStatus == r.orderPaid == PaymentStatus.Pending
  {
    SaleRow(examination, EmptySaleText, None, Cash, 1, 0, 1, 0, 0, None, 0, 0,
            PaymentStatus.Pending, PaymentStatus.Pending, PaymentStatus.Pending, None)
  }

  /** `max_digits=10, decimal_places=2`: at most ten digits, so fewer than 10^10 cents. */
  const MaxCents: int := 10_000_000_000

  predicate DecimalFits(cents: int) {
    -MaxCents < cents < MaxCents
  }

  /** Every decimal column of `r` fits `max_digits=10, decimal_places=2`. Django 4.2 formats each
      value to that width before the write and raises `InvalidOperation` for a wider one, so no
      other row reaches the table. */
  predicate Storable(r: SaleRow) {
    && DecimalFits(r.framePrice) && DecimalFits(r.lensPrice) && DecimalFits(r.totalPrice)
    && DecimalFits(r.advancePaid) && DecimalFits(r.balanceDue)
  }

  /** The order total: both line items, unit price times quantity. */
  function TotalPrice(framePrice: int, frameQuantity: nat, lensPrice: int, lensQuantity: nat): int
  {
    framePrice * frameQuantity + lensPrice * lensQuantity
  }

  /** The three status columns of an order. */
  datatype Statuses = Statuses(advance: PaymentStatus, balance: PaymentStatus, order: PaymentStatus)

  /** The statuses `Sales.save` derives from the balance and the amount paid so far. */
  function StatusesFor(balanceDue: int, advancePaid: int): (s: Statuses)
    ensures s.order == Paid <==> balanceDue <= 0
    ensures s.order == PartiallyPaid <==> balanceDue > 0 && advancePaid > 0
    ensures s.advance == s.order
    ensures s.balance == (if balanceDue <= 0 then Paid else PaymentStatus.Pending)
  {
    if balanceDue > 0 && advancePaid > 0 then
      Statuses(PartiallyPaid, PaymentStatus.Pending, PartiallyPaid)
    else if balanceDue <= 0 then
      Statuses(Paid, Paid, Paid)
    else
      Statuses(PaymentStatus.Pending, PaymentStatus.Pending, PaymentStatus.Pending)
  }

  /** The derived columns of `r` agree with its line items and its advance. */
  predicate Reconciled(r: SaleRow) {
    && r.totalPrice == TotalPrice(r.framePrice, r.frameQuantity, r.lensPrice, r.lensQuantity)
    && r.balanceDue == r.totalPrice - r.advancePaid
    && Statuses(r.advancePaymentStatus, r.balancePaymentStatus, r.orderPaid)
       == StatusesFor(r.balanceDue, r.advancePaid)
  }

  /** `r` and `s` agree on every column that `Sales.save` does not derive. */
  predicate SameEntries(r: SaleRow, s: SaleRow) {
    && r.examination == s.examination && r.text == s.text && r.deliveryDate == s.deliveryDate
    && r.paymentMethod == s.paymentMethod
    && r.frameQuantity == s.frameQuantity && r.framePrice == s.framePrice
    && r.lensQuantity == s.lensQuantity && r.lensPrice == s.lensPrice
    && r.advancePaymentMethod == s.advancePaymentMethod && r.advancePaid == s.advancePaid
    && r.mpesaTransactionCode == s.mpesaTransactionCode
  }

  /** What `Sales.save` makes of a row: the entries kept, total, balance and statuses recomputed. */
  function Reconcile(r: SaleRow): (s: SaleRow)
    ensures Reconciled(s) && SameEntries(r, s)
  {
    var total := TotalPrice(r.framePrice, r.frameQuantity, r.lensPrice, r.lensQuantity);
    var balance := total - r.advancePaid;
    var st := StatusesFor(balance, r.advancePaid);
    r.(totalPrice := total, balanceDue := balance,
       advancePaymentStatus := st.advance, balancePaymentStatus := st.balance, orderPaid := st.order)
  }

  /** The outcome of a save depends on the entries only: whatever total, balance or statuses were
      stored before (read from input, clamped, or set by hand) have no effect. */
  lemma ReconcileDependsOnEntriesOnly(r: SaleRow, s: SaleRow)
    requires SameEntries(r, s)
    ensures Reconcile(r) == Reconcile(s)
  {
  }

  /** A reconciled row is a fixed point of `Sales.save`. */
  lemma ReconciledIsFixedPoint(r: SaleRow)
    requires Reconciled(r)
    ensures Reconcile(r) == r
  {
  }

  /** Saving twice with no change in between yields the same row as saving once. */
  lemma SaveIdempotent(r: SaleRow)
    ensures Reconcile(Reconcile(r)) == Reconcile(r)
  {
    ReconciledIsFixedPoint(Reconcile(r));
  }

  /** The three status rules of `Sales.save`, case by case, for every reconciled row. */
  lemma StatusRules(r: SaleRow)
    requires Reconciled(r)
    ensures r.balanceDue <= 0 ==>
      r.advancePaymentStatus == r.balancePaymentStatus == r.orderPaid == Paid
    ensures r.balanceDue > 0 && r.advancePaid > 0 ==>
      r.advancePaymentStatus == PartiallyPaid && r.balancePaymentStatus == PaymentStatus.Pending
      && r.orderPaid == PartiallyPaid
    ensures r.balanceDue > 0 && r.advancePaid <= 0 ==>
      r.advancePaymentStatus == r.balancePaymentStatus == r.orderPaid == PaymentStatus.Pending
    ensures r.balancePaymentStatus != PartiallyPaid
  {
  }

  /** An order record; `Save` and the serializer's update write its fields in place. */
  class Sale {
    const id: Uuid
    var examination: Examination
    var text: SaleText
    var deliveryDate: Option<Date>
    var paymentMethod: PaymentMethod
    var frameQuantity: nat
    var framePrice: int
    var lensQuantity: nat
    var lensPrice: int
    var totalPrice: int
    var advancePaymentMethod: Option<PaymentMethod>
    var advancePaid: int
    var balanceDue: int
    var advancePaymentStatus: PaymentStatus
    var balancePaymentStatus: PaymentStatus
    var orderPaid: PaymentStatus
    var mpesaTransactionCode: Option<string>

    /** The row as the database holds it (the foreign key as the examination's id). */
    function Row(): SaleRow
      reads this
    {
      SaleRow(examination.id, text, deliveryDate, paymentMethod, frameQuantity, framePrice,
              lensQuantity, lensPrice, totalPrice, advancePaymentMethod, advancePaid, balanceDue,
              advancePaymentStatus, balancePaymentStatus, orderPaid, mpesaTransactionCode)
    }

    /** `Sales(**fields)`: an unsaved instance holding the given columns. */
    constructor (id: Uuid, examination: Examination, row: SaleRow)
      requires row.examination == examination.id
      ensures this.id == id && this.examination == examination && Row() == row
    {
      this.id := id;
      this.examination := examination;
      text := row.text;
      deliveryDate := row.deliveryDate;
      paymentMethod := row.paymentMethod;
      frameQuantity := row.frameQuantity;
      framePrice := row.framePrice;
      lensQuantity := row.lensQuantity;
      lensPrice := row.lensPrice;
      totalPrice := row.totalPrice;
      advancePaymentMethod := row.advancePaymentMethod;
      advancePaid := row.advancePaid;
      balanceDue := row.balanceDue;
      advancePaymentStatus := row.advancePaymentStatus;
      balancePaymentStatus := row.balancePaymentStatus;
      orderPaid := row.orderPaid;
      mpesaTransactionCode := row.mpesaTransactionCode;
    }

    /**
     * `Sales.save`: recompute total and balance (no clamp), clear the examination's
     * `booked_for_sales` when it is set (that write is done at once), derive the three statuses,
     * then `super().save()`, which writes the row only when it fits its columns. `saved` says
     * whether it did; the fields hold the recomputed values either way.
     */
    method Save() returns (saved: bool)
      modifies this, examination
      ensures examination == old(examination)
      ensures Row() == Reconcile(old(Row()))
      ensures saved <==> Storable(Row())
      ensures examination.Snapshot() == old(examination.Snapshot()).(bookedForSales := false)
      ensures !old(examination.bookedForSales) ==> unchanged(examination)
    {
      totalPrice := TotalPrice(framePrice, frameQuantity, lensPrice, lensQuantity);
      balanceDue := totalPrice - advancePaid;

      if examination.bookedForSales {
        examination.bookedForSales := false;
      }
      DeriveStatuses();
      saved := Storable(Row());
    }

    /** The status branch of `Sales.save`. */
    method DeriveStatuses()
      modifies this
      ensures examination == old(examination)
      ensures var st := StatusesFor(balanceDue, advancePaid);
        Row() == old(Row()).(advancePaymentStatus := st.advance, balancePaymentStatus := st.balance,
                             orderPaid := st.order)
    {
      if balanceDue > 0 && advancePaid > 0 {
        advancePaymentStatus := PartiallyPaid;
        balancePaymentStatus := PaymentStatus.Pending;
        orderPaid := PartiallyPaid;
      } else if balanceDue <= 0 {
        advancePaymentStatus := Paid;
        balancePaymentStatus := Paid;
        orderPaid := Paid;
      } else {
        advancePaymentStatus := PaymentStatus.Pending;
        balancePaymentStatus := PaymentStatus.Pending;
        orderPaid := PaymentStatus.Pending;
      }
    }
  }

  // ---------------------------------------------------------------------------------------------
  // The database
  // ---------------------------------------------------------------------------------------------

  /** The three tables, accessed one request at a time. */
  class Clinic {
    var clients: map<Uuid, Client>
    var examinations: map<Uuid, Examination>
    var sales: seq<Sale>

    /** Primary keys match, every foreign key resolves, sales ids are distinct, and no two clients
        share a `reg_no` (the column is `unique=True`). */
    ghost predicate Linked()
      reads this, examinations.Values, sales
    {
      && (forall a, b | a in clients && b in clients && a != b :: clients[a].regNo != clients[b].regNo)
      && (forall k | k in examinations :: examinations[k].id == k && examinations[k].client in clients)
      && (forall i | 0 <= i < |sales| :: sales[i].examination in examinations.Values)
      && (forall i, j | 0 <= i < j < |sales| :: sales[i].id != sales[j].id)
    }

    /** The tables are linked and every stored order went through `Sales.save`, so its total,
        balance and statuses agree with its entries and its decimals fit their columns. */
    ghost predicate Valid()
      reads this, examinations.Values, sales
    {
      Linked() && forall i | 0 <= i < |sales| :: Reconciled(sales[i].Row()) && Storable(sales[i].Row())
    }

    constructor ()
      ensures Valid() && clients == map[] && examinations == map[] && sales == []
    {
      clients := map[];
      examinations := map[];
      sales := [];
    }

    /** The examinations that already have an order (`Sales.objects.filter(examination=...)`). */
    function ExaminationsWithSale(): (ids: set<Uuid>)
      reads this, sales
      ensures forall i | 0 <= i < |sales| :: sales[i].examination.id in ids
      ensures forall u | u in ids :: exists i | 0 <= i < |sales| :: sales[i].examination.id == u
    {
      set i | 0 <= i < |sales| :: sales[i].examination.id
    }

    /** The insert of `Sales.objects.create`, which saves the new row first: it joins the table. */
    method InsertSale(sale: Sale)
      requires Valid() && sale.examination in examinations.Values
      requires Reconciled(sale.Row()) && Storable(sale.Row())
      requires forall i | 0 <= i < |sales| :: sales[i].id != sale.id
      modifies this
      ensures Valid()
      ensures sales == old(sales) + [sale]
      ensures clients == old(clients) && examinations == old(examinations)
    {
      sales := sales + [sale];
    }

    /** `sale.save()` on a sale whose examination is in the database, every other stored order
        being saved already. When the row fits its columns the tables are valid afterwards; when
        not, nothing is written but the examination's flag, and `sale` holds values the table
        does not. */
    method SaveSale(sale: Sale) returns (saved: bool)
      requires Linked() && sale.examination in examinations.Values
      requires forall i | 0 <= i < |sales| && sales[i] != sale ::
        Reconciled(sales[i].Row()) && Storable(sales[i].Row())
      modifies sale, sale.examination
      ensures Linked()
      ensures saved <==> Storable(Reconcile(old(sale.Row())))
      ensures saved ==> Valid()
      ensures sale.examination == old(sale.examination)
      ensures sale.Row() == Reconcile(old(sale.Row()))
      ensures sale.examination.Snapshot() == old(sale.examination.Snapshot()).(bookedForSales := false)
    {
      saved := sale.Save();
    }

    /** `Sales.objects.create(**fields)` (construct and save) followed by `instance.save()`. When
        the saved row fits its columns the new order joins the table saved twice; when not, the
        first save fails and no order is stored. Either way only the examination's flag is
        cleared. */
    method CreateSaved(id: Uuid, exam: Examination, row: SaleRow) returns (sale: Sale, stored: bool)
      requires Valid() && exam in examinations.Values && row.examination == exam.id
      requires forall i | 0 <= i < |sales| :: sales[i].id != id
      modifies this, exam
      ensures Valid()
      ensures stored <==> Storable(Reconcile(row))
      ensures fresh(sale) && sale.id == id && sale.examination == exam
      ensures sales == if stored then old(sales) + [sale] else old(sales)
      ensures clients == old(clients) && examinations == old(examinations)
      ensures stored ==> sale.Row() == Reconcile(Reconcile(row))
      ensures exam.Snapshot() == old(exam.Snapshot()).(bookedForSales := false)
    {
      sale := new Sale(id, exam, row);
      stored := SaveSale(sale);
      if stored {
        InsertSale(sale);
        var again := SaveSale(sale);
        SaveIdempotent(row);
      }
    }

    /** The one write of a failed `sale.save()`: the examination's `booked_for_sales` is cleared
        (and saved) before the order's own write fails. */
    method ClearBooking(exam: Examination)
      requires Valid() && exam in examinations.Values
      modifies exam
      ensures Valid()
      ensures exam.Snapshot() == old(exam.Snapshot()).(bookedForSales := false)
    {
      if exam.bookedForSales {
        exam.bookedForSales := false;
      }
    }

    /** The insert of a new client row; the database refuses a duplicate `reg_no`. */
    method InsertClient(id: Uuid, c: Client)
      requires Valid() && id !in clients
      requires forall k | k in clients :: clients[k].regNo != c.regNo
      modifies this
      ensures Valid()
      ensures clients == old(clients)[id := c]
      ensures examinations == old(examinations) && sales == old(sales)
    {
      clients := clients[id := c];
    }

    /** `Examination.objects.create(client=...)`: a new examination with every default. */
    method CreateExamination(id: Uuid, client: Uuid) returns (exam: Examination)
      requires Valid() && id !in examinations && client in clients
      modifies this
      ensures Valid()
      ensures fresh(exam) && exam.id == id
      ensures exam.Snapshot() == ExamRow(client, "", "", NoEyeFindings, NoEyeFindings, ExamState.Pending, false)
      ensures examinations == old(examinations)[id := exam]
      ensures clients == old(clients) && sales == old(sales)
    {
      exam := new Examination(id, client);
      ghost var before := examinations;
      examinations := examinations[id := exam];
      forall e | e in before.Values
        ensures e in examinations.Values
      {
        var k :| k in before && before[k] == e;
        assert examinations[k] == e;
      }
    }
  }
}
