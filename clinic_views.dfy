/**
 * The client and examination views (backend/clients/api/views.py) over the clinic database:
 * registering a client (which books a first examination), completing an examination, booking an
 * existing client again, and listing a client's examinations.
 *
 * The requesting user is a parameter; primary keys that the database would generate are
 * parameters the caller guarantees to be new.
 */
module ClinicViews {
  import opened Common
  import opened ClinicModels

  /** The authenticated `request.user`, as far as the views use it. */
  datatype Staff = Staff(firstName: string, lastName: string)

  // ---------------------------------------------------------------------------------------------
  // Registering a client
  // ---------------------------------------------------------------------------------------------

  /** A registration request body; `None` is a field the request leaves out. */
  datatype ClientInput = ClientInput(
    firstName: Option<string>,
    lastName: Option<string>,
    dob: Option<Date>,
    phoneNumber: Option<string>,
    email: Option<string>,
    location: Option<string>,
    registeredBy: Option<string>,
    gender: Option<string>,
    previousPrescription: Option<string>,
    lastExaminationDate: Option<Date>,
    visitCount: Option<int>,
    regNo: Option<string>)

  /** A required `CharField` with `blank=False`: present, not empty, at most `max` characters. */
  predicate RequiredText(t: Option<string>, max: nat) {
    t.Some? && t.value != "" && |t.value| <= max
  }

  /** `GENDER_CHOICES`: the stored codes 'M', 'F' and 'O'. */
  function GenderOf(code: string): (g: Option<Gender>)
    ensures g.Some? <==> code in {"M", "F", "O"}
  {
    if code == "M" then Some(Male)
    else if code == "F" then Some(Female)
    else if code == "O" then Some(Other)
    else None
  }

  /** The keys of `ClientRegistrationSerializer`'s error dictionary. */
  function RegistrationErrors(input: ClientInput, clients: map<Uuid, Client>): (errs: set<string>)
    ensures errs == {} <==>
      && RequiredText(input.firstName, 100) && RequiredText(input.lastName, 100) && input.dob.Some?
      && RequiredText(input.phoneNumber, 20) && RequiredText(input.email, 254) && '@' in input.email.value
      && RequiredText(input.location, 100) && RequiredText(input.registeredBy, 100)
      && input.gender.Some? && GenderOf(input.gender.value).Some?
      && (input.visitCount.Some? ==> 0 <= input.visitCount.value <= MaxPositiveInteger)
      && (input.regNo.GetOr("") != "" ==>
            |input.regNo.value| <= 20 && forall k | k in clients :: clients[k].regNo != input.regNo.value)
  {
    (if !RequiredText(input.firstName, 100) then {"first_name"} else {})
    + (if !RequiredText(input.lastName, 100) then {"last_name"} else {})
    + (if input.dob.None? then {"dob"} else {})
    + (if !RequiredText(input.phoneNumber, 20) then {"phone_number"} else {})
    + (if !RequiredText(input.email, 254) || '@' !in input.email.value then {"email"} else {})
    + (if !RequiredText(input.location, 100) then {"location"} else {})
    + (if !RequiredText(input.registeredBy, 100) then {"registered_by"} else {})
    + (if input.gender.None? || GenderOf(input.gender.value).None? then {"gender"} else {})
    + (if input.visitCount.Some? && !(0 <= input.visitCount.value <= MaxPositiveInteger)
       then {"visit_count"} else {})
    + (if input.regNo.Some? && input.regNo.value != ""
          && (|input.regNo.value| > 20
              || exists k | k in clients :: clients[k].regNo == input.regNo.value)
       then {"reg_no"} else {})
  }

  /** The row `serializer.save(registered_by=...)` writes for an accepted request: given values,
      the column defaults for the rest, and the receptionist's name as `registered_by`. */
  function NewClient(input: ClientInput, receptionist: string): (c: Client)
    requires input.dob.Some? && input.gender.Some? && GenderOf(input.gender.value).Some?
    ensures c.registeredBy == receptionist
    ensures c.visitCount == (if input.visitCount.Some? && input.visitCount.value >= 0
                             then input.visitCount.value else DefaultVisitCount)
    ensures c.regNo == input.regNo.GetOr("") && c.lastExaminationDate == input.lastExaminationDate
  {
    Client(input.firstName.GetOr(""), input.lastName.GetOr(""), input.dob.value,
           input.phoneNumber.GetOr(""), input.email.GetOr(""), input.location.GetOr(""),
           receptionist, GenderOf(input.gender.value).value, input.previousPrescription.GetOr(""),
           input.lastExaminationDate,
           if input.visitCount.Some? && input.visitCount.value >= 0 then input.visitCount.value
           else DefaultVisitCount,
           input.regNo.GetOr(""))
  }

  /** The three ways a registration request ends. */
  datatype RegisterResponse =
    | Registered                          // 201, "booked": "true"
    | Rejected(errors: set<string>)       // 400, "booked": "false"
    | DuplicateRegNo                      // the insert violates `reg_no`'s unique constraint

  function StatusCode(r: RegisterResponse): int {
    match r
    case Registered => 201
    case Rejected(_) => 400
    case DuplicateRegNo => 500
  }

  /** The `booked` entry of the response body ("true" only when the client was registered). */
  function Booked(r: RegisterResponse): (b: string)
    requires !r.DuplicateRegNo?
    ensures b == "true" <==> r.Registered?
    ensures b == "false" <==> r.Rejected?
  {
    if r.Registered? then "true" else "false"
  }

  /** How a registration request ends against the clients `clients`. A blank `reg_no` skips the
      uniqueness validator, and a request without `reg_no` stores ""; either clashes at the insert
      with a client already holding "". */
  function RegistrationOutcome(input: ClientInput, clients: map<Uuid, Client>): (r: RegisterResponse)
    ensures r.Rejected? <==> RegistrationErrors(input, clients) != {}
    ensures r.Rejected? ==> r.errors == RegistrationErrors(input, clients)
    ensures r.DuplicateRegNo? <==>
      RegistrationErrors(input, clients) == {} && input.regNo.GetOr("") == ""
      && exists k | k in clients :: clients[k].regNo == ""
    ensures r.Registered? ==> forall k | k in clients :: clients[k].regNo != input.regNo.GetOr("")
  {
    var errs := RegistrationErrors(input, clients);
    if errs != {} then Rejected(errs)
    else if input.regNo.GetOr("") == "" && exists k | k in clients :: clients[k].regNo == "" then DuplicateRegNo
    else Registered
  }

  /** The columns of `Client`. */
  function ClientColumns(): set<string> {
    {"id", "first_name", "last_name", "dob", "phone_number", "email", "location", "registered_by",
     "gender", "previous_prescription", "created_at", "updated_at", "last_examination_date",
     "visit_count", "reg_no"}
  }

  /** `ClientRegistrationSerializer.Meta.fields` as written, which lists `branch`. */
  function RegistrationFields(): set<string> {
    {"id", "reg_no", "first_name", "last_name", "dob", "phone_number", "email", "location", "branch",
     "registered_by", "gender", "visit_count", "previous_prescription", "last_examination_date"}
  }

  /** The serializer's fields without `branch`, which the rest of the model assumes. */
  function CorrectedRegistrationFields(): set<string> {
    RegistrationFields() - {"branch"}
  }

  /**
   * The status of a registration as written: a model serializer whose field list names a
   * field the model lacks raises `ImproperlyConfigured` when `is_valid()` builds its fields, so the
   * view answers with a server error.
   */
  function RegistrationStatusAsWritten(fields: set<string>, input: ClientInput, clients: map<Uuid, Client>): (status: int)
    ensures status in {201, 400, 500}
    ensures status == 201 <==>
      && fields <= ClientColumns() && RegistrationErrors(input, clients) == {}
      && (input.regNo.GetOr("") != "" || forall k | k in clients :: clients[k].regNo != "")
    ensures status == 400 <==> fields <= ClientColumns() && RegistrationErrors(input, clients) != {}
  {
    if fields <= ClientColumns() then StatusCode(RegistrationOutcome(input, clients)) else 500
  }

  /** With the field list as written, every registration fails, even one the corrected
      serializer accepts with 201. */
  lemma RegistrationAlwaysFailsAsWritten(input: ClientInput, clients: map<Uuid, Client>)
    ensures RegistrationStatusAsWritten(RegistrationFields(), input, clients) == 500
    ensures RegistrationOutcome(input, clients).Registered? ==>
      RegistrationStatusAsWritten(CorrectedRegistrationFields(), input, clients) == 201
  {
    assert "branch" in RegistrationFields() && "branch" !in ClientColumns();
    CorrectedFieldsAreColumns();
  }

  /** Without `branch` every serializer field is a column of `Client`. */
  lemma CorrectedFieldsAreColumns()
    ensures CorrectedRegistrationFields() <= ClientColumns()
  {
    forall n | n in CorrectedRegistrationFields()
      ensures n in ClientColumns()
    {
      assert n in RegistrationFields() && n != "branch";
    }
  }

  /**
   * `RegisterClientView.post`: validate, store the client with the receptionist as
   * `registered_by`, then create its first examination. A request that does not end in
   * `Registered` stores nothing. The serializer's field list is taken without `branch`
   * (`CorrectedRegistrationFields`); as written every request fails, see
   * `RegistrationAlwaysFailsAsWritten`.
   */
  method RegisterClient(db: Clinic, clientId: Uuid, examId: Uuid, input: ClientInput, user: Staff)
    returns (resp: RegisterResponse)
    requires db.Valid() && clientId !in db.clients && examId !in db.examinations
    modifies db
    ensures db.Valid()
    ensures resp == RegistrationOutcome(input, old(db.clients))
    ensures !resp.Registered? ==>
      db.clients == old(db.clients) && db.examinations == old(db.examinations) && db.sales == old(db.sales)
    ensures resp.Registered? ==>
      && input.dob.Some? && input.gender.Some? && GenderOf(input.gender.value).Some?
      && db.clients == old(db.clients)[clientId := NewClient(input, FullName(user.firstName, user.lastName))]
      && examId in db.examinations && fresh(db.examinations[examId])
      && db.examinations == old(db.examinations)[examId := db.examinations[examId]]
      && db.examinations[examId].Snapshot()
         == ExamRow(clientId, "", "", NoEyeFindings, NoEyeFindings, ExamState.Pending, false)
      && db.sales == old(db.sales)
  {
    var receptionist := FullName(user.firstName, user.lastName);
    resp := RegistrationOutcome(input, db.clients);
    if !resp.Registered? {
      return;
    }
    db.InsertClient(clientId, NewClient(input, receptionist));
    var exam := db.CreateExamination(examId, clientId);
  }

  // ---------------------------------------------------------------------------------------------
  // Completing an examination
  // ---------------------------------------------------------------------------------------------

  datatype Side = Right | Left

  /** The numeric refraction columns of one eye; all but `axis` are two-decimal `DecimalField`s. */
  datatype Measure = Sph | Cyl | Axis | Add | Ipd

  /** One entry of a (partial) `ExaminationSerializer` request body; the read-only fields are
      ignored by the serializer and do not appear. Decimals are in hundredths. */
  datatype ExamField =
    | ClientField(client: Uuid)
    | ExaminedByField(name: string)
    | ClinicalHistoryField(history: string)
    | MeasureField(side: Side, measure: Measure, value: Option<int>)
    | VaField(side: Side, va: string)
    | StateField(state: ExamState)
    | BookedForSalesField(booked: bool)

  /** The serializer field an entry sets. */
  datatype ExamAttr =
    | ClientAttr | ExaminedByAttr | ClinicalHistoryAttr | MeasureAttr(side: Side, measure: Measure)
    | VaAttr(side: Side) | StateAttr | BookedForSalesAttr

  function ExamKey(f: ExamField): ExamAttr {
    match f
    case ClientField(_) => ClientAttr
    case ExaminedByField(_) => ExaminedByAttr
    case ClinicalHistoryField(_) => ClinicalHistoryAttr
    case MeasureField(s, m, _) => MeasureAttr(s, m)
    case VaField(s, _) => VaAttr(s)
    case StateField(_) => StateAttr
    case BookedForSalesField(_) => BookedForSalesAttr
  }

  function ExamKeys(patch: seq<ExamField>): set<ExamAttr> {
    set f | f in patch :: ExamKey(f)
  }

  /** No later entry of the patch sets the same field as the one at `i`. */
  predicate LastForItsField(patch: seq<ExamField>, i: int)
    requires 0 <= i < |patch|
  {
    forall j | i < j < |patch| :: ExamKey(patch[j]) != ExamKey(patch[i])
  }

  /**
   * The request body as the serializer receives it, a dictionary: for each field only its last
   * entry survives. Keys are distinct, so the order of the entries (the serializer's field order
   * in DRF) does not matter; the model keeps the request's.
   */
  function ParsedPatch(patch: seq<ExamField>): (p: seq<ExamField>)
    ensures forall f | f in p :: f in patch
    ensures forall i, j | 0 <= i < j < |p| :: ExamKey(p[i]) != ExamKey(p[j])
  {
    if patch == [] then []
    else
      var rest := ParsedPatch(patch[1..]);
      if ExamKey(patch[0]) in ExamKeys(patch[1..]) then rest
      else
        assert forall f | f in rest :: ExamKey(f) != ExamKey(patch[0]);
        assert forall j | 0 <= j < |rest| :: rest[j] in rest;
        [patch[0]] + rest
  }

  /** The entry that sets a field last always reaches the serializer. */
  lemma {:induction false} ParsedPatchKeepsLast(patch: seq<ExamField>)
    ensures forall i | 0 <= i < |patch| && LastForItsField(patch, i) :: patch[i] in ParsedPatch(patch)
  {
    if patch != [] {
      ParsedPatchKeepsLast(patch[1..]);
      forall i | 0 <= i < |patch| && LastForItsField(patch, i)
        ensures patch[i] in ParsedPatch(patch)
      {
        if i > 0 {
          assert patch[1..][i - 1] == patch[i];
          assert LastForItsField(patch[1..], i - 1);
        }
      }
    }
  }

  /** An entry followed by a later one for the same field has no effect on what the serializer
      receives. */
  lemma EarlierExamEntryOverridden(f: ExamField, patch: seq<ExamField>)
    requires ExamKey(f) in ExamKeys(patch)
    ensures ParsedPatch([f] + patch) == ParsedPatch(patch)
  {
    assert ([f] + patch)[1..] == patch;
  }

  function MeasureName(m: Measure): string {
    match m
    case Sph => "sph"
    case Cyl => "cyl"
    case Axis => "axis"
    case Add => "add"
    case Ipd => "ipd"
  }

  function SideName(s: Side): string {
    match s
    case Right => "right_"
    case Left => "left_"
  }

  /** The serializer field an entry belongs to. */
  function ExamFieldName(f: ExamField): string {
    match f
    case ClientField(_) => "client"
    case ExaminedByField(_) => "examined_by"
    case ClinicalHistoryField(_) => "clinical_history"
    case MeasureField(s, m, _) => SideName(s) + MeasureName(m)
    case VaField(s, _) => SideName(s) + "va"
    case StateField(_) => "state"
    case BookedForSalesField(_) => "booked_for_sales"
  }

  /** Field validation: the client key resolves, text fits its column, `max_digits=5` decimals
      stay below 1000.00, and `axis` fits an `IntegerField`. */
  predicate ExamFieldValid(f: ExamField, clientIds: set<Uuid>) {
    match f
    case ClientField(u) => u in clientIds
    case ExaminedByField(n) => |n| <= 100
    case ClinicalHistoryField(_) => true
    case MeasureField(_, Axis, v) => v.Some? ==> -2147483648 <= v.value <= 2147483647
    case MeasureField(_, _, v) => v.Some? ==> -100000 < v.value < 100000
    case VaField(_, va) => |va| <= 20
    case StateField(_) => true
    case BookedForSalesField(_) => true
  }

  function ExamErrors(patch: seq<ExamField>, clientIds: set<Uuid>): (errs: set<string>)
    ensures errs == {} <==> forall f | f in patch :: ExamFieldValid(f, clientIds)
  {
    var errs := set f | f in patch && !ExamFieldValid(f, clientIds) :: ExamFieldName(f);
    assert forall f | f in patch && !ExamFieldValid(f, clientIds) :: ExamFieldName(f) in errs;
    errs
  }

  function SetMeasure(e: EyeFindings, m: Measure, v: Option<int>): EyeFindings {
    match m
    case Sph => e.(sph := v)
    case Cyl => e.(cyl := v)
    case Axis => e.(axis := v)
    case Add => e.(add := v)
    case Ipd => e.(ipd := v)
  }

  function SetEye(r: ExamRow, s: Side, e: EyeFindings): ExamRow {
    match s
    case Right => r.(right := e)
    case Left => r.(left := e)
  }

  function Eye(r: ExamRow, s: Side): EyeFindings {
    match s
    case Right => r.right
    case Left => r.left
  }

  /** `setattr(instance, attr, value)` for one entry. */
  function ApplyExamField(r: ExamRow, f: ExamField): ExamRow {
    match f
    case ClientField(u) => r.(client := u)
    case ExaminedByField(n) => r.(examinedBy := n)
    case ClinicalHistoryField(h) => r.(clinicalHistory := h)
    case MeasureField(s, m, v) => SetEye(r, s, SetMeasure(Eye(r, s), m, v))
    case VaField(s, va) => SetEye(r, s, Eye(r, s).(va := va))
    case StateField(st) => r.(state := st)
    case BookedForSalesField(b) => r.(bookedForSales := b)
  }

  /** Every entry of the patch assigned in order. */
  function ApplyExamFields(r: ExamRow, patch: seq<ExamField>): ExamRow {
    if patch == [] then r
    else ApplyExamField(ApplyExamFields(r, patch[..|patch| - 1]), patch[|patch| - 1])
  }

  /** The row `serializer.save(examined_by=..., state="Completed")` writes: the patch, with the
      two keyword arguments taking the place of whatever the patch says about them. */
  function CompletedRow(r: ExamRow, patch: seq<ExamField>, examiner: string): (s: ExamRow)
    ensures s.state == Completed && s.examinedBy == examiner
  {
    ApplyExamFields(r, patch).(examinedBy := examiner, state := Completed)
  }

  /** `r` and `s` agree on every column but `state` and `examined_by`. */
  predicate SameButStamp(r: ExamRow, s: ExamRow) {
    r.(state := ExamState.Pending, examinedBy := "") == s.(state := ExamState.Pending, examinedBy := "")
  }

  lemma {:induction false} ApplyKeepsSameButStamp(r: ExamRow, s: ExamRow, patch: seq<ExamField>)
    requires SameButStamp(r, s)
    ensures SameButStamp(ApplyExamFields(r, patch), ApplyExamFields(s, patch))
  {
    if patch != [] {
      var init := patch[..|patch| - 1];
      ApplyKeepsSameButStamp(r, s, init);
      ApplyOneKeepsSameButStamp(ApplyExamFields(r, init), ApplyExamFields(s, init), patch[|patch| - 1]);
    }
  }

  lemma ApplyOneKeepsSameButStamp(r: ExamRow, s: ExamRow, f: ExamField)
    requires SameButStamp(r, s)
    ensures SameButStamp(ApplyExamField(r, f), ApplyExamField(s, f))
  {
  }

  /** The current state and examiner never matter: completing a completed examination gives
      the same row as completing it the first time. */
  lemma CompletionIgnoresStamp(r: ExamRow, state: ExamState, examinedBy: string,
                               patch: seq<ExamField>, examiner: string)
    ensures CompletedRow(r.(state := state, examinedBy := examinedBy), patch, examiner)
         == CompletedRow(r, patch, examiner)
  {
    ApplyKeepsSameButStamp(r.(state := state, examinedBy := examinedBy), r, patch);
  }

  /** Whatever the body says about `state` or `examined_by` is overwritten. */
  lemma CompletionIgnoresBodyStamp(r: ExamRow, patch: seq<ExamField>, state: ExamState,
                                   name: string, examiner: string)
    ensures CompletedRow(r, patch + [StateField(state), ExaminedByField(name)], examiner)
         == CompletedRow(r, patch, examiner)
  {
    var p := patch + [StateField(state), ExaminedByField(name)];
    assert p[..|p| - 1] == patch + [StateField(state)];
    assert p[..|p| - 1][..|p| - 2] == patch;
    var a := ApplyExamFields(r, patch);
    assert ApplyExamFields(r, p[..|p| - 1]) == a.(state := state);
    assert ApplyExamFields(r, p) == a.(state := state, examinedBy := name);
  }

  /**
   * `RegisterClientExaminationView.post`: 404 for an unknown examination, 400 for an invalid
   * body, otherwise the body applied with state "Completed" and the user as examiner, whatever
   * the examination's current state. Only that examination changes, and only on 200. The
   * serializer sees the body as a dictionary, `ParsedPatch(patch)`.
   */
  method CompleteExamination(db: Clinic, id: Uuid, patch: seq<ExamField>, user: Staff)
    returns (status: int)
    requires db.Valid()
    modifies db.examinations.Values
    ensures db.Valid()
    ensures status == 404 <==> id !in db.examinations
    ensures status == 400 <==> id in db.examinations && ExamErrors(ParsedPatch(patch), db.clients.Keys) != {}
    ensures status == 200 || status == 400 || status == 404
    ensures status != 200 ==> forall e | e in db.examinations.Values :: unchanged(e)
    ensures status == 200 ==>
      && var exam := db.examinations[id];
      && exam.Snapshot() == CompletedRow(old(exam.Snapshot()), ParsedPatch(patch), FullName(user.firstName, user.lastName))
      && forall e | e in db.examinations.Values && e != exam :: unchanged(e)
  {
    if id !in db.examinations {
      return 404;
    }
    var exam := db.examinations[id];
    var examiner := FullName(user.firstName, user.lastName);
    var data := ParsedPatch(patch);
    if ExamErrors(data, db.clients.Keys) != {} {
      return 400;
    }
    PatchKeepsClient(exam.Snapshot(), data, db.clients.Keys);
    exam.Store(CompletedRow(exam.Snapshot(), data, examiner));
    status := 200;
  }

  /** A valid patch leaves the examination pointing at a known client. */
  lemma {:induction false} PatchKeepsClient(r: ExamRow, patch: seq<ExamField>, clientIds: set<Uuid>)
    requires r.client in clientIds
    requires forall f | f in patch :: ExamFieldValid(f, clientIds)
    ensures ApplyExamFields(r, patch).client in clientIds
  {
    if patch != [] {
      assert patch[|patch| - 1] in patch;
      PatchKeepsClient(r, patch[..|patch| - 1], clientIds);
    }
  }

  // ---------------------------------------------------------------------------------------------
  // Booking and listing
  // ---------------------------------------------------------------------------------------------

  /** `RetrieveClientExaminations.get`: 404 for an unknown client, otherwise exactly the
      examinations whose client is that client. */
  function ClientExaminations(db: Clinic, client: Uuid): (r: Result<set<Examination>, int>)
    reads db, db.examinations.Values
    ensures r.Failure? <==> client !in db.clients
    ensures r.Failure? ==> r.error == 404
    ensures r.Success? ==> forall e | e in r.value :: e in db.examinations.Values && e.client == client
    ensures r.Success? ==> forall e | e in db.examinations.Values && e.client == client :: e in r.value
  {
    if client !in db.clients then Failure(404)
    else Success(set e | e in db.examinations.Values && e.client == client)
  }

  /**
   * `BookExistingCientForExamination.post`: 404 for an unknown client, otherwise one new
   * examination for that client with every default; the client row (its `visit_count`
   * included), the other examinations and the sales stay as they were.
   */
  method BookExistingClient(db: Clinic, client: Uuid, examId: Uuid) returns (status: int)
    requires db.Valid() && examId !in db.examinations
    modifies db
    ensures db.Valid()
    ensures status == 404 <==> client !in db.clients
    ensures status == 404 || status == 201
    ensures db.clients == old(db.clients) && db.sales == old(db.sales)
    ensures status == 404 ==> db.examinations == old(db.examinations)
    ensures status == 201 ==>
      && examId in db.examinations && fresh(db.examinations[examId])
      && db.examinations == old(db.examinations)[examId := db.examinations[examId]]
      && db.examinations[examId].Snapshot()
         == ExamRow(client, "", "", NoEyeFindings, NoEyeFindings, ExamState.Pending, false)
      && ClientExaminations(db, client).Success?
      && ClientExaminations(db, client).value
         == old(ClientExaminations(db, client).value) + {db.examinations[examId]}
  {
    if client !in db.clients {
      return 404;
    }
    ghost var before := ClientExaminations(db, client).value;
    var exam := db.CreateExamination(examId, client);
    ghost var after := ClientExaminations(db, client).value;
    forall e | e in old(db.examinations.Values)
      ensures e in db.examinations.Values
    {
      var k :| k in old(db.examinations) && old(db.examinations)[k] == e;
      assert db.examinations[k] == e;
    }
    forall e | e in db.examinations.Values && e != exam
      ensures e in old(db.examinations.Values)
    {
      var k :| k in db.examinations && db.examinations[k] == e;
      assert k != examId;
      assert old(db.examinations)[k] == e;
    }
    forall e | e in after
      ensures e in before + {exam}
    {
      if e != exam {
        assert e in old(db.examinations.Values) && e.client == client;
      }
    }
    assert db.examinations[examId] == exam && exam.Snapshot().client == client;
    assert exam in after;
    assert after == before + {exam};
    status := 201;
  }
}
