/** Self-registration: role-dependent requirements, the ordered client-side
    checks (the first failing one is reported and nothing is sent), and the
    payload handed to the authentication provider. */
module Registration {
  import opened Wrappers
  import opened JsText
  import opened JsValue

  /** The form's fields. */
  datatype Field =
    | Name | Role | InstituteId | Password | Phone | AadhaarNumber | Department | RollNo
    | EmployeeId | Designation | Program | Year | Address | EmergencyContact | VehicleNumber
    | VehicleType | VehicleModel | VisitorPurpose | HostName | HostDepartment | HostContact

  /** The property name of a field, in the form and in the payload. */
  function Key(f: Field): string {
    match f
    case Name => "name"
    case Role => "role"
    case InstituteId => "institute_id"
    case Password => "password"
    case Phone => "phone"
    case AadhaarNumber => "aadhaar_number"
    case Department => "department"
    case RollNo => "roll_no"
    case EmployeeId => "employee_id"
    case Designation => "designation"
    case Program => "program"
    case Year => "year"
    case Address => "address"
    case EmergencyContact => "emergency_contact"
    case VehicleNumber => "vehicle_number"
    case VehicleType => "vehicle_type"
    case VehicleModel => "vehicle_model"
    case VisitorPurpose => "visitor_purpose"
    case HostName => "host_name"
    case HostDepartment => "host_department"
    case HostContact => "host_contact"
  }

  /** How the payload carries a field. */
  datatype Policy =
    | AsTyped       // the string as typed, untrimmed
    | Optional      // `form.x || null`
    | StudentOnly   // `form.role === 'Student' ? form.x : null`
    | EmployeeOnly  // `role !== 'Student' && role !== 'Visitor' ? form.x : null`

  function PolicyOf(f: Field): Policy {
    match f
    case Name | Role | Password | AadhaarNumber => AsTyped
    case RollNo => StudentOnly
    case EmployeeId => EmployeeOnly
    case _ => Optional
  }

  /** The form's fields, each a string as typed. */
  type RegisterForm = map<Field, string>

  predicate WellFormed(form: RegisterForm) {
    forall f: Field :: f in form
  }

  function InitialValue(f: Field): string {
    if f == Role then "Student" else ""
  }

  function InitialRegisterForm(): (r: RegisterForm)
    ensures WellFormed(r)
    ensures r[Role] == "Student"
    ensures forall f: Field | f != Role :: r[f] == ""
  {
    map f: Field :: InitialValue(f)
  }

  datatype Requirements = Requirements(
    rollNo: bool,
    employeeId: bool,
    designation: bool,
    visitorFields: bool,
    phoneRequired: bool)

  function RequirementsFor(role: string): Requirements {
    Requirements(
      role == "Student",
      role != "Student" && role != "Visitor",
      role == "Professor",
      role == "Visitor",
      role == "Visitor")
  }

  /** Every role needs exactly one of a roll number, an employee id or the
      visitor details; a designation is only ever asked of someone who
      also needs an employee id, and a phone exactly of visitors. */
  lemma RequirementsPartitionRoles(role: string)
    ensures var q := RequirementsFor(role);
            && (q.rollNo || q.employeeId || q.visitorFields)
            && !(q.rollNo && q.employeeId) && !(q.rollNo && q.visitorFields) && !(q.employeeId && q.visitorFields)
            && (q.designation ==> q.employeeId)
            && (q.phoneRequired <==> q.visitorFields)
            && (q.rollNo <==> role == "Student")
            && (q.visitorFields <==> role == "Visitor")
  {
  }

  /** `/^[0-9]{12}$/.test(aadhaar.replace(/\s/g, ''))`. */
  predicate AadhaarValid(aadhaar: string) {
    var digits := StripSpaces(aadhaar);
    |digits| == 12 && AllDigits(digits)
  }

  /** A trimmed form value is non-empty: `!!form[k].trim()`. */
  predicate Given(form: RegisterForm, f: Field)
    requires WellFormed(form)
  {
    !AllSpace(form[f])
  }

  /** The checks `handleSubmit` makes. */
  datatype Check =
    | NameGiven | ContactGiven | PasswordGiven | AadhaarWellFormed | RollNoGiven | EmployeeIdGiven
    | DesignationGiven | PurposeGiven | HostNameGiven | HostDepartmentGiven | VehicleNumberGiven

  /** The order in which they run. */
  const CheckOrder: seq<Check> := [
    NameGiven, ContactGiven, PasswordGiven, AadhaarWellFormed, RollNoGiven, EmployeeIdGiven,
    DesignationGiven, PurposeGiven, HostNameGiven, HostDepartmentGiven, VehicleNumberGiven
  ]

  /** Whether the form passes a check; checks that the role does not require
      pass trivially. */
  predicate Holds(form: RegisterForm, c: Check)
    requires WellFormed(form)
  {
    var q := RequirementsFor(form[Role]);
    match c
    case NameGiven => Given(form, Name)
    case ContactGiven =>
      if q.phoneRequired then Given(form, Phone) else Given(form, InstituteId) || Given(form, Phone)
    case PasswordGiven => form[Password] != ""
    case AadhaarWellFormed => AadhaarValid(form[AadhaarNumber])
    case RollNoGiven => !q.rollNo || Given(form, RollNo)
    case EmployeeIdGiven => !q.employeeId || Given(form, EmployeeId)
    case DesignationGiven => !q.designation || Given(form, Designation)
    case PurposeGiven => !q.visitorFields || Given(form, VisitorPurpose)
    case HostNameGiven => !q.visitorFields || Given(form, HostName)
    case HostDepartmentGiven => !q.visitorFields || Given(form, HostDepartment)
    case VehicleNumberGiven => Given(form, VehicleNumber)
  }

  /** The error a failing check throws. */
  function Message(role: string, c: Check): string {
    match c
    case NameGiven => "Name is required"
    case ContactGiven =>
      if RequirementsFor(role).phoneRequired then "Phone is required for visitors"
      else "User ID (Institute ID) or phone is required"
    case PasswordGiven => "Password is required"
    case AadhaarWellFormed => "Aadhaar must be exactly 12 digits"
    case RollNoGiven => "Roll No is required for students"
    case EmployeeIdGiven => "Employee ID is required"
    case DesignationGiven => "Designation is required for professors"
    case PurposeGiven => "Purpose is required for visitors"
    case HostNameGiven => "Host name is required for visitors"
    case HostDepartmentGiven => "Host department is required for visitors"
    case VehicleNumberGiven => "Vehicle number is required"
  }

  /** The first check from position `from` on that fails, if any. */
  function FirstFailureFrom(ok: Check -> bool, from: nat): (r: Option<Check>)
    requires from <= |CheckOrder|
    ensures r.None? <==> forall i | from <= i < |CheckOrder| :: ok(CheckOrder[i])
    ensures r.Some? ==> exists i | from <= i < |CheckOrder| :: CheckOrder[i] == r.value && !ok(r.value)
                                   && forall j | from <= j < i :: ok(CheckOrder[j])
    decreases |CheckOrder| - from
  {
    if from == |CheckOrder| then None
    else if !ok(CheckOrder[from]) then Some(CheckOrder[from])
    else FirstFailureFrom(ok, from + 1)
  }

  function Checks(form: RegisterForm): Check -> bool
    requires WellFormed(form)
  {
    c => Holds(form, c)
  }

  /** The message `handleSubmit` shows before sending anything: that of
      the first check, in running order, that fails. */
  function ValidateRegistration(form: RegisterForm): (r: Option<string>)
    requires WellFormed(form)
    ensures r.None? <==> forall i | 0 <= i < |CheckOrder| :: Holds(form, CheckOrder[i])
    ensures r.Some? ==> exists i | 0 <= i < |CheckOrder| :: !Holds(form, CheckOrder[i])
                                   && r.value == Message(form[Role], CheckOrder[i])
                                   && forall j | 0 <= j < i :: Holds(form, CheckOrder[j])
  {
    match FirstFailureFrom(Checks(form), 0)
    case None => None
    case Some(c) => Some(Message(form[Role], c))
  }

  /** A form that passes every check has a name, a password, a valid
      Aadhaar number and a vehicle number, and the role's own fields. */
  lemma ValidFormIsComplete(form: RegisterForm)
    requires WellFormed(form) && ValidateRegistration(form).None?
    ensures Given(form, Name) && Given(form, VehicleNumber) && AadhaarValid(form[AadhaarNumber])
            && form[Password] != ""
    ensures form[Role] == "Visitor" ==> Given(form, Phone) && Given(form, HostName)
                                        && Given(form, VisitorPurpose) && Given(form, HostDepartment)
    ensures form[Role] == "Student" ==> Given(form, RollNo)
    ensures form[Role] != "Student" && form[Role] != "Visitor" ==> Given(form, EmployeeId)
    ensures form[Role] == "Professor" ==> Given(form, Designation)
    ensures form[Role] != "Visitor" ==> Given(form, InstituteId) || Given(form, Phone)
  {
    assert Holds(form, CheckOrder[0]) && Holds(form, CheckOrder[1]) && Holds(form, CheckOrder[2]);
    assert Holds(form, CheckOrder[3]) && Holds(form, CheckOrder[4]) && Holds(form, CheckOrder[5]);
    assert Holds(form, CheckOrder[6]) && Holds(form, CheckOrder[7]) && Holds(form, CheckOrder[8]);
    assert Holds(form, CheckOrder[9]) && Holds(form, CheckOrder[10]);
  }

  /** `value || null` for a string. */
  function NullIfEmpty(s: string): (r: JValue)
    ensures r == JNull <==> s == ""
    ensures s != "" ==> r == JString(s)
  {
    if s == "" then JNull else JString(s)
  }

  /** The value a field takes in the payload. */
  function PayloadValue(form: RegisterForm, f: Field): (v: JValue)
    requires WellFormed(form)
    // name, role, password and the Aadhaar number go as typed, untrimmed
    ensures PolicyOf(f) == AsTyped ==> v == JString(form[f])
    // optional fields: empty becomes null, anything else passes untouched
    ensures PolicyOf(f) == Optional ==> v == NullIfEmpty(form[f])
    // the role decides which identifier is sent
    ensures f == RollNo ==> (v != JNull <==> form[Role] == "Student") && (v != JNull ==> v == JString(form[f]))
    ensures f == EmployeeId ==> (v == JNull <==> form[Role] == "Student" || form[Role] == "Visitor")
                                && (v != JNull ==> v == JString(form[f]))
  {
    var role := form[Role];
    match PolicyOf(f)
    case AsTyped => JString(form[f])
    case Optional => NullIfEmpty(form[f])
    case StudentOnly => if role == "Student" then JString(form[f]) else JNull
    case EmployeeOnly => if role != "Student" && role != "Visitor" then JString(form[f]) else JNull
  }

  /** The object passed to `register`: every field, keyed by `Key`. */
  function RegisterPayload(form: RegisterForm): (r: map<Field, JValue>)
    requires WellFormed(form)
    ensures forall f: Field :: f in r && r[f] == PayloadValue(form, f)
  {
    map f: Field :: PayloadValue(form, f)
  }

  datatype Submission = Invalid(message: string) | Send(payload: map<Field, JValue>)

  /** `handleSubmit`: validate, then build the payload. */
  function SubmitRegistration(form: RegisterForm): (r: Submission)
    requires WellFormed(form)
    ensures r.Invalid? <==> exists i | 0 <= i < |CheckOrder| :: !Holds(form, CheckOrder[i])
    // the message is that of the first check, in source order, that fails
    ensures r.Invalid? ==> exists i | 0 <= i < |CheckOrder| :: !Holds(form, CheckOrder[i])
                                      && r.message == Message(form[Role], CheckOrder[i])
                                      && forall j | 0 <= j < i :: Holds(form, CheckOrder[j])
    ensures r.Send? ==> r.payload == RegisterPayload(form)
  {
    match ValidateRegistration(form)
    case Some(message) => Invalid(message)
    case None => Send(RegisterPayload(form))
  }

  /** A submission that is sent passed every check. */
  lemma SentFormPassesChecks(form: RegisterForm)
    requires WellFormed(form) && SubmitRegistration(form).Send?
    ensures forall i | 0 <= i < |CheckOrder| :: Holds(form, CheckOrder[i])
  {
  }

  lemma VehicleNumberSent(form: RegisterForm)
    requires WellFormed(form) && Holds(form, VehicleNumberGiven)
    ensures RegisterPayload(form)[VehicleNumber] == JString(form[VehicleNumber]) && Given(form, VehicleNumber)
  {
    assert form[VehicleNumber] != "";
  }

  lemma VisitorPhoneSent(form: RegisterForm)
    requires WellFormed(form) && Holds(form, ContactGiven) && form[Role] == "Visitor"
    ensures RegisterPayload(form)[Phone] == JString(form[Phone]) && Given(form, Phone)
  {
    assert form[Phone] != "";
  }

  lemma RollNoSent(form: RegisterForm)
    requires WellFormed(form) && Holds(form, RollNoGiven) && form[Role] == "Student"
    ensures RegisterPayload(form)[RollNo] == JString(form[RollNo]) && Given(form, RollNo)
  {
  }

  lemma EmployeeIdSent(form: RegisterForm)
    requires WellFormed(form) && Holds(form, EmployeeIdGiven) && form[Role] != "Student" && form[Role] != "Visitor"
    ensures RegisterPayload(form)[EmployeeId] == JString(form[EmployeeId]) && Given(form, EmployeeId)
  {
  }

  /** Whatever is sent carries a vehicle number, a visitor's phone, and a
      non-blank roll number or employee id where the role demands one. */
  lemma SentPayloadMeetsRequirements(form: RegisterForm)
    requires WellFormed(form)
    requires SubmitRegistration(form).Send?
    ensures var p := SubmitRegistration(form).payload;
            && p[VehicleNumber] == JString(form[VehicleNumber]) && Given(form, VehicleNumber)
            && (form[Role] == "Visitor" ==> p[Phone] == JString(form[Phone]) && Given(form, Phone))
            && (form[Role] == "Student" ==> p[RollNo] == JString(form[RollNo]) && Given(form, RollNo))
            && (form[Role] != "Student" && form[Role] != "Visitor" ==>
                  p[EmployeeId] == JString(form[EmployeeId]) && Given(form, EmployeeId))
  {
    SentFormPassesChecks(form);
    assert CheckOrder[1] == ContactGiven && CheckOrder[4] == RollNoGiven;
    assert CheckOrder[5] == EmployeeIdGiven && CheckOrder[10] == VehicleNumberGiven;
    VehicleNumberSent(form);
    if form[Role] == "Visitor" {
      VisitorPhoneSent(form);
    } else if form[Role] == "Student" {
      RollNoSent(form);
    } else {
      EmployeeIdSent(form);
    }
  }

  /** A blank name is reported first, whatever else is missing. */
  lemma BlankNameReportedFirst(form: RegisterForm)
    requires WellFormed(form) && !Given(form, Name)
    ensures SubmitRegistration(form) == Invalid("Name is required")
  {
    assert !Holds(form, CheckOrder[0]);
  }

  /** The untouched form is one such. */
  lemma BlankFormReportsName()
    ensures SubmitRegistration(InitialRegisterForm()) == Invalid("Name is required")
  {
    assert AllSpace("");
    BlankNameReportedFirst(InitialRegisterForm());
  }
}
