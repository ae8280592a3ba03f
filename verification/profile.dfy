/** The profile page: a form seeded from the signed-in user, the role flags
    that decide which fields are editable, and the payload handed to
    `updateProfile`. */
module Profile {
  import opened Wrappers
  import opened JsValue
  import Auth

  /** The form's fields. */
  datatype Field =
    | Name | Role | InstituteId | Phone | Department | RollNo | EmployeeId | Designation
    | Program | Year | Address | EmergencyContact | LicenseNumber | VehicleNumber | VehicleType
    | VehicleModel | VisitorPurpose | HostName | HostDepartment | HostContact
    | CurrentPassword | NewPassword

  /** The property name of a field, on the user object and in the payload. */
  function Key(f: Field): string {
    match f
    case Name => "name"
    case Role => "role"
    case InstituteId => "institute_id"
    case Phone => "phone"
    case Department => "department"
    case RollNo => "roll_no"
    case EmployeeId => "employee_id"
    case Designation => "designation"
    case Program => "program"
    case Year => "year"
    case Address => "address"
    case EmergencyContact => "emergency_contact"
    case LicenseNumber => "license_number"
    case VehicleNumber => "vehicle_number"
    case VehicleType => "vehicle_type"
    case VehicleModel => "vehicle_model"
    case VisitorPurpose => "visitor_purpose"
    case HostName => "host_name"
    case HostDepartment => "host_department"
    case HostContact => "host_contact"
    case CurrentPassword => "current_password"
    case NewPassword => "new_password"
  }

  /** How `handleSubmit` treats a field. */
  datatype Group =
    | ReadOnly      // shown but never sent
    | AsTyped       // sent unchanged
    | Shared        // `form.x || null` for every role
    | StudentOnly   // `showStudent ? (form.x || null) : null`
    | EmployeeOnly  // `showEmployeeLike ? (form.x || null) : null`
    | VisitorOnly   // `showVisitor ? (form.x || null) : null`
    | Password      // sent only with a new password

  function GroupOf(f: Field): Group {
    match f
    case Role | InstituteId => ReadOnly
    case Name => AsTyped
    case Phone | Department | Address | EmergencyContact | LicenseNumber
       | VehicleNumber | VehicleType | VehicleModel => Shared
    case RollNo | Program | Year => StudentOnly
    case EmployeeId | Designation => EmployeeOnly
    case VisitorPurpose | HostName | HostDepartment | HostContact => VisitorOnly
    case CurrentPassword | NewPassword => Password
  }

  /** Form values are whatever `user?.field || ''` produced: usually strings,
      but a truthy number or other value from the backend is kept as is. */
  type ProfileForm = map<Field, JValue>

  predicate WellFormed(form: ProfileForm) {
    forall f: Field :: f in form
  }

  /** `initial`: every user field, or `''` when the user lacks it (or holds a
      falsy value), and blank password fields. */
  function InitialProfileForm(user: Option<JValue>): (r: ProfileForm)
    ensures WellFormed(r)
    ensures forall f: Field | GroupOf(f) != Password ::
              r[f] == if Truthy(OptMember(user, Key(f))) then OptMember(user, Key(f)).value else JString("")
    ensures r[CurrentPassword] == JString("") && r[NewPassword] == JString("")
  {
    map f: Field :: if GroupOf(f) == Password then JString("") else Or(OptMember(user, Key(f)), Str("")).value
  }

  predicate ShowStudent(role: JValue) {
    role == JString("Student")
  }

  predicate ShowEmployeeLike(role: JValue) {
    role == JString("Professor") || role == JString("Employee") || role == JString("Worker")
  }

  predicate ShowVisitor(role: JValue) {
    role == JString("Visitor")
  }

  /** At most one group of role-specific fields is shown, and a role outside
      the five known ones shows none. */
  lemma RoleFlagsExclusive(role: JValue)
    ensures !(ShowStudent(role) && ShowEmployeeLike(role))
    ensures !(ShowStudent(role) && ShowVisitor(role))
    ensures !(ShowEmployeeLike(role) && ShowVisitor(role))
    ensures role !in {JString("Student"), JString("Professor"), JString("Employee"), JString("Worker"), JString("Visitor")} ==>
              !ShowStudent(role) && !ShowEmployeeLike(role) && !ShowVisitor(role)
  {
  }

  /** `x || null` for a form value. */
  function OrNull(v: JValue): (r: JValue)
    ensures Truthy(Some(v)) ==> r == v
    ensures !Truthy(Some(v)) ==> r == JNull
  {
    Or(Some(v), Some(JNull)).value
  }

  /** Whether the role shows the field's group. */
  predicate Shown(role: JValue, g: Group) {
    match g
    case StudentOnly => ShowStudent(role)
    case EmployeeOnly => ShowEmployeeLike(role)
    case VisitorOnly => ShowVisitor(role)
    case _ => true
  }

  /** Sent in every payload: everything but the read-only and password fields. */
  predicate Editable(f: Field) {
    GroupOf(f) != ReadOnly && GroupOf(f) != Password
  }

  /** What an editable field carries in the payload. */
  function PayloadValue(form: ProfileForm, f: Field): (v: JValue)
    requires WellFormed(form) && Editable(f)
    ensures GroupOf(f) == AsTyped ==> v == form[f]
    ensures GroupOf(f) == Shared ==> v == OrNull(form[f])
    // a role-specific field is null unless the role shows it
    ensures GroupOf(f) != AsTyped && GroupOf(f) != Shared ==>
              v == if Shown(form[Role], GroupOf(f)) then OrNull(form[f]) else JNull
  {
    if GroupOf(f) == AsTyped then form[f]
    else if Shown(form[Role], GroupOf(f)) then OrNull(form[f])
    else JNull
  }

  /** The fields `handleSubmit` sends: the editable ones, and the two
      password fields when a new password was typed. */
  predicate Sent(form: ProfileForm, f: Field)
    requires WellFormed(form)
  {
    Editable(f) || (GroupOf(f) == Password && Truthy(Some(form[NewPassword])))
  }

  /** `handleSubmit`'s payload. */
  function ProfilePayload(form: ProfileForm): (r: map<Field, JValue>)
    requires WellFormed(form)
    ensures forall f: Field :: f in r <==> Sent(form, f)
    ensures forall f: Field | Editable(f) :: f in r && r[f] == PayloadValue(form, f)
    // the current password goes as `|| null`, the new one as typed
    ensures NewPassword in r ==> CurrentPassword in r && r[NewPassword] == form[NewPassword]
                                 && r[CurrentPassword] == OrNull(form[CurrentPassword])
  {
    var base := map f: Field | Editable(f) :: PayloadValue(form, f);
    if Truthy(Some(form[NewPassword])) then
      base[CurrentPassword := OrNull(form[CurrentPassword])][NewPassword := form[NewPassword]]
    else base
  }

  /** The payload never carries the role or the institute id, and a
      role-specific field is non-null only for the role that shows it. */
  lemma PayloadRespectsRole(form: ProfileForm)
    requires WellFormed(form)
    ensures var p := ProfilePayload(form);
            && Role !in p && InstituteId !in p
            && (forall f: Field | GroupOf(f) == StudentOnly :: p[f] != JNull ==> ShowStudent(form[Role]))
            && (forall f: Field | GroupOf(f) == EmployeeOnly :: p[f] != JNull ==> ShowEmployeeLike(form[Role]))
            && (forall f: Field | GroupOf(f) == VisitorOnly :: p[f] != JNull ==> ShowVisitor(form[Role]))
  {
  }

  /** The page's notice after `updateProfile` settles. */
  datatype Notice = Saved | SaveFailed(error: JValue)

  /** The success branch's `setForm`: blank the passwords, keep the rest. */
  function ClearPasswords(form: ProfileForm): (r: ProfileForm)
    requires WellFormed(form)
    ensures WellFormed(r)
    ensures r[CurrentPassword] == JString("") && r[NewPassword] == JString("")
    ensures forall f: Field | GroupOf(f) != Password :: r[f] == form[f]
  {
    form[CurrentPassword := JString("")][NewPassword := JString("")]
  }

  /** `handleSubmit` after the payload is sent, with what `updateProfile`
      answered. */
  function AfterUpdate(form: ProfileForm, outcome: Auth.Outcome): (r: (ProfileForm, Notice))
    requires WellFormed(form)
    ensures outcome.Success? ==> r == (ClearPasswords(form), Saved)
    ensures outcome.Failure? ==> r == (form, SaveFailed(outcome.error))
  {
    match outcome
    case Success => (ClearPasswords(form), Saved)
    case Failure(error) => (form, SaveFailed(error))
  }

  /** After a successful save the form sends the same details again, now
      without any password change. */
  lemma SavedFormResendsWithoutPasswords(form: ProfileForm)
    requires WellFormed(form)
    ensures var again := ProfilePayload(AfterUpdate(form, Auth.Success).0);
            && (forall f: Field :: f in again <==> Editable(f))
            && forall f: Field | Editable(f) :: again[f] == ProfilePayload(form)[f]
  {
    var cleared := ClearPasswords(form);
    assert !Truthy(Some(cleared[NewPassword]));
    assert cleared[Role] == form[Role];
  }

  /** Opening the page for a user and saving unchanged sends no password
      fields. */
  lemma UntouchedFormSendsNoPassword(user: Option<JValue>)
    ensures forall f: Field :: f in ProfilePayload(InitialProfileForm(user)) <==> Editable(f)
  {
  }
}
