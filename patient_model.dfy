/** The patient record and its derived values (app/app/models/patient.py). */
module PatientModel {
  import opened Common

  /** A calendar date, `datetime.date`. */
  datatype Date = Date(year: int, month: int, day: int)

  /** Python's tuple order on `(month, day)`. */
  predicate MonthDayBefore(a: Date, b: Date) {
    a.month < b.month || (a.month == b.month && a.day < b.day)
  }

  /** Calendar order on dates. */
  predicate DateLe(a: Date, b: Date) {
    a.year < b.year || (a.year == b.year && (a == b || MonthDayBefore(a, b)))
  }

  datatype Patient = Patient(
    id: Id,
    firstName: string,
    lastName: string,
    dateOfBirth: Date,
    gender: Option<string>,
    contactInfo: Option<JsonObject>,   // {"email": ..., "phone": ..., "address": {...}}
    email: Option<string>,             // legacy contact fields
    phone: Option<string>,
    medicalRecordNumber: Option<string>,
    consentGiven: Option<bool>,
    consentDate: Option<int>,
    consentDocumentPath: Option<string>,
    notes: Option<string>,
    riskFactors: Option<JsonObject>,
    isActive: bool,
    createdAt: int)

  /** A patient row as inserted with the column defaults: no consent, active,
      empty contact info and risk factors. */
  function NewPatient(id: Id, firstName: string, lastName: string, dateOfBirth: Date, now: int): (p: Patient)
    ensures p.consentGiven == Some(false) && p.consentDate == None
    ensures p.isActive
    ensures p.contactInfo == Some(map[]) && p.riskFactors == Some(map[])
    ensures p.email == None && p.phone == None && p.medicalRecordNumber == None && p.notes == None
    ensures p.id == id && p.firstName == firstName && p.lastName == lastName && p.dateOfBirth == dateOfBirth
    ensures p.createdAt == now
  {
    Patient(id, firstName, lastName, dateOfBirth, None, Some(map[]), None, None, None,
            Some(false), None, None, None, Some(map[]), true, now)
  }

  /** `full_name`: first name, one space, last name. */
  function FullName(p: Patient): (name: string)
    ensures |name| == |p.firstName| + 1 + |p.lastName|
    ensures name[..|p.firstName|] == p.firstName
    ensures name[|p.firstName|] == ' '
    ensures name[|p.firstName| + 1..] == p.lastName
  {
    p.firstName + " " + p.lastName
  }

  /** `get_age` on the date `today`: the difference of the years, less one
      while this year's birthday is still ahead. */
  function GetAge(born: Date, today: Date): (age: int)
    ensures MonthDayBefore(today, born) ==> age == today.year - born.year - 1
    ensures !MonthDayBefore(today, born) ==> age == today.year - born.year
  {
    today.year - born.year - (if MonthDayBefore(today, born) then 1 else 0)
  }

  /** Nobody born on or before today has a negative age. */
  lemma AgeNonNegative(born: Date, today: Date)
    requires DateLe(born, today)
    ensures GetAge(born, today) >= 0
  {
  }

  /** On the birthday the age is exactly one more than on any earlier day of
      that year. */
  lemma AgeStepsOnBirthday(born: Date, year: int, earlier: Date)
    requires earlier.year == year && MonthDayBefore(earlier, born)
    ensures GetAge(born, Date(year, born.month, born.day)) == GetAge(born, earlier) + 1
    ensures GetAge(born, Date(year, born.month, born.day)) == year - born.year
  {
  }

  /** Age never decreases as the calendar moves on. */
  lemma AgeMonotonic(born: Date, t1: Date, t2: Date)
    requires DateLe(t1, t2)
    ensures GetAge(born, t1) <= GetAge(born, t2)
  {
    if t1.year == t2.year && t1 != t2 {
      assert MonthDayBefore(t1, t2);
    }
  }

  /** The e-mail stored in `contact_info`, when it is there and truthy. */
  predicate HasContactEmail(p: Patient) {
    && p.contactInfo.Some?
    && "email" in p.contactInfo.value
    && Truthy(p.contactInfo.value["email"])
  }

  /** `get_contact_email`: the `contact_info` e-mail first, whatever JSON value
      it holds, then the legacy `email` column, else the empty string. */
  function GetContactEmail(p: Patient): (e: Json)
    ensures HasContactEmail(p) ==> e == p.contactInfo.value["email"]
    ensures !HasContactEmail(p) && p.email.Some? ==> e == JStr(p.email.value)
    ensures !HasContactEmail(p) && p.email.None? ==> e == JStr("")
    ensures Truthy(e) || e == JStr("")
    ensures !Truthy(e) <==> !HasContactEmail(p) && (p.email.None? || p.email.value == "")
  {
    if HasContactEmail(p) then p.contactInfo.value["email"]
    else if p.email.Some? then JStr(p.email.value)
    else JStr("")
  }
}
