/**
 * The records the pages and the session work on, as values. Dates are
 * integer timestamps (milliseconds since the epoch) instead of ISO-8601
 * strings; string unions become datatypes whose `Name()` is the string the
 * source compares against.
 */
module Types {
  import opened Wrappers

  /** Milliseconds since the epoch. */
  type Timestamp = int

  datatype UserType = Student | Company | Admin {
    function Name(): string {
      match this
      case Student => "student"
      case Company => "company"
      case Admin => "admin"
    }
  }

  datatype User = User(
    id: string,
    email: string,
    name: string,
    userType: UserType,
    createdAt: Timestamp,
    updatedAt: Timestamp)

  datatype SalaryPeriod = Hourly | Monthly

  datatype Salary = Salary(amount: int, period: SalaryPeriod)

  datatype InternshipStatus = Draft | Published | Closed {
    function Name(): string {
      match this
      case Draft => "draft"
      case Published => "published"
      case Closed => "closed"
    }
  }

  datatype Internship = Internship(
    id: string,
    companyId: string,
    title: string,
    description: string,
    requirements: seq<string>,
    responsibilities: seq<string>,
    location: string,
    isRemote: bool,
    salary: Salary,
    startDate: Timestamp,
    endDate: Timestamp,
    hoursPerWeek: int,
    applicationDeadline: Timestamp,
    industry: string,
    skills: seq<string>,
    status: InternshipStatus,
    createdAt: Timestamp,
    updatedAt: Timestamp)

  datatype ApplicationStatus = Pending | Reviewing | Interview | Accepted | Rejected {
    function Name(): string {
      match this
      case Pending => "pending"
      case Reviewing => "reviewing"
      case Interview => "interview"
      case Accepted => "accepted"
      case Rejected => "rejected"
    }
  }

  datatype Application = Application(
    id: string,
    internshipId: string,
    studentId: string,
    status: ApplicationStatus,
    coverLetter: Option<string>,
    appliedAt: Timestamp,
    updatedAt: Timestamp)

  datatype ScoutStatus = Sent | Read | Responded | ScoutAccepted | ScoutRejected

  datatype Scout = Scout(
    id: string,
    companyId: string,
    studentId: string,
    internshipId: Option<string>,
    message: string,
    status: ScoutStatus,
    createdAt: Timestamp,
    updatedAt: Timestamp)

  /** The string tags of each union are pairwise different, so comparing tags compares values. */
  lemma NamesDistinct()
    ensures forall a: UserType, b: UserType :: a.Name() == b.Name() ==> a == b
    ensures forall a: InternshipStatus, b: InternshipStatus :: a.Name() == b.Name() ==> a == b
    ensures forall a: ApplicationStatus, b: ApplicationStatus :: a.Name() == b.Name() ==> a == b
  {
  }
}
