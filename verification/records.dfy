/** The values that travel between the front-end and the remote medication service, and
    between the components: JSON bodies as datatypes, JSON `null` or an absent key as `None`. */
module Records {

  datatype Option<+T> = None | Some(value: T) {
    function GetOr(default: T): T {
      match this
      case Some(v) => v
      case None => default
    }
  }

  /** The result of an awaited remote call: the promise rejected (the service was
      unreachable, or the body did not parse as JSON), or it settled with a parsed body. */
  datatype Call<+T> = Threw | Answered(body: T)

  /** One entry of `ai_schedule.schedule`. */
  datatype Dose = Dose(time: Option<string>)

  /** `ai_schedule`, attached to a medication by the service. */
  datatype AiSchedule = AiSchedule(schedule: Option<seq<Dose>>)

  /** A medication as the service returns it. The identifier is assigned by the service.
      The dashboard shows `drug_name`, the detail card shows `name`. */
  datatype Medication = Medication(
    id: string,
    drugName: string,
    name: string,
    dosage: string,
    frequency: string,
    instructions: string,
    taken: bool,
    safetyStatus: Option<string>,
    nextDose: Option<string>,
    translatedInstructions: Option<string>,
    aiSchedule: Option<AiSchedule>)

  /** The onboarding form's draft: every field is the raw text of its input. */
  datatype ProfileDraft = ProfileDraft(name: string, age: string, allergies: string, conditions: string)

  /** A profile as the service's profile-get returns it (the age, a JSON number, is not read
      by the client and is not modelled). */
  datatype ProfileBody = ProfileBody(name: Option<string>, allergies: seq<string>, conditions: seq<string>)

  /** What the application root keeps as the profile: the fetched body, or, after
      onboarding, the form draft exactly as it was entered. */
  datatype Profile = Fetched(body: ProfileBody) | Entered(draft: ProfileDraft)

  /** The `name` of a stored profile. */
  function NameOf(p: Profile): (n: Option<string>)
    ensures p.Entered? ==> n == Some(p.draft.name)
    ensures p.Fetched? ==> n == p.body.name
  {
    match p
    case Fetched(b) => b.name
    case Entered(d) => Some(d.name)
  }

  /** The add-medication form's draft. */
  datatype MedDraft = MedDraft(drugName: string, dosage: string, frequency: string, startDate: string, instructions: string)

  /** A reply of the add endpoint: a `medication` when it was added, otherwise a `status`
      (such as "CRITICAL") and a `message`. The same shape serves the add form's safety check. */
  datatype AddReply = AddReply(medication: Option<Medication>, status: Option<string>, message: Option<string>)

  const Critical: string := "CRITICAL"

  /** The three outcomes of an add reply, in the order the application root tests them. */
  datatype AddOutcome = Added(medication: Medication) | Blocked | Refused

  /** Classifies an add reply: a present `medication` wins, then a CRITICAL status, then anything else. */
  function ClassifyAdd(r: AddReply): (o: AddOutcome)
    ensures o.Added? <==> r.medication.Some?
    ensures o.Added? ==> o.medication == r.medication.value
    ensures o.Blocked? <==> r.medication.None? && r.status == Some(Critical)
  {
    if r.medication.Some? then Added(r.medication.value)
    else if r.status == Some(Critical) then Blocked
    else Refused
  }
}
