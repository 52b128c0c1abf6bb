/** The add-medication modal: a draft edited field by field, a safety check that sends the
    draft and keeps the reply, and a submit that forwards the draft only when the reply
    allows it (a CRITICAL reply only after the user confirms). */
module AddMedModal {
  import opened Records
  import opened Text

  /** The draft's inputs. */
  datatype DraftField = DrugName | Dosage | Frequency | StartDate | Instructions

  /** The text of one input. */
  function Get(d: MedDraft, f: DraftField): string {
    match f
    case DrugName => d.drugName
    case Dosage => d.dosage
    case Frequency => d.frequency
    case StartDate => d.startDate
    case Instructions => d.instructions
  }

  /** `{ ...formData, [f]: v }`: the draft with one input replaced. */
  function With(d: MedDraft, f: DraftField, v: string): (e: MedDraft)
    ensures Get(e, f) == v
    ensures forall g :: g != f ==> Get(e, g) == Get(d, g)
  {
    match f
    case DrugName => d.(drugName := v)
    case Dosage => d.(dosage := v)
    case Frequency => d.(frequency := v)
    case StartDate => d.(startDate := v)
    case Instructions => d.(instructions := v)
  }

  /** The opening draft; `nowIso` is `new Date().toISOString()`, whose date part before
      the "T" is the default start date. */
  function InitialDraft(nowIso: string): (d: MedDraft)
    ensures d.drugName == "" && d.dosage == "" && d.instructions == ""
    ensures d.frequency == "Once daily"
    ensures d.startDate <= nowIso && 'T' !in d.startDate
    ensures |d.startDate| < |nowIso| ==> nowIso[|d.startDate|] == 'T'
  {
    MedDraft("", "", "Once daily", Split(nowIso, 'T')[0], "")
  }

  /** The reply the safety check stores when its call throws. */
  const NetworkErrorReply: AddReply := AddReply(None, Some("ERROR"), Some("Network error"))

  /** Whether the stored reply is CRITICAL (`safetyStatus?.status === 'CRITICAL'`). */
  predicate IsCritical(status: Option<AddReply>) {
    status.Some? && status.value.status == Some(Critical)
  }

  /** `handleSubmit`'s decision: a CRITICAL reply submits only when confirmed; otherwise a
      reply carrying a medication submits; otherwise nothing is submitted. */
  predicate SubmitDecision(status: Option<AddReply>, confirmed: bool) {
    if IsCritical(status) then confirmed
    else status.Some? && status.value.medication.Some?
  }

  /** Nothing is submitted before a safety reply is stored, and the confirmation only
      matters for a CRITICAL reply. */
  lemma SubmitNeedsReply(status: Option<AddReply>, confirmed: bool)
    ensures SubmitDecision(status, confirmed) ==> status.Some?
    ensures !IsCritical(status) ==> SubmitDecision(status, true) == SubmitDecision(status, false)
  {
  }

  /** Without a confirmation the form submits only for a reply that the application root
      counts as an added medication; with one, a CRITICAL reply is submitted although the
      root would count it as added only when it also carries a medication. */
  lemma {:induction false} UnconfirmedSubmitIsAdded(status: Option<AddReply>)
    requires SubmitDecision(status, false)
    ensures status.Some? && ClassifyAdd(status.value).Added?
  {
  }

  /** The two orders of testing disagree on a reply that carries a medication and a
      CRITICAL status: the form asks for a confirmation, the root prepends the medication. */
  lemma CriticalWithMedication(r: AddReply)
    requires r.medication.Some? && r.status == Some(Critical)
    ensures !SubmitDecision(Some(r), false) && SubmitDecision(Some(r), true)
    ensures ClassifyAdd(r).Added?
  {
  }

  /** Banner colours. */
  datatype Tone = Red | Yellow | Green | Gray

  /** The banner's colour for a stored reply. */
  function BannerTone(r: AddReply): (t: Tone)
    ensures t == Red <==> r.status == Some(Critical)
    ensures t == Yellow <==> r.status == Some("WARNING")
    ensures t == Green <==> r.status != Some(Critical) && r.status != Some("WARNING")
                            && (r.status == Some("SAFE") || r.medication.Some?)
  {
    if r.status == Some(Critical) then Red
    else if r.status == Some("WARNING") then Yellow
    else if r.status == Some("SAFE") || r.medication.Some? then Green
    else Gray
  }

  /** The banner's text: the reply's message, or a default when it has none. */
  function BannerText(r: AddReply): (t: string)
    ensures t != ""
    ensures r.message.Some? && r.message.value != "" ==> t == r.message.value
    ensures r.message.None? || r.message.value == "" ==> t == "Medication added safely!"
  {
    match r.message
    case Some(m) => if m == "" then "Medication added safely!" else m
    case None => "Medication added safely!"
  }

  /** A gray banner means the Add button submits nothing, whatever the confirmation, and
      the root would refuse such a reply; a red banner is exactly a reply that needs one. */
  lemma BannerAgreesWithSubmit(r: AddReply, confirmed: bool)
    ensures BannerTone(r) == Gray ==> !SubmitDecision(Some(r), confirmed) && ClassifyAdd(r).Refused?
    ensures BannerTone(r) == Red <==> IsCritical(Some(r))
  {
  }

  class AddMedState {
    var form: MedDraft
    var safetyStatus: Option<AddReply>
    var checking: bool

    constructor (nowIso: string)
      ensures form == InitialDraft(nowIso) && safetyStatus == None && !checking
    {
      form := InitialDraft(nowIso);
      safetyStatus := None;
      checking := false;
    }

    /** An input's `onChange`: replaces that field only. */
    method Edit(f: DraftField, v: string)
      modifies this`form
      ensures form == With(old(form), f, v)
    {
      form := With(form, f, v);
    }

    /** The part of `checkSafety` before the call: with a drug name and a dosage it marks
        the check as running, clears the stored reply and sends the current draft;
        otherwise it does nothing. */
    method BeginCheck() returns (sent: Option<MedDraft>)
      modifies this`checking, this`safetyStatus
      ensures sent.Some? <==> form.drugName != "" && form.dosage != ""
      ensures sent.Some? ==> sent.value == form && checking && safetyStatus == None
      ensures sent.None? ==> checking == old(checking) && safetyStatus == old(safetyStatus)
    {
      if form.drugName == "" || form.dosage == "" {
        return None;
      }
      checking := true;
      safetyStatus := None;
      sent := Some(form);
    }

    /** The part of `checkSafety` after the call: stores the reply (a `null` body stores
        none), or the network-error reply when the call threw; the check is over either way. */
    method EndCheck(reply: Call<Option<AddReply>>)
      modifies this`checking, this`safetyStatus
      ensures !checking
      ensures safetyStatus == (if reply.Answered? then reply.body else Some(NetworkErrorReply))
    {
      if reply.Answered? {
        safetyStatus := reply.body;
      } else {
        safetyStatus := Some(NetworkErrorReply);
      }
      checking := false;
    }

    /** `checkSafety` from start to end; the draft is never changed by it. */
    method CheckSafety(reply: Call<Option<AddReply>>) returns (sent: Option<MedDraft>)
      modifies this`checking, this`safetyStatus
      ensures sent.Some? <==> form.drugName != "" && form.dosage != ""
      ensures sent.Some? ==> sent.value == form && !checking
      ensures sent.Some? ==> safetyStatus == (if reply.Answered? then reply.body else Some(NetworkErrorReply))
      ensures sent.None? ==> checking == old(checking) && safetyStatus == old(safetyStatus)
    {
      sent := BeginCheck();
      if sent.Some? {
        EndCheck(reply);
      }
    }

    /** `handleSubmit`: the draft handed to `onSubmit`, if any; `confirmed` is the answer
        `window.confirm` would give. */
    function Submit(confirmed: bool): (sent: Option<MedDraft>)
      reads this
      ensures sent.Some? <==> SubmitDecision(safetyStatus, confirmed)
      ensures sent.Some? ==> sent.value == form
    {
      if SubmitDecision(safetyStatus, confirmed) then Some(form) else None
    }

    /** The Check Safety button is disabled while checking or without a name and a dosage;
        when it is enabled, a click starts a check. */
    function CheckButtonDisabled(): (disabled: bool)
      reads this
      ensures !disabled <==> !checking && form.drugName != "" && form.dosage != ""
    {
      checking || form.drugName == "" || form.dosage == ""
    }

    /** The Add Medication button is disabled without a stored reply or while checking. */
    function AddButtonDisabled(): (disabled: bool)
      reads this
      ensures disabled <==> safetyStatus.None? || checking
      ensures !disabled ==> safetyStatus.Some?
    {
      safetyStatus.None? || checking
    }

    /** The banner: shown exactly when a reply is stored. */
    function Banner(): (b: Option<(Tone, string)>)
      reads this
      ensures b.Some? <==> safetyStatus.Some?
      ensures b.Some? ==> b.value == (BannerTone(safetyStatus.value), BannerText(safetyStatus.value))
    {
      match safetyStatus
      case Some(r) => Some((BannerTone(r), BannerText(r)))
      case None => None
    }
  }
}
