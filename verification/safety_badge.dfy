/** The AI safety badge: a label chosen by the status, and a popover with a heading, the
    message, the interaction list and an advisory, opened and closed by clicks. */
module AISafetyBadge {
  import opened Records

  /** The four configurations of `getStatusConfig`. */
  datatype Tone = SafeTone | WarningTone | DangerTone | UnknownTone

  /** `getStatusConfig`'s switch: "safe", "warning" and "danger" have their own
      configuration, every other status (or none) the unknown one. */
  function ToneOf(status: Option<string>): (t: Tone)
    ensures t == SafeTone <==> status == Some("safe")
    ensures t == WarningTone <==> status == Some("warning")
    ensures t == DangerTone <==> status == Some("danger")
  {
    if status == Some("safe") then SafeTone
    else if status == Some("warning") then WarningTone
    else if status == Some("danger") then DangerTone
    else UnknownTone
  }

  /** The badge label of a configuration. */
  function Label(t: Tone): string {
    match t
    case SafeTone => "Safe"
    case WarningTone => "Warning"
    case DangerTone => "Risk"
    case UnknownTone => "Unknown"
  }

  /** The status that selects a configuration (the unknown one is selected by none). */
  function StatusOf(t: Tone): Option<string> {
    match t
    case SafeTone => Some("safe")
    case WarningTone => Some("warning")
    case DangerTone => Some("danger")
    case UnknownTone => None
  }

  /** The four labels are distinct, so the label tells the configuration, and the status
      that selects a configuration selects it back. */
  lemma {:induction false} LabelsDistinct(t1: Tone, t2: Tone)
    ensures Label(t1) == Label(t2) ==> t1 == t2
    ensures ToneOf(StatusOf(t1)) == t1
  {
    match t1
    case SafeTone =>
      assert Label(t1)[0] == 'S';
    case WarningTone =>
      assert Label(t1)[0] == 'W';
    case DangerTone =>
      assert Label(t1)[0] == 'R';
    case UnknownTone =>
      assert Label(t1)[0] == 'U';
  }

  const NoIssuesHeading: string := "No Issues Detected"
  const ReviewHeading: string := "Please Review"
  const ActionHeading: string := "Action Required"

  /** The popover heading. */
  function Heading(status: Option<string>): (h: string)
    ensures h == NoIssuesHeading <==> status == Some("safe")
    ensures h == ReviewHeading <==> status == Some("warning")
    ensures h == ActionHeading <==> status != Some("safe") && status != Some("warning")
  {
    if status == Some("safe") then NoIssuesHeading
    else if status == Some("warning") then ReviewHeading
    else ActionHeading
  }

  const ConsultAdvice: string :=
    "Consult your healthcare provider if you have concerns about these interactions."
  const ContactAdvice: string :=
    "Contact your doctor or pharmacist immediately before taking this medication."

  /** The advisory box: none for "safe", the consult text for "warning", the contact text
      for every other status. */
  function Advisory(status: Option<string>): (a: Option<string>)
    ensures a.None? <==> status == Some("safe")
    ensures a == Some(ConsultAdvice) <==> status == Some("warning")
    ensures a == Some(ContactAdvice) <==> status != Some("safe") && status != Some("warning")
  {
    if status == Some("safe") then None
    else if status == Some("warning") then Some(ConsultAdvice)
    else Some(ContactAdvice)
  }

  /** The advisory appears exactly when the heading is not the all-clear one. */
  lemma AdvisoryMatchesHeading(status: Option<string>)
    ensures Advisory(status).None? <==> Heading(status) == NoIssuesHeading
  {
  }

  /** The interaction section: its header count and its items, in order. */
  datatype InteractionSection = InteractionSection(count: nat, items: seq<string>)

  /** Shown only for a non-empty list, counting every item and keeping their order. */
  function InteractionsOf(interactions: seq<string>): (s: Option<InteractionSection>)
    ensures s.None? <==> interactions == []
    ensures s.Some? ==> s.value.count == |interactions| && s.value.items == interactions
  {
    if |interactions| > 0 then Some(InteractionSection(|interactions|, interactions)) else None
  }

  /** The content of the open popover. */
  datatype Popover = Popover(heading: string, summary: Option<string>, interactions: Option<InteractionSection>, advisory: Option<string>)

  class BadgeState {
    const status: Option<string>
    const message: Option<string>
    const interactions: seq<string>
    const showDetails: bool
    var isExpanded: bool

    /** A badge with its props; `interactions` defaults to the empty list and
        `showDetails` to true in the source. */
    constructor (status: Option<string>, message: Option<string>, interactions: seq<string>, showDetails: bool)
      ensures this.status == status && this.message == message
      ensures this.interactions == interactions && this.showDetails == showDetails
      ensures !isExpanded
    {
      this.status := status;
      this.message := message;
      this.interactions := interactions;
      this.showDetails := showDetails;
      isExpanded := false;
    }

    /** A click on the badge: toggles the popover when details are enabled, else nothing. */
    method ClickBadge()
      modifies this`isExpanded
      ensures isExpanded == (if showDetails then !old(isExpanded) else old(isExpanded))
    {
      if showDetails {
        isExpanded := !isExpanded;
      }
    }

    /** A click on the backdrop or on the close button. */
    method Dismiss()
      modifies this`isExpanded
      ensures !isExpanded
    {
      isExpanded := false;
    }

    /** The badge's label. */
    function BadgeLabel(): (l: string)
      reads this
      ensures l == Label(ToneOf(status))
      ensures l == "Unknown" <==> status != Some("safe") && status != Some("warning") && status != Some("danger")
    {
      Label(ToneOf(status))
    }

    /** The popover, when visible: only while expanded with details enabled. */
    function PopoverShown(): (p: Option<Popover>)
      reads this
      ensures p.Some? <==> isExpanded && showDetails
      ensures p.Some? ==> p.value.heading == Heading(status) && p.value.advisory == Advisory(status)
      ensures p.Some? ==> p.value.interactions == InteractionsOf(interactions)
      ensures p.Some? ==> (p.value.summary.Some? <==> message.Some? && message.value != "")
      ensures p.Some? && p.value.summary.Some? ==> p.value.summary == message
    {
      if isExpanded && showDetails then
        var summary := if message.Some? && message.value != "" then message else None;
        Some(Popover(Heading(status), summary, InteractionsOf(interactions), Advisory(status)))
      else None
    }
  }
}
