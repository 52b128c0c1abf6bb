/** The medication detail card: a translate toggle with a language choice, the
    instructions in the original or translated form, a safety label and a mark-taken button. */
module MedCard {
  import opened Records

  /** The languages of the selector. */
  datatype Language = Es | Fr | Zh | Ar

  /** The option value sent with a translation request. */
  function Code(l: Language): string {
    match l
    case Es => "es"
    case Fr => "fr"
    case Zh => "zh"
    case Ar => "ar"
  }

  /** Each option value names one language. */
  lemma CodeInjective(l1: Language, l2: Language)
    requires Code(l1) == Code(l2)
    ensures l1 == l2
  {
    assert Code(l1)[0] == Code(l2)[0] && Code(l1)[1] == Code(l2)[1];
  }

  /** The instructions shown: the translation while it is shown and present (non-empty),
      otherwise the original. */
  function DisplayedInstructions(m: Medication, showTranslation: bool): (t: string)
    ensures !showTranslation ==> t == m.instructions
    ensures m.translatedInstructions.None? || m.translatedInstructions.value == "" ==> t == m.instructions
    ensures showTranslation && m.translatedInstructions.Some? && m.translatedInstructions.value != ""
            ==> t == m.translatedInstructions.value
  {
    if showTranslation && m.translatedInstructions.Some? && m.translatedInstructions.value != ""
    then m.translatedInstructions.value
    else m.instructions
  }

  /** The safety label: "safe" and "warning" have their own, every other status (or none)
      reads as a contraindication. */
  function SafetyLabel(status: Option<string>): (l: string)
    ensures l == "Safe" <==> status == Some("safe")
    ensures l == "Check Interactions" <==> status == Some("warning")
    ensures l == "Contraindication" <==> status != Some("safe") && status != Some("warning")
  {
    if status == Some("safe") then "Safe"
    else if status == Some("warning") then "Check Interactions"
    else "Contraindication"
  }

  /** The mark-taken button is disabled exactly for a taken medication; a click on the
      enabled button reports the medication's id. */
  function MarkTakenClick(m: Medication): (reported: Option<string>)
    ensures reported.None? <==> m.taken
    ensures reported.Some? ==> reported.value == m.id
  {
    if m.taken then None else Some(m.id)
  }

  class CardState {
    const medication: Medication
    var showTranslation: bool
    var selectedLanguage: Language

    constructor (medication: Medication)
      ensures this.medication == medication
      ensures !showTranslation && selectedLanguage == Es
    {
      this.medication := medication;
      showTranslation := false;
      selectedLanguage := Es;
    }

    /** `handleTranslate`: asks for a translation (id and language code) only when
        turning the translation on, and flips the toggle every time. */
    method HandleTranslate() returns (request: Option<(string, string)>)
      modifies this`showTranslation
      ensures showTranslation == !old(showTranslation)
      ensures request.Some? <==> !old(showTranslation)
      ensures request.Some? ==> request.value == (medication.id, Code(selectedLanguage))
    {
      if !showTranslation {
        request := Some((medication.id, Code(selectedLanguage)));
      } else {
        request := None;
      }
      showTranslation := !showTranslation;
    }

    /** The selector's `onChange`; choosing a language requests nothing by itself. */
    method SelectLanguage(l: Language)
      modifies this`selectedLanguage
      ensures selectedLanguage == l
    {
      selectedLanguage := l;
    }

    /** The language selector is rendered only while the translation is shown. */
    predicate LanguageSelectorShown()
      reads this
    {
      showTranslation
    }

    /** The instructions the card shows now. */
    function Instructions(): (t: string)
      reads this
      ensures !LanguageSelectorShown() ==> t == medication.instructions
      ensures t == DisplayedInstructions(medication, showTranslation)
    {
      DisplayedInstructions(medication, showTranslation)
    }
  }
}
