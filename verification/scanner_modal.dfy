/** The scanner modal: a picker, a processing spinner while the image is sent for
    extraction, the editable extracted fields, and an error message after a failed
    extraction. */
module ScannerModal {
  import opened Records

  /** The fields the extraction returns; `confidence` is a score in [0, 1]. */
  datatype Extracted = Extracted(name: string, dosage: string, frequency: string, instructions: string, confidence: real)

  /** The editable extracted fields. */
  datatype ExtractedField = Name | Dosage | Frequency | Instructions

  /** The text of one extracted field. */
  function Get(d: Extracted, f: ExtractedField): string {
    match f
    case Name => d.name
    case Dosage => d.dosage
    case Frequency => d.frequency
    case Instructions => d.instructions
  }

  /** `{ ...extractedData, [f]: v }`. */
  function With(d: Extracted, f: ExtractedField, v: string): (e: Extracted)
    ensures Get(e, f) == v && e.confidence == d.confidence
    ensures forall g :: g != f ==> Get(e, g) == Get(d, g)
  {
    match f
    case Name => d.(name := v)
    case Dosage => d.(dosage := v)
    case Frequency => d.(frequency := v)
    case Instructions => d.(instructions := v)
  }

  datatype Tier = High | Medium

  /** The confidence tier: high from 0.8 up, medium below. */
  function TierOf(confidence: real): (t: Tier)
    ensures t == High <==> confidence >= 0.8
  {
    if confidence >= 0.8 then High else Medium
  }

  /** A higher confidence never has a lower tier. */
  lemma TierMonotone(c1: real, c2: real)
    requires c1 <= c2 && TierOf(c1) == High
    ensures TierOf(c2) == High
  {
  }

  const ExtractionFailedMessage: string :=
    "Failed to extract medication information. Please try again or enter manually."

  /** The callbacks a click hands to the parent, in order. */
  datatype ParentCall = UseExtracted(data: Extracted) | Close

  class ScannerState {
    var isProcessing: bool
    var extractedData: Option<Extracted>
    var error: Option<string>
    var previewUrl: Option<string>

    /** While processing there is neither a result nor an error, and a result and an
        error are never shown together. */
    ghost predicate Valid()
      reads this
    {
      (isProcessing ==> extractedData.None? && error.None?)
      && (extractedData.Some? ==> error.None?)
    }

    constructor ()
      ensures Valid()
      ensures !isProcessing && extractedData.None? && error.None? && previewUrl.None?
    {
      isProcessing := false;
      extractedData := None;
      error := None;
      previewUrl := None;
    }

    /** The picker (camera and upload buttons). */
    predicate PickerShown()
      reads this
    {
      extractedData.None? && !isProcessing
    }

    /** The processing spinner. */
    predicate ProcessingShown()
      reads this
    {
      isProcessing
    }

    /** The extracted-fields panel. */
    predicate ResultShown()
      reads this
    {
      extractedData.Some?
    }

    /** The error panel. */
    predicate ErrorShown()
      reads this
    {
      error.Some?
    }

    /** The part of `handleFileSelect` before the extraction call: without a file nothing
        happens; with one the error is cleared and processing starts. The file inputs that
        call it exist only inside the picker. */
    method BeginScan(hasFile: bool) returns (started: bool)
      requires Valid() && PickerShown()
      modifies this`error, this`isProcessing
      ensures Valid()
      ensures started == hasFile
      ensures started ==> error.None? && isProcessing
      ensures !started ==> error == old(error) && isProcessing == old(isProcessing)
    {
      if !hasFile {
        return false;
      }
      error := None;
      isProcessing := true;
      started := true;
    }

    /** The part of `handleFileSelect` after the extraction call: a reply becomes the
        extracted data (a `null` reply clears it), a failure sets the error message and
        keeps the extracted data; processing ends either way. */
    method EndScan(reply: Call<Option<Extracted>>)
      requires Valid() && isProcessing
      modifies this`extractedData, this`error, this`isProcessing
      ensures Valid()
      ensures !isProcessing
      ensures reply.Answered? ==> extractedData == reply.body && error == old(error)
      ensures reply.Threw? ==> extractedData == old(extractedData) && error == Some(ExtractionFailedMessage)
    {
      if reply.Answered? {
        extractedData := reply.body;
      } else {
        error := Some(ExtractionFailedMessage);
      }
      isProcessing := false;
    }

    /** `handleFileSelect` from start to end. */
    method HandleFileSelect(hasFile: bool, reply: Call<Option<Extracted>>)
      requires Valid() && PickerShown()
      modifies this`extractedData, this`error, this`isProcessing
      ensures Valid()
      ensures !isProcessing
      ensures !hasFile ==> extractedData == old(extractedData) && error == old(error)
      ensures hasFile && reply.Answered? ==> extractedData == reply.body && error.None?
      ensures hasFile && reply.Threw? ==> extractedData == old(extractedData) && error == Some(ExtractionFailedMessage)
    {
      var started := BeginScan(hasFile);
      if started {
        EndScan(reply);
      }
    }

    /** The `FileReader` finishing: the preview is set, whatever the modal shows by then. */
    method PreviewLoaded(url: string)
      modifies this`previewUrl
      ensures previewUrl == Some(url)
    {
      previewUrl := Some(url);
    }

    /** An extracted field's `onChange`; the inputs exist only in the result panel. */
    method EditField(f: ExtractedField, v: string)
      requires Valid() && extractedData.Some?
      modifies this`extractedData
      ensures Valid()
      ensures extractedData == Some(With(old(extractedData).value, f, v))
    {
      extractedData := Some(With(extractedData.value, f, v));
    }

    /** Scan Again: drops the result and the preview. */
    method ScanAgain()
      requires Valid()
      modifies this`extractedData, this`previewUrl
      ensures Valid()
      ensures extractedData.None? && previewUrl.None?
    {
      extractedData := None;
      previewUrl := None;
    }

    /** Try Again: drops the error and the preview. */
    method TryAgain()
      requires Valid()
      modifies this`error, this`previewUrl
      ensures Valid()
      ensures error.None? && previewUrl.None?
    {
      error := None;
      previewUrl := None;
    }

    /** `handleUseData`: with extracted data, hands the current (edited) data to the parent
        and then closes; without, does nothing. */
    method UseData() returns (calls: seq<ParentCall>)
      ensures extractedData.Some? ==> calls == [UseExtracted(extractedData.value), Close]
      ensures extractedData.None? ==> calls == []
    {
      if extractedData.Some? {
        calls := [UseExtracted(extractedData.value), Close];
      } else {
        calls := [];
      }
    }

    /** The confidence tier shown with a result. */
    function ResultTier(): (t: Option<Tier>)
      reads this
      ensures t.Some? <==> extractedData.Some?
      ensures t.Some? ==> (t.value == High <==> extractedData.value.confidence >= 0.8)
    {
      match extractedData
      case Some(d) => Some(TierOf(d.confidence))
      case None => None
    }
  }

  /** Exactly one of picker, spinner and result is shown, and the error only ever appears
      beside the picker. */
  lemma OnePanel(s: ScannerState)
    requires s.Valid()
    ensures (if s.PickerShown() then 1 else 0) + (if s.ProcessingShown() then 1 else 0)
            + (if s.ResultShown() then 1 else 0) == 1
    ensures s.ErrorShown() ==> s.PickerShown()
  {
  }
}
