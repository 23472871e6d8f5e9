/** Row shapes of the screening, diagnosis, image and sample tables
    (app/app/models/screening.py, diagnosis.py, image.py, sample.py). Status
    columns hold free strings; the enumerations give the values the code writes. */
module Records {
  import opened Common

  /** `ScreeningStatus` and the strings stored for it. */
  datatype ScreeningStatus = Pending | AiAnalyzed | UnderReview | Completed | Cancelled {
    function Value(): string {
      match this
      case Pending => "pending"
      case AiAnalyzed => "ai_analyzed"
      case UnderReview => "under_review"
      case Completed => "completed"
      case Cancelled => "cancelled"
    }
  }

  datatype Screening = Screening(
    id: Id,
    patientId: Id,
    status: Option<string>,
    clinicalNotes: Option<string>,
    reasonForScreening: Option<string>,
    screeningDate: int,
    createdAt: int)

  /** `DiagnosisCategory`, the Bethesda categories, in declaration order. */
  datatype DiagnosisCategory = Nilm | AscUs | AscH | Lsil | Hsil | Scc | Agc | Adenocarcinoma | Unsatisfactory {
    function Value(): string {
      match this
      case Nilm => "nilm"
      case AscUs => "asc_us"
      case AscH => "asc_h"
      case Lsil => "lsil"
      case Hsil => "hsil"
      case Scc => "scc"
      case Agc => "agc"
      case Adenocarcinoma => "adenocarcinoma"
      case Unsatisfactory => "unsatisfactory"
    }
  }

  datatype Diagnosis = Diagnosis(
    id: Id,
    screeningId: Id,
    aiPrediction: Option<string>,
    aiConfidence: Option<int>,        // basis points
    aiAnalysisDate: Option<int>,
    aiNotes: Option<string>,
    reviewerId: Option<Id>,
    clinicianAgreesWithAi: Option<bool>,
    clinicianDiagnosis: Option<string>,
    clinicianNotes: Option<string>,
    reviewDate: Option<int>,
    finalDiagnosis: Option<string>,
    finalNotes: Option<string>,
    finalizedAt: Option<int>,
    followUpRecommended: bool,
    followUpNotes: Option<string>,
    createdAt: int)

  /** `Diagnosis(screening_id=...)` with every other column at its default. */
  function NewDiagnosis(id: Id, screeningId: Id, now: int): (d: Diagnosis)
    ensures d.id == id && d.screeningId == screeningId && d.createdAt == now
    ensures d.aiPrediction == None && d.aiConfidence == None && d.aiAnalysisDate == None && d.aiNotes == None
    ensures d.reviewerId == None && d.reviewDate == None && d.finalDiagnosis == None && d.finalizedAt == None
    ensures !d.followUpRecommended
  {
    Diagnosis(id, screeningId, None, None, None, None, None, None, None, None, None, None, None, None,
              false, None, now)
  }

  /** A diagnosis counts as AI-analysed when `ai_prediction` is truthy. */
  predicate HasAiPrediction(d: Diagnosis) {
    Given(d.aiPrediction)
  }

  /** `ImageType` and the strings stored for it. */
  datatype ImageType = PapSmear | Colposcopy | Other {
    function Value(): string {
      match this
      case PapSmear => "pap_smear"
      case Colposcopy => "colposcopy"
      case Other => "other"
    }
  }

  datatype ScreeningImage = ScreeningImage(
    id: Id,
    screeningId: Id,
    filename: string,
    originalFilename: string,
    filePath: string,
    fileSize: Option<int>,
    mimeType: Option<string>,
    imageType: Option<string>,
    heatmapPath: Option<string>,
    uploadedAt: int)

  const SamplePending: string := "pending"
  const SampleUploaded: string := "uploaded"
  const SampleAnalyzed: string := "analyzed"

  datatype Sample = Sample(
    id: Id,
    patientId: Id,
    collectionDate: int,
    batchId: Option<string>,
    sampleType: Option<string>,
    metadata: Option<JsonObject>,
    status: Option<string>,
    imagePath: Option<string>,
    createdAt: int)
}
