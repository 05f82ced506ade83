// app/models/enums.py: the enumerations and the status graph.
module Enums {
  datatype JobStatus =
    | Queued | Classifying | Resolving | Submitting | Generating | Storing
    | Succeeded | Failed | NeedsInput | NeedsReview

  datatype ErrorCode =
    | InvalidImage | ImageTooLarge | UnsupportedFormat | NotJewelry | LowConfidence
    | ClassifierError | MatrixMiss | MatrixUnavailable | ProviderSubmitFailed
    | OrphanedSubmit | ProviderTimeout | ProviderError | StorageError | SheetsError
    | BudgetExceeded | RateLimited | InternalError

  datatype JewelryType = Ring | Necklace | Earring | Bracelet | Bangle | Anklet | Hipbelt

  datatype ServiceType =
    | FemaleModelTraditional | FemaleModelModern | MaleModelTraditional | MaleModelModern
    | MannequinTraditional | MannequinModern | ProductStylingTraditional | ProductStylingModern
    | RemoveBg | ChangeBg | MixPieces

  datatype TypeSource = Provided | Classified | Resolved

  /** Membership in TERMINAL_STATUSES. */
  predicate Terminal(s: JobStatus) {
    s == Succeeded || s == Failed || s == NeedsInput || s == NeedsReview
  }

  /** Terminal for good: unlike NeedsInput, these have no outgoing edge. */
  predicate Final(s: JobStatus) {
    s == Succeeded || s == Failed || s == NeedsReview
  }

  /** Membership of `to` in LEGAL_TRANSITIONS[from]. */
  predicate Legal(from: JobStatus, to: JobStatus) {
    match from
    case Queued => to == Classifying || to == Resolving || to == Failed
    case Classifying => to == Resolving || to == NeedsInput || to == Failed
    case Resolving => to == Submitting || to == Failed
    case Submitting => to == Generating || to == NeedsReview || to == Failed
    case Generating => to == Storing || to == Failed
    case Storing => to == Succeeded || to == Failed
    case NeedsInput => to == Resolving
    case Succeeded => false
    case Failed => false
    case NeedsReview => false
  }

  /** The same table read by target: where a job can have come from. */
  lemma LegalByTarget(from: JobStatus, to: JobStatus)
    ensures Legal(from, to) <==>
              match to
              case Queued => false
              case Classifying => from == Queued
              case Resolving => from in {Queued, Classifying, NeedsInput}
              case Submitting => from == Resolving
              case Generating => from == Submitting
              case Storing => from == Generating
              case Succeeded => from == Storing
              case NeedsInput => from == Classifying
              case NeedsReview => from == Submitting
              case Failed => from in {Queued, Classifying, Resolving, Submitting, Generating, Storing}
    // a job can fail exactly until it is terminal, and go nowhere once it is final
    ensures Terminal(from) <==> !Legal(from, Failed)
    ensures Final(from) <==> forall t :: !Legal(from, t)
  {
    assert from == NeedsInput ==> Legal(from, Resolving);
    assert !Terminal(from) ==> Legal(from, Failed);
  }

  // The number of transitions a job in this status can still make.
  function Rank(s: JobStatus): nat {
    match s
    case Queued => 7
    case Classifying => 6
    case NeedsInput => 5
    case Resolving => 4
    case Submitting => 3
    case Generating => 2
    case Storing => 1
    case _ => 0
  }

  lemma LegalTransitionLowersRank(from: JobStatus, to: JobStatus)
    requires Legal(from, to)
    ensures Rank(to) < Rank(from)
  {
  }

  ghost predicate LegalHistory(history: seq<JobStatus>) {
    forall i :: 0 < i < |history| ==> Legal(history[i - 1], history[i])
  }

  /** Whatever path a job takes through the table, it makes at most Rank(start) transitions. */
  lemma {:induction false} LegalHistoryIsBounded(history: seq<JobStatus>)
    requires history != [] && LegalHistory(history)
    ensures |history| - 1 <= Rank(history[0]) - Rank(history[|history| - 1])
  {
    if |history| > 1 {
      LegalTransitionLowersRank(history[0], history[1]);
      assert forall i :: 0 < i < |history[1..]| ==> history[1..][i] == history[i + 1] && history[1..][i - 1] == history[i];
      LegalHistoryIsBounded(history[1..]);
    }
  }

  function StatusText(s: JobStatus): string {
    match s
    case Queued => "queued"
    case Classifying => "classifying"
    case Resolving => "resolving"
    case Submitting => "submitting"
    case Generating => "generating"
    case Storing => "storing"
    case Succeeded => "succeeded"
    case Failed => "failed"
    case NeedsInput => "needs_input"
    case NeedsReview => "needs_review"
  }

  function ErrorText(e: ErrorCode): string {
    match e
    case InvalidImage => "INVALID_IMAGE"
    case ImageTooLarge => "IMAGE_TOO_LARGE"
    case UnsupportedFormat => "UNSUPPORTED_FORMAT"
    case NotJewelry => "NOT_JEWELRY"
    case LowConfidence => "LOW_CONFIDENCE"
    case ClassifierError => "CLASSIFIER_ERROR"
    case MatrixMiss => "MATRIX_MISS"
    case MatrixUnavailable => "MATRIX_UNAVAILABLE"
    case ProviderSubmitFailed => "PROVIDER_SUBMIT_FAILED"
    case OrphanedSubmit => "ORPHANED_SUBMIT"
    case ProviderTimeout => "PROVIDER_TIMEOUT"
    case ProviderError => "PROVIDER_ERROR"
    case StorageError => "STORAGE_ERROR"
    case SheetsError => "SHEETS_ERROR"
    case BudgetExceeded => "BUDGET_EXCEEDED"
    case RateLimited => "RATE_LIMITED"
    case InternalError => "INTERNAL_ERROR"
  }

  function TypeText(t: JewelryType): string {
    match t
    case Ring => "RING"
    case Necklace => "NECKLACE"
    case Earring => "EARRING"
    case Bracelet => "BRACELET"
    case Bangle => "BANGLE"
    case Anklet => "ANKLET"
    case Hipbelt => "HIPBELT"
  }

  function ServiceText(s: ServiceType): string {
    match s
    case FemaleModelTraditional => "FEMALE_MODEL_TRADITIONAL"
    case FemaleModelModern => "FEMALE_MODEL_MODERN"
    case MaleModelTraditional => "MALE_MODEL_TRADITIONAL"
    case MaleModelModern => "MALE_MODEL_MODERN"
    case MannequinTraditional => "MANNEQUIN_TRADITIONAL"
    case MannequinModern => "MANNEQUIN_MODERN"
    case ProductStylingTraditional => "PRODUCT_STYLING_TRADITIONAL"
    case ProductStylingModern => "PRODUCT_STYLING_MODERN"
    case RemoveBg => "REMOVE_BG"
    case ChangeBg => "CHANGE_BG"
    case MixPieces => "MIX_PIECES"
  }

  function SourceText(s: TypeSource): string {
    match s
    case Provided => "PROVIDED"
    case Classified => "CLASSIFIED"
    case Resolved => "RESOLVED"
  }

  // An enumeration's value names its member.

  lemma StatusTextInjective(s: JobStatus, t: JobStatus)
    requires StatusText(s) == StatusText(t)
    ensures s == t
  {
    var a, b := StatusText(s), StatusText(t);
    assert |a| == |b| && a[0] == b[0] && a[1] == b[1] && a[2] == b[2] && a[|a| - 1] == b[|b| - 1];
  }

  lemma ErrorTextInjective(s: ErrorCode, t: ErrorCode)
    requires ErrorText(s) == ErrorText(t)
    ensures s == t
  {
    var a, b := ErrorText(s), ErrorText(t);
    assert |a| == |b| && a[0] == b[0] && a[2] == b[2] && a[9] == b[9];
  }

  lemma TypeTextInjective(s: JewelryType, t: JewelryType)
    requires TypeText(s) == TypeText(t)
    ensures s == t
  {
    var a, b := TypeText(s), TypeText(t);
    assert |a| == |b| && a[0] == b[0] && a[2] == b[2];
  }

  lemma ServiceTextInjective(s: ServiceType, t: ServiceType)
    requires ServiceText(s) == ServiceText(t)
    ensures s == t
  {
    var a, b := ServiceText(s), ServiceText(t);
    assert |a| == |b| && a[0] == b[0] && a[1] == b[1];
  }

  lemma SourceTextInjective(s: TypeSource, t: TypeSource)
    requires SourceText(s) == SourceText(t)
    ensures s == t
  {
    assert SourceText(s)[0] == SourceText(t)[0] && SourceText(s)[1] == SourceText(t)[1] && |SourceText(s)| == |SourceText(t)|;
  }
}
