/** The outcome of one execution of the worker spelled out, status by status and answer by answer. */
module TaskMeaning {
  import opened Enums
  import opened Options
  import opened Pipeline
  import opened StageWrites
  import opened TaskOutcome
  import PollLoop
  import R = JobRecord
  import V = RecordView

  lemma StatusIs(j: R.Job)
    requires R.WellFormed(j)
    ensures V.StatusAt(j).Some? && R.Attribute(j, R.Status) == Some(R.OfStatus(V.StatusAt(j).value))
    ensures R.Attribute(j, R.JewelryTypeRequested) == None <==> V.TypeAt(j, R.JewelryTypeRequested) == None
    ensures R.Attribute(j, R.JewelryTypeFinal) == None <==> V.TypeAt(j, R.JewelryTypeFinal) == None
    ensures R.Attribute(j, R.ProviderJobId) == None <==> V.StrAt(j, R.ProviderJobId) == None
  {
    assert R.KindOf(R.Status) == R.KStatus && R.KindOf(R.JewelryTypeRequested) == R.KType;
    assert R.KindOf(R.JewelryTypeFinal) == R.KType && R.KindOf(R.ProviderJobId) == R.KStr;
    assert R.Demanded(R.Status);
  }

  /** The exceptions that escape are those of the classifier, the lookups, the source image, and the asserts. */
  lemma ReturnsExactly(j: R.Job, a: Answers)
    requires R.WellFormed(j)
    ensures var found := a.lookup == NotFound || a.lookup == MatrixDown
                         || (a.lookup.Found? && a.version != None && a.sourceReadable);
            var classified := a.classified != None && a.classified.value.predictions != []
                              && (a.classified.value.isJewelry && a.classified.value.predictions[0].confidence >= a.threshold
                                  ==> found);
            DispatchReturns(j, a) <==>
              match V.StatusAt(j)
              case Some(Queued) => if R.Attribute(j, R.JewelryTypeRequested) == None then classified else found
              case Some(Classifying) => classified
              case Some(Resolving) => R.Attribute(j, R.JewelryTypeFinal) != None && found
              case Some(Submitting) => true
              case Some(Generating) => R.Attribute(j, R.ProviderJobId) != None
              case Some(Storing) => R.Attribute(j, R.ProviderJobId) != None
              case _ => false
  {
    StatusIs(j);
    hide R.WellFormed, R.Attribute, V.StatusAt, V.TypeAt, V.StrAt;
  }

  /** The provider is called exactly for a job that has got no further than resolving, with its type, its row and its image there. */
  lemma SendsExactly(j: R.Job, a: Answers)
    requires R.WellFormed(j)
    ensures var found := a.lookup.Found? && a.version != None && a.sourceReadable;
            var jewelry := a.classified != None && a.classified.value.predictions != [] && a.classified.value.isJewelry
                           && a.classified.value.predictions[0].confidence >= a.threshold;
            DispatchSends(j, a) <==>
              match V.StatusAt(j)
              case Some(Queued) => (R.Attribute(j, R.JewelryTypeRequested) != None || jewelry) && found
              case Some(Classifying) => jewelry && found
              case Some(Resolving) => R.Attribute(j, R.JewelryTypeFinal) != None && found
              case _ => false
  {
    StatusIs(j);
    hide R.WellFormed, R.Attribute, V.StatusAt, V.TypeAt, V.StrAt;
  }

  /** The call carries the row and the token; it is paid for exactly if the job is real and so is the deployment. */
  lemma CallIs(before: seq<Call>, after: seq<Call>, sends: bool, j: R.Job, a: Answers, fakeDeployment: bool)
    requires Called(before, after, sends, j, a, fakeDeployment)
    ensures !sends ==> after == before
    ensures sends ==>
              && a.lookup.Found? && |after| == |before| + 1 && after[..|before|] == before
              && var call, row := after[|before|], a.lookup.row;
                 && call.token == a.token && call.prompt == row.prompt && call.referenceUrl == row.referenceUrl
                 && call.negativePrompt == row.negativePrompt && call.params == row.params
                 && (call.paid <==> R.Attribute(j, R.Mock) != Some(R.Bool(true)) && !fakeDeployment)
  {
    hide R.Attribute;
  }

  /** The errors a job can end with before it has been sent, and the one for a raise. */
  lemma FailuresAre(after: R.Job, attempts: int, a: Answers, verdict: PollLoop.Verdict)
    requires ResolvedAs(after, attempts, a, verdict)
    ensures a.lookup == NotFound ==>
              R.Attribute(after, R.Status) == Some(R.OfStatus(Failed)) && R.Attribute(after, R.Error) == Some(R.OfError(MatrixMiss))
    ensures a.lookup == MatrixDown ==>
              && R.Attribute(after, R.Status) == Some(R.OfStatus(Failed))
              && R.Attribute(after, R.Error) == Some(R.OfError(MatrixUnavailable))
    ensures a.lookup.Found? && a.submit.SubmitRaised? ==>
              && R.Attribute(after, R.Status) == Some(R.OfStatus(NeedsReview))
              && R.Attribute(after, R.Error) == Some(R.OfError(OrphanedSubmit))
    // whatever becomes of a job whose row was found, it keeps what was sent for it
    ensures a.lookup.Found? && a.version.Some? ==>
              && R.Attribute(after, R.PromptSnapshot) == Some(R.Str(a.lookup.row.prompt))
              && R.Attribute(after, R.ReferenceUrlSnapshot) == Some(R.Str(a.lookup.row.referenceUrl))
              && R.Attribute(after, R.MatrixVersion) == Some(R.Str(a.version.value))
              && R.Attribute(after, R.SubmissionToken) == Some(R.Str(a.token))
    ensures a.lookup.Found? && a.submit.SubmitOk? ==>
              && R.Attribute(after, R.ProviderJobId) == Some(R.Str(a.submit.id))
              && R.Attribute(after, R.Provider) == Some(R.Str(a.providerName))
              && PolledAs(after, attempts, a, verdict)
  {
    hide R.Attribute, PolledAs, V.StrAt, V.ParamsAt;
  }

  /** How the poll ends: a success with every asset's reference in order, a failure counted, or still generating. */
  lemma PollLeaves(after: R.Job, attempts: int, a: Answers, verdict: PollLoop.Verdict)
    requires PolledAs(after, attempts, a, verdict)
    ensures verdict == PollLoop.Failed ==>
              && R.Attribute(after, R.Status) == Some(R.OfStatus(Failed)) && R.Attribute(after, R.Error) == Some(R.OfError(ProviderError))
              && R.Attribute(after, R.AttemptCount) == Some(R.Int(attempts + 1))
    ensures verdict == PollLoop.LeftGenerating ==> R.Attribute(after, R.Status) == Some(R.OfStatus(Generating))
    ensures verdict == PollLoop.Succeeded ==> StoredAs(after, a)
  {
    hide StoredAs, R.Attribute;
  }

  lemma StoreLeaves(after: R.Job, a: Answers)
    requires StoredAs(after, a)
    ensures var stored := a.assets != None && forall i :: 0 <= i < |a.assets.value| ==> a.assets.value[i] != None;
            && R.Attribute(after, R.Status) == Some(R.OfStatus(if stored then Succeeded else Failed))
            && (!stored ==> R.Attribute(after, R.Error) == Some(R.OfError(StorageError)))
            && (stored ==> exists refs: seq<string> ::
                  && R.Attribute(after, R.AssetRefs) == Some(R.Data(R.Refs(refs)))
                  && |refs| == |a.assets.value| && forall i :: 0 <= i < |refs| ==> a.assets.value[i] == Some(refs[i]))
  {
    if AssetsStored(a) {
      var refs := after[R.AssetRefs].json.refs;
      assert R.Attribute(after, R.AssetRefs) == Some(R.Data(R.Refs(refs)));
    }
    hide R.Attribute;
  }

  /** The decision table of the classify stage. */
  lemma ClassifyLeaves(after: R.Job, result: ClassifierResult, threshold: real)
    requires result.predictions != [] && ClassifiedAs(after, result, threshold)
    ensures R.Attribute(after, R.Confidence) == Some(R.Float(result.predictions[0].confidence))
    ensures !result.isJewelry ==>
              R.Attribute(after, R.Status) == Some(R.OfStatus(Failed)) && R.Attribute(after, R.Error) == Some(R.OfError(NotJewelry))
    ensures result.isJewelry && result.predictions[0].confidence < threshold ==>
              && R.Attribute(after, R.Status) == Some(R.OfStatus(NeedsInput))
              && R.Attribute(after, R.Error) == Some(R.OfError(LowConfidence))
    ensures result.isJewelry && result.predictions[0].confidence >= threshold ==>
              && R.Attribute(after, R.Status) == Some(R.OfStatus(Resolving))
              && R.Attribute(after, R.JewelryTypeFinal) == Some(R.OfType(result.predictions[0].jewelryType))
              && R.Attribute(after, R.TypeSource) == Some(R.OfSource(Classified))
    ensures exists items :: R.Attribute(after, R.CandidateTypes) == Some(R.Data(R.Candidates(items)))
              && |items| == |result.predictions|
              && forall i :: 0 <= i < |items| ==>
                   items[i] == (TypeText(result.predictions[i].jewelryType), result.predictions[i].confidence)
  {
    hide R.Attribute, TypeText;
    var items := CandidatesOf(result.predictions);
    assert R.Attribute(after, R.CandidateTypes) == Some(R.Data(R.Candidates(items)));
  }

  /** Which of these tables applies to a job that has been run. */
  lemma RunLeaves(j: R.Job, after: R.Job, a: Answers, verdict: PollLoop.Verdict)
    requires R.WellFormed(j) && DispatchReturns(j, a) && DispatchedAs(j, after, a, verdict)
    ensures var jewelry := a.classified != None && a.classified.value.predictions != [] && a.classified.value.isJewelry
                           && a.classified.value.predictions[0].confidence >= a.threshold;
            match V.StatusAt(j)
            case Some(Queued) =>
              if R.Attribute(j, R.JewelryTypeRequested) != None || jewelry then ResolvedAs(after, Attempts(j), a, verdict)
              else Guessed(a) && ClassifiedAs(after, a.classified.value, a.threshold)
            case Some(Classifying) =>
              if jewelry then ResolvedAs(after, Attempts(j), a, verdict)
              else Guessed(a) && ClassifiedAs(after, a.classified.value, a.threshold)
            case Some(Resolving) => ResolvedAs(after, Attempts(j), a, verdict)
            case Some(Submitting) =>
              && R.Attribute(after, R.Status) == Some(R.OfStatus(NeedsReview))
              && R.Attribute(after, R.Error) == Some(R.OfError(OrphanedSubmit))
            case Some(Generating) => PolledAs(after, Attempts(j), a, verdict)
            case Some(Storing) => StoredAs(after, a)
            case _ => false
  {
    StatusIs(j);
    hide R.WellFormed, R.Attribute, V.StatusAt, V.TypeAt, V.StrAt, ResolvedAs, ClassifiedAs, PolledAs, StoredAs;
  }
}
