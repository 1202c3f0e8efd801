/** The CV and cover-letter panel of pages/CVTailor.tsx.

    Each asynchronous handler is split at its `await` into a Begin step (the guard
    and the updates before the call) and a Finish step that applies the outcome:
    `Success` when the gateway call resolved, `Failure` when it threw (the catch
    block only logs). Local storage is a map from keys to saved snapshots, the
    clock is the field `clock`, and the 3000 ms timer started by a save is a
    deadline in `revertAt` that `Tick` fires. */
module CVTailor {
  import opened Wrappers
  import opened Types

  const SavedAnalysisKey := "careerbridge_saved_analysis"

  /** How long the "saved" indicator stays on, in milliseconds. */
  const SavedIndicatorMillis: nat := 3000

  datatype SaveStatus = Idle | Saved

  /** What a save writes: the analysis and the time stamp `savedAt`. */
  datatype SavedAnalysis = SavedAnalysis(analysis: CVAnalysis, savedAt: string)

  /** The arguments of an outstanding generateCoverLetter call. */
  datatype LetterRequest = LetterRequest(cvText: string, analysis: CVAnalysis, jobDescription: string)

  /** The deadlines of `ds` still in the future at time `now`. */
  function NotDue(ds: seq<int>, now: int): (r: seq<int>)
    ensures forall d :: d in r <==> d in ds && d > now
  {
    if ds == [] then []
    else (if ds[0] > now then [ds[0]] else []) + NotDue(ds[1..], now)
  }

  class CVTailor {
    var cvText: string
    var analysis: Option<CVAnalysis>
    var loading: bool
    var saveStatus: SaveStatus
    var jobDescription: string
    var generatedLetter: string
    var letterLoading: bool
    /** The CV text sent by the outstanding analyzeCV call. */
    var pendingAnalysis: Option<string>
    var pendingLetter: Option<LetterRequest>
    var storage: map<string, SavedAnalysis>
    var clock: int
    var revertAt: seq<int>

    /** `loading` and `letterLoading` are set exactly while a call is outstanding;
        every save timer is due within the next 3000 ms; "saved" is shown only
        while a timer that will clear it is running. */
    ghost predicate Valid()
      reads this
    {
      && (loading <==> pendingAnalysis.Some?)
      && (letterLoading <==> pendingLetter.Some?)
      && (forall d :: d in revertAt ==> clock < d <= clock + SavedIndicatorMillis)
      && (saveStatus == Saved ==> revertAt != [])
    }

    /** The panel when first shown, at time `now`, with `stored` already in local storage. */
    constructor (now: int, stored: map<string, SavedAnalysis>)
      ensures Valid()
      ensures cvText == "" && analysis.None? && !loading && saveStatus == Idle
      ensures jobDescription == "" && generatedLetter == "" && !letterLoading
      ensures storage == stored && clock == now && revertAt == []
    {
      cvText, analysis, loading, saveStatus := "", None, false, Idle;
      jobDescription, generatedLetter, letterLoading := "", "", false;
      pendingAnalysis, pendingLetter := None, None;
      storage, clock, revertAt := stored, now, [];
    }

    /** `disabled={loading || !cvText}` on the analyze button, negated: a click on
        the enabled button finds no analysis outstanding and issues one. */
    predicate AnalyzeEnabled()
      reads this
      ensures AnalyzeEnabled() && Valid() ==> pendingAnalysis.None? && cvText != ""
    {
      !loading && cvText != ""
    }

    /** The generate button is rendered only with an analysis, and is
        `disabled={letterLoading || !jobDescription}`: a click on the enabled button
        finds no letter outstanding and passes the handler's guard. */
    predicate GenerateLetterEnabled()
      reads this
      ensures GenerateLetterEnabled() && Valid() ==>
        pendingLetter.None? && analysis.Some? && jobDescription != ""
    {
      analysis.Some? && !letterLoading && jobDescription != ""
    }

    /** The textarea's `onChange`. */
    method EditCV(text: string)
      requires Valid()
      modifies this
      ensures Valid() && cvText == text
      ensures analysis == old(analysis) && loading == old(loading) && saveStatus == old(saveStatus)
      ensures jobDescription == old(jobDescription) && generatedLetter == old(generatedLetter)
      ensures letterLoading == old(letterLoading) && pendingAnalysis == old(pendingAnalysis)
      ensures pendingLetter == old(pendingLetter) && storage == old(storage)
      ensures clock == old(clock) && revertAt == old(revertAt)
    {
      cvText := text;
    }

    /** The Reset button: empties the CV text and nothing else; the analysis stays. */
    method Reset()
      requires Valid()
      modifies this
      ensures Valid() && cvText == ""
      ensures analysis == old(analysis) && loading == old(loading) && saveStatus == old(saveStatus)
      ensures jobDescription == old(jobDescription) && generatedLetter == old(generatedLetter)
      ensures letterLoading == old(letterLoading) && pendingAnalysis == old(pendingAnalysis)
      ensures pendingLetter == old(pendingLetter) && storage == old(storage)
      ensures clock == old(clock) && revertAt == old(revertAt)
    {
      cvText := "";
    }

    /** The job-description textarea's `onChange`; the textarea is rendered only
        while an analysis is shown, so without one typing changes nothing. */
    method EditJobDescription(text: string)
      requires Valid()
      modifies this
      ensures Valid()
      ensures old(analysis).Some? ==> jobDescription == text
      ensures old(analysis).None? ==> jobDescription == old(jobDescription)
      ensures cvText == old(cvText) && analysis == old(analysis) && loading == old(loading)
      ensures saveStatus == old(saveStatus) && generatedLetter == old(generatedLetter)
      ensures letterLoading == old(letterLoading) && pendingAnalysis == old(pendingAnalysis)
      ensures pendingLetter == old(pendingLetter) && storage == old(storage)
      ensures clock == old(clock) && revertAt == old(revertAt)
    {
      if analysis.Some? {
        jobDescription := text;
      }
    }

    /** `handleAnalyze` up to the call: nothing without CV text; otherwise loading,
        the save indicator back to idle, the letter cleared, and analyzeCV called
        with the CV text alone. */
    method BeginAnalyze()
      requires Valid() && !loading
      modifies this
      ensures Valid()
      ensures old(cvText) == "" ==>
        && loading == old(loading) && saveStatus == old(saveStatus)
        && generatedLetter == old(generatedLetter) && pendingAnalysis == old(pendingAnalysis)
      ensures old(cvText) != "" ==>
        && loading && saveStatus == Idle && generatedLetter == ""
        && pendingAnalysis == Some(old(cvText))
      ensures cvText == old(cvText) && analysis == old(analysis)
      ensures jobDescription == old(jobDescription) && letterLoading == old(letterLoading)
      ensures pendingLetter == old(pendingLetter) && storage == old(storage)
      ensures clock == old(clock) && revertAt == old(revertAt)
    {
      if cvText == "" {
        return;
      }
      loading := true;
      saveStatus := Idle;
      generatedLetter := "";
      pendingAnalysis := Some(cvText);
    }

    /** `handleAnalyze` after the call: a resolved call replaces the analysis, a
        failed one keeps the previous one; loading ends either way. */
    method FinishAnalyze(outcome: Result<CVAnalysis, string>)
      requires Valid() && pendingAnalysis.Some?
      modifies this
      ensures Valid() && !loading && pendingAnalysis.None?
      ensures outcome.Success? ==> analysis == Some(outcome.value)
      ensures outcome.Failure? ==> analysis == old(analysis)
      ensures cvText == old(cvText) && saveStatus == old(saveStatus)
      ensures jobDescription == old(jobDescription) && generatedLetter == old(generatedLetter)
      ensures letterLoading == old(letterLoading) && pendingLetter == old(pendingLetter)
      ensures storage == old(storage) && clock == old(clock) && revertAt == old(revertAt)
    {
      if outcome.Success? {
        analysis := Some(outcome.value);
      }
      loading := false;
      pendingAnalysis := None;
    }

    /** `handleSave` at time stamp `savedAt`: with an analysis, writes it under the
        saved-analysis key, shows "saved" and starts the 3000 ms timer; without one,
        nothing. */
    method Save(savedAt: string)
      requires Valid()
      modifies this
      ensures Valid()
      ensures old(analysis).None? ==>
        storage == old(storage) && saveStatus == old(saveStatus) && revertAt == old(revertAt)
      ensures old(analysis).Some? ==>
        && storage == old(storage)[SavedAnalysisKey := SavedAnalysis(old(analysis).value, savedAt)]
        && saveStatus == Saved
        && revertAt == old(revertAt) + [clock + SavedIndicatorMillis]
      ensures cvText == old(cvText) && analysis == old(analysis) && loading == old(loading)
      ensures jobDescription == old(jobDescription) && generatedLetter == old(generatedLetter)
      ensures letterLoading == old(letterLoading) && pendingAnalysis == old(pendingAnalysis)
      ensures pendingLetter == old(pendingLetter) && clock == old(clock)
    {
      if analysis.Some? {
        storage := storage[SavedAnalysisKey := SavedAnalysis(analysis.value, savedAt)];
        saveStatus := Saved;
        revertAt := revertAt + [clock + SavedIndicatorMillis];
      }
    }

    /** Time advances to `now`; every save timer that is due sets the indicator back
        to idle. A "saved" indicator is therefore idle at the latest 3000 ms later. */
    method Tick(now: int)
      requires Valid() && now >= clock
      modifies this
      ensures Valid() && clock == now
      ensures revertAt == NotDue(old(revertAt), now)
      ensures (exists d :: d in old(revertAt) && d <= now) ==> saveStatus == Idle
      ensures !(exists d :: d in old(revertAt) && d <= now) ==> saveStatus == old(saveStatus)
      ensures now >= old(clock) + SavedIndicatorMillis ==> saveStatus == Idle && revertAt == []
      ensures cvText == old(cvText) && analysis == old(analysis) && loading == old(loading)
      ensures jobDescription == old(jobDescription) && generatedLetter == old(generatedLetter)
      ensures letterLoading == old(letterLoading) && pendingAnalysis == old(pendingAnalysis)
      ensures pendingLetter == old(pendingLetter) && storage == old(storage)
    {
      var fired := exists d :: d in revertAt && d <= now;
      if fired {
        saveStatus := Idle;
      }
      revertAt := NotDue(revertAt, now);
      clock := now;
      if revertAt != [] {
        assert revertAt[0] in revertAt;
      }
      if !fired && old(revertAt) != [] {
        assert old(revertAt)[0] in old(revertAt);
        assert old(revertAt)[0] in revertAt;
      }
    }

    /** `handleGenerateLetter` up to the call: nothing without an analysis or a job
        description; otherwise letter loading, and generateCoverLetter called with
        the CV text, the analysis and the job description. */
    method BeginGenerateLetter()
      requires Valid() && !letterLoading
      modifies this
      ensures Valid()
      ensures (old(analysis).None? || old(jobDescription) == "") ==>
        letterLoading == old(letterLoading) && pendingLetter == old(pendingLetter)
      ensures (old(analysis).Some? && old(jobDescription) != "") ==>
        && letterLoading
        && pendingLetter == Some(LetterRequest(old(cvText), old(analysis).value, old(jobDescription)))
      ensures cvText == old(cvText) && analysis == old(analysis) && loading == old(loading)
      ensures saveStatus == old(saveStatus) && jobDescription == old(jobDescription)
      ensures generatedLetter == old(generatedLetter) && pendingAnalysis == old(pendingAnalysis)
      ensures storage == old(storage) && clock == old(clock) && revertAt == old(revertAt)
    {
      if analysis.None? || jobDescription == "" {
        return;
      }
      letterLoading := true;
      pendingLetter := Some(LetterRequest(cvText, analysis.value, jobDescription));
    }

    /** `handleGenerateLetter` after the call: a resolved call replaces the letter, a
        failed one keeps it; letter loading ends either way. */
    method FinishGenerateLetter(outcome: Result<string, string>)
      requires Valid() && pendingLetter.Some?
      modifies this
      ensures Valid() && !letterLoading && pendingLetter.None?
      ensures outcome.Success? ==> generatedLetter == outcome.value
      ensures outcome.Failure? ==> generatedLetter == old(generatedLetter)
      ensures cvText == old(cvText) && analysis == old(analysis) && loading == old(loading)
      ensures saveStatus == old(saveStatus) && jobDescription == old(jobDescription)
      ensures pendingAnalysis == old(pendingAnalysis) && storage == old(storage)
      ensures clock == old(clock) && revertAt == old(revertAt)
    {
      if outcome.Success? {
        generatedLetter := outcome.value;
      }
      letterLoading := false;
      pendingLetter := None;
    }
  }

  /** Analyzing an empty CV issues no gateway call, and the button is disabled. */
  method EmptyCVIssuesNoCall(now: int) returns (called: bool, enabled: bool)
    ensures !called && !enabled
  {
    var panel := new CVTailor(now, map[]);
    enabled := panel.AnalyzeEnabled();
    panel.BeginAnalyze();
    called := panel.pendingAnalysis.Some?;
  }

  /** A first analysis whose payload does not parse leaves no analysis, so neither
      saving nor the cover letter becomes available; a later successful one is shown. */
  method FailedThenSuccessfulAnalysis(cv: string, a: CVAnalysis, now: int)
    returns (afterFailure: Option<CVAnalysis>, afterSuccess: Option<CVAnalysis>, letterEnabled: bool)
    requires cv != ""
    ensures afterFailure.None? && !letterEnabled
    ensures afterSuccess == Some(a)
  {
    var panel := new CVTailor(now, map[]);
    panel.EditCV(cv);
    panel.BeginAnalyze();
    panel.FinishAnalyze(Failure("Failed to analyze CV content."));
    afterFailure := panel.analysis;
    letterEnabled := panel.GenerateLetterEnabled();
    panel.BeginAnalyze();
    panel.FinishAnalyze(Success(a));
    afterSuccess := panel.analysis;
  }

  /** A job description typed before any analysis is lost with its hidden textarea;
      once an analysis is shown, the description typed enables the generate button
      and the letter request carries the CV, the analysis and that description. */
  method LetterAfterAnalysis(cv: string, a: CVAnalysis, early: string, job: string, now: int)
    returns (enabledBefore: bool, enabledAfter: bool, request: Option<LetterRequest>)
    requires cv != "" && early != "" && job != ""
    ensures !enabledBefore && enabledAfter
    ensures request == Some(LetterRequest(cv, a, job))
  {
    var panel := new CVTailor(now, map[]);
    panel.EditCV(cv);
    panel.EditJobDescription(early);
    enabledBefore := panel.GenerateLetterEnabled();
    panel.BeginAnalyze();
    panel.FinishAnalyze(Success(a));
    panel.EditJobDescription(job);
    enabledAfter := panel.GenerateLetterEnabled();
    panel.BeginGenerateLetter();
    request := panel.pendingLetter;
  }

  /** Saving shows "saved"; 3000 ms later the indicator is idle again, and the
      snapshot stays in storage. */
  method SavedIndicatorReverts(cv: string, a: CVAnalysis, now: int, savedAt: string)
    returns (justSaved: SaveStatus, later: SaveStatus, stored: Option<SavedAnalysis>)
    requires cv != ""
    ensures justSaved == Saved && later == Idle
    ensures stored == Some(SavedAnalysis(a, savedAt))
  {
    var panel := new CVTailor(now, map[]);
    panel.EditCV(cv);
    panel.BeginAnalyze();
    panel.FinishAnalyze(Success(a));
    panel.Save(savedAt);
    justSaved := panel.saveStatus;
    panel.Tick(now + SavedIndicatorMillis);
    later := panel.saveStatus;
    stored := if SavedAnalysisKey in panel.storage then Some(panel.storage[SavedAnalysisKey]) else None;
  }
}
