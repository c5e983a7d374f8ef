/** The simulated document-analysis pipeline. A submitted file starts an
    upload ramp (one timer firing per 10%), then four fixed steps run one
    after another, each first marked processing and later complete; when the
    last completes the view switches to the results and a notification is
    issued. The timers are explicit: each pending callback is named by
    `Timer`, and `Fire` is what happens when it runs. */
module DocumentAnalyzer {
  import opened Shared

  datatype Status = Pending | Processing | Complete

  datatype Step = Step(caption: string, status: Status)

  /** What the model keeps of the browser's File object. */
  datatype FileInfo = FileInfo(name: string, size: nat, mimeType: string)

  /** The callback that runs next: none, the upload interval, the timeout
      that starts the current step, or the one that finishes it. */
  datatype Timer = Idle | UploadInterval | StepStart | StepFinish

  const StepLabels: seq<string> :=
    ["Text extraction", "Language detection", "AI summarization", "Generating structured output"]

  const InitialSteps: seq<Step> :=
    [Step(StepLabels[0], Pending), Step(StepLabels[1], Pending),
     Step(StepLabels[2], Pending), Step(StepLabels[3], Pending)]

  const AnalysisCompleteToast: Effect :=
    Toast("Analysis Complete", "Document has been successfully analyzed.", false)

  const CopiedToast: Effect :=
    Toast("Copied!", "Content copied to clipboard.", false)

  /** The component's state, the step counter of the running pipeline, the
      pending timer, and the notifications issued so far. */
  datatype Snapshot = Snapshot(
    file: Option<FileInfo>,
    isProcessing: bool,
    isComplete: bool,
    uploadProgress: int,
    steps: seq<Step>,
    current: nat,
    timer: Timer,
    toasts: seq<Effect>)

  const Initial: Snapshot :=
    Snapshot(None, false, false, 0, InitialSteps, 0, Idle, [])

  function Rank(st: Status): nat
  {
    match st
    case Pending => 0
    case Processing => 1
    case Complete => 2
  }

  // ---------------------------------------------------------------------------
  // Views
  // ---------------------------------------------------------------------------

  /** The drop zone and file input. */
  predicate UploadPaneVisible(s: Snapshot) { !s.isProcessing && !s.isComplete }

  /** The progress card. */
  predicate ProcessingPaneVisible(s: Snapshot) { s.isProcessing }

  /** The results tabs and the reset button. */
  predicate ResultsVisible(s: Snapshot) { s.isComplete }

  /** Inside the progress card: the upload bar below 100%, the steps from 100%. */
  predicate UploadBarVisible(s: Snapshot) { s.isProcessing && s.uploadProgress < 100 }

  predicate StepListVisible(s: Snapshot) { s.isProcessing && s.uploadProgress >= 100 }

  // ---------------------------------------------------------------------------
  // Transitions
  // ---------------------------------------------------------------------------

  /** A file chosen in the upload pane: it is recorded, processing starts
      with progress back at 0, and the upload interval is scheduled. */
  function Submit(s: Snapshot, f: FileInfo): Snapshot
  {
    s.(file := Some(f), isProcessing := true, uploadProgress := 0, current := 0, timer := UploadInterval)
  }

  /** The steps callback indexes the current step without a bound check when
      it finishes it; every other case is total. */
  predicate CanFire(s: Snapshot)
  {
    s.timer.StepFinish? ==> s.current < |s.steps|
  }

  /** The pending callback runs. */
  function Fire(s: Snapshot): Snapshot
    requires CanFire(s)
  {
    match s.timer
    case Idle => s
    case UploadInterval =>
      if s.uploadProgress >= 100 then
        s.(uploadProgress := 100, current := 0, timer := StepStart)
      else
        s.(uploadProgress := s.uploadProgress + 10)
    case StepStart =>
      if s.current < |s.steps| then
        s.(steps := s.steps[s.current := s.steps[s.current].(status := Processing)], timer := StepFinish)
      else
        s.(timer := Idle)
    case StepFinish =>
      var steps := s.steps[s.current := s.steps[s.current].(status := Complete)];
      var next := s.current + 1;
      if next < |steps| then
        s.(steps := steps, current := next, timer := StepStart)
      else
        s.(steps := steps, current := next, timer := Idle, isProcessing := false, isComplete := true,
           toasts := s.toasts + [AnalysisCompleteToast])
  }

  /** "Analyze Another Document": back to the initial view. */
  function Reset(s: Snapshot): Snapshot
  {
    s.(file := None, isProcessing := false, isComplete := false, uploadProgress := 0,
       steps := InitialSteps, current := 0)
  }

  function FireN(s: Snapshot, n: nat): Snapshot
    requires Inv(s)
    ensures Inv(FireN(s, n))
    decreases n
  {
    if n == 0 then s
    else
      FireValid(s);
      FireN(Fire(s), n - 1)
  }

  // ---------------------------------------------------------------------------
  // Invariant
  // ---------------------------------------------------------------------------

  /** Four steps, with the fixed labels in the fixed order. */
  predicate StepsShape(steps: seq<Step>)
  {
    |steps| == 4 && forall i :: 0 <= i < 4 ==> steps[i].caption == StepLabels[i]
  }

  /** Every step before `current` is complete, every step after it pending,
      and the current one not yet complete. */
  predicate InOrder(steps: seq<Step>, current: nat)
  {
    forall i :: 0 <= i < |steps| ==>
      (i < current ==> steps[i].status == Complete) &&
      (i > current ==> steps[i].status == Pending) &&
      (i == current ==> steps[i].status != Complete)
  }

  predicate AllPending(steps: seq<Step>)
  {
    forall i :: 0 <= i < |steps| ==> steps[i].status == Pending
  }

  predicate Inv(s: Snapshot)
  {
    && StepsShape(s.steps)
    && 0 <= s.uploadProgress <= 100 && s.uploadProgress % 10 == 0
    && s.current <= 4
    && InOrder(s.steps, s.current)
    && !(s.isProcessing && s.isComplete)
    && (forall i :: 0 <= i < 4 && s.steps[i].status != Pending ==> s.uploadProgress == 100)
    && (s.current < 4 ==> (s.steps[s.current].status == Processing <==> s.timer.StepFinish?))
    && (s.timer.Idle? <==> !s.isProcessing)
    && (s.timer.UploadInterval? ==> s.current == 0 && AllPending(s.steps))
    && (s.timer.StepStart? || s.timer.StepFinish? ==> s.uploadProgress == 100 && s.current < 4)
    && (s.isComplete ==> s.current == 4 && s.uploadProgress == 100)
    && (!s.isProcessing && !s.isComplete ==> s.current == 0 && s.uploadProgress == 0 && AllPending(s.steps))
  }

  // ---------------------------------------------------------------------------
  // Properties
  // ---------------------------------------------------------------------------

  /** The component mounts with four pending steps in the fixed order. */
  lemma InitialValid()
    ensures Inv(Initial)
    ensures StepsShape(Initial.steps) && AllPending(Initial.steps)
    ensures UploadPaneVisible(Initial)
  {
  }

  /** A file can only be chosen from the upload pane; choosing one keeps the
      invariant and starts the ramp from 0 with every step pending. */
  lemma SubmitValid(s: Snapshot, f: FileInfo)
    requires Inv(s) && UploadPaneVisible(s)
    ensures var t := Submit(s, f);
      Inv(t) && t.file == Some(f) && t.isProcessing && !t.isComplete
      && t.uploadProgress == 0 && AllPending(t.steps) && UploadBarVisible(t)
  {
  }

  /** Every callback keeps the invariant; in particular progress never passes
      100, no step leaves pending before progress reaches 100, and at most one
      step is processing, with every earlier one complete and every later one
      pending. */
  lemma FireValid(s: Snapshot)
    requires Inv(s)
    ensures CanFire(s) && Inv(Fire(s))
  {
    var t := Fire(s);
    if s.timer.StepStart? {
      assert s.steps[s.current].status == Pending;
      forall i | 0 <= i < 4 ensures t.steps[i].caption == StepLabels[i] {
        if i == s.current {
          assert t.steps[i].caption == s.steps[i].caption;
        }
      }
    } else if s.timer.StepFinish? {
      forall i | 0 <= i < 4 ensures t.steps[i].caption == StepLabels[i] {
        if i == s.current {
          assert t.steps[i].caption == s.steps[i].caption;
        }
      }
      if s.current + 1 < 4 {
        assert t.steps[s.current + 1] == s.steps[s.current + 1];
      }
    }
  }

  /** Callbacks only move forward: progress never decreases, no step's status
      regresses, and a finished analysis stays finished until reset. */
  lemma FireMonotone(s: Snapshot)
    requires Inv(s)
    ensures CanFire(s)
    ensures s.uploadProgress <= Fire(s).uploadProgress
    ensures |Fire(s).steps| == |s.steps|
    ensures forall i :: 0 <= i < |s.steps| ==> Rank(s.steps[i].status) <= Rank(Fire(s).steps[i].status)
    ensures s.isComplete ==> Fire(s).isComplete
  {
    var t := Fire(s);
    if s.timer.StepStart? || s.timer.StepFinish? {
      assert s.steps[s.current].status != Complete;
    }
  }

  /** A callback changes a step's status only from pending to processing or
      from processing to complete. */
  lemma FireStepTransitions(s: Snapshot, i: int)
    requires Inv(s) && 0 <= i < 4
    ensures CanFire(s)
    ensures var before, after := s.steps[i].status, Fire(s).steps[i].status;
      before == after
      || (before == Pending && after == Processing)
      || (before == Processing && after == Complete)
  {
  }

  /** The completion notification is issued exactly by the callback that
      completes the analysis, and no other callback issues anything. */
  lemma FireNotifies(s: Snapshot)
    requires Inv(s)
    ensures CanFire(s)
    ensures var t := Fire(s);
      t.toasts == s.toasts + (if !s.isComplete && t.isComplete then [AnalysisCompleteToast] else [])
    ensures var t := Fire(s);
      !s.isComplete && t.isComplete ==>
        !t.isProcessing && t.current == 4 && forall i :: 0 <= i < 4 ==> t.steps[i].status == Complete
  {
  }

  /** Reset restores the initial view from the results: no file, both flags
      off, progress 0, four pending steps in the original order. */
  lemma ResetValid(s: Snapshot)
    requires Inv(s) && ResultsVisible(s)
    ensures var t := Reset(s);
      Inv(t) && t.file == None && !t.isProcessing && !t.isComplete && t.uploadProgress == 0
      && t.steps == InitialSteps && t.timer == Idle && UploadPaneVisible(t)
  {
  }

  /** Exactly one of the upload pane, the progress card and the results is
      shown, and inside the progress card exactly one of the upload bar and
      the step list. */
  lemma ViewsExclusive(s: Snapshot)
    requires Inv(s)
    ensures (UploadPaneVisible(s) && !ProcessingPaneVisible(s) && !ResultsVisible(s))
         || (!UploadPaneVisible(s) && ProcessingPaneVisible(s) && !ResultsVisible(s))
         || (!UploadPaneVisible(s) && !ProcessingPaneVisible(s) && ResultsVisible(s))
    ensures ProcessingPaneVisible(s) ==> (UploadBarVisible(s) <==> !StepListVisible(s))
  {
  }

  // ---------------------------------------------------------------------------
  // A whole run
  // ---------------------------------------------------------------------------

  /** Running k > 0 callbacks is running the first, then k - 1 more. */
  lemma FireNStep(s: Snapshot, k: nat)
    requires Inv(s) && k > 0
    ensures CanFire(s) && Inv(Fire(s)) && FireN(s, k) == FireN(Fire(s), k - 1)
  {
    FireValid(s);
  }

  lemma {:induction false} FireNAdd(s: Snapshot, m: nat, n: nat)
    requires Inv(s)
    ensures FireN(s, m + n) == FireN(FireN(s, m), n)
    decreases m
  {
    if m > 0 {
      FireNStep(s, m + n);
      FireNStep(s, m);
      FireNAdd(Fire(s), m - 1, n);
    }
  }

  /** During the ramp each firing adds 10 and nothing else changes. */
  lemma {:induction false} Ramp(s: Snapshot, k: nat)
    requires Inv(s) && s.timer.UploadInterval? && s.uploadProgress + 10 * k <= 100
    ensures FireN(s, k) == s.(uploadProgress := s.uploadProgress + 10 * k)
    decreases k
  {
    if k > 0 {
      FireValid(s);
      Ramp(Fire(s), k - 1);
    }
  }

  /** From the start of a step, two firings finish it. */
  lemma StepRound(s: Snapshot)
    requires Inv(s) && s.timer.StepStart?
    ensures FireN(s, 2).toasts == s.toasts + (if s.current == 3 then [AnalysisCompleteToast] else [])
    ensures FireN(s, 2).current == s.current + 1
    ensures s.current < 3 ==> FireN(s, 2).timer.StepStart? && FireN(s, 2).isProcessing
    ensures s.current == 3 ==> FireN(s, 2).isComplete
  {
    FireValid(s);
    FireValid(Fire(s));
    assert FireN(s, 2) == Fire(Fire(s));
  }

  /** From the first step, eight firings complete the analysis with exactly
      one notification. */
  lemma {:induction false} StepsRun(s: Snapshot, k: nat)
    requires Inv(s) && s.timer.StepStart? && s.current + k == 4
    ensures FireN(s, 2 * k).isComplete && !FireN(s, 2 * k).isProcessing
    ensures FireN(s, 2 * k).toasts == s.toasts + [AnalysisCompleteToast]
    decreases k
  {
    StepRound(s);
    FireNAdd(s, 2, 2 * (k - 1));
    if k > 1 {
      StepsRun(FireN(s, 2), k - 1);
    } else {
      assert FireN(s, 2 * k) == FireN(FireN(s, 2), 0);
    }
  }

  /** A file submitted from the upload pane is fully analysed after 19
      firings (ten ramp ticks, the tick that sees 100%, and two per step),
      with exactly one "Analysis Complete" notification, and the results
      replace the progress card. */
  lemma CompleteRun(s: Snapshot, f: FileInfo)
    requires Inv(s) && UploadPaneVisible(s)
    ensures var t := FireN(Submit(s, f), 19);
      t.isComplete && !t.isProcessing && ResultsVisible(t) && t.file == Some(f)
      && t.uploadProgress == 100 && t.toasts == s.toasts + [AnalysisCompleteToast]
      && forall i :: 0 <= i < 4 ==> t.steps[i].status == Complete
  {
    var u := Submit(s, f);
    SubmitValid(s, f);
    Ramp(u, 10);
    var full := FireN(u, 10);
    FireValid(full);
    var started := Fire(full);
    assert started.timer.StepStart? && started.current == 0;
    assert FireN(full, 1) == started by {
      assert FireN(started, 0) == started;
    }
    StepsRun(started, 4);
    FireNAdd(u, 10, 1);
    FireNAdd(u, 11, 8);
  }

  // ---------------------------------------------------------------------------
  // The component
  // ---------------------------------------------------------------------------

  class Analyzer {
    var file: Option<FileInfo>
    var isProcessing: bool
    var isComplete: bool
    var uploadProgress: int
    /** processingSteps; its entries are overwritten in place. */
    const steps: array<Step>
    /** currentStep of the running steps callback. */
    var currentStep: nat
    var timer: Timer
    var toasts: seq<Effect>

    function State(): Snapshot
      reads this, steps
    {
      Snapshot(file, isProcessing, isComplete, uploadProgress, steps[..], currentStep, timer, toasts)
    }

    ghost predicate Valid()
      reads this, steps
    {
      Inv(State())
    }

    constructor()
      ensures Valid() && State() == Initial && fresh(steps)
    {
      var a := new Step[4](i => Step(StepLabels[if 0 <= i < 4 then i else 0], Pending));
      steps := a;
      file, isProcessing, isComplete, uploadProgress := None, false, false, 0;
      currentStep, timer, toasts := 0, Idle, [];
      assert a[..] == InitialSteps;
    }

    /** handleFile: only reachable from the upload pane. */
    method HandleFile(f: FileInfo)
      requires Valid() && UploadPaneVisible(State())
      modifies this
      ensures Valid() && State() == Submit(old(State()), f)
    {
      SubmitValid(State(), f);
      file := Some(f);
      isProcessing := true;
      uploadProgress := 0;
      currentStep := 0;
      timer := UploadInterval;
    }

    /** The pending timer callback runs. */
    method Tick()
      requires Valid()
      modifies this, steps
      ensures Valid() && State() == Fire(old(State()))
    {
      ghost var before := State();
      FireValid(before);
      match timer {
        case Idle =>
        case UploadInterval =>
          if uploadProgress >= 100 {
            uploadProgress := 100;
            currentStep := 0;
            timer := StepStart;
          } else {
            uploadProgress := uploadProgress + 10;
          }
        case StepStart =>
          timer := Idle;
          if currentStep < steps.Length {
            steps[currentStep] := steps[currentStep].(status := Processing);
            timer := StepFinish;
          }
        case StepFinish =>
          steps[currentStep] := steps[currentStep].(status := Complete);
          currentStep := currentStep + 1;
          if currentStep < steps.Length {
            timer := StepStart;
          } else {
            timer := Idle;
            isProcessing := false;
            isComplete := true;
            toasts := toasts + [AnalysisCompleteToast];
          }
      }
      assert State() == Fire(before);
    }

    /** resetUpload, from the results view. */
    method ResetUpload()
      requires Valid() && ResultsVisible(State())
      modifies this, steps
      ensures Valid() && State() == Reset(old(State()))
    {
      ResetValid(State());
      file := None;
      isProcessing := false;
      isComplete := false;
      uploadProgress := 0;
      currentStep := 0;
      forall i | 0 <= i < 4 {
        steps[i] := Step(StepLabels[i], Pending);
      }
      assert steps[..] == InitialSteps;
    }

    /** handleCopy: the clipboard write is outside the model; the
        notification is recorded. */
    method HandleCopy(text: string)
      modifies this
      ensures toasts == old(toasts) + [CopiedToast]
      ensures State() == old(State()).(toasts := old(toasts) + [CopiedToast])
    {
      toasts := toasts + [CopiedToast];
    }
  }
}
