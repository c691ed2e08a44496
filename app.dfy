/** The try-on session of App.tsx: the state hooks of the App component, the
    transitions made by handleTryOn (one per synchronous segment of the async
    handler), handleReset, the "Try Again" button, the quality toggle and the
    two image pickers, and the predicates that enable those controls.

    The module first describes the session as a value (`Session`, `Next`) and
    proves what the source promises about it; the class `TryOnSession` then
    holds the same state in fields and updates it in place, one method per
    state-changing segment, each proved against `Next`. */
module App {
  import opened Types

  /** A browser `File` chosen in one of the two pickers; only its identity matters here. */
  datatype File = File(id: nat)

  /** The arguments handleTryOn passes to the image generator. */
  datatype Request = Request(personImage: File, clothImage: File, useHighQuality: bool)

  /** What the generator's promise rejected with: `null` or `undefined`, or
      any other value, whose `message` property may be a string or missing. */
  datatype Thrown = Nullish | ErrorValue(message: Option<string>)

  /** How the generator's promise settles: resolved with the result image URL,
      or rejected. */
  datatype Outcome = Resolved(url: string) | Rejected(thrown: Thrown)

  /** The state hooks of App that the logic reads or writes. */
  datatype Session = Session(
    stage: PipelineStage,
    personImage: Option<File>,
    clothImage: Option<File>,
    resultImage: Option<string>,
    error: Option<string>,
    useHighQuality: bool,
    apiKeyMissing: bool)

  /** Everything that changes the session: each synchronous segment of
      handleTryOn, and each control the user can operate. */
  datatype Event =
    | TryOnClicked                      // handleTryOn up to its first await
    | SegmentationDelayElapsed          // the first 1200 ms wait resolves
    | WarpingDelayElapsed               // the second 1200 ms wait resolves
    | GeneratorSettled(outcome: Outcome) // the generator's promise settles
    | ResetClicked                      // handleReset
    | TryAgainClicked                   // the "Try Again" button of the error overlay
    | QualityToggled                    // the high-quality switch
    | PersonImageChanged(person: Option<File>)
    | ClothImageChanged(cloth: Option<File>)

  /** The message stored when the generator rejects with no usable message. */
  const UnexpectedError: string := "An unexpected error occurred during processing."

  /** `err.message || "An unexpected error occurred during processing."`: a
      missing or empty message is falsy and gives way to the fixed text. */
  function ErrorText(message: Option<string>): (r: string)
    ensures r != ""
    ensures message.Some? && message.value != "" ==> r == message.value
    ensures message.None? || message.value == "" ==> r == UnexpectedError
  {
    if message.Some? && message.value != "" then message.value else UnexpectedError
  }

  /** The session when App mounts, after the API-key check has run. */
  function Initial(apiKeyMissing: bool): Session {
    Session(Idle, None, None, None, None, false, apiKeyMissing)
  }

  /** The request handleTryOn hands to the generator: the images and quality
      flag its closure captured when it was invoked, or none when it returns
      early because an image is missing. */
  function CapturedRequest(s: Session): (r: Option<Request>)
    ensures r.None? ==> Next(s, TryOnClicked) == s
    ensures r.Some? ==> var t := Next(s, TryOnClicked);
      && t.stage == Segmentation
      && t.personImage == Some(r.value.personImage) && t.clothImage == Some(r.value.clothImage)
      && t.useHighQuality == r.value.useHighQuality
  {
    if s.personImage.None? || s.clothImage.None? then None
    else Some(Request(s.personImage.value, s.clothImage.value, s.useHighQuality))
  }

  /** The session after one event. The key flag never changes after mount,
      the result is touched only by a start, a settlement or a reset, and the
      quality switch and the pickers never move the stage. */
  function Next(s: Session, e: Event): (r: Session)
    ensures r.apiKeyMissing == s.apiKeyMissing
    ensures r.resultImage != s.resultImage ==> e.TryOnClicked? || e.GeneratorSettled? || e.ResetClicked?
    ensures e.QualityToggled? || e.PersonImageChanged? || e.ClothImageChanged? ==> r.stage == s.stage
  {
    match e
    case TryOnClicked =>
      if s.personImage.None? || s.clothImage.None? then s
      else s.(stage := Segmentation, error := None, resultImage := None)
    case SegmentationDelayElapsed => s.(stage := Warping)
    case WarpingDelayElapsed => s.(stage := Generation)
    case GeneratorSettled(Resolved(url)) => s.(resultImage := Some(url), stage := Complete)
    case GeneratorSettled(Rejected(ErrorValue(message))) => s.(error := Some(ErrorText(message)), stage := Error)
    // reading `message` of null or undefined throws inside the catch block,
    // before either setter runs: the rejection escapes and nothing changes
    case GeneratorSettled(Rejected(Nullish)) => s
    case ResetClicked =>
      s.(personImage := None, clothImage := None, resultImage := None, stage := Idle, error := None)
    case TryAgainClicked => s.(stage := Idle)
    case QualityToggled => s.(useHighQuality := !s.useHighQuality)
    case PersonImageChanged(person) => s.(personImage := person)
    case ClothImageChanged(cloth) => s.(clothImage := cloth)
  }

  /** The session after a sequence of events, in order. */
  function Replay(s: Session, events: seq<Event>): Session
    decreases |events|
  {
    if events == [] then s else Replay(Next(s, events[0]), events[1..])
  }

  /** The states one invocation of handleTryOn produces, one per synchronous
      segment, when no other event comes in between; `generate` stands for
      the generator and is asked once, with the captured request. Until the
      generator settles the run is in a working stage, and the page draws
      neither the reset button nor the error overlay with "Try Again". */
  function Run(s: Session, generate: Request -> Outcome): (r: seq<Session>)
    ensures |r| == if CapturedRequest(s).Some? then 4 else 0
    ensures forall i :: 0 <= i < |r| && i < 3 ==>
      IsWorking(r[i].stage) && !ResetShown(r[i]) && !OverlayShown(r[i])
  {
    match CapturedRequest(s)
    case None => []
    case Some(request) =>
      var segmenting := Next(s, TryOnClicked);
      var warping := Next(segmenting, SegmentationDelayElapsed);
      var generating := Next(warping, WarpingDelayElapsed);
      [segmenting, warping, generating, Next(generating, GeneratorSettled(generate(request)))]
  }

  /** The stages a sequence of states passes through. */
  function Stages(states: seq<Session>): (r: seq<PipelineStage>)
    ensures |r| == |states|
    ensures forall i :: 0 <= i < |states| ==> r[i] == states[i].stage
  {
    if states == [] then [] else [states[0].stage] + Stages(states[1..])
  }

  // ---------------------------------------------------------------------------
  // Controls: the `disabled` predicates, negated.

  /** The "Run Inference" button is enabled: pressing it starts a run and
      leaves the other inputs disabled. */
  function RunEnabled(s: Session): (enabled: bool)
    ensures enabled ==> CapturedRequest(s).Some? && InputsEnabled(s)
    ensures enabled ==> !InputsEnabled(Next(s, TryOnClicked))
  {
    !(s.personImage.None? || s.clothImage.None? || s.stage != Idle || s.apiKeyMissing)
  }

  /** The high-quality switch and both pickers' file inputs are enabled (the
      three share one `disabled` expression). They never are during a run. */
  function InputsEnabled(s: Session): (enabled: bool)
    ensures enabled ==> !IsWorking(s.stage)
  {
    !(s.stage != Idle)
  }

  /** The error overlay, with its "Try Again" button, is drawn: `error` is
      truthy, a non-empty string. */
  function OverlayShown(s: Session): (shown: bool)
    ensures shown ==> s.error.Some?
    ensures Consistent(s) ==> (shown <==> s.error.Some?)
  {
    s.error.Some? && s.error.value != ""
  }

  /** The reset button beside the output is drawn: `resultImage` is truthy. */
  function ResetShown(s: Session): (shown: bool)
    ensures shown ==> s.resultImage.Some?
  {
    s.resultImage.Some? && s.resultImage.value != ""
  }

  /** What every reachable session satisfies: COMPLETE always has a result,
      ERROR always has a message, and a stored message is never empty. */
  predicate Consistent(s: Session) {
    && (s.stage == Complete ==> s.resultImage.Some?)
    && (s.stage == Error ==> s.error.Some?)
    && (s.error.Some? ==> s.error.value != "")
  }

  // ---------------------------------------------------------------------------
  // Properties of handleTryOn.

  /** With either image absent, handleTryOn returns at once: nothing changes and
      the generator is not called. */
  lemma TryOnWithoutImagesChangesNothing(s: Session, generate: Request -> Outcome)
    requires s.personImage.None? || s.clothImage.None?
    ensures Next(s, TryOnClicked) == s
    ensures CapturedRequest(s).None?
    ensures Run(s, generate) == []
  {
  }

  /** With both images present, handleTryOn enters SEGMENTATION and clears the
      error and the result, from whatever stage it is in; the images and the
      quality flag are kept. */
  lemma TryOnWithImagesStarts(s: Session)
    requires s.personImage.Some? && s.clothImage.Some?
    ensures var t := Next(s, TryOnClicked);
      && t.stage == Segmentation && t.error.None? && t.resultImage.None?
      && t.personImage == s.personImage && t.clothImage == s.clothImage
      && t.useHighQuality == s.useHighQuality && t.apiKeyMissing == s.apiKeyMissing
  {
  }

  /** handleTryOn itself checks only the images: invoked in a working stage, or
      with the API key missing, it restarts the run although the button that
      normally invokes it is disabled. */
  lemma OnlyTheButtonGuardsStageAndKey(s: Session)
    requires s.personImage.Some? && s.clothImage.Some?
    requires s.stage != Idle || s.apiKeyMissing
    ensures !RunEnabled(s)
    ensures Next(s, TryOnClicked).stage == Segmentation
    ensures CapturedRequest(s).Some?
  {
  }

  /** A run whose generator resolves passes through SEGMENTATION, WARPING,
      GENERATION and COMPLETE in that order; it stores the generator's value,
      the generator received exactly the images and quality flag present when
      the run started, and the inputs are unchanged. */
  lemma SuccessfulRun(s: Session, generate: Request -> Outcome)
    requires s.personImage.Some? && s.clothImage.Some?
    requires generate(Request(s.personImage.value, s.clothImage.value, s.useHighQuality)).Resolved?
    ensures Stages(Run(s, generate)) == [Segmentation, Warping, Generation, Complete]
    ensures var last := Run(s, generate)[3];
      && last.resultImage == Some(generate(Request(s.personImage.value, s.clothImage.value, s.useHighQuality)).url)
      && last.error.None?
      && last.personImage == s.personImage && last.clothImage == s.clothImage
      && last.useHighQuality == s.useHighQuality
  {
  }

  /** A run whose generator rejects with a value other than null or undefined
      passes through SEGMENTATION, WARPING, GENERATION and ends in ERROR with
      no result; the stored error is the rejection's message, or the fixed
      text when that is missing or empty. */
  lemma FailedRun(s: Session, generate: Request -> Outcome)
    requires s.personImage.Some? && s.clothImage.Some?
    requires generate(Request(s.personImage.value, s.clothImage.value, s.useHighQuality)).Rejected?
    requires generate(Request(s.personImage.value, s.clothImage.value, s.useHighQuality)).thrown.ErrorValue?
    ensures Stages(Run(s, generate)) == [Segmentation, Warping, Generation, Error]
    ensures var last := Run(s, generate)[3];
      var message := generate(Request(s.personImage.value, s.clothImage.value, s.useHighQuality)).thrown.message;
      && last.resultImage.None?
      && last.error == Some(ErrorText(message))
      && (message.Some? && message.value != "" ==> last.error == message)
      && (message.None? || message.value == "" ==> last.error == Some(UnexpectedError))
      && OverlayShown(last)
  {
  }

  /** A run whose generator rejects with null or undefined passes through
      SEGMENTATION, WARPING, GENERATION and stays in GENERATION: the catch
      block throws before setting anything. The run button, the switch and
      the file inputs stay disabled, and neither the reset button nor the
      error overlay is drawn, so the page offers no way back to IDLE. */
  lemma NullishRejectionStrandsRun(s: Session, generate: Request -> Outcome)
    requires s.personImage.Some? && s.clothImage.Some?
    requires generate(Request(s.personImage.value, s.clothImage.value, s.useHighQuality)) == Rejected(Nullish)
    ensures Stages(Run(s, generate)) == [Segmentation, Warping, Generation, Generation]
    ensures var last := Run(s, generate)[3];
      && last == Run(s, generate)[2]
      && last.resultImage.None? && last.error.None?
      && !RunEnabled(last) && !InputsEnabled(last)
      && !ResetShown(last) && !OverlayShown(last)
  {
  }

  /** In every state of a run, and after it has settled, the run button, the
      switch and the file inputs are disabled, so the page never starts a
      second run over the first; until the generator settles neither the reset
      button nor "Try Again" is drawn. The pickers' clear buttons are not
      disabled: see `ClearingImageDuringRun`. */
  lemma ControlsDisabledDuringRun(s: Session, generate: Request -> Outcome, i: nat)
    requires s.personImage.Some? && s.clothImage.Some?
    requires i < 4
    ensures |Run(s, generate)| == 4
    ensures !RunEnabled(Run(s, generate)[i]) && !InputsEnabled(Run(s, generate)[i])
    ensures i < 3 ==> !ResetShown(Run(s, generate)[i]) && !OverlayShown(Run(s, generate)[i])
  {
  }

  /** A picker's clear button ignores `disabled`, so during a run it still
      clears that image: the stage is kept and a later start would return
      early. (The pending run's request was fixed when it started: see
      `CapturedRequest` and `Run`.) */
  lemma ClearingImageDuringRun(s: Session, generate: Request -> Outcome, i: nat)
    requires s.personImage.Some? && s.clothImage.Some?
    requires i < 3
    ensures var t := Next(Run(s, generate)[i], PersonImageChanged(None));
      t.stage == Run(s, generate)[i].stage && t.personImage.None? && CapturedRequest(t).None?
    ensures var t := Next(Run(s, generate)[i], ClothImageChanged(None));
      t.stage == Run(s, generate)[i].stage && t.clothImage.None? && CapturedRequest(t).None?
  {
  }

  // ---------------------------------------------------------------------------
  // Properties of reset, "Try Again" and the controls.

  /** handleReset from any stage: IDLE, both images, the result and the error
      cleared; the quality flag and the API-key flag are kept. */
  lemma ResetFromAnyStage(s: Session)
    ensures var t := Next(s, ResetClicked);
      && t.stage == Idle && t.personImage.None? && t.clothImage.None?
      && t.resultImage.None? && t.error.None?
      && t.useHighQuality == s.useHighQuality && t.apiKeyMissing == s.apiKeyMissing
      && !OverlayShown(t) && !ResetShown(t) && InputsEnabled(t) && !RunEnabled(t)
  {
  }

  /** "Try Again", clickable whenever the overlay is drawn, sets the stage to
      IDLE and changes nothing else, so the error is kept and the overlay
      stays drawn, while the switch and pickers are enabled again. */
  lemma TryAgainOnlyChangesStage(s: Session)
    requires OverlayShown(s)
    ensures var t := Next(s, TryAgainClicked);
      && t == s.(stage := Idle)
      && t.personImage == s.personImage && t.clothImage == s.clothImage
      && t.resultImage == s.resultImage && t.error == s.error
      && t.useHighQuality == s.useHighQuality && t.apiKeyMissing == s.apiKeyMissing
      && OverlayShown(t) && InputsEnabled(t)
  {
  }

  /** The switch flips the quality flag and nothing else; the next run hands
      the flipped flag to the generator. */
  lemma ToggleFlipsQuality(s: Session)
    ensures var t := Next(s, QualityToggled);
      && t.useHighQuality == !s.useHighQuality
      && t == s.(useHighQuality := t.useHighQuality)
      && (CapturedRequest(s).Some? ==> CapturedRequest(t).value.useHighQuality == !s.useHighQuality)
      && Next(t, QualityToggled) == s
  {
  }

  /** The run button is enabled exactly when both images are present, the
      stage is IDLE and the API key is present; pressing it then starts a run
      with a captured request. The switch and the pickers are enabled exactly
      in IDLE. */
  lemma Enablement(s: Session)
    ensures RunEnabled(s) <==>
      s.personImage.Some? && s.clothImage.Some? && s.stage == Idle && !s.apiKeyMissing
    ensures InputsEnabled(s) <==> s.stage == Idle
    ensures RunEnabled(s) ==> CapturedRequest(s).Some? && Next(s, TryOnClicked).stage == Segmentation
  {
  }

  /** `handleReset` has no guard and nothing discards a settlement that
      arrives after it: if `handleReset` ran while a run was pending, the stale
      result or error would overwrite the fresh IDLE session. (The page itself
      draws no reset button while a run is pending: see
      `ControlsDisabledDuringRun`.) */
  lemma LateSettlementAfterReset(s: Session, outcome: Outcome)
    ensures var t := Next(Next(s, ResetClicked), GeneratorSettled(outcome));
      && (outcome.Resolved? ==> t.stage == Complete && t.resultImage == Some(outcome.url))
      && (outcome.Rejected? && outcome.thrown.ErrorValue? ==> t.stage == Error && OverlayShown(t))
      && (outcome == Rejected(Nullish) ==> t == Next(s, ResetClicked))
  {
  }

  // ---------------------------------------------------------------------------
  // The session invariant.

  /** Every event keeps the session consistent. */
  lemma NextPreservesConsistent(s: Session, e: Event)
    requires Consistent(s)
    ensures Consistent(Next(s, e))
  {
  }

  /** Every session reachable from mount, through any interleaving of clicks,
      timers and settlements, is consistent; in particular ERROR always shows
      the overlay. */
  lemma {:induction false} ReachableSessionsAreConsistent(s: Session, events: seq<Event>)
    requires Consistent(s)
    ensures Consistent(Replay(s, events))
    ensures Replay(s, events).stage == Error ==> OverlayShown(Replay(s, events))
    decreases |events|
  {
    if events != [] {
      NextPreservesConsistent(s, events[0]);
      ReachableSessionsAreConsistent(Next(s, events[0]), events[1..]);
    }
  }

  // ---------------------------------------------------------------------------
  // The invariant of the sessions the page itself produces.

  /** `e` is something the page can produce in `s`: a start only through the
      enabled run button; each timer and the settlement only in the stage its
      pending run has set; reset only through the drawn reset button, "Try
      Again" only through the drawn overlay; the switch and a file choice
      only when enabled; a picker's clear button at any time. During a run
      of a session keeping `PageInvariant`, only the run's own segments move
      the stage. */
  predicate PageEvent(s: Session, e: Event)
    ensures PageEvent(s, e) && PageInvariant(s) && IsWorking(s.stage) ==>
      Next(s, e).stage == s.stage
      || e.SegmentationDelayElapsed? || e.WarpingDelayElapsed? || e.GeneratorSettled?
  {
    match e
    case TryOnClicked => RunEnabled(s)
    case SegmentationDelayElapsed => s.stage == Segmentation
    case WarpingDelayElapsed => s.stage == Warping
    case GeneratorSettled(_) => s.stage == Generation
    case ResetClicked => ResetShown(s)
    case TryAgainClicked => OverlayShown(s)
    case QualityToggled => InputsEnabled(s)
    case PersonImageChanged(person) => person.None? || InputsEnabled(s)
    case ClothImageChanged(cloth) => cloth.None? || InputsEnabled(s)
  }

  /** Every event of the sequence is one the page can produce when it comes. */
  predicate PageTrace(s: Session, events: seq<Event>)
    decreases |events|
  {
    events == [] || (PageEvent(s, events[0]) && PageTrace(Next(s, events[0]), events[1..]))
  }

  /** `Consistent`, and moreover: a result and an error are never stored
      together, a result is stored only in COMPLETE, and a run in progress
      has neither. */
  predicate PageInvariant(s: Session) {
    && Consistent(s)
    && !(s.resultImage.Some? && s.error.Some?)
    && (s.resultImage.Some? ==> s.stage == Complete)
    && (IsWorking(s.stage) ==> s.resultImage.None? && s.error.None?)
  }

  /** Every event the page can produce keeps the page invariant. */
  lemma PageEventPreservesInvariant(s: Session, e: Event)
    requires PageInvariant(s) && PageEvent(s, e)
    ensures PageInvariant(Next(s, e))
  {
  }

  /** Every session the page reaches from a session satisfying the invariant
      satisfies it too; in particular the reset button and the error overlay
      are never drawn together. */
  lemma {:induction false} PageSessionsKeepInvariant(s: Session, events: seq<Event>)
    requires PageInvariant(s) && PageTrace(s, events)
    ensures PageInvariant(Replay(s, events))
    ensures !(ResetShown(Replay(s, events)) && OverlayShown(Replay(s, events)))
    decreases |events|
  {
    if events != [] {
      PageEventPreservesInvariant(s, events[0]);
      PageSessionsKeepInvariant(Next(s, events[0]), events[1..]);
    }
  }

  /** The mounted session is consistent and idle with nothing selected. */
  lemma InitialIsConsistent(apiKeyMissing: bool)
    ensures Consistent(Initial(apiKeyMissing)) && PageInvariant(Initial(apiKeyMissing))
    ensures Initial(apiKeyMissing).stage == Idle && !OverlayShown(Initial(apiKeyMissing))
    ensures !RunEnabled(Initial(apiKeyMissing))
  {
  }

  // ---------------------------------------------------------------------------
  // The component's state, updated in place.

  /** The App component's state hooks. `apiKeyMissing` is fixed once the mount
      effect has looked for the key. */
  class TryOnSession {
    var stage: PipelineStage
    var personImage: Option<File>
    var clothImage: Option<File>
    var resultImage: Option<string>
    var error: Option<string>
    var useHighQuality: bool
    var apiKeyMissing: bool

    /** The fields as a `Session` value. */
    function State(): Session
      reads this
    {
      Session(stage, personImage, clothImage, resultImage, error, useHighQuality, apiKeyMissing)
    }

    ghost predicate Valid()
      reads this
    {
      Consistent(State())
    }

    /** App mounts: every hook at its initial value, and the mount effect
        records whether the API key was found. */
    constructor(apiKeyPresent: bool)
      ensures Valid()
      ensures State() == Initial(!apiKeyPresent)
    {
      stage := Idle;
      personImage := None;
      clothImage := None;
      resultImage := None;
      error := None;
      useHighQuality := false;
      apiKeyMissing := !apiKeyPresent;
    }

    /** handleTryOn up to its first await. Returns the request the rest of
        the run will hand to the generator, or none on the early return. */
    method Start() returns (request: Option<Request>)
      requires Valid()
      modifies this
      ensures Valid()
      ensures State() == Next(old(State()), TryOnClicked)
      ensures request == CapturedRequest(old(State()))
    {
      if personImage.None? || clothImage.None? {
        return None;
      }
      request := Some(Request(personImage.value, clothImage.value, useHighQuality));
      stage := Segmentation;
      error := None;
      resultImage := None;
    }

    /** The segment after the first delay. */
    method ToWarping()
      requires Valid()
      modifies this
      ensures Valid()
      ensures State() == Next(old(State()), SegmentationDelayElapsed)
    {
      stage := Warping;
    }

    /** The segment after the second delay, up to the generator call. */
    method ToGeneration()
      requires Valid()
      modifies this
      ensures Valid()
      ensures State() == Next(old(State()), WarpingDelayElapsed)
    {
      stage := Generation;
    }

    /** The generator resolved with `url`. */
    method Complete(url: string)
      requires Valid()
      modifies this
      ensures Valid()
      ensures State() == Next(old(State()), GeneratorSettled(Resolved(url)))
    {
      resultImage := Some(url);
      stage := PipelineStage.Complete;
    }

    /** The generator rejected with `thrown`: the catch block. For null or
        undefined it throws on reading `message`, before either setter. */
    method Fail(thrown: Thrown)
      requires Valid()
      modifies this
      ensures Valid()
      ensures State() == Next(old(State()), GeneratorSettled(Rejected(thrown)))
    {
      if thrown.ErrorValue? {
        error := Some(ErrorText(thrown.message));
        stage := PipelineStage.Error;
      }
    }

    /** handleReset. */
    method Reset()
      requires Valid()
      modifies this
      ensures Valid()
      ensures State() == Next(old(State()), ResetClicked)
    {
      personImage := None;
      clothImage := None;
      resultImage := None;
      stage := Idle;
      error := None;
    }

    /** The "Try Again" button. */
    method TryAgain()
      requires Valid()
      modifies this
      ensures Valid()
      ensures State() == Next(old(State()), TryAgainClicked)
    {
      stage := Idle;
    }

    /** The high-quality switch. */
    method ToggleQuality()
      requires Valid()
      modifies this
      ensures Valid()
      ensures State() == Next(old(State()), QualityToggled)
    {
      useHighQuality := !useHighQuality;
    }

    /** The person picker selected a file, or was cleared. */
    method SetPersonImage(file: Option<File>)
      requires Valid()
      modifies this
      ensures Valid()
      ensures State() == Next(old(State()), PersonImageChanged(file))
    {
      personImage := file;
    }

    /** The clothing picker selected a file, or was cleared. */
    method SetClothImage(file: Option<File>)
      requires Valid()
      modifies this
      ensures Valid()
      ensures State() == Next(old(State()), ClothImageChanged(file))
    {
      clothImage := file;
    }
  }

  // ---------------------------------------------------------------------------
  // Client runs of the class.

  /** Both images chosen, standard quality, the generator resolves with "R1":
      the run ends COMPLETE with "R1" stored and no error. */
  method ResolvedRunScenario() returns (request: Option<Request>, finalStage: PipelineStage, result: Option<string>, error: Option<string>)
    ensures request == Some(Request(File(1), File(2), false))
    ensures finalStage == PipelineStage.Complete && result == Some("R1") && error == None
  {
    var session := new TryOnSession(true);
    session.SetPersonImage(Some(File(1)));
    session.SetClothImage(Some(File(2)));
    assert RunEnabled(session.State());
    request := session.Start();
    session.ToWarping();
    session.ToGeneration();
    session.Complete("R1");
    finalStage, result, error := session.stage, session.resultImage, session.error;
  }

  /** Both images chosen, high quality, the generator rejects with
      "quota exceeded": the run ends in ERROR with that message and no result;
      "Try Again" then returns to IDLE keeping the message. */
  method RejectedRunScenario() returns (request: Option<Request>, failedStage: PipelineStage, error: Option<string>, result: Option<string>, afterTryAgain: PipelineStage, errorAfterTryAgain: Option<string>)
    ensures request == Some(Request(File(1), File(2), true))
    ensures failedStage == PipelineStage.Error && error == Some("quota exceeded") && result == None
    ensures afterTryAgain == Idle && errorAfterTryAgain == Some("quota exceeded")
  {
    var session := new TryOnSession(true);
    session.SetPersonImage(Some(File(1)));
    session.SetClothImage(Some(File(2)));
    session.ToggleQuality();
    request := session.Start();
    session.ToWarping();
    session.ToGeneration();
    session.Fail(ErrorValue(Some("quota exceeded")));
    failedStage, error, result := session.stage, session.error, session.resultImage;
    session.TryAgain();
    afterTryAgain, errorAfterTryAgain := session.stage, session.error;
  }

  /** Only the person image chosen: handleTryOn returns at once and the
      session stays IDLE with nothing requested. */
  method MissingImageScenario() returns (request: Option<Request>, finalStage: PipelineStage)
    ensures request == None && finalStage == Idle
  {
    var session := new TryOnSession(true);
    session.SetPersonImage(Some(File(1)));
    request := session.Start();
    finalStage := session.stage;
  }

  /** If `handleReset` ran during WARPING (the page draws no reset button
      then, but the handler has no guard), the pending timer and the generator
      would still settle afterwards, and nothing stops them: the cleared
      session ends COMPLETE holding the stale result with both images gone. */
  method ResetDuringRunScenario() returns (afterReset: PipelineStage, finalStage: PipelineStage, result: Option<string>, person: Option<File>)
    ensures afterReset == Idle
    ensures finalStage == PipelineStage.Complete && result == Some("R1") && person == None
  {
    var session := new TryOnSession(true);
    session.SetPersonImage(Some(File(1)));
    session.SetClothImage(Some(File(2)));
    var request := session.Start();
    session.ToWarping();
    session.Reset();
    afterReset := session.stage;
    session.ToGeneration();
    session.Complete("R1");
    finalStage, result, person := session.stage, session.resultImage, session.personImage;
  }

  /** Both images chosen, the generator rejects with `null`: the session stays
      in GENERATION with neither a result nor an error. */
  method NullishRejectionScenario() returns (finalStage: PipelineStage, result: Option<string>, error: Option<string>)
    ensures finalStage == Generation && result == None && error == None
  {
    var session := new TryOnSession(true);
    session.SetPersonImage(Some(File(1)));
    session.SetClothImage(Some(File(2)));
    var request := session.Start();
    session.ToWarping();
    session.ToGeneration();
    session.Fail(Nullish);
    finalStage, result, error := session.stage, session.resultImage, session.error;
  }
}
