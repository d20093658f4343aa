/** The home page (frontend/src/app/page.tsx): a dozen pieces of React
    state updated step by step by the connection test and the three request
    handlers, and the conditions under which each part of the page is
    rendered. Each asynchronous handler is a begin step, which runs up to
    the first `await` and yields the request it sends, followed by a
    complete step, which runs once the request settles. */
module Page {
  import opened Wrappers

  datatype ApiStatus = Checking | Online | Offline

  /** What `testApiConnection` resolves to; only `success` and `message`
      are read by the page. */
  datatype ConnectionResult = ConnectionResult(success: bool, message: string)

  /** The response shapes of frontend/src/types/index.ts. */
  datatype QuestionGroup = QuestionGroup(target: string, questions: seq<string>)
  datatype DirectorResponse = DirectorResponse(issues: seq<string>, questions: seq<QuestionGroup>, angles: seq<string>,
                                               interpretation: string, additionalPoints: seq<string>, checklist: seq<string>)
  datatype DeepDiveResponse = DeepDiveResponse(background: string, keyPoints: seq<string>, analysis: string,
                                               implications: seq<string>)
  datatype Perspective = Perspective(viewpoint: string, issues: seq<string>, questions: seq<string>,
                                     implications: seq<string>)
  datatype PerspectiveResponse = PerspectiveResponse(perspectives: seq<Perspective>)

  /** What a rejected request threw: an `Error` with its message, or
      anything else. */
  datatype Thrown = ErrorValue(message: string) | NonErrorValue

  /** How an awaited request settles. */
  datatype Settled<T> = Resolved(value: T) | Rejected(thrown: Thrown)

  /** The backend request a begin step sends. */
  datatype Request =
    | DirectingRequest(situation: string)
    | DeepDiveRequest(topic: string)
    | PerspectiveRequest(situation: string, perspective: string)

  const OfflineMessage: string := "API 서버가 오프라인 상태입니다. 백엔드 서버를 시작해주세요."
  const DirectingDefault: string := "디렉팅 요청 중 오류가 발생했습니다."
  const DeepDiveDefault: string := "심화 분석 중 오류가 발생했습니다."
  const PerspectiveDefault: string := "관점 확장 요청 중 오류가 발생했습니다."

  /** `err instanceof Error ? err.message : default`. */
  function ErrorText(thrown: Thrown, default: string): (r: string)
    ensures thrown.ErrorValue? ==> r == thrown.message
    ensures thrown.NonErrorValue? ==> r == default
  {
    match thrown
    case ErrorValue(m) => m
    case NonErrorValue => default
  }

  /** A snapshot of the page's state. */
  datatype PageView = PageView(
    currentSituation: string,
    directorResponse: Option<DirectorResponse>,
    deepDiveResponse: Option<DeepDiveResponse>,
    perspectiveResponse: Option<PerspectiveResponse>,
    isDirectorLoading: bool,
    isDeepDiveLoading: bool,
    isPerspectiveLoading: bool,
    error: Option<string>,
    apiStatus: ApiStatus,
    connectionDetails: Option<ConnectionResult>)

  /** The `useState` initial values. */
  const Initial: PageView := PageView("", None, None, None, false, false, false, None, Checking, None)

  /** What every reachable state satisfies: the director slot is empty
      while a directing request is pending, and the connection test has
      reported once the status is no longer `'checking'`. */
  predicate Valid(v: PageView) {
    (v.isDirectorLoading ==> v.directorResponse.None?)
    && (v.apiStatus != Checking ==> v.connectionDetails.Some?)
  }

  // ----- The transitions -----

  function ApiTestBegun(v: PageView): PageView {
    v.(apiStatus := Checking)
  }

  function ApiTestCompleted(v: PageView, result: ConnectionResult): PageView {
    v.(connectionDetails := Some(result), apiStatus := if result.success then Online else Offline)
  }

  /** Only an `'offline'` status blocks; `'checking'` lets the request go. */
  predicate DirectingBlocked(v: PageView) {
    v.apiStatus == Offline
  }

  function DirectingBegun(v: PageView, situation: string): PageView {
    if DirectingBlocked(v) then v.(error := Some(OfflineMessage))
    else v.(isDirectorLoading := true, error := None, currentSituation := situation,
            directorResponse := None, deepDiveResponse := None, perspectiveResponse := None)
  }

  function DirectingCompleted(v: PageView, outcome: Settled<DirectorResponse>): PageView {
    match outcome
    case Resolved(r) => v.(directorResponse := Some(r), isDirectorLoading := false)
    case Rejected(t) => v.(error := Some(ErrorText(t, DirectingDefault)), isDirectorLoading := false)
  }

  function DeepDiveBegun(v: PageView): PageView {
    v.(isDeepDiveLoading := true)
  }

  function DeepDiveCompleted(v: PageView, outcome: Settled<DeepDiveResponse>): PageView {
    match outcome
    case Resolved(r) => v.(deepDiveResponse := Some(r), isDeepDiveLoading := false)
    case Rejected(t) => v.(error := Some(ErrorText(t, DeepDiveDefault)), isDeepDiveLoading := false)
  }

  /** The early return of `handlePerspective`. */
  predicate PerspectiveBlocked(v: PageView) {
    v.currentSituation == "" || v.apiStatus == Offline
  }

  function PerspectiveBegun(v: PageView): PageView {
    if PerspectiveBlocked(v) then v else v.(isPerspectiveLoading := true, error := None)
  }

  function PerspectiveCompleted(v: PageView, outcome: Settled<PerspectiveResponse>): PageView {
    match outcome
    case Resolved(r) => v.(perspectiveResponse := Some(r), isPerspectiveLoading := false)
    case Rejected(t) => v.(error := Some(ErrorText(t, PerspectiveDefault)), isPerspectiveLoading := false)
  }

  // ----- What is rendered -----

  /** The connection-test button is disabled while a test runs. */
  predicate TestButtonDisabled(v: PageView) {
    v.apiStatus == Checking
  }

  /** `connectionDetails && apiStatus === 'offline'`. */
  predicate OfflineBannerShown(v: PageView) {
    v.connectionDetails.Some? && v.apiStatus == Offline
  }

  /** `error && …`: an empty message is falsy and shows nothing. */
  predicate ErrorBannerShown(v: PageView) {
    v.error.Some? && v.error.value != ""
  }

  predicate DirectorPanelShown(v: PageView) {
    v.directorResponse.Some?
  }

  predicate NotesShown(v: PageView) {
    v.directorResponse.Some?
  }

  predicate DeepDivePanelShown(v: PageView) {
    v.deepDiveResponse.Some?
  }

  predicate PerspectivePanelShown(v: PageView) {
    v.perspectiveResponse.Some?
  }

  /** The situation form's `isLoading`. */
  predicate InputLoading(v: PageView) {
    v.isDirectorLoading
  }

  // ----- Properties of the transitions -----

  /** Every transition keeps the invariant, and the initial state has it. */
  lemma TransitionsKeepValid(v: PageView, situation: string, result: ConnectionResult,
                             d: Settled<DirectorResponse>, dd: Settled<DeepDiveResponse>, p: Settled<PerspectiveResponse>)
    requires Valid(v)
    ensures Valid(Initial)
    ensures Valid(ApiTestBegun(v)) && Valid(ApiTestCompleted(v, result))
    ensures Valid(DirectingBegun(v, situation)) && Valid(DirectingCompleted(v, d))
    ensures Valid(DeepDiveBegun(v)) && Valid(DeepDiveCompleted(v, dd))
    ensures Valid(PerspectiveBegun(v)) && Valid(PerspectiveCompleted(v, p))
  {
  }

  /** One step of the page: the begin or the completion of a handler. */
  datatype Event =
    | ApiTestStarted
    | ApiTestFinished(result: ConnectionResult)
    | DirectingStarted(situation: string)
    | DirectingSettled(director: Settled<DirectorResponse>)
    | DeepDiveStarted
    | DeepDiveSettled(deepDive: Settled<DeepDiveResponse>)
    | PerspectiveStarted
    | PerspectiveSettled(perspective: Settled<PerspectiveResponse>)

  function Step(v: PageView, e: Event): PageView {
    match e
    case ApiTestStarted => ApiTestBegun(v)
    case ApiTestFinished(result) => ApiTestCompleted(v, result)
    case DirectingStarted(situation) => DirectingBegun(v, situation)
    case DirectingSettled(outcome) => DirectingCompleted(v, outcome)
    case DeepDiveStarted => DeepDiveBegun(v)
    case DeepDiveSettled(outcome) => DeepDiveCompleted(v, outcome)
    case PerspectiveStarted => PerspectiveBegun(v)
    case PerspectiveSettled(outcome) => PerspectiveCompleted(v, outcome)
  }

  /** The state after the given steps, in order. */
  function Run(v: PageView, events: seq<Event>): PageView {
    if events == [] then v else Step(Run(v, events[..|events| - 1]), events[|events| - 1])
  }

  /** Every state reached from the initial one by any sequence of steps,
      in any interleaving, satisfies the invariant. */
  lemma {:induction false} ReachableStatesValid(events: seq<Event>)
    ensures Valid(Run(Initial, events))
  {
    if events != [] {
      ReachableStatesValid(events[..|events| - 1]);
    }
  }

  /** In every reachable state the offline banner is shown exactly when the
      status is `'offline'`. */
  lemma ReachableOfflineBanner(events: seq<Event>)
    ensures OfflineBannerShown(Run(Initial, events)) <==> Run(Initial, events).apiStatus == Offline
  {
    ReachableStatesValid(events);
  }

  /** In every reachable state neither the director panel nor the notes
      are shown while the form shows a directing request as pending. */
  lemma ReachableRendering(events: seq<Event>)
    ensures var v := Run(Initial, events);
      InputLoading(v) ==> !DirectorPanelShown(v) && !NotesShown(v)
  {
    ReachableStatesValid(events);
  }

  /** In any state at all, by the render conditions alone: the director
      panel and the notes appear together, and the offline banner never
      while the test button is disabled. */
  lemma RenderingAlwaysConsistent(v: PageView)
    ensures DirectorPanelShown(v) <==> NotesShown(v)
    ensures !(TestButtonDisabled(v) && OfflineBannerShown(v))
  {
  }

  /** A failed request shows the error banner unless what was thrown is an
      `Error` with an empty message, which is falsy and renders nothing. */
  lemma FailureShowsErrorBanner(v: PageView, thrown: Thrown)
    ensures ErrorBannerShown(DirectingCompleted(v, Rejected(thrown))) <==> thrown.NonErrorValue? || thrown.message != ""
    ensures ErrorBannerShown(DeepDiveCompleted(v, Rejected(thrown))) <==> thrown.NonErrorValue? || thrown.message != ""
    ensures ErrorBannerShown(PerspectiveCompleted(v, Rejected(thrown))) <==> thrown.NonErrorValue? || thrown.message != ""
  {
  }

  /** Under the invariant the offline banner is shown exactly when the
      status is `'offline'`. */
  lemma OfflineBannerIffOffline(v: PageView)
    requires Valid(v)
    ensures OfflineBannerShown(v) <==> v.apiStatus == Offline
  {
  }

  /** The connection test: `'checking'` with the button disabled while it
      runs, then `'online'` exactly when the probe succeeded; the offline
      banner appears exactly when it failed. Nothing else changes. */
  lemma ApiTestOutcome(v: PageView, result: ConnectionResult)
    ensures TestButtonDisabled(ApiTestBegun(v)) && !OfflineBannerShown(ApiTestBegun(v))
    ensures ApiTestCompleted(ApiTestBegun(v), result).apiStatus == Online <==> result.success
    ensures OfflineBannerShown(ApiTestCompleted(ApiTestBegun(v), result)) <==> !result.success
    ensures ApiTestCompleted(ApiTestBegun(v), result).(apiStatus := v.apiStatus, connectionDetails := v.connectionDetails) == v
  {
  }

  /** `'offline'` only sets the offline message: no flag, slot or situation
      changes. */
  lemma OfflineDirectingOnlySetsError(v: PageView, situation: string)
    requires v.apiStatus == Offline
    ensures DirectingBegun(v, situation).(error := v.error) == v
    ensures DirectingBegun(v, situation).error == Some(OfflineMessage) && ErrorBannerShown(DirectingBegun(v, situation))
  {
  }

  /** Otherwise a directing request starts from a clean page: no panel, no
      notes, no error banner, the form locked, and later perspective
      requests will use this situation. */
  lemma DirectingStartsClean(v: PageView, situation: string)
    requires v.apiStatus != Offline
    ensures var w := DirectingBegun(v, situation);
      !DirectorPanelShown(w) && !NotesShown(w) && !DeepDivePanelShown(w) && !PerspectivePanelShown(w)
      && !ErrorBannerShown(w) && InputLoading(w) && w.currentSituation == situation
      && w.(isDirectorLoading := v.isDirectorLoading, error := v.error, currentSituation := v.currentSituation,
            directorResponse := v.directorResponse, deepDiveResponse := v.deepDiveResponse,
            perspectiveResponse := v.perspectiveResponse) == v
  {
  }

  /** Completing a directing request unlocks the form; success shows the
      director panel and the notes, failure shows an error and leaves the
      slots empty. */
  lemma DirectingOutcome(v: PageView, situation: string, outcome: Settled<DirectorResponse>)
    requires v.apiStatus != Offline
    ensures var w := DirectingCompleted(DirectingBegun(v, situation), outcome);
      !InputLoading(w)
      && (DirectorPanelShown(w) <==> outcome.Resolved?)
      && (NotesShown(w) <==> outcome.Resolved?)
      && (outcome.Resolved? ==> w.directorResponse == Some(outcome.value) && w.error == None)
      && (outcome.Rejected? ==> w.error == Some(ErrorText(outcome.thrown, DirectingDefault)))
      && !DeepDivePanelShown(w) && !PerspectivePanelShown(w)
  {
  }

  /** The deep-dive handler neither checks the status nor clears the error:
      it runs offline too, and beside its loading flag it only ever writes
      its own slot or, on failure, the error. */
  lemma DeepDiveFrame(v: PageView, outcome: Settled<DeepDiveResponse>)
    ensures DeepDiveBegun(v).error == v.error && DeepDiveBegun(v).isDeepDiveLoading
    ensures DeepDiveBegun(v).(isDeepDiveLoading := v.isDeepDiveLoading) == v
    ensures var w := DeepDiveCompleted(DeepDiveBegun(v), outcome);
      !w.isDeepDiveLoading
      && w.(isDeepDiveLoading := v.isDeepDiveLoading, deepDiveResponse := v.deepDiveResponse, error := v.error) == v
      && (outcome.Resolved? ==> w.deepDiveResponse == Some(outcome.value) && w.error == v.error)
      && (outcome.Rejected? ==> w.deepDiveResponse == v.deepDiveResponse
                                && w.error == Some(ErrorText(outcome.thrown, DeepDiveDefault)))
  {
  }

  /** The perspective handler does nothing without a situation or when
      offline; otherwise it clears the error and, beside its loading flag
      and the error, only ever writes its own slot. */
  lemma PerspectiveFrame(v: PageView, outcome: Settled<PerspectiveResponse>)
    ensures PerspectiveBlocked(v) ==> PerspectiveBegun(v) == v
    ensures !PerspectiveBlocked(v) ==> PerspectiveBegun(v).isPerspectiveLoading && PerspectiveBegun(v).error == None
    ensures !PerspectiveBlocked(v) ==>
      var w := PerspectiveCompleted(PerspectiveBegun(v), outcome);
      !w.isPerspectiveLoading
      && w.(isPerspectiveLoading := v.isPerspectiveLoading, perspectiveResponse := v.perspectiveResponse, error := v.error) == v
      && (outcome.Resolved? ==> w.perspectiveResponse == Some(outcome.value) && w.error == None)
      && (outcome.Rejected? ==> w.perspectiveResponse == v.perspectiveResponse
                                && w.error == Some(ErrorText(outcome.thrown, PerspectiveDefault)))
  {
  }

  /** The page's state, one field per `useState`. */
  class Home {
    var currentSituation: string
    var directorResponse: Option<DirectorResponse>
    var deepDiveResponse: Option<DeepDiveResponse>
    var perspectiveResponse: Option<PerspectiveResponse>
    var isDirectorLoading: bool
    var isDeepDiveLoading: bool
    var isPerspectiveLoading: bool
    var error: Option<string>
    var apiStatus: ApiStatus
    var connectionDetails: Option<ConnectionResult>

    function View(): PageView
      reads this
    {
      PageView(currentSituation, directorResponse, deepDiveResponse, perspectiveResponse,
               isDirectorLoading, isDeepDiveLoading, isPerspectiveLoading, error, apiStatus, connectionDetails)
    }

    constructor()
      ensures View() == Initial && Valid(View())
    {
      currentSituation := "";
      directorResponse := None;
      deepDiveResponse := None;
      perspectiveResponse := None;
      isDirectorLoading := false;
      isDeepDiveLoading := false;
      isPerspectiveLoading := false;
      error := None;
      apiStatus := Checking;
      connectionDetails := None;
    }

    /** `runApiTest` up to the `await`. */
    method BeginApiTest()
      modifies this
      ensures View() == ApiTestBegun(old(View()))
      ensures Valid(old(View())) ==> Valid(View())
    {
      apiStatus := Checking;
    }

    /** `runApiTest` after the probe resolves with `result`. */
    method CompleteApiTest(result: ConnectionResult)
      modifies this
      ensures View() == ApiTestCompleted(old(View()), result)
      ensures Valid(old(View())) ==> Valid(View())
    {
      connectionDetails := Some(result);
      apiStatus := if result.success then Online else Offline;
    }

    /** `handleDirecting` up to the `await`: the request it sends, if any. */
    method BeginDirecting(situation: string) returns (sent: Option<Request>)
      modifies this
      ensures View() == DirectingBegun(old(View()), situation)
      ensures sent == if old(apiStatus) == Offline then None else Some(DirectingRequest(situation))
      ensures Valid(old(View())) ==> Valid(View())
    {
      if apiStatus == Offline {
        error := Some(OfflineMessage);
        return None;
      }
      isDirectorLoading := true;
      error := None;
      currentSituation := situation;
      directorResponse := None;
      deepDiveResponse := None;
      perspectiveResponse := None;
      sent := Some(DirectingRequest(situation));
    }

    /** `handleDirecting` after the request settles, through its `finally`. */
    method CompleteDirecting(outcome: Settled<DirectorResponse>)
      modifies this
      ensures View() == DirectingCompleted(old(View()), outcome)
      ensures Valid(old(View())) ==> Valid(View())
    {
      match outcome {
        case Resolved(r) => directorResponse := Some(r);
        case Rejected(t) => error := Some(ErrorText(t, DirectingDefault));
      }
      isDirectorLoading := false;
    }

    /** `handleDeepDive` up to the `await`. */
    method BeginDeepDive(topic: string) returns (sent: Request)
      modifies this
      ensures View() == DeepDiveBegun(old(View()))
      ensures sent == DeepDiveRequest(topic)
      ensures Valid(old(View())) ==> Valid(View())
    {
      isDeepDiveLoading := true;
      sent := DeepDiveRequest(topic);
    }

    method CompleteDeepDive(outcome: Settled<DeepDiveResponse>)
      modifies this
      ensures View() == DeepDiveCompleted(old(View()), outcome)
      ensures Valid(old(View())) ==> Valid(View())
    {
      match outcome {
        case Resolved(r) => deepDiveResponse := Some(r);
        case Rejected(t) => error := Some(ErrorText(t, DeepDiveDefault));
      }
      isDeepDiveLoading := false;
    }

    /** `handlePerspective` up to the `await`: it sends the recorded
        situation with the chosen perspective, unless it returns early. */
    method BeginPerspective(perspective: string) returns (sent: Option<Request>)
      modifies this
      ensures View() == PerspectiveBegun(old(View()))
      ensures sent == if PerspectiveBlocked(old(View())) then None
                      else Some(PerspectiveRequest(old(currentSituation), perspective))
      ensures Valid(old(View())) ==> Valid(View())
    {
      if currentSituation == "" || apiStatus == Offline {
        return None;
      }
      isPerspectiveLoading := true;
      error := None;
      sent := Some(PerspectiveRequest(currentSituation, perspective));
    }

    method CompletePerspective(outcome: Settled<PerspectiveResponse>)
      modifies this
      ensures View() == PerspectiveCompleted(old(View()), outcome)
      ensures Valid(old(View())) ==> Valid(View())
    {
      match outcome {
        case Resolved(r) => perspectiveResponse := Some(r);
        case Rejected(t) => error := Some(ErrorText(t, PerspectiveDefault));
      }
      isPerspectiveLoading := false;
    }
  }
}
