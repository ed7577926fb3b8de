/**
 * The observable state of the AI image service (its history, generating flag,
 * progress and error subjects, and whether the progress timer of the request
 * in flight is running) and the transitions that change it.
 */
module ServiceMachine {
  import opened Wrappers
  import opened History
  import opened AIRequests

  datatype ServiceModel = ServiceModel(history: seq<GenerationHistory>, generating: bool, progress: int,
                                       error: Option<string>, ticking: bool)

  /** The progress is a percentage. */
  predicate Inv(m: ServiceModel) {
    0 <= m.progress <= 100
  }

  /** Nothing is being generated: the progress shows 0 and no timer moves it. */
  predicate Quiet(m: ServiceModel) {
    !m.generating ==> m.progress == 0 && !m.ticking
  }

  /** A new service with the history restored from storage. */
  function Initial(stored: seq<GenerationHistory>): (m: ServiceModel)
    ensures Inv(m) && Quiet(m) && m.history == stored && m.error.None?
    ensures !m.generating && m.progress == 0 && !m.ticking
  {
    ServiceModel(stored, false, 0, None, false)
  }

  /** `generateImage` before the request is sent: generating, progress 0, no error, timer started. */
  function GenerateImage(m: ServiceModel): (r: ServiceModel)
    ensures Inv(r) && Quiet(r) && r.generating && r.ticking && r.progress == 0 && r.error.None?
    ensures r.history == m.history
  {
    m.(generating := true, progress := 0, error := None, ticking := true)
  }

  /** One firing of the progress timer. */
  function Tick(m: ServiceModel): (r: ServiceModel)
    ensures r.(progress := m.progress) == m
    ensures m.ticking ==> r.progress == ProgressTick(m.progress)
    ensures !m.ticking ==> r == m
  {
    if m.ticking then m.(progress := ProgressTick(m.progress)) else m
  }

  /** The first `tap` on a response: the timer stops and the progress shows 100. */
  function OnResponse(m: ServiceModel): (r: ServiceModel)
    ensures Inv(r) && !r.ticking && r.progress == 100
    ensures r.(progress := m.progress, ticking := m.ticking) == m
  {
    m.(ticking := false, progress := 100)
  }

  /** The history entry recorded for a response's image. */
  function HistoryItem(id: string, image: Json, request: AIGenerationRequest): (item: GenerationHistory)
    ensures !item.favorite && item.id == id && item.prompt == request.prompt && item.model == request.model
    ensures image.JString? ==> item.image == Some(image.s)
    ensures !image.JString? ==> item.image.None?
  {
    GenerationHistory(id, request.prompt, if image.JString? then Some(image.s) else None, request.model, false)
  }

  /**
   * `handleSuccess`: the extracted image is added to the history as a
   * non-favourite, and generating ends with progress 0. When extraction
   * throws, the error is returned and nothing changes.
   */
  function HandleSuccess(m: ServiceModel, response: Json, request: AIGenerationRequest, id: string): (r: Result<ServiceModel>)
    ensures r.Err? <==> ExtractImageFromResponse(response, request.model).Err?
    ensures r.Ok? ==> r.value.history == AddToHistory(m.history, HistoryItem(id, ExtractImageFromResponse(response, request.model).value, request))
    ensures r.Ok? ==> !r.value.generating && r.value.progress == 0 && r.value.error == m.error && r.value.ticking == m.ticking
  {
    var image := ExtractImageFromResponse(response, request.model);
    if image.Err? then Err(image.message)
    else
      Ok(m.(history := AddToHistory(m.history, HistoryItem(id, image.value, request)),
            generating := false, progress := 0))
  }

  /** `handleError` as the source writes it: the progress timer is left running. */
  function HandleErrorAsWritten(m: ServiceModel, e: HttpError): (r: ServiceModel)
    ensures !r.generating && r.progress == 0 && r.error == Some(ErrorMessage(e))
    ensures r.history == m.history && r.ticking == m.ticking
  {
    m.(generating := false, progress := 0, error := Some(ErrorMessage(e)))
  }

  /** `handleError` with the progress timer stopped, as on the success path. */
  function HandleError(m: ServiceModel, e: HttpError): (r: ServiceModel)
    ensures Inv(r) && Quiet(r) && r.error == Some(ErrorMessage(e)) && r.history == m.history
    ensures !r.generating && !r.ticking && r.progress == 0
  {
    HandleErrorAsWritten(m, e).(ticking := false)
  }

  /**
   * As written, the timer of a request that failed keeps firing after
   * `handleError`: the progress climbs again while nothing is generated.
   */
  lemma ErrorLeavesTimerRunning(m: ServiceModel, e: HttpError)
    requires m.ticking
    ensures var r := Tick(HandleErrorAsWritten(m, e));
      !r.generating && r.progress == 10 && !Quiet(r)
  {
  }

  /** With the timer stopped, an error leaves the service quiet, and later ticks change nothing. */
  lemma ErrorStopsTimer(m: ServiceModel, e: HttpError, n: nat)
    ensures Quiet(HandleError(m, e))
    ensures TickN(HandleError(m, e), n) == HandleError(m, e)
  {
    QuietTicks(HandleError(m, e), n);
  }

  function TickN(m: ServiceModel, n: nat): ServiceModel
    decreases n
  {
    if n == 0 then m else TickN(Tick(m), n - 1)
  }

  /** A quiet service that is not generating ignores its timer. */
  lemma {:induction false} QuietTicks(m: ServiceModel, n: nat)
    requires Quiet(m) && !m.generating
    ensures TickN(m, n) == m
    decreases n
  {
    if n > 0 {
      QuietTicks(Tick(m), n - 1);
    }
  }

  /** Timer ticks keep the progress a percentage and never move it back. */
  lemma TickKeepsInv(m: ServiceModel)
    requires Inv(m)
    ensures Inv(Tick(m)) && Quiet(Tick(m)) == Quiet(m)
    ensures m.progress <= Tick(m).progress
  {
  }

  /** While a request is in flight, the timer alone moves the progress to `min(10 n, 90)`. */
  lemma {:induction false} ProgressWhileWaiting(m: ServiceModel, n: nat)
    ensures TickN(GenerateImage(m), n).progress == if 10 * n <= 90 then 10 * n else 90
    ensures TickN(GenerateImage(m), n).generating
  {
    TickNIsTicks(GenerateImage(m), n);
    TicksFromZero(n);
  }

  lemma {:induction false} TickNIsTicks(m: ServiceModel, n: nat)
    requires m.ticking
    ensures TickN(m, n) == m.(progress := Ticks(m.progress, n))
    decreases n
  {
    if n > 0 {
      TickNIsTicks(Tick(m), n - 1);
    }
  }

  /** A successful generation records its image at the head of the history and ends quiet. */
  lemma SuccessRecordsImage(m: ServiceModel, response: Json, request: AIGenerationRequest, id: string)
    requires ExtractImageFromResponse(response, request.model).Ok?
    requires !m.ticking
    ensures var r := HandleSuccess(m, response, request, id);
      r.Ok? && Inv(r.value) && Quiet(r.value) && r.value.history[0].id == id && !r.value.history[0].favorite
      && |r.value.history| == Min(|m.history| + 1, MaxHistoryItems)
  {
  }

  /** `addToHistory`. */
  function AddItem(m: ServiceModel, item: GenerationHistory): ServiceModel
  {
    m.(history := AddToHistory(m.history, item))
  }

  /** `clearError`. */
  function ClearError(m: ServiceModel): ServiceModel
  {
    m.(error := None)
  }

  /** `toggleFavorite`. */
  function ToggleFavoriteOf(m: ServiceModel, id: string): ServiceModel
  {
    m.(history := ToggleFavorite(m.history, id))
  }

  /** `deleteFromHistory`. */
  function DeleteItem(m: ServiceModel, id: string): ServiceModel
  {
    m.(history := DeleteFromHistory(m.history, id))
  }

  /** `clearHistory`. */
  function ClearHistory(m: ServiceModel): ServiceModel
  {
    m.(history := [])
  }

  /** The corrected service stays quiet between requests: every transition keeps `Inv` and `Quiet`. */
  lemma TransitionsKeepQuiet(m: ServiceModel, e: HttpError, item: GenerationHistory, id: string,
                             response: Json, request: AIGenerationRequest)
    requires Inv(m) && Quiet(m)
    ensures Inv(GenerateImage(m)) && Quiet(GenerateImage(m))
    ensures Inv(Tick(m)) && Quiet(Tick(m))
    ensures m.generating ==> Inv(OnResponse(m)) && Quiet(OnResponse(m))
    ensures !m.ticking && HandleSuccess(m, response, request, id).Ok? ==>
      Inv(HandleSuccess(m, response, request, id).value) && Quiet(HandleSuccess(m, response, request, id).value)
    ensures Inv(HandleError(m, e)) && Quiet(HandleError(m, e))
    ensures Inv(AddItem(m, item)) && Quiet(AddItem(m, item))
    ensures Inv(ClearError(m)) && Quiet(ClearError(m))
    ensures Inv(ToggleFavoriteOf(m, id)) && Quiet(ToggleFavoriteOf(m, id))
    ensures Inv(DeleteItem(m, id)) && Quiet(DeleteItem(m, id))
    ensures Inv(ClearHistory(m)) && Quiet(ClearHistory(m))
  {
  }
}
