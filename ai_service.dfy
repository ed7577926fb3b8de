/**
 * `AIImageService`: the history, generating, progress and error subjects,
 * updated in place by the request pipeline's steps and the public methods.
 * Each method leaves the service in the state that the function of the same
 * purpose in `ServiceMachine` computes from the state before the call.
 *
 * The HTTP call, the timer, the clock and random id, and local storage enter
 * as parameters: the decoded response or error, one timer firing per `Tick`,
 * the new entry's id, and the history read back from storage.
 */
module AIService {
  import opened Wrappers
  import opened History
  import opened AIRequests
  import S = ServiceMachine

  class AIImageService {
    var history: seq<GenerationHistory>
    var generating: bool
    var progress: int
    var error: Option<string>
    /** Whether the progress timer of the request in flight is running. */
    var ticking: bool

    ghost predicate Valid()
      reads this
    {
      S.Inv(View())
    }

    ghost function View(): S.ServiceModel
      reads this
    {
      S.ServiceModel(history, generating, progress, error, ticking)
    }

    /** A new service, idle, with the history restored from storage. */
    constructor (stored: seq<GenerationHistory>)
      ensures Valid() && View() == S.Initial(stored)
    {
      history, generating, progress, error, ticking := stored, false, 0, None, false;
    }

    /** `generateImage` up to sending: resets the subjects, starts the timer and builds the body to post. */
    method GenerateImage(request: AIGenerationRequest) returns (body: Json)
      modifies this
      ensures Valid() && View() == S.GenerateImage(old(View()))
      ensures body == BuildRequestBody(request)
    {
      generating := true;
      progress := 0;
      error := None;
      body := BuildRequestBody(request);
      ticking := true;
    }

    /** One firing of the progress timer. */
    method Tick()
      requires Valid()
      modifies this
      ensures Valid() && View() == S.Tick(old(View()))
    {
      if ticking {
        var current := progress;
        if current < 90 {
          progress := current + 10;
        }
      }
    }

    /** The response arrived: the timer stops and the progress shows 100. */
    method OnResponse()
      modifies this
      ensures Valid() && View() == S.OnResponse(old(View()))
    {
      ticking := false;
      progress := 100;
    }

    /** `handleSuccess`; an extraction error is returned and changes nothing. */
    method HandleSuccess(response: Json, request: AIGenerationRequest, id: string) returns (r: Result<GenerationHistory>)
      requires Valid()
      modifies this
      ensures Valid()
      ensures S.HandleSuccess(old(View()), response, request, id).Err? ==> r.Err? && View() == old(View())
      ensures S.HandleSuccess(old(View()), response, request, id).Ok? ==>
        r.Ok? && View() == S.HandleSuccess(old(View()), response, request, id).value && r.value == history[0]
    {
      var image := ExtractImageFromResponse(response, request.model);
      if image.Err? {
        return Err(image.message);
      }
      var item := S.HistoryItem(id, image.value, request);
      AddToHistory(item);
      generating := false;
      progress := 0;
      r := Ok(item);
    }

    /** `handleError`, stopping the timer; returns the message the caller's error carries. */
    method HandleError(e: HttpError) returns (msg: string)
      modifies this
      ensures Valid() && View() == S.HandleError(old(View()), e)
      ensures msg == ErrorMessage(e)
    {
      generating := false;
      progress := 0;
      ticking := false;
      msg := ErrorMessage(e);
      error := Some(msg);
    }

    /** `addToHistory`. */
    method AddToHistory(item: GenerationHistory)
      requires Valid()
      modifies this
      ensures Valid() && View() == S.AddItem(old(View()), item)
    {
      history := History.AddToHistory(history, item);
    }

    /** `clearError`. */
    method ClearError()
      requires Valid()
      modifies this
      ensures Valid() && View() == S.ClearError(old(View()))
    {
      error := None;
    }

    /** `toggleFavorite`. */
    method ToggleFavorite(id: string)
      requires Valid()
      modifies this
      ensures Valid() && View() == S.ToggleFavoriteOf(old(View()), id)
    {
      history := History.ToggleFavorite(history, id);
    }

    /** `deleteFromHistory`. */
    method DeleteFromHistory(id: string)
      requires Valid()
      modifies this
      ensures Valid() && View() == S.DeleteItem(old(View()), id)
    {
      history := History.DeleteFromHistory(history, id);
    }

    /** `getFavorites`: exactly the favourite entries, in history order. */
    method GetFavorites() returns (r: seq<GenerationHistory>)
      ensures r == Favorites(history)
      ensures forall x :: x in r <==> x in history && x.favorite
    {
      r := Favorites(history);
    }

    /** `clearHistory`. */
    method ClearHistory()
      requires Valid()
      modifies this
      ensures Valid() && View() == S.ClearHistory(old(View()))
    {
      history := [];
    }
  }

  /** A request that succeeds records its image at the head of the history and leaves the service idle. */
  method SuccessfulRequest(s: AIImageService, request: AIGenerationRequest, response: Json, id: string)
    returns (item: Result<GenerationHistory>)
    requires s.Valid() && ExtractImageFromResponse(response, request.model).Ok?
    modifies s
    ensures s.Valid() && item.Ok? && item.value.id == id && !item.value.favorite
    ensures s.history == History.AddToHistory(old(s.history), item.value)
    ensures !s.generating && s.progress == 0 && !s.ticking
  {
    var _ := s.GenerateImage(request);
    s.Tick();
    s.OnResponse();
    item := s.HandleSuccess(response, request, id);
  }
}
