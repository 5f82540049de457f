/**
 * The generation session: the `isLoading` and `currentCreation` fields,
 * one generation attempt from start to finish, and the save guard.
 */
module Generator {
  import opened Wrappers
  import opened CreationCard
  import opened GenerationUtils
  import opened PromptInput

  /** How the awaited mock call ends: it resolves with the draws it made, or it throws. */
  datatype Outcome = Resolves(draw: Draw) | Throws

  /** The candidate pool of a kind. */
  function PoolFor(kind: Kind): (pool: seq<string>)
    ensures |pool| > 0
    ensures (pool == MockImages) == kind.Image?
    ensures (pool == MockVideos) == kind.Video?
  {
    assert |MockImages| == 8 && |MockVideos| == 4;
    if kind == Image then MockImages else MockVideos
  }

  /**
   * The dispatch in `handleGenerate`: `image` goes to `generateImage`,
   * anything else to `generateVideo`; either way the url comes from that
   * kind's pool and the prompt is echoed.
   */
  function Dispatch(prompt: string, kind: Kind, draw: Draw): (m: MockResponse)
    ensures kind == Image ==> m == GenerateImage(prompt, draw)
    ensures kind != Image ==> m == GenerateVideo(prompt, draw)
    ensures m.result.url in PoolFor(kind) && m.result.alt == prompt
  {
    if kind == Image then GenerateImage(prompt, draw) else GenerateVideo(prompt, draw)
  }

  /** The `Generator` component's state. */
  class GeneratorState {
    var isLoading: bool
    var currentCreation: Option<Creation>

    /**
     * While loading nothing is shown as current, and a current creation's
     * url always comes from the pool of its kind.
     */
    ghost predicate Valid()
      reads this
    {
      && (isLoading ==> currentCreation.None?)
      && (currentCreation.Some? ==> currentCreation.value.url in PoolFor(currentCreation.value.kind))
    }

    constructor ()
      ensures Valid() && !isLoading && currentCreation.None?
    {
      isLoading := false;
      currentCreation := None;
    }

    /** The synchronous start of `handleGenerate`: `setIsLoading(true)`, `setCurrentCreation(null)`. */
    method BeginGeneration()
      modifies this
      ensures Valid()
      ensures isLoading && currentCreation.None?
    {
      isLoading := true;
      currentCreation := None;
    }

    /**
     * The rest of `handleGenerate`, once the awaited call has settled: on
     * success the new creation becomes current; on failure (a notice is
     * shown) nothing is current; in both cases `finally` clears `isLoading`.
     */
    method FinishGeneration(prompt: string, kind: Kind, outcome: Outcome, freshId: string, now: Timestamp)
      requires Valid() && isLoading
      modifies this
      ensures Valid()
      ensures !isLoading
      ensures outcome.Throws? ==> currentCreation.None?
      ensures outcome.Resolves? ==>
        currentCreation == Some(Creation(freshId, Dispatch(prompt, kind, outcome.draw).result.url, prompt, kind, now))
    {
      if outcome.Resolves? {
        var response := if kind == Image then GenerateImage(prompt, outcome.draw) else GenerateVideo(prompt, outcome.draw);
        currentCreation := Some(Creation(freshId, response.result.url, prompt, kind, now));
      }
      isLoading := false;
    }

    /** `handleGenerate(prompt, type)` as one atomic step. */
    method HandleGenerate(prompt: string, kind: Kind, outcome: Outcome, freshId: string, now: Timestamp)
      requires Valid()
      modifies this
      ensures Valid()
      ensures !isLoading
      ensures outcome.Throws? ==> currentCreation.None?
      ensures outcome.Resolves? ==> (currentCreation.Some?
        && currentCreation.value.prompt == prompt && currentCreation.value.kind == kind
        && currentCreation.value.url == Dispatch(prompt, kind, outcome.draw).result.url
        && currentCreation.value.id == freshId && currentCreation.value.createdAt == now)
    {
      BeginGeneration();
      FinishGeneration(prompt, kind, outcome, freshId, now);
    }

    /**
     * The form rendered by this generator is submitted: its guard sees this
     * generator's `isLoading`, and an accepted submission starts a
     * generation. While one is pending, a second submit is ignored.
     */
    method SubmitFrom(input: PromptInputState) returns (request: Option<Submission>)
      requires Valid()
      modifies this
      ensures Valid()
      ensures request == SubmitGuard(input.prompt, input.kind, old(isLoading))
      ensures old(isLoading) ==> request.None? && isLoading && currentCreation == old(currentCreation)
      ensures request.Some? ==> isLoading && currentCreation.None?
      ensures request.None? ==> isLoading == old(isLoading) && currentCreation == old(currentCreation)
    {
      request := input.HandleSubmit(isLoading);
      if request.Some? {
        BeginGeneration();
      }
    }

    /**
     * `handleSave`: what is handed to `onSave` is the current creation, if
     * there is one, unchanged; nothing here clears it.
     */
    method HandleSave() returns (saved: Option<Creation>)
      ensures saved == currentCreation
    {
      saved := currentCreation;
    }
  }
}
