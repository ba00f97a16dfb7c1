/**
 * The story-draft state: the most recently generated story, an in-flight
 * flag and the last generation error, driven by `generateStory` and
 * `clearCurrentStory`.
 */
module StoryContext {
  import opened Common
  import opened OpenAIService

  /** A thrown JavaScript value: an `Error` instance with its message, or anything else. */
  datatype Thrown = ErrorInstance(message: string) | NonError

  const DefaultGenerationError := "Failed to generate story"
  const MissingStoryProvider := "useStory must be used within a StoryProvider"

  /** `useStory`: the provider's value, or an error outside any provider. */
  function UseStory<T>(context: Option<T>): (r: Result<T, string>)
    ensures context.Some? ==> r == Success(context.value)
    ensures context.None? ==> r == Failure(MissingStoryProvider)
  {
    match context
    case Some(c) => Success(c)
    case None => Failure(MissingStoryProvider)
  }

  /** `err instanceof Error ? err.message : 'Failed to generate story'`. */
  function ErrorText(thrown: Thrown): (text: string)
    ensures thrown.ErrorInstance? ==> text == thrown.message
    ensures thrown.NonError? ==> text == DefaultGenerationError
  {
    match thrown
    case ErrorInstance(m) => m
    case NonError => DefaultGenerationError
  }

  /** The service rejects with `new Error(message)`. */
  function AsThrown(outcome: Result<GeneratedStory, string>): (r: Result<GeneratedStory, Thrown>)
    ensures outcome.Success? ==> r == Success(outcome.value)
    ensures outcome.Failure? ==> r == Failure(ErrorInstance(outcome.error))
  {
    match outcome
    case Success(s) => Success(s)
    case Failure(m) => Failure(ErrorInstance(m))
  }

  class StoryDraft {
    var currentStory: Option<GeneratedStory>
    var isGenerating: bool
    var error: Option<string>

    constructor ()
      ensures currentStory == None && !isGenerating && error == None
    {
      currentStory := None;
      isGenerating := false;
      error := None;
    }

    /** The synchronous start of `generateStory`: in flight, no error. */
    method Begin()
      modifies this
      ensures isGenerating && error == None && currentStory == old(currentStory)
    {
      isGenerating := true;
      error := None;
    }

    /** The settled end of `generateStory`: record the story or the error, then leave the in-flight state. */
    method Settle(attempt: Result<GeneratedStory, Thrown>) returns (r: Result<GeneratedStory, Thrown>)
      modifies this
      ensures r == attempt && !isGenerating
      ensures attempt.Success? ==> currentStory == Some(attempt.value) && error == old(error)
      ensures attempt.Failure? ==> currentStory == old(currentStory) && error == Some(ErrorText(attempt.error))
    {
      match attempt {
        case Success(story) =>
          currentStory := Some(story);
        case Failure(thrown) =>
          error := Some(ErrorText(thrown));
      }
      isGenerating := false;
      r := attempt;
    }

    /**
     * `generateStory(params)`: the same story is stored and returned; a
     * failure keeps the current story, records the service's message and is
     * re-thrown; the in-flight flag is off afterwards either way.
     */
    method GenerateStory(params: StoryParams, api: ChatRequest -> Option<seq<string>>,
                         json: string -> Option<StoryFields>, now: nat) returns (r: Result<GeneratedStory, Thrown>)
      modifies this
      ensures r == AsThrown(OpenAIService.GenerateStory(params, api, json, now))
      ensures !isGenerating
      ensures r.Success? ==> currentStory == Some(r.value) && error == None
      ensures r.Failure? ==> currentStory == old(currentStory) && error == Some("Failed to generate story")
    {
      Begin();
      r := Settle(AsThrown(OpenAIService.GenerateStory(params, api, json, now)));
    }

    /** `clearCurrentStory`: only the current story is cleared. */
    method ClearCurrentStory()
      modifies this
      ensures currentStory == None && isGenerating == old(isGenerating) && error == old(error)
    {
      currentStory := None;
    }
  }
}
