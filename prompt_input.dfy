/**
 * The prompt form: the prompt text (capped by the textarea at 500
 * characters), the kind selector, the example prompts, and the submit
 * guard with the matching disabled state of the submit button.
 */
module PromptInput {
  import opened Wrappers
  import opened JsText
  import opened CreationCard

  const MaxPromptLength: nat := 500

  const ExamplePrompts: seq<string> := [
    "A futuristic city with flying cars",
    "Sunset over a serene beach",
    "Animated character in cyberpunk style",
    "Abstract art with vibrant colors"
  ]

  /** The arguments `handleSubmit` passes to `onSubmit`. */
  datatype Submission = Submission(prompt: string, kind: Kind)

  /**
   * The guard of `handleSubmit`: a submission happens exactly when the
   * prompt holds a character other than white space and nothing is
   * loading; it carries the trimmed prompt and the selected kind.
   */
  function SubmitGuard(prompt: string, kind: Kind, isLoading: bool): (r: Option<Submission>)
    ensures r.Some? <==> (exists k :: 0 <= k < |prompt| && !IsWhiteSpace(prompt[k])) && !isLoading
    ensures r.Some? ==> r.value == Submission(Trim(prompt), kind) && r.value.prompt != ""
  {
    TrimEmptyIff(prompt);
    if Trim(prompt) != "" && !isLoading then Some(Submission(Trim(prompt), kind)) else None
  }

  /** `disabled={!prompt.trim() || isLoading}` on the submit button. */
  function SubmitDisabled(prompt: string, isLoading: bool): (r: bool)
    ensures r <==> isLoading || forall k :: 0 <= k < |prompt| ==> IsWhiteSpace(prompt[k])
  {
    TrimEmptyIff(prompt);
    Trim(prompt) == "" || isLoading
  }

  /** The submit button is disabled exactly when `handleSubmit` would reject. */
  lemma DisabledIffRejected(prompt: string, kind: Kind, isLoading: bool)
    ensures SubmitDisabled(prompt, isLoading) <==> SubmitGuard(prompt, kind, isLoading).None?
  {
  }

  /** The value a `maxLength={500}` textarea holds after the user enters `text`. */
  function TextareaValue(text: string): (v: string)
    ensures |v| <= MaxPromptLength
    ensures |text| <= MaxPromptLength ==> v == text
    ensures v == text[..|v|]
  {
    if |text| <= MaxPromptLength then text else text[..MaxPromptLength]
  }

  /** The `PromptInput` component's state; `isLoading` is its parent's prop. */
  class PromptInputState {
    var prompt: string
    var kind: Kind

    ghost predicate Valid()
      reads this
    {
      |prompt| <= MaxPromptLength
    }

    /** An empty prompt and `image` selected. */
    constructor ()
      ensures Valid() && prompt == "" && kind == Image
    {
      prompt := "";
      kind := Image;
    }

    /** The textarea's `onChange`; a disabled (loading) textarea takes no input. */
    method OnChange(text: string, isLoading: bool)
      requires Valid()
      modifies this`prompt
      ensures Valid()
      ensures prompt == if isLoading then old(prompt) else TextareaValue(text)
    {
      if !isLoading {
        prompt := TextareaValue(text);
      }
    }

    /** The Image and Video buttons: the only writers of `kind`, disabled while loading. */
    method SelectKind(k: Kind, isLoading: bool)
      modifies this`kind
      ensures kind == if isLoading then old(kind) else k
    {
      if !isLoading {
        kind := k;
      }
    }

    /**
     * An example button: the examples are offered only while the prompt is
     * empty, are disabled while loading, and fill in exactly their text.
     */
    method ClickExample(i: nat, isLoading: bool)
      requires Valid() && i < |ExamplePrompts|
      modifies this`prompt
      ensures Valid()
      ensures prompt == if old(prompt) == "" && !isLoading then ExamplePrompts[i] else old(prompt)
    {
      if prompt == "" && !isLoading {
        prompt := ExamplePrompts[i];
      }
    }

    /** `handleSubmit`: what, if anything, is passed to `onSubmit`. */
    method HandleSubmit(isLoading: bool) returns (submitted: Option<Submission>)
      ensures submitted == SubmitGuard(prompt, kind, isLoading)
    {
      var trimmed := Trim(prompt);
      if trimmed != "" && !isLoading {
        submitted := Some(Submission(trimmed, kind));
      } else {
        submitted := None;
      }
    }

    /** `handleKeyDown`: Cmd+Enter submits like the button; other keys submit nothing. */
    method HandleKeyDown(key: string, metaKey: bool, isLoading: bool) returns (submitted: Option<Submission>)
      ensures key == "Enter" && metaKey ==> submitted == SubmitGuard(prompt, kind, isLoading)
      ensures !(key == "Enter" && metaKey) ==> submitted.None?
    {
      if key == "Enter" && metaKey {
        submitted := HandleSubmit(isLoading);
      } else {
        submitted := None;
      }
    }

    /** The submit button's `disabled` attribute. */
    function IsSubmitDisabled(isLoading: bool): (r: bool)
      reads this
      ensures r <==> SubmitGuard(prompt, kind, isLoading).None?
    {
      DisabledIffRejected(prompt, kind, isLoading);
      SubmitDisabled(prompt, isLoading)
    }
  }
}
