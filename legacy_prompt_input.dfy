/**
 * The prompt box the chat view renders: a prompt without attachments. Its model picker and tool
 * toggles are the same code as those of `PromptInput` and are modelled there.
 */
module LegacyPromptInput {
  import opened Text

  class LegacyPromptInputState {
    var prompt: string
    /** The prompts passed to the `onSubmit` prop so far. */
    var submitted: seq<string>

    /** Every prompt handed on is non-blank after trimming. */
    predicate Valid()
      reads this
    {
      forall i :: 0 <= i < |submitted| ==> !AllWhitespace(submitted[i])
    }

    constructor ()
      ensures Valid()
      ensures prompt == "" && submitted == []
    {
      prompt := "";
      submitted := [];
    }

    method SetPrompt(text: string)
      requires Valid()
      modifies this
      ensures Valid()
      ensures prompt == text && submitted == old(submitted)
    {
      prompt := text;
    }

    /** `handleOnSubmit`: ignores a blank prompt; otherwise hands the untrimmed prompt on and clears the box. */
    method HandleOnSubmit()
      requires Valid()
      modifies this
      ensures Valid()
      ensures AllWhitespace(old(prompt)) ==> prompt == old(prompt) && submitted == old(submitted)
      ensures !AllWhitespace(old(prompt)) ==> prompt == "" && submitted == old(submitted) + [old(prompt)]
    {
      if Trim(prompt) == "" {
        return;
      }
      submitted := submitted + [prompt];
      prompt := "";
    }
  }
}
