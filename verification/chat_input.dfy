/**
 * The chat input slice: the text being typed, the chosen model, the stream
 * and thinking switches, the reasoning effort, the attached files and the
 * loading flag, each set by its own reducer.
 */
module ChatInput {
  import opened Common

  datatype Effort = Low | Medium | High

  /** A browser `File`, by the parts of it the model refers to. */
  datatype AttachedFile = AttachedFile(name: string, mimeType: string, size: nat)

  datatype InputState = InputState(
    input: string,
    selectedModel: Option<string>,
    streamEnabled: bool,
    attachedFiles: seq<AttachedFile>,
    isLoading: bool,
    isThinkingEnabled: bool,
    reasoningEffort: Effort)

  /** The initial state. */
  const Initial := InputState("", None, true, [], false, false, Medium)

  /** `clearInput`: the text and the attachments are emptied, nothing else changes. */
  function Clear(s: InputState): (r: InputState)
    ensures r.input == "" && r.attachedFiles == []
    ensures r.(input := s.input, attachedFiles := s.attachedFiles) == s
  {
    s.(input := "", attachedFiles := [])
  }

  /**
   * `resetChatInput` as written: every field but `isLoading` goes back to its
   * initial value; `isLoading` keeps whatever it was.
   */
  function ResetAsWritten(s: InputState): (r: InputState)
    ensures r.isLoading == s.isLoading
    ensures r.(isLoading := Initial.isLoading) == Initial
  {
    Initial.(isLoading := s.isLoading)
  }

  /** The reset the slice's own test expects: the whole state is the initial state. */
  function Reset(s: InputState): (r: InputState)
    ensures !r.isLoading && r.input == "" && r.attachedFiles == [] && r.selectedModel.None?
    ensures r.streamEnabled && !r.isThinkingEnabled && r.reasoningEffort == Medium
  {
    Initial
  }

  /**
   * The reset as written settles at once: resetting again changes nothing, a
   * reset state has nothing left to clear, and the reset reaches the initial
   * state exactly when the state was not loading.
   */
  lemma ResetAsWrittenSettles(s: InputState)
    ensures ResetAsWritten(ResetAsWritten(s)) == ResetAsWritten(s)
    ensures Clear(ResetAsWritten(s)) == ResetAsWritten(s)
    ensures ResetAsWritten(s) == Initial <==> !s.isLoading
  {
    if ResetAsWritten(s) == Initial {
      assert ResetAsWritten(s).isLoading == s.isLoading;
    }
  }

  /** The state of the slice's test (`isLoading` true) is not the initial state after the reset as written. */
  lemma ResetAsWrittenKeepsLoading()
    ensures var custom := InputState("active", Some("model-x"), false, [], true, true, High);
      ResetAsWritten(custom) != Initial && ResetAsWritten(custom) != Reset(custom)
  {
    var custom := InputState("active", Some("model-x"), false, [], true, true, High);
    assert ResetAsWritten(custom).isLoading;
  }

  /** The two resets agree exactly on the states that are not loading. */
  lemma ResetsAgreeWhenIdle(s: InputState)
    ensures ResetAsWritten(s) == Reset(s) <==> !s.isLoading
  {
    if ResetAsWritten(s) == Reset(s) {
      assert ResetAsWritten(s).isLoading == s.isLoading;
    }
  }

  /** `restoreChatInputSettings`: only the settings given (not `undefined`) are written. */
  function Restore(s: InputState, selectedModel: Option<string>, streamEnabled: Option<bool>): (r: InputState)
    ensures selectedModel.Some? ==> r.selectedModel == selectedModel
    ensures selectedModel.None? ==> r.selectedModel == s.selectedModel
    ensures streamEnabled.Some? ==> r.streamEnabled == streamEnabled.value
    ensures streamEnabled.None? ==> r.streamEnabled == s.streamEnabled
    ensures r.(selectedModel := s.selectedModel, streamEnabled := s.streamEnabled) == s
  {
    var withModel := if selectedModel.Some? then s.(selectedModel := selectedModel) else s;
    if streamEnabled.Some? then withModel.(streamEnabled := streamEnabled.value) else withModel
  }

  /** Restoring the same settings twice is restoring them once; restoring nothing changes nothing. */
  lemma RestoreIdempotent(s: InputState, selectedModel: Option<string>, streamEnabled: Option<bool>)
    ensures Restore(Restore(s, selectedModel, streamEnabled), selectedModel, streamEnabled) == Restore(s, selectedModel, streamEnabled)
    ensures Restore(s, None, None) == s
  {
  }

  class ChatInputSlice {
    var input: string
    var selectedModel: Option<string>
    var streamEnabled: bool
    var attachedFiles: seq<AttachedFile>
    var isLoading: bool
    var isThinkingEnabled: bool
    var reasoningEffort: Effort

    function State(): InputState
      reads this
    {
      InputState(input, selectedModel, streamEnabled, attachedFiles, isLoading, isThinkingEnabled, reasoningEffort)
    }

    /** The initial state. */
    constructor ()
      ensures State() == Initial
    {
      input := "";
      selectedModel := None;
      streamEnabled := true;
      attachedFiles := [];
      isLoading := false;
      isThinkingEnabled := false;
      reasoningEffort := Medium;
    }

    /** `setInput`. */
    method SetInput(text: string)
      modifies this
      ensures State() == old(State()).(input := text)
    {
      input := text;
    }

    /** `setSelectedModel`; `None` is `undefined`. */
    method SetSelectedModel(model: Option<string>)
      modifies this
      ensures State() == old(State()).(selectedModel := model)
    {
      selectedModel := model;
    }

    /** `setStreamEnabled`. */
    method SetStreamEnabled(enabled: bool)
      modifies this
      ensures State() == old(State()).(streamEnabled := enabled)
    {
      streamEnabled := enabled;
    }

    /** `setAttachedFiles`. */
    method SetAttachedFiles(files: seq<AttachedFile>)
      modifies this
      ensures State() == old(State()).(attachedFiles := files)
    {
      attachedFiles := files;
    }

    /** `clearInput`. */
    method ClearInput()
      modifies this
      ensures State() == Clear(old(State()))
    {
      input := "";
      attachedFiles := [];
    }

    /** `setLoading`. */
    method SetLoading(loading: bool)
      modifies this
      ensures State() == old(State()).(isLoading := loading)
    {
      isLoading := loading;
    }

    /** `setIsThinkingEnabled`. */
    method SetThinkingEnabled(enabled: bool)
      modifies this
      ensures State() == old(State()).(isThinkingEnabled := enabled)
    {
      isThinkingEnabled := enabled;
    }

    /** `setReasoningEffort`. */
    method SetReasoningEffort(effort: Effort)
      modifies this
      ensures State() == old(State()).(reasoningEffort := effort)
    {
      reasoningEffort := effort;
    }

    /** `resetChatInput`: every field but `isLoading` back to its initial value (the expected reset is `Reset`). */
    method ResetChatInput()
      modifies this
      ensures State() == ResetAsWritten(old(State()))
    {
      input := "";
      selectedModel := None;
      streamEnabled := true;
      attachedFiles := [];
      isThinkingEnabled := false;
      reasoningEffort := Medium;
    }

    /** `restoreChatInputSettings`. */
    method RestoreSettings(model: Option<string>, stream: Option<bool>)
      modifies this
      ensures State() == Restore(old(State()), model, stream)
    {
      if model.Some? {
        selectedModel := model;
      }
      if stream.Some? {
        streamEnabled := stream.value;
      }
    }
  }
}
