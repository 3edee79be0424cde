/**
 * The chat input box: the text being typed, the submit guard, the
 * keyboard shortcut and the send button's enablement.
 */
module ChatInput {
  import opened Wrappers
  import opened Text

  /** Submitting sends only non-blank text, and only when neither loading nor disabled. */
  predicate SubmitGuard(message: string, isLoading: bool, disabled: bool) {
    Trim(message) != "" && !isLoading && !disabled
  }

  /** What a submit hands to `onSend`: the trimmed text when the guard holds, nothing otherwise. */
  function Submitted(message: string, isLoading: bool, disabled: bool): (sent: Option<string>)
    ensures sent.Some? <==> SubmitGuard(message, isLoading, disabled)
    ensures sent.Some? ==> sent.value == Trim(message) && sent.value != "" && Trim(sent.value) == sent.value
  {
    if SubmitGuard(message, isLoading, disabled) then
      TrimIdempotent(message);
      Some(Trim(message))
    else None
  }

  /** The guard rejects exactly blank text, a pending reply, or a disabled box. */
  lemma SubmitGuardIff(message: string, isLoading: bool, disabled: bool)
    ensures SubmitGuard(message, isLoading, disabled) <==> !IsBlank(message) && !isLoading && !disabled
  {
    TrimEmptyIffBlank(message);
  }

  /** The send button's `disabled` attribute. */
  predicate SendDisabled(message: string, isLoading: bool, disabled: bool) {
    Trim(message) == "" || isLoading || disabled
  }

  /** The send button is disabled exactly when a submit would send nothing. */
  lemma SendDisabledIffRejected(message: string, isLoading: bool, disabled: bool)
    ensures SendDisabled(message, isLoading, disabled) <==> Submitted(message, isLoading, disabled).None?
    ensures SendDisabled(message, isLoading, disabled) <==> IsBlank(message) || isLoading || disabled
  {
    TrimEmptyIffBlank(message);
  }

  /** A key press submits when it is Enter without Shift. */
  predicate SubmitsOnKey(key: string, shiftKey: bool) {
    key == "Enter" && !shiftKey
  }

  class ChatInputState {
    var message: string
    var isRecording: bool

    constructor()
      ensures message == "" && !isRecording
    {
      message := "";
      isRecording := false;
    }

    /** The text area's change handler. */
    method SetMessage(text: string)
      modifies this
      ensures message == text && isRecording == old(isRecording)
    {
      message := text;
    }

    /** The form's submit handler: send the trimmed text and clear the box, or keep the text. */
    method HandleSubmit(isLoading: bool, disabled: bool) returns (sent: Option<string>)
      modifies this
      ensures sent == Submitted(old(message), isLoading, disabled)
      ensures sent.Some? ==> message == ""
      ensures sent.None? ==> message == old(message)
      ensures isRecording == old(isRecording)
    {
      if SubmitGuard(message, isLoading, disabled) {
        sent := Some(Trim(message));
        message := "";
      } else {
        sent := None;
      }
    }

    /** The key handler: Enter without Shift submits, any other key leaves everything alone. */
    method HandleKeyDown(key: string, shiftKey: bool, isLoading: bool, disabled: bool) returns (sent: Option<string>)
      modifies this
      ensures SubmitsOnKey(key, shiftKey) ==> sent == Submitted(old(message), isLoading, disabled)
      ensures !SubmitsOnKey(key, shiftKey) ==> sent == None && message == old(message)
      ensures sent.Some? ==> message == ""
      ensures sent.None? ==> message == old(message)
      ensures isRecording == old(isRecording)
    {
      if SubmitsOnKey(key, shiftKey) {
        sent := HandleSubmit(isLoading, disabled);
      } else {
        sent := None;
      }
    }

    /**
     * The microphone button: a running recording stops; otherwise recording
     * starts when the microphone could be opened (`started`).
     */
    method ToggleRecording(started: bool)
      modifies this
      ensures old(isRecording) ==> !isRecording
      ensures !old(isRecording) ==> isRecording == started
      ensures message == old(message)
    {
      if isRecording {
        isRecording := false;
      } else if started {
        isRecording := true;
      }
    }
  }
}
