/**
 * The MessageInput component: a draft, an IME-composition flag, and the
 * rules deciding when the draft is handed to `onSendMessage`.
 */
module MessageInput {
  import opened Base
  import opened JsText

  /** `canSend`: drives the send button; composition plays no part in it. */
  predicate CanSend(draft: string, disabled: bool) {
    |Trim(draft)| > 0 && !disabled
  }

  /** What `handleSubmit` passes to `onSendMessage` (None: it does not call it). */
  function Submission(draft: string, disabled: bool, composing: bool): (r: Option<string>)
    ensures r.Some? <==> !AllSpace(draft) && !disabled && !composing
    ensures r.Some? ==> r.value == Trim(draft) && IsTrimOf(r.value, draft)
    ensures r.Some? ==> r.value != [] && Trim(r.value) == r.value
  {
    var text := Trim(draft);
    if text != [] && !disabled && !composing then
      TrimIdempotent(draft);
      Some(text)
    else None
  }

  /** The key test in `handleKeyDown`. */
  predicate KeyTriggersSubmit(key: string, shiftKey: bool, composing: bool) {
    key == "Enter" && !shiftKey && !composing
  }

  /** Whenever a submit goes through, the send button was enabled. */
  lemma SubmissionImpliesCanSend(draft: string, disabled: bool, composing: bool)
    ensures Submission(draft, disabled, composing).Some? ==> CanSend(draft, disabled)
    ensures !composing ==> (Submission(draft, disabled, composing).Some? <==> CanSend(draft, disabled))
  {
  }

  /** The component's state hooks; `disabled` is a prop and is passed to each handler. */
  class InputBox {
    var draft: string
    var isComposing: bool

    constructor ()
      ensures draft == "" && !isComposing
    {
      draft := "";
      isComposing := false;
    }

    /** `handleSubmit`: returns the text given to `onSendMessage`, if it was called. */
    method HandleSubmit(disabled: bool) returns (sent: Option<string>)
      modifies this
      ensures sent == Submission(old(draft), disabled, old(isComposing))
      ensures draft == if sent.Some? then "" else old(draft)
      ensures isComposing == old(isComposing)
    {
      var text := Trim(draft);
      if text != [] && !disabled && !isComposing {
        sent := Some(text);
        draft := "";
      } else {
        sent := None;
      }
    }

    /** `handleKeyDown`: plain Enter outside a composition submits; anything else does not. */
    method HandleKeyDown(key: string, shiftKey: bool, disabled: bool) returns (sent: Option<string>)
      modifies this
      ensures sent == if KeyTriggersSubmit(key, shiftKey, old(isComposing))
                      then Submission(old(draft), disabled, old(isComposing)) else None
      ensures sent.Some? ==> key == "Enter" && !shiftKey && !old(isComposing) && !disabled
      ensures draft == if sent.Some? then "" else old(draft)
      ensures isComposing == old(isComposing)
    {
      if key == "Enter" && !shiftKey && !isComposing {
        sent := HandleSubmit(disabled);
      } else {
        sent := None;
      }
    }

    method HandleCompositionStart()
      modifies this
      ensures isComposing && draft == old(draft)
    {
      isComposing := true;
    }

    method HandleCompositionEnd()
      modifies this
      ensures !isComposing && draft == old(draft)
    {
      isComposing := false;
    }

    method HandleInputChange(value: string)
      modifies this
      ensures draft == value && isComposing == old(isComposing)
    {
      draft := value;
    }
  }
}
