/** EchoDialog: echoes each message with a running count, and asks for confirmation
    before a reset when the user sends the reset trigger. */
module Echo {
  import opened Int32
  import opened Messages

  /** The pending continuation: which handler the next message goes to. */
  datatype EchoMode =
    | Idle            // waiting in MessageReceived
    | AwaitingConfirm // a yes/no prompt is out; the answer goes to AfterReset

  class EchoDialog {
    var resetCount: int32
    var otherCount: int32
    var mode: EchoMode

    /** The only assignment to `resetCount` anywhere writes 1, so it is 1 at all times. */
    ghost predicate Valid()
      reads this
    {
      resetCount == 1
    }

    /** Field initialisers and StartAsync: both counters at 1, waiting for a message. */
    constructor ()
      ensures Valid()
      ensures resetCount == 1 && otherCount == 1 && mode == Idle
    {
      resetCount := 1;
      otherCount := 1;
      mode := Idle;
    }

    /** MessageReceivedAsync. The reset trigger posts the confirmation prompt and hands the next
        reply to AfterReset; any other text is echoed with the count before the step, and the
        count goes up by one (post-increment, wrapping at int.MaxValue). */
    method MessageReceived(text: string) returns (out: seq<string>)
      requires Valid() && mode == Idle
      modifies this
      ensures Valid()
      ensures resetCount == old(resetCount)
      ensures text == ResetTrigger ==>
        mode == AwaitingConfirm && otherCount == old(otherCount) && out == [ConfirmResetPrompt]
      ensures text != ResetTrigger ==>
        mode == Idle && otherCount == Increment(old(otherCount)) &&
        out == [EchoReply(text, old(otherCount))]
    {
      if text == ResetTrigger {
        out := [ConfirmResetPrompt];
        mode := AwaitingConfirm;
      } else {
        var n := otherCount;
        otherCount := Increment(otherCount);
        out := [EchoReply(text, n)];
        mode := Idle;
      }
    }

    /** AfterResetAsync. A confirmed reset sets `resetCount` to 1 and reports it; a refusal
        reports the cancellation. Either way the echo count is untouched and the dialog
        waits for a message again. */
    method AfterReset(confirm: bool) returns (out: seq<string>)
      requires Valid() && mode == AwaitingConfirm
      modifies this
      ensures Valid()
      ensures mode == Idle && otherCount == old(otherCount)
      ensures confirm ==> resetCount == 1 && out == [ResetDone(1)]
      ensures !confirm ==> resetCount == old(resetCount) && out == [ResetCancelled]
    {
      if confirm {
        resetCount := 1;
        out := [ResetDone(resetCount)];
      } else {
        out := [ResetCancelled];
      }
      mode := Idle;
    }

    /** One inbound message, delivered to the pending continuation: `text` goes to
        MessageReceived, `answer` (the yes/no reading of the same text) to AfterReset. */
    method Step(text: string, answer: bool) returns (out: seq<string>)
      requires Valid()
      modifies this
      ensures Valid() && |out| == 1
      ensures old(mode) == Idle && text == ResetTrigger ==>
        mode == AwaitingConfirm && otherCount == old(otherCount) && out == [ConfirmResetPrompt]
      ensures old(mode) == Idle && text != ResetTrigger ==>
        mode == Idle && otherCount == Increment(old(otherCount)) &&
        out == [EchoReply(text, old(otherCount))]
      ensures old(mode) == AwaitingConfirm ==>
        mode == Idle && otherCount == old(otherCount) &&
        out == [if answer then ResetDone(1) else ResetCancelled]
    {
      match mode
      case Idle =>
        out := MessageReceived(text);
      case AwaitingConfirm =>
        out := AfterReset(answer);
    }
  }
}
