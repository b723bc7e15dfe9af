/**
 * How `render_notification` breaks a notification message into display
 * lines: consecutive slices of 40 characters, the last one possibly shorter.
 * Rendering the lines (fonts, surfaces, blitting) is not modelled.
 */
module Chunking {
  import opened Wrappers

  const LINE_WIDTH: nat := 40

  function Min(a: int, b: int): int { if a <= b then a else b }

  /** `[message[i:i+40] for i in range(0, len(message), 40)]`: line k starts at 40 * k. */
  function Lines(message: string): (lines: seq<string>)
    ensures |lines| == (|message| + LINE_WIDTH - 1) / LINE_WIDTH
    ensures forall k :: 0 <= k < |lines| ==> 0 < |lines[k]| <= LINE_WIDTH
  {
    seq((|message| + 39) / 40, k requires 0 <= k < (|message| + 39) / 40 =>
      message[40 * k .. Min(40 * k + 40, |message|)])
  }

  /** Joining the lines back together. */
  function Concat(lines: seq<string>): string
  {
    if lines == [] then [] else lines[0] + Concat(lines[1..])
  }

  /** A message longer than one line gives its first 40 characters, then the lines of the rest. */
  lemma LinesUnfold(message: string)
    requires |message| > LINE_WIDTH
    ensures Lines(message) == [message[..LINE_WIDTH]] + Lines(message[LINE_WIDTH..])
  {
    var rest := message[40..];
    var a, b := Lines(message), [message[..40]] + Lines(rest);
    assert |a| == |b|;
    forall k | 0 <= k < |a| ensures a[k] == b[k] {
      if k > 0 {
        assert b[k] == Lines(rest)[k - 1];
        assert b[k] == rest[40 * (k - 1) .. Min(40 * (k - 1) + 40, |rest|)];
      }
    }
  }

  /** Round trip: concatenating the lines gives back the message. */
  lemma {:induction false} ConcatLines(message: string)
    ensures Concat(Lines(message)) == message
    decreases |message|
  {
    if |message| == 0 {
      assert Lines(message) == [];
    } else if |message| <= LINE_WIDTH {
      assert (|message| + 39) / 40 == 1;
      assert Lines(message)[0] == message[0..|message|] == message;
      assert |Lines(message)| == 1;
      assert Lines(message) == [message];
      assert Concat([message]) == message + Concat([]);
    } else {
      LinesUnfold(message);
      var ls := Lines(message);
      assert ls[1..] == Lines(message[40..]);
      ConcatLines(message[40..]);
      assert message == message[..40] + message[40..];
    }
  }

  /** Every line but the last is a full 40 characters. */
  lemma FullLinesBeforeLast(message: string, k: nat)
    requires k + 1 < |Lines(message)|
    ensures |Lines(message)[k]| == LINE_WIDTH
  {
  }

  /** The lines of the notification box: none when there is no message or it is empty. */
  function NotificationLines(message: Option<string>): (lines: seq<string>)
    ensures lines == [] <==> message.None? || message.value == ""
    ensures message.Some? ==> Concat(lines) == message.value
  {
    if message.None? || message.value == "" then []
    else
      ConcatLines(message.value);
      Lines(message.value)
  }
}
