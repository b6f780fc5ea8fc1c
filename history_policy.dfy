/**
 * The bounding rule of `Memory._drop_message` (src/memory.py:32-37), as a
 * pure function of a history and the configured count `n` of turn pairs.
 * The code computes this value and then discards it (src/memory.py:50), so
 * nothing in the class applies it; `ReplayTrimmed` shows what it would do.
 */
module HistoryPolicy {
  import opened Conversation

  /** Python's `s[start:]` for any integer `start`: negative counts from the end, out-of-range clamps. */
  function PySliceFrom<T>(s: seq<T>, start: int): (r: seq<T>)
    ensures |r| == if start >= 0 then (if start <= |s| then |s| - start else 0)
                   else (if -start <= |s| then -start else |s|)
    ensures r == s[|s| - |r|..]
  {
    if start >= 0 then (if start <= |s| then s[start..] else [])
    else (if -start <= |s| then s[|s| + start..] else s)
  }

  /** The history length at which `_drop_message` starts to cut: `(n + 1) * 2 + 1`. */
  function Threshold(n: int): int {
    (n + 1) * 2 + 1
  }

  /**
   * `_drop_message`: at or above the threshold, the first entry followed by
   * `h[-(n * 2):]`; below it, `h` itself. Python raises `IndexError` on
   * `h[0]` when `h` is empty and the threshold is not positive (`n <= -2`),
   * which the precondition excludes.
   */
  function Drop(h: seq<Message>, n: int): (r: seq<Message>)
    requires |h| > 0 || |h| < Threshold(n)
    ensures |h| < Threshold(n) ==> r == h
    ensures |h| >= Threshold(n) && n >= 1 ==>
      |r| == 2 * n + 1 && r[0] == h[0] && r[1..] == h[|h| - 2 * n..]
    ensures |h| >= Threshold(n) && n == 0 ==> r == [h[0]] + h
    ensures |h| >= Threshold(n) && n < 0 ==>
      r == [h[0]] + (if -2 * n <= |h| then h[-2 * n..] else [])
  {
    if |h| >= Threshold(n) then [h[0]] + PySliceFrom(h, -(n * 2)) else h
  }

  /** For `n >= 1`, trimming a second time changes nothing. */
  lemma DropIdempotent(h: seq<Message>, n: int)
    requires n >= 1
    ensures Drop(Drop(h, n), n) == Drop(h, n)
  {
  }

  /**
   * For `n == 0`, `h[-0:]` is the whole list, so `Drop` lengthens the history
   * by one (a second copy of `h[0]`) instead of shortening it, and a second
   * application changes it again.
   */
  lemma DropZeroGrows(h: seq<Message>)
    requires |h| >= Threshold(0)
    ensures Drop(h, 0) == [h[0]] + h && |Drop(h, 0)| == |h| + 1
    ensures Drop(Drop(h, 0), 0) != Drop(h, 0)
  {
    assert |Drop(Drop(h, 0), 0)| == |h| + 2;
  }

  /**
   * What one user's history would be after the turns `turns` were appended
   * one at a time to an empty history, if each `append` stored the value of
   * `_drop_message` (the code does not: see `ConversationMemory.ReplayAppends`).
   */
  function ReplayTrimmed(turns: seq<Message>, defaultText: string, n: int): (h: seq<Message>)
    ensures turns != [] ==> |h| > 0
    decreases |turns|
  {
    if turns == [] then []
    else
      var before := ReplayTrimmed(turns[..|turns| - 1], defaultText, n);
      Drop(AppendTo(before, defaultText, turns[|turns| - 1]), n)
  }

  /**
   * The shape a trimmed history keeps for `n >= 1`: between 2 and `2n + 2`
   * entries, the system message in slot 0, and the rest a contiguous suffix
   * of the turns appended so far.
   */
  ghost predicate BoundedSuffix(h: seq<Message>, turns: seq<Message>, defaultText: string, n: int) {
    && 2 <= |h| <= 2 * n + 2
    && |h| - 1 <= |turns|
    && h[0] == SystemMessage(defaultText)
    && h[1..] == turns[|turns| - (|h| - 1)..]
  }

  /** One append followed by a trim keeps `BoundedSuffix`, with the new turn at the end. */
  lemma TrimStep(before: seq<Message>, prefix: seq<Message>, last: Message, defaultText: string, n: int)
    requires n >= 1 && BoundedSuffix(before, prefix, defaultText, n)
    ensures BoundedSuffix(Drop(AppendTo(before, defaultText, last), n), prefix + [last], defaultText, n)
  {
    var turns := prefix + [last];
    var k := |prefix| - (|before| - 1);
    var grown := before + [last];
    assert grown == AppendTo(before, defaultText, last);
    assert grown[1..] == turns[k..] by {
      assert grown[1..] == before[1..] + [last];
      assert turns[k..] == prefix[k..] + [last];
    }
    var h := Drop(grown, n);
    if |grown| >= Threshold(n) {
      assert |grown| == 2 * n + 3;
      assert h[1..] == grown[3..];
      assert grown[3..] == grown[1..][2..];
      assert k + 2 == |turns| - (|h| - 1);
    } else {
      assert h == grown;
    }
  }

  /**
   * With `n >= 1` the trimmed history is bounded by `2n + 2` entries, keeps
   * the system message in slot 0, and its other entries are the most recent
   * turns in their original order.
   */
  lemma {:induction false} TrimmedHistoryBounded(turns: seq<Message>, defaultText: string, n: int)
    requires n >= 1 && turns != []
    ensures BoundedSuffix(ReplayTrimmed(turns, defaultText, n), turns, defaultText, n)
  {
    var m := |turns| - 1;
    var prefix := turns[..m];
    assert turns == prefix + [turns[m]];
    if prefix == [] {
      assert ReplayTrimmed(turns, defaultText, n) == [SystemMessage(defaultText), turns[m]];
    } else {
      TrimmedHistoryBounded(prefix, defaultText, n);
      TrimStep(ReplayTrimmed(prefix, defaultText, n), prefix, turns[m], defaultText, n);
    }
  }

  /**
   * The two-pairs scenario: with `n == 2`, seven alternating turns leave the
   * system message and the last five turns.
   */
  lemma TrimScenario(sys: string, a1: Message, b1: Message, a2: Message, b2: Message,
                     a3: Message, b3: Message, a4: Message)
    ensures ReplayTrimmed([a1, b1, a2, b2, a3, b3, a4], sys, 2)
         == [SystemMessage(sys), a2, b2, a3, b3, a4]
  {
    var s := SystemMessage(sys);
    var t := [a1, b1, a2, b2, a3, b3, a4];
    assert t[..1][..0] == [];
    assert ReplayTrimmed(t[..1], sys, 2) == [s, a1];
    assert t[..2][..1] == t[..1];
    assert ReplayTrimmed(t[..2], sys, 2) == [s, a1, b1];
    assert t[..3][..2] == t[..2];
    assert ReplayTrimmed(t[..3], sys, 2) == [s, a1, b1, a2];
    assert t[..4][..3] == t[..3];
    assert ReplayTrimmed(t[..4], sys, 2) == [s, a1, b1, a2, b2];
    assert t[..5][..4] == t[..4];
    assert ReplayTrimmed(t[..5], sys, 2) == [s, a1, b1, a2, b2, a3];
    assert t[..6][..5] == t[..5];
    assert ReplayTrimmed(t[..6], sys, 2) == [s, a2, b2, a3, b3];
    assert t[..6] == t[..|t| - 1];
  }
}
