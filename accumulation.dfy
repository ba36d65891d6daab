/** The sample counter of the render loop (`numAccumFrames` in `Scene::draw`). At the top
    of every frame a raised reset flag forces the count to 0; the count is then sent to the
    kernel and, after the frame is presented, goes up by one. `Sent` gives the counts sent
    in successive frames from the flags seen at the top of each frame; `SinceReset` says
    the same thing frame by frame, as the number of frames since the last reset. */
module Accumulation {

  /** The count sent in a frame that starts with `carried` and the given reset flag. */
  function SentNow(carried: nat, reset: bool): (c: nat)
    ensures reset ==> c == 0
    ensures !reset ==> c == carried
  {
    if reset then 0 else carried
  }

  /** The counts sent in successive frames, starting from the carried count. */
  function Sent(carried: nat, resets: seq<bool>): (r: seq<nat>)
    ensures |r| == |resets|
    ensures forall k :: 0 <= k < |r| ==> r[k] <= carried + k
    ensures forall k :: 0 <= k < |r| && resets[k] ==> r[k] == 0
    decreases |resets|
  {
    if resets == [] then []
    else
      var c := SentNow(carried, resets[0]);
      [c] + Sent(c + 1, resets[1..])
  }

  /** The count sent in frame k: frames since the last reset at or before k, or the
      carried count plus k when there was none. */
  function SinceReset(carried: nat, resets: seq<bool>, k: nat): nat
    requires k < |resets|
  {
    if resets[k] then 0
    else if k == 0 then carried
    else SinceReset(carried, resets, k - 1) + 1
  }

  lemma {:induction false} SinceResetShift(carried: nat, resets: seq<bool>, k: nat)
    requires 0 < k < |resets|
    ensures SinceReset(carried, resets, k)
         == SinceReset(SentNow(carried, resets[0]) + 1, resets[1..], k - 1)
    decreases k
  {
    if !resets[k] && k > 1 {
      SinceResetShift(carried, resets, k - 1);
    }
  }

  /** The forward count and the per-frame account agree in every frame. */
  lemma {:induction false} SentIsSinceReset(carried: nat, resets: seq<bool>, k: nat)
    requires k < |resets|
    ensures Sent(carried, resets)[k] == SinceReset(carried, resets, k)
    decreases k
  {
    if k > 0 {
      var c := SentNow(carried, resets[0]);
      SentIsSinceReset(c + 1, resets[1..], k - 1);
      SinceResetShift(carried, resets, k);
    }
  }

  /** A frame that starts with the flag raised sends 0. */
  lemma ResetSendsZero(carried: nat, resets: seq<bool>, k: nat)
    requires k < |resets| && resets[k]
    ensures Sent(carried, resets)[k] == 0
  {
    SentIsSinceReset(carried, resets, k);
  }

  /** Without a reset, each frame sends exactly one more than the frame before. */
  lemma NoResetIncrements(carried: nat, resets: seq<bool>, k: nat)
    requires k + 1 < |resets| && !resets[k + 1]
    ensures Sent(carried, resets)[k + 1] == Sent(carried, resets)[k] + 1
  {
    SentIsSinceReset(carried, resets, k);
    SentIsSinceReset(carried, resets, k + 1);
  }

  /** With no reset at all, frame k sends the carried count plus k; from a fresh start
      (carried 0) the k-th frame, counting from 0, sends k. */
  lemma {:induction false} QuietFrames(carried: nat, resets: seq<bool>, k: nat)
    requires k < |resets|
    requires forall j :: 0 <= j <= k ==> !resets[j]
    ensures Sent(carried, resets)[k] == carried + k
  {
    SentIsSinceReset(carried, resets, k);
    QuietSinceReset(carried, resets, k);
  }

  lemma {:induction false} QuietSinceReset(carried: nat, resets: seq<bool>, k: nat)
    requires k < |resets|
    requires forall j :: 0 <= j <= k ==> !resets[j]
    ensures SinceReset(carried, resets, k) == carried + k
  {
    if k > 0 {
      QuietSinceReset(carried, resets, k - 1);
    }
  }

  /** After a reset in frame r, quiet frames count up from 0 again: frame r + n sends n. */
  lemma {:induction false} CountSinceLastReset(carried: nat, resets: seq<bool>, r: nat, n: nat)
    requires r + n < |resets| && resets[r]
    requires forall j :: r < j <= r + n ==> !resets[j]
    ensures Sent(carried, resets)[r + n] == n
  {
    SentIsSinceReset(carried, resets, r + n);
    SinceResetAfter(carried, resets, r, n);
  }

  lemma {:induction false} SinceResetAfter(carried: nat, resets: seq<bool>, r: nat, n: nat)
    requires r + n < |resets| && resets[r]
    requires forall j :: r < j <= r + n ==> !resets[j]
    ensures SinceReset(carried, resets, r + n) == n
  {
    if n > 0 {
      SinceResetAfter(carried, resets, r, n - 1);
    }
  }
}
