/**
 * The upload-progress handler of the Java deployment: called by the copy with the number of
 * bytes sent so far, it accepts at most one call per 100 ms and moves the progress bar only
 * forward, to the integer percentage sent.
 */
module UploadProgress {

  /** The integer percentage of `length` bytes that `uploaded` bytes are (truncating division). */
  function Percent(uploaded: nat, length: nat): (p: nat)
    requires length > 0
    ensures p * length <= uploaded * 100 < (p + 1) * length
  {
    uploaded * 100 / length
  }

  /** Multiplying by a positive number keeps a strict order. */
  lemma {:induction false} MulStrict(a: nat, b: nat, c: nat)
    requires c > 0
    ensures a < b ==> a * c < b * c
    decreases b
  {
    if a < b {
      assert b * c == (b - 1) * c + c;
      if a < b - 1 {
        MulStrict(a, b - 1, c);
      }
    }
  }

  /** A product with a positive factor determines the order of the other factors. */
  lemma CancelLt(a: nat, b: nat, c: nat)
    requires c > 0 && a * c < b * c
    ensures a < b
  {
    MulStrict(b, a, c);
  }

  /** Within the file, the percentage is at most 100. */
  lemma PercentAtMost100(uploaded: nat, length: nat)
    requires 0 < length && uploaded <= length
    ensures Percent(uploaded, length) <= 100
  {
    var p := Percent(uploaded, length);
    assert p * length <= 100 * length;
    MulStrict(100, p, length);
  }

  /** Within the file, the percentage lies in 0..100 and reaches 100 exactly at the end. */
  lemma PercentRange(uploaded: nat, length: nat)
    requires 0 < length && uploaded <= length
    ensures Percent(uploaded, length) <= 100
    ensures Percent(uploaded, length) == 100 <==> uploaded == length
  {
    var p := Percent(uploaded, length);
    PercentAtMost100(uploaded, length);
    if uploaded == length {
      assert 100 * length < (p + 1) * length;
      CancelLt(100, p + 1, length);
    } else {
      assert uploaded * 100 < 100 * length;
    }
  }

  /** More bytes sent never shows a smaller percentage. */
  lemma PercentMonotone(a: nat, b: nat, length: nat)
    requires length > 0 && a <= b
    ensures Percent(a, length) <= Percent(b, length)
  {
    var pa, pb := Percent(a, length), Percent(b, length);
    assert pa * length < (pb + 1) * length;
    CancelLt(pa, pb + 1, length);
  }

  /** The state the handler keeps between calls, and the progress bar it drives. */
  class Tracker {
    const length: nat
    const startTime: int
    var lastProgress: nat
    var lastUpdateTime: int
    var lastBytes: nat
    var bar: nat
    /** The byte counts of the reports accepted so far, oldest first. */
    ghost var accepted: seq<nat>

    ghost predicate Valid()
      reads this
    {
      && lastProgress <= 100 && bar == lastProgress && lastBytes <= length
      && (forall k | 0 <= k < |accepted| :: accepted[k] <= length)
      && (length > 0 ==> bar == ShownAfter(accepted, length))
    }

    /** The upload of a file of `fileLength` bytes starts at `now`: nothing shown, nothing sent. */
    constructor (fileLength: nat, now: int)
      ensures Valid()
      ensures length == fileLength && startTime == now && lastUpdateTime == now
      ensures lastProgress == 0 && lastBytes == 0 && bar == 0 && accepted == []
    {
      length, startTime := fileLength, now;
      lastProgress, lastUpdateTime, lastBytes, bar := 0, now, 0, 0;
      accepted := [];
    }

    /**
     * A progress report at time `now` with `uploaded` bytes sent. Within 100 ms of the last
     * accepted report nothing changes. Otherwise the report is accepted; the bar moves to the
     * new percentage only when that exceeds the last one shown. A file of length zero makes
     * the percentage a division by zero, which the handler does not survive (`faulted`).
     */
    method OnUploading(now: int, uploaded: nat) returns (faulted: bool)
      requires Valid()
      requires uploaded <= length
      modifies this`lastProgress, this`lastUpdateTime, this`lastBytes, this`bar, this`accepted
      ensures Valid()
      ensures lastProgress >= old(lastProgress)
      ensures faulted <==> now - old(lastUpdateTime) > 100 && length == 0
      ensures now - old(lastUpdateTime) <= 100 || faulted ==>
        && lastProgress == old(lastProgress) && lastUpdateTime == old(lastUpdateTime)
        && lastBytes == old(lastBytes) && bar == old(bar) && accepted == old(accepted)
      ensures now - old(lastUpdateTime) > 100 && !faulted ==>
        && lastUpdateTime == now && lastBytes == uploaded && accepted == old(accepted) + [uploaded]
        && lastProgress == if Percent(uploaded, length) > old(lastProgress) then Percent(uploaded, length)
                           else old(lastProgress)
    {
      faulted := false;
      if now - lastUpdateTime > 100 {
        if length == 0 {
          return true;
        }
        var progress := uploaded * 100 / length;
        PercentAtMost100(uploaded, length);
        if progress > lastProgress {
          bar := progress;
          lastProgress := progress;
        }
        lastUpdateTime := now;
        lastBytes := uploaded;
        ShownAfterStep(accepted, uploaded, length);
        accepted := accepted + [uploaded];
      }
    }
  }

  /**
   * Whatever sequence of accepted reports arrives, the bar shows the largest percentage
   * reported so far, and once the whole file was reported it shows 100.
   */
  function ShownAfter(reports: seq<nat>, length: nat): (shown: nat)
    requires length > 0
    requires forall k | 0 <= k < |reports| :: reports[k] <= length
    ensures shown <= 100
    ensures forall k | 0 <= k < |reports| :: Percent(reports[k], length) <= shown
    ensures |reports| == 0 ==> shown == 0
  {
    if |reports| == 0 then 0
    else
      var before := ShownAfter(reports[..|reports| - 1], length);
      var p := Percent(reports[|reports| - 1], length);
      PercentAtMost100(reports[|reports| - 1], length);
      if p > before then p else before
  }

  /** One more accepted report moves the shown value to its percentage exactly when that is larger. */
  lemma ShownAfterStep(reports: seq<nat>, uploaded: nat, length: nat)
    requires length > 0
    requires forall k | 0 <= k < |reports| :: reports[k] <= length
    requires uploaded <= length
    ensures var p := Percent(uploaded, length);
      ShownAfter(reports + [uploaded], length) == if p > ShownAfter(reports, length) then p else ShownAfter(reports, length)
  {
    assert (reports + [uploaded])[..|reports|] == reports;
  }

  /** The bar shows one of the reported percentages: the one at the returned position. */
  lemma {:induction false} ShownAfterAttained(reports: seq<nat>, length: nat) returns (k: nat)
    requires length > 0
    requires forall j | 0 <= j < |reports| :: reports[j] <= length
    requires |reports| > 0
    ensures k < |reports| && ShownAfter(reports, length) == Percent(reports[k], length)
  {
    var last := |reports| - 1;
    if last == 0 || Percent(reports[last], length) > ShownAfter(reports[..last], length) {
      return last;
    }
    k := ShownAfterAttained(reports[..last], length);
    assert reports[..last][k] == reports[k];
  }

  /** Accepted reports drive the tracker to the largest percentage reported. */
  lemma ShownAfterComplete(reports: seq<nat>, length: nat)
    requires length > 0
    requires forall k | 0 <= k < |reports| :: reports[k] <= length
    requires |reports| > 0 && reports[|reports| - 1] == length
    ensures ShownAfter(reports, length) == 100
  {
    PercentRange(length, length);
  }
}
