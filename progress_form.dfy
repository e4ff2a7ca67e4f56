/**
 * The small progress window: a bar from 0 to 100 and a status line. An update sets the bar
 * only to a percentage within the bar's range, always sets the status line, and does nothing
 * once the window is disposed.
 */
module ProgressForm {

  /** The bar after a run of updates starting from 0: the last percentage within 0..100, if any. */
  function BarAfter(percentages: seq<int>): (v: int)
    ensures 0 <= v <= 100
    ensures (forall k | 0 <= k < |percentages| :: !(0 <= percentages[k] <= 100)) ==> v == 0
  {
    if |percentages| == 0 then 0
    else
      var last := percentages[|percentages| - 1];
      if 0 <= last <= 100 then last else BarAfter(percentages[..|percentages| - 1])
  }

  /** One more update sets the bar to its percentage when that lies in 0..100 and keeps it otherwise. */
  lemma BarAfterStep(percentages: seq<int>, percentage: int)
    ensures BarAfter(percentages + [percentage]) == if 0 <= percentage <= 100 then percentage else BarAfter(percentages)
  {
    assert (percentages + [percentage])[..|percentages|] == percentages;
  }

  /** The bar after updates is the last in-range percentage: nothing after it is in range. */
  lemma {:induction false} BarAfterIsLastInRange(percentages: seq<int>, k: nat)
    requires k < |percentages| && 0 <= percentages[k] <= 100
    requires forall j | k < j < |percentages| :: !(0 <= percentages[j] <= 100)
    ensures BarAfter(percentages) == percentages[k]
    decreases |percentages|
  {
    if k < |percentages| - 1 {
      var init := percentages[..|percentages| - 1];
      assert init[k] == percentages[k];
      assert forall j | k < j < |init| :: init[j] == percentages[j];
      BarAfterIsLastInRange(init, k);
    }
  }

  class ProgressWindow {
    const title: string
    var bar: int
    var status: string
    var disposed: bool
    /** The percentages of the updates applied so far, oldest first. */
    ghost var applied: seq<int>

    ghost predicate Valid()
      reads this
    {
      0 <= bar <= 100 && bar == BarAfter(applied)
    }

    /** A new window with the given title: an empty bar and "准备中..." as its status. */
    constructor (title: string)
      ensures Valid()
      ensures this.title == title && bar == 0 && status == "准备中..." && !disposed && applied == []
    {
      this.title := title;
      bar, status, disposed := 0, "准备中...", false;
      applied := [];
    }

    /** The window is closed and its controls released. */
    method Dispose()
      modifies this`disposed
      ensures disposed
    {
      disposed := true;
    }

    /**
     * An update, from any thread: nothing happens once the window is disposed; otherwise the
     * bar takes the percentage when it lies in 0..100 and the status line takes the text.
     */
    method UpdateProgress(percentage: int, text: string)
      requires Valid()
      modifies this`bar, this`status, this`applied
      ensures Valid()
      ensures disposed ==> bar == old(bar) && status == old(status) && applied == old(applied)
      ensures !disposed ==> status == text && applied == old(applied) + [percentage]
      ensures !disposed ==> bar == if 0 <= percentage <= 100 then percentage else old(bar)
    {
      if disposed {
        return;
      }
      UpdateProgressInternal(percentage, text);
    }

    /** The update on the window's own thread. */
    method UpdateProgressInternal(percentage: int, text: string)
      requires Valid()
      modifies this`bar, this`status, this`applied
      ensures Valid()
      ensures disposed ==> bar == old(bar) && status == old(status) && applied == old(applied)
      ensures !disposed ==> status == text && applied == old(applied) + [percentage]
      ensures !disposed ==> bar == if 0 <= percentage <= 100 then percentage else old(bar)
    {
      if disposed {
        return;
      }
      if 0 <= percentage && percentage <= 100 {
        bar := percentage;
      }
      status := text;
      BarAfterStep(applied, percentage);
      applied := applied + [percentage];
    }
  }
}
