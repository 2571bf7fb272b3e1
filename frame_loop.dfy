/**
 * The frame loop as a state machine on values: one step is one pass of the
 * `while True` body, `draw` followed by the increment when `draw` returned.
 */
module FrameLoop {
  import opened Wrappers
  import opened Formatting

  /** The texts of the four labels, in the order their tiles are bound. */
  datatype Texts = Texts(wideboy: string, frame: string, mod100: string, mod60: string)

  /** `state["frame"]` and what the labels read. */
  datatype LoopState = LoopState(frame: nat, texts: Texts)

  /**
   * How one call of `draw` ends: `None` if it returns; `Some(k)` if it
   * raises after its first `k` text assignments (`k >= 3`: it raises after
   * all three, in the log call).
   */
  type Fault = Option<nat>

  /** The state before the first iteration: `frame = 0`, every counter label "0". */
  const Initial: LoopState := LoopState(0, Texts("WB Jr", "0", "0", "0"))

  /** How many of `draw`'s three text assignments run before it returns or raises. */
  function Assignments(fault: Fault): (n: nat)
    ensures n <= 3
    ensures fault.None? ==> n == 3
  {
    match fault
    case None => 3
    case Some(k) => if k < 3 then k else 3
  }

  /**
   * The label texts after the first `done` assignments of `draw` at frame
   * `frame`. The static label is never written; the counter labels are
   * written in order, so a label written implies every earlier one was; with
   * all three done they show the frame, its value mod 100 and mod 60.
   */
  function DrawTexts(t: Texts, frame: nat, done: nat): (r: Texts)
    ensures r.wideboy == t.wideboy
    ensures done == 0 ==> r == t
    ensures done >= 3 ==> r == Texts(t.wideboy, Decimal(frame), Decimal(frame % 100), Decimal(frame % 60))
    ensures r.mod100 != t.mod100 ==> r.frame == Decimal(frame)
    ensures r.mod60 != t.mod60 ==> r.mod100 == Decimal(frame % 100)
  {
    Texts(
      t.wideboy,
      if done >= 1 then Decimal(frame) else t.frame,
      if done >= 2 then Decimal(frame % 100) else t.mod100,
      if done >= 3 then Decimal(frame % 60) else t.mod60)
  }

  /**
   * One loop iteration: draw, then advance the counter only if draw
   * returned. The counter moves on by exactly one when draw returned and
   * stays put when it raised; the static label is untouched either way.
   */
  function Step(s: LoopState, fault: Fault): (r: LoopState)
    ensures r.frame == s.frame + 1 <==> fault.None?
    ensures fault.Some? ==> r.frame == s.frame
    ensures r.texts.wideboy == s.texts.wideboy
  {
    LoopState(
      if fault.None? then s.frame + 1 else s.frame,
      DrawTexts(s.texts, s.frame, Assignments(fault)))
  }

  /**
   * The first `|faults|` iterations, the i-th of which ends as `faults[i]`
   * says. The counter never goes down and goes up by at most one per
   * iteration; the static label keeps its text.
   */
  function Iterations(s: LoopState, faults: seq<Fault>): (r: LoopState)
    ensures s.frame <= r.frame <= s.frame + |faults|
    ensures r.texts.wideboy == s.texts.wideboy
    decreases |faults|
  {
    if faults == [] then s else Step(Iterations(s, faults[..|faults| - 1]), faults[|faults| - 1])
  }

  lemma IterationsSnoc(s: LoopState, faults: seq<Fault>, f: Fault)
    ensures Iterations(s, faults + [f]) == Step(Iterations(s, faults), f)
  {
    assert (faults + [f])[..|faults|] == faults;
  }

  /** The number of iterations in which `draw` returned. */
  function Successes(faults: seq<Fault>): (n: nat)
    ensures n <= |faults|
  {
    if faults == [] then 0
    else Successes(faults[..|faults| - 1]) + (if faults[|faults| - 1].None? then 1 else 0)
  }

  // ------------------------------------------------------------ one step

  /** A successful draw shows the drawn frame on all three counter labels, and the counter moves on by one. */
  lemma StepSucceeds(s: LoopState)
    ensures Step(s, None).frame == s.frame + 1
    ensures Step(s, None).texts ==
              Texts(s.texts.wideboy, Decimal(s.frame), Decimal(s.frame % 100), Decimal(s.frame % 60))
  {
  }

  /**
   * A failed draw leaves the counter where it was; the assignments it made
   * before raising stay, the others are not made. The static label never changes.
   */
  lemma StepFails(s: LoopState, k: nat)
    ensures Step(s, Some(k)).frame == s.frame
    ensures Step(s, Some(k)).texts.wideboy == s.texts.wideboy
    ensures Step(s, Some(k)).texts.frame == if k >= 1 then Decimal(s.frame) else s.texts.frame
    ensures Step(s, Some(k)).texts.mod100 == if k >= 2 then Decimal(s.frame % 100) else s.texts.mod100
    ensures Step(s, Some(k)).texts.mod60 == if k >= 3 then Decimal(s.frame % 60) else s.texts.mod60
  {
  }

  // ------------------------------------------------------------- n steps

  /** The counter counts exactly the iterations whose draw returned. */
  lemma {:induction false} FrameCountsSuccesses(s: LoopState, faults: seq<Fault>)
    ensures Iterations(s, faults).frame == s.frame + Successes(faults)
  {
    if faults != [] {
      FrameCountsSuccesses(s, faults[..|faults| - 1]);
    }
  }

  function AllSucceed(n: nat): (faults: seq<Fault>)
    ensures |faults| == n && forall i :: 0 <= i < n ==> faults[i] == None
  {
    seq(n, _ => None)
  }

  /**
   * After `n` successful iterations from the start, `frame == n` and the
   * labels show frame `n - 1`, the last one drawn.
   */
  lemma {:induction false} AllSucceedShowsLastFrame(n: nat)
    ensures Iterations(Initial, AllSucceed(n)) ==
              if n == 0 then Initial
              else LoopState(n, Texts("WB Jr", Decimal(n - 1), Decimal((n - 1) % 100), Decimal((n - 1) % 60)))
  {
    if n > 0 {
      assert AllSucceed(n)[..n - 1] == AllSucceed(n - 1);
      AllSucceedShowsLastFrame(n - 1);
    }
  }

  /**
   * 150 successful iterations: `frame == 150`, and the labels read "WB Jr",
   * "149", "49", "29". `n` is a parameter fixed to 150 rather than the
   * literal itself: on a literal argument the verifier unfolds `Iterations`
   * and `AllSucceed` 150 times and runs out of resources.
   */
  lemma HundredFiftyIterations(n: nat)
    requires n == 150
    ensures Iterations(Initial, AllSucceed(n)) == LoopState(150, Texts("WB Jr", "149", "49", "29"))
  {
    AllSucceedShowsLastFrame(n);
    Decimals149();
  }

  lemma Decimals149()
    ensures Decimal(149) == "149" && Decimal(49) == "49" && Decimal(29) == "29"
  {
  }

  /** A draw that fails while `frame == 10` leaves it at 10; the next, successful, iteration advances it to 11. */
  lemma FailureAtTen(k: nat)
    ensures Iterations(Initial, AllSucceed(10) + [Some(k)]).frame == 10
    ensures Iterations(Initial, AllSucceed(10) + [Some(k)] + [None]).frame == 11
  {
    AllSucceedShowsLastFrame(10);
    IterationsSnoc(Initial, AllSucceed(10), Some(k));
    IterationsSnoc(Initial, AllSucceed(10) + [Some(k)], None);
  }

  // ----------------------------------------------------------- invariant

  /** `text` shows `v`, or, when `f > 0`, the value `w` had at the previous frame. */
  predicate ShowsCurrentOrPrevious(text: string, v: nat, w: nat, f: nat) {
    text == Decimal(v) || (f > 0 && text == Decimal(w))
  }

  /**
   * What every reachable state satisfies: the static label reads "WB Jr" and
   * each counter label shows its value at the current frame (a draw that
   * failed after assigning it) or at the previous frame (the last draw that
   * returned).
   */
  ghost predicate Consistent(s: LoopState) {
    var f := s.frame;
    var p := if f > 0 then f - 1 else 0;
    && s.texts.wideboy == "WB Jr"
    && ShowsCurrentOrPrevious(s.texts.frame, f, p, f)
    && ShowsCurrentOrPrevious(s.texts.mod100, f % 100, p % 100, f)
    && ShowsCurrentOrPrevious(s.texts.mod60, f % 60, p % 60, f)
  }

  lemma StepConsistent(s: LoopState, fault: Fault)
    requires Consistent(s)
    ensures Consistent(Step(s, fault))
  {
  }

  lemma {:induction false} ReachableConsistent(faults: seq<Fault>)
    ensures Consistent(Iterations(Initial, faults))
  {
    if faults != [] {
      ReachableConsistent(faults[..|faults| - 1]);
      StepConsistent(Iterations(Initial, faults[..|faults| - 1]), faults[|faults| - 1]);
    }
  }

  /**
   * In every reachable state each counter label holds a well-formed decimal
   * number; the mod-100 label's is below 100 and the mod-60 label's below 60.
   */
  lemma LabelsInRange(faults: seq<Fault>)
    ensures var t := Iterations(Initial, faults).texts;
      && IsCanonical(t.frame) && IsCanonical(t.mod100) && IsCanonical(t.mod60)
      && DigitsValue(t.mod100) < 100 && DigitsValue(t.mod60) < 60
  {
    var s := Iterations(Initial, faults);
    ReachableConsistent(faults);
    var f := s.frame;
    var p := if f > 0 then f - 1 else 0;
    DecimalRoundTrip(f % 100);
    DecimalRoundTrip(p % 100);
    DecimalRoundTrip(f % 60);
    DecimalRoundTrip(p % 60);
  }

  /** The frame label never runs ahead of the counter and lags it by at most one. */
  lemma FrameLabelTracksCounter(faults: seq<Fault>)
    ensures var s := Iterations(Initial, faults);
      IsCanonical(s.texts.frame) && s.frame - 1 <= DigitsValue(s.texts.frame) <= s.frame
  {
    var s := Iterations(Initial, faults);
    ReachableConsistent(faults);
    DecimalRoundTrip(s.frame);
    if s.frame > 0 {
      DecimalRoundTrip(s.frame - 1);
    }
  }
}
