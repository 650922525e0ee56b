/**
 * Runs of consecutive frames, and what the vertical-motion rules promise
 * over them: the charge invariant holds forever, every jump between two
 * landings spends a charge refilled by the first of them (the double
 * jump), and between landings and jumps only gravity acts.
 */
module FrameSequences {
  import opened VerticalMotion

  /** The state after `frames`, and each frame's output in order. */
  function Run(t: Tuning, s: State, frames: seq<Frame>): (r: (State, seq<Output>))
    ensures |r.1| == |frames|
    decreases |frames|
  {
    if frames == [] then (s, [])
    else
      var first := Step(t, s, frames[0]);
      var rest := Run(t, first.0, frames[1..]);
      (rest.0, [first.1] + rest.1)
  }

  /** How many of the outputs fired the jump trigger. */
  function JumpCount(outs: seq<Output>): nat
    decreases |outs|
  {
    if outs == [] then 0
    else (if Fired(outs[0]) then 1 else 0) + JumpCount(outs[1..])
  }

  /** No frame of the run lands. */
  predicate NoLanding(t: Tuning, s: State, frames: seq<Frame>)
    decreases |frames|
  {
    frames == [] ||
    (!Lands(t, s, frames[0]) && NoLanding(t, Step(t, s, frames[0]).0, frames[1..]))
  }

  /** Total elapsed time of the frames. */
  function TotalTime(frames: seq<Frame>): real
    decreases |frames|
  {
    if frames == [] then 0.0 else frames[0].dt + TotalTime(frames[1..])
  }

  /** From any state within the charge invariant, every run stays within it. */
  lemma {:induction false} RunKeepsChargesInRange(t: Tuning, s: State, frames: seq<Frame>)
    requires ChargesInRange(t, s)
    ensures ChargesInRange(t, Run(t, s, frames).0)
    decreases |frames|
  {
    if frames != [] {
      RunKeepsChargesInRange(t, Step(t, s, frames[0]).0, frames[1..]);
    }
  }

  /**
   * Without a landing, each jump spends exactly one charge and nothing
   * refills them: the jumps fired plus the charges left equal the charges
   * at the start.
   */
  lemma {:induction false} JumpsSpendCharges(t: Tuning, s: State, frames: seq<Frame>)
    requires NoLanding(t, s, frames)
    ensures JumpCount(Run(t, s, frames).1) + Run(t, s, frames).0.jumpsAvailable == s.jumpsAvailable
    decreases |frames|
  {
    if frames != [] {
      var first := Step(t, s, frames[0]);
      JumpsSpendCharges(t, first.0, frames[1..]);
      assert Run(t, s, frames).1 == [first.1] + Run(t, first.0, frames[1..]).1;
      assert ([first.1] + Run(t, first.0, frames[1..]).1)[1..] == Run(t, first.0, frames[1..]).1;
    }
  }

  /** Without a landing, no more jumps fire than there were charges. */
  lemma JumpsBoundedByCharges(t: Tuning, s: State, frames: seq<Frame>)
    requires ChargesInRange(t, s)
    requires NoLanding(t, s, frames)
    ensures JumpCount(Run(t, s, frames).1) <= s.jumpsAvailable <= t.jumpsMax
  {
    RunKeepsChargesInRange(t, s, frames);
    JumpsSpendCharges(t, s, frames);
  }

  /**
   * The controller starts with no charges, so before its first landing no
   * jump fires at all, however often the button is pressed.
   */
  lemma NoJumpBeforeFirstLanding(t: Tuning, s: State, frames: seq<Frame>)
    requires t.jumpsMax >= 0 && s.jumpsAvailable == 0
    requires NoLanding(t, s, frames)
    ensures JumpCount(Run(t, s, frames).1) == 0
  {
    JumpsBoundedByCharges(t, s, frames);
  }

  /**
   * Between two landings at most `jumpsMax` jumps fire: counted from a
   * landing frame (whose own jump counts) up to, not including, the next.
   */
  lemma AtMostJumpsMaxBetweenLandings(t: Tuning, s: State, frames: seq<Frame>)
    requires t.jumpsMax >= 0
    requires |frames| > 0 && Lands(t, s, frames[0])
    requires NoLanding(t, Step(t, s, frames[0]).0, frames[1..])
    ensures JumpCount(Run(t, s, frames).1) <= t.jumpsMax
  {
    var first := Step(t, s, frames[0]);
    JumpsBoundedByCharges(t, first.0, frames[1..]);
    assert ([first.1] + Run(t, first.0, frames[1..]).1)[1..] == Run(t, first.0, frames[1..]).1;
  }

  /**
   * With two charges the bound is reached: landing while pressing jump,
   * then pressing again in the air, fires two jumps; a third press before
   * the next landing fires nothing.
   */
  lemma DoubleJump(t: Tuning, s: State, dt0: real, dt1: real, dt2: real)
    requires t.jumpsMax == 2
    requires Lands(t, s, Frame(dt0, true, true))
    ensures var frames := [Frame(dt0, true, true), Frame(dt1, false, true), Frame(dt2, false, true)];
            var r := Run(t, s, frames);
            Fired(r.1[0]) && Fired(r.1[1]) && !Fired(r.1[2]) &&
            JumpCount(r.1) == 2 && r.0.jumpsAvailable == 0
  {
    var f0, f1, f2 := Frame(dt0, true, true), Frame(dt1, false, true), Frame(dt2, false, true);
    var o0 := Step(t, s, f0);
    var o1 := Step(t, o0.0, f1);
    var o2 := Step(t, o1.0, f2);
    assert o0.0.jumpsAvailable == 1 && o1.0.jumpsAvailable == 0;
    assert Run(t, o1.0, [f2]) == (o2.0, [o2.1]) by {
      assert [f2][1..] == [];
      assert [o2.1] + [] == [o2.1];
    }
    assert Run(t, o0.0, [f1, f2]) == (o2.0, [o1.1, o2.1]) by {
      assert [f1, f2][1..] == [f2];
      assert [o1.1] + [o2.1] == [o1.1, o2.1];
    }
    assert Run(t, s, [f0, f1, f2]) == (o2.0, [o0.1, o1.1, o2.1]) by {
      assert [f0, f1, f2][1..] == [f1, f2];
      assert [o0.1] + [o1.1, o2.1] == [o0.1, o1.1, o2.1];
    }
    assert [o0.1, o1.1, o2.1][1..] == [o1.1, o2.1];
    assert [o1.1, o2.1][1..] == [o2.1];
    assert [o2.1][1..] == [];
    assert JumpCount([o2.1]) == 0;
    assert JumpCount([o1.1, o2.1]) == 1;
    assert JumpCount([o0.1, o1.1, o2.1]) == 2;
  }

  /**
   * While the character neither lands nor presses jump, only gravity acts:
   * the velocity changes by gravity times the elapsed time and the charges
   * stay as they were.
   */
  lemma {:induction false} FreeFall(t: Tuning, s: State, frames: seq<Frame>)
    requires NoLanding(t, s, frames)
    requires forall i :: 0 <= i < |frames| ==> !frames[i].jumpPressed
    ensures Run(t, s, frames).0 ==
            State(s.yVelocity + t.gravity * TotalTime(frames), s.jumpsAvailable)
    decreases |frames|
  {
    if frames != [] {
      var s1 := Step(t, s, frames[0]).0;
      FreeFall(t, s1, frames[1..]);
      assert s1.yVelocity == s.yVelocity + t.gravity * frames[0].dt;
      assert t.gravity * frames[0].dt + t.gravity * TotalTime(frames[1..]) ==
             t.gravity * TotalTime(frames);
    }
  }

  /** Frames with positive durations take positive time in total. */
  lemma {:induction false} TotalTimePositive(frames: seq<Frame>)
    requires |frames| > 0
    requires forall i :: 0 <= i < |frames| ==> frames[i].dt > 0.0
    ensures TotalTime(frames) > 0.0
    decreases |frames|
  {
    if |frames| > 1 {
      TotalTimePositive(frames[1..]);
    }
  }

  /** In free fall under downward gravity, the vertical velocity strictly decreases. */
  lemma FreeFallSpeedsUp(t: Tuning, s: State, frames: seq<Frame>)
    requires t.gravity < 0.0
    requires |frames| > 0
    requires forall i :: 0 <= i < |frames| ==> frames[i].dt > 0.0
    requires NoLanding(t, s, frames)
    requires forall i :: 0 <= i < |frames| ==> !frames[i].jumpPressed
    ensures Run(t, s, frames).0.yVelocity < s.yVelocity
  {
    FreeFall(t, s, frames);
    TotalTimePositive(frames);
    var total := TotalTime(frames);
    assert t.gravity * total < 0.0;
  }
}
