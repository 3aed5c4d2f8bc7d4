/** The throttled progress bar (`updateProgress`, main.go): it redraws only
    when the completed percentage has advanced by at least 5 points since the
    last drawing, or has reached 100. */
module Progress {
  import opened Base
  import opened GoStrings
  import Consts

  /** One redraw: the 40-character bar and the numbers printed beside it. */
  datatype Frame = Frame(track: string, bar: string, percent: int, done: int, total: int)

  /** The result of one call: the frame drawn, if any, and the new value of
      `*lastPercent`. */
  datatype Tick = Tick(frame: Option<Frame>, last: int)

  /** The state threaded through successive calls. */
  datatype Meter = Meter(last: int, frames: seq<Frame>)

  lemma ScaleMonotone(a: int, b: int, k: int)
    requires 0 <= a <= b && 0 <= k
    ensures a * k <= b * k
  {}

  lemma DivBounds(n: int, d: int)
    requires 0 <= n && 0 < d
    ensures 0 <= n / d
    ensures (n / d) * d <= n < (n / d) * d + d
  {}

  lemma PercentBounds(done: int, total: int)
    requires 0 <= done <= total && 0 < total
    ensures var p := done * 100 / total;
            && 0 <= p <= 100
            && p * total <= done * 100 < (p + 1) * total
            && (p == 100 <==> done == total)
  {
    var n := done * 100;
    var p := n / total;
    DivBounds(n, total);
    Distribute(p, total);
    assert p * total <= n < (p + 1) * total;
    PercentAtMost100(n, p, total, done);
    PercentFull(n, p, total, done);
  }

  lemma PercentAtMost100(n: int, p: int, total: int, done: int)
    requires 0 <= done <= total && 0 < total && n == done * 100
    requires 0 <= p && p * total <= n
    ensures p <= 100
  {
    ScaleMonotone(done, total, 100);
    if p > 100 {
      ScaleMonotone(101, p, total);
    }
  }

  lemma PercentFull(n: int, p: int, total: int, done: int)
    requires 0 <= done <= total && 0 < total && n == done * 100
    requires 0 <= p && p * total <= n < (p + 1) * total
    ensures p == 100 <==> done == total
  {
    if done == total {
      if p < 100 {
        ScaleMonotone(p + 1, 100, total);
      }
      if p > 100 {
        ScaleMonotone(101, p, total);
      }
    } else if p >= 100 {
      ScaleMonotone(done, total - 1, 100);
      ScaleMonotone(100, p, total);
      Distribute(total - 1, 100);
    }
  }

  lemma Distribute(a: int, b: int)
    ensures (a + 1) * b == a * b + b
  {}

  /** `done * 100 / total`; both operands are non-negative, so Go's
      truncating division and Dafny's division agree. */
  function Percent(done: int, total: int): (p: int)
    requires 0 <= done <= total && 0 < total
    ensures 0 <= p <= 100
    ensures p * total <= done * 100 < (p + 1) * total
    ensures p == 100 <==> done == total
  {
    PercentBounds(done, total);
    done * 100 / total
  }

  /** The number of `=` cells: `percent * 40 / 100`. */
  function Fill(percent: int): (pos: int)
    requires 0 <= percent <= 100
    ensures 0 <= pos <= Consts.ProgressBarLength
    ensures pos * 100 <= percent * Consts.ProgressBarLength < (pos + 1) * 100
  {
    percent * Consts.ProgressBarLength / 100
  }

  /** The bar drawn for a percentage. */
  function Bar(percent: int): (bar: string)
    requires 0 <= percent <= 100
    ensures |bar| == Consts.ProgressBarLength
    ensures forall i :: 0 <= i < |bar| ==> (bar[i] == '=' <==> i < Fill(percent))
    ensures forall i :: 0 <= i < |bar| ==> (bar[i] == ' ' <==> Fill(percent) <= i)
  {
    var pos := Fill(percent);
    Repeat('=', pos) + Repeat(' ', Consts.ProgressBarLength - pos)
  }

  /** One call of `updateProgress(track, done, total, &last)`. */
  function Update(track: string, done: int, total: int, last: int): (t: Tick)
    requires 0 < total && 0 <= done <= total
    ensures t.frame.Some? <==> Percent(done, total) - last >= 5 || done == total
    ensures t.frame.Some? ==> t.last == t.frame.value.percent == Percent(done, total)
                              && t.frame.value.done == done && t.frame.value.total == total
                              && t.frame.value.track == track
                              && t.frame.value.bar == Bar(Percent(done, total))
    ensures t.frame.None? ==> t.last == last
  {
    var percent := Percent(done, total);
    if percent - last >= 5 || percent == 100 then
      Tick(Some(Frame(track, Bar(percent), percent, done, total)), percent)
    else
      Tick(None, last)
  }

  /** Feeding the `done` values to `updateProgress` in order. */
  function Run(track: string, dones: seq<int>, total: int, start: Meter): (m: Meter)
    requires 0 < total
    requires forall k :: 0 <= k < |dones| ==> 0 <= dones[k] <= total
    ensures |start.frames| <= |m.frames| <= |start.frames| + |dones|
  {
    if |dones| == 0 then start
    else
      var before := Run(track, dones[..|dones| - 1], total, start);
      var t := Update(track, dones[|dones| - 1], total, before.last);
      Meter(t.last, before.frames + (if t.frame.Some? then [t.frame.value] else []))
  }

  /** While the work is unfinished every redraw raises `lastPercent` by at
      least 5, and `lastPercent` stays below 100. */
  lemma {:induction false} RunBelowFull(track: string, dones: seq<int>, total: int, start: Meter)
    requires 0 < total && 0 <= start.last < 100
    requires forall k :: 0 <= k < |dones| ==> 0 <= dones[k] < total
    ensures var m := Run(track, dones, total, start);
            && start.last <= m.last < 100
            && 5 * (|m.frames| - |start.frames|) <= m.last - start.last
  {
    if |dones| > 0 {
      RunBelowFull(track, dones[..|dones| - 1], total, start);
    }
  }

  /** Feeding done = 1, 2, ..., total with `lastPercent` starting at 0 draws
      at most 20 frames (within the 100/5 + 1 bound), and the final call
      always draws the full bar at 100%. */
  lemma {:induction false} SequentialRun(track: string, total: int)
    requires 0 < total
    ensures var m := Run(track, Range(1, total + 1), total, Meter(0, []));
            && 1 <= |m.frames| <= 20
            && m.frames[|m.frames| - 1].percent == 100
            && m.frames[|m.frames| - 1].done == total
            && m.frames[|m.frames| - 1].bar == Repeat('=', Consts.ProgressBarLength)
            && m.last == 100
  {
    var dones := Range(1, total + 1);
    var init := dones[..|dones| - 1];
    assert init == Range(1, total);
    RunBelowFull(track, init, total, Meter(0, []));
    var before := Run(track, init, total, Meter(0, []));
    assert 5 * |before.frames| <= before.last < 100;
    assert Bar(100) == Repeat('=', Consts.ProgressBarLength);
  }

  /** A call short of the total never draws at 100%. */
  lemma UpdateBelowFull(track: string, done: int, total: int, last: int)
    requires 0 < total && 0 <= done < total
    ensures var t := Update(track, done, total, last);
            t.frame.Some? ==> t.frame.value.percent < 100
  {}

  /** While every `done` value is short of the total, no frame reaches 100%:
      the full bar is drawn only at done == total. */
  lemma {:induction false} FramesBelowFull(track: string, dones: seq<int>, total: int, start: Meter)
    requires 0 < total
    requires forall k :: 0 <= k < |dones| ==> 0 <= dones[k] < total
    ensures forall i :: |start.frames| <= i < |Run(track, dones, total, start).frames|
                        ==> Run(track, dones, total, start).frames[i].percent < 100
  {
    if |dones| > 0 {
      var init := dones[..|dones| - 1];
      FramesBelowFull(track, init, total, start);
      var before := Run(track, init, total, start);
      var t := Update(track, dones[|dones| - 1], total, before.last);
      UpdateBelowFull(track, dones[|dones| - 1], total, before.last);
      var added := if t.frame.Some? then [t.frame.value] else [];
      assert forall i :: 0 <= i < |added| ==> added[i].percent < 100;
      var m := Run(track, dones, total, start);
      assert m.frames == before.frames + added;
      forall i | |start.frames| <= i < |m.frames| ensures m.frames[i].percent < 100 {
        if i < |before.frames| {
          assert m.frames[i] == before.frames[i];
        } else {
          assert m.frames[i] == added[i - |before.frames|];
        }
      }
    }
  }
}
