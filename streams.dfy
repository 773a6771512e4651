/**
 * Running a per-sample stepper: the behaviour the chunk loops and the batch
 * loops share.  A stepper maps a generator state to one sample and the next
 * state; running it `n` times yields `n` samples in order and the final state.
 */
module Streams {
  import opened Pcm

  /** `n` steps from `s`, defined the way the loops build their output: by appending. */
  function Run<S>(step: S -> (real, S), s: S, n: nat): (r: (seq<real>, S))
    ensures |r.0| == n
    decreases n
  {
    if n == 0 then ([], s)
    else
      var (xs, t) := Run(step, s, n - 1);
      var (x, u) := step(t);
      (xs + [x], u)
  }

  /** `next_chunk(n)`: the bytes of the next `n` samples and the state it leaves. */
  function Chunk<S>(step: S -> (real, S), s: S, n: nat, volume: real): (c: (seq<byte>, S))
    ensures |c.0| == 2 * n
  {
    var (xs, t) := Run(step, s, n);
    (Frames(xs, volume), t)
  }

  /** The number of iterations of `for _ in range(count)`. */
  function Count(count: int): (n: nat)
    ensures count <= 0 ==> n == 0
    ensures 0 <= count ==> n == count
  {
    if count < 0 then 0 else count
  }

  /** Running `n + m` steps is running `n` steps and then `m` more from where they stopped. */
  lemma {:induction false} RunAdditive<S>(step: S -> (real, S), s: S, n: nat, m: nat)
    ensures Run(step, s, n + m).0 == Run(step, s, n).0 + Run(step, Run(step, s, n).1, m).0
    ensures Run(step, s, n + m).1 == Run(step, Run(step, s, n).1, m).1
    decreases m
  {
    if m > 0 {
      RunAdditive(step, s, n, m - 1);
      var mid := Run(step, s, n).1;
      assert Run(step, s, n + m).0 == Run(step, s, n + m - 1).0 + [step(Run(step, s, n + m - 1).1).0];
      assert Run(step, mid, m).0 == Run(step, mid, m - 1).0 + [step(Run(step, mid, m - 1).1).0];
    }
  }

  /**
   * Chunk composition: from the same state and stream position, `next_chunk(n)`
   * followed by `next_chunk(m)` yields the same bytes as one `next_chunk(n + m)`
   * and leaves the same state.
   */
  lemma ChunkComposition<S>(step: S -> (real, S), s: S, n: nat, m: nat, volume: real)
    ensures Chunk(step, s, n + m, volume).0 == Chunk(step, s, n, volume).0 + Chunk(step, Chunk(step, s, n, volume).1, m, volume).0
    ensures Chunk(step, s, n + m, volume).1 == Chunk(step, Chunk(step, s, n, volume).1, m, volume).1
  {
    RunAdditive(step, s, n, m);
    var mid := Run(step, s, n).1;
    FramesAppend(Run(step, s, n).0, Run(step, mid, m).0, volume);
  }

  /** Each `next_chunk` step appends the frame of one more sample. */
  lemma ChunkStep<S>(step: S -> (real, S), s: S, n: nat, volume: real)
    ensures Chunk(step, s, n + 1, volume).0 == Chunk(step, s, n, volume).0 + Frame(step(Chunk(step, s, n, volume).1).0, volume)
    ensures Chunk(step, s, n + 1, volume).1 == step(Chunk(step, s, n, volume).1).1
  {
    var xs := Run(step, s, n).0;
    var x := step(Run(step, s, n).1).0;
    assert Run(step, s, n + 1).0 == xs + [x];
    assert (xs + [x])[..|xs|] == xs;
  }

  /** The loop-body form of `ChunkStep`: the state reached so far yields `sample` and `next`. */
  lemma ChunkExtend<S>(step: S -> (real, S), s: S, n: nat, volume: real, sample: real, next: S)
    requires step(Chunk(step, s, n, volume).1) == (sample, next)
    ensures Chunk(step, s, n + 1, volume).0 == Chunk(step, s, n, volume).0 + Frame(sample, volume)
    ensures Chunk(step, s, n + 1, volume).1 == next
  {
    ChunkStep(step, s, n, volume);
  }

  /** The state after `n` steps, as a value of type `S` the step's hypotheses apply to. */
  lemma RunState<S>(step: S -> (real, S), s: S, n: nat) returns (t: S)
    ensures t == Run(step, s, n).1
  {
    t := Run(step, s, n).1;
  }

  /**
   * A quantity the step moves by the same amount every time (an oscillator
   * phase) has moved by `n` times that amount after `n` steps.
   */
  lemma {:induction false} RunDrift<S>(step: S -> (real, S), phase: S -> real, inc: real, s: S, n: nat)
    requires forall t :: phase(step(t).1) == phase(t) + inc
    ensures phase(Run(step, s, n).1) == phase(s) + n as real * inc
    decreases n
  {
    if n > 0 {
      RunDrift(step, phase, inc, s, n - 1);
      var t := RunState(step, s, n - 1);
      assert Run(step, s, n).1 == step(t).1;
      assert phase(step(t).1) == phase(t) + inc;
      calc {
        phase(Run(step, s, n).1);
        phase(t) + inc;
        phase(s) + (n - 1) as real * inc + inc;
        { assert (n - 1) as real * inc + inc == n as real * inc; }
        phase(s) + n as real * inc;
      }
    }
  }

  /**
   * A counter the step advances by between `lo` and `hi` (the number of
   * random draws taken) has advanced by between `n * lo` and `n * hi` after
   * `n` steps.
   */
  lemma {:induction false} RunCounter<S>(step: S -> (real, S), count: S -> int, lo: int, hi: int, s: S, n: nat)
    requires forall t :: count(t) + lo <= count(step(t).1) <= count(t) + hi
    ensures count(s) + n * lo <= count(Run(step, s, n).1) <= count(s) + n * hi
    decreases n
  {
    if n > 0 {
      RunCounter(step, count, lo, hi, s, n - 1);
      var t := RunState(step, s, n - 1);
      assert Run(step, s, n).1 == step(t).1;
      assert count(t) + lo <= count(step(t).1) <= count(t) + hi;
      assert (n - 1) * lo + lo == n * lo && (n - 1) * hi + hi == n * hi;
    }
  }

  /** A step whose every sample lies in [-bound, bound] produces only such samples. */
  lemma {:induction false} RunSampleBound<S>(step: S -> (real, S), bound: real, s: S, n: nat)
    requires forall t :: -bound <= step(t).0 <= bound
    ensures forall i :: 0 <= i < n ==> -bound <= Run(step, s, n).0[i] <= bound
    decreases n
  {
    if n > 0 {
      RunSampleBound(step, bound, s, n - 1);
      var (xs, t) := Run(step, s, n - 1);
      assert Run(step, s, n).0 == xs + [step(t).0];
    }
  }
  /** The loop-body form of `Run`: the state reached so far yields `sample` and `next`. */
  lemma RunExtend<S>(step: S -> (real, S), s: S, n: nat, sample: real, next: S)
    requires step(Run(step, s, n).1) == (sample, next)
    ensures Run(step, s, n + 1) == (Run(step, s, n).0 + [sample], next)
  {
  }

  /**
   * Two steppers kept in a relation by every step, whose samples agree up to
   * `f`, produce sample sequences that agree up to `f` element by element.
   */
  lemma {:induction false} RunSimulation<S, T>(step1: S -> (real, S), step2: T -> (real, T),
                                               related: (S, T) -> bool, f: real -> real, s: S, t: T, n: nat)
    requires related(s, t)
    requires forall a, b :: related(a, b) ==> f(step1(a).0) == step2(b).0 && related(step1(a).1, step2(b).1)
    ensures related(Run(step1, s, n).1, Run(step2, t, n).1)
    ensures forall i :: 0 <= i < n ==> f(Run(step1, s, n).0[i]) == Run(step2, t, n).0[i]
    decreases n
  {
    if n > 0 {
      var m := n - 1;
      RunSimulation(step1, step2, related, f, s, t, m);
      var (xs, a) := Run(step1, s, m);
      var (ys, b) := Run(step2, t, m);
      assert f(step1(a).0) == step2(b).0 && related(step1(a).1, step2(b).1);
      RunExtend(step1, s, m, step1(a).0, step1(a).1);
      RunExtend(step2, t, m, step2(b).0, step2(b).1);
      forall i | 0 <= i < n
        ensures f(Run(step1, s, n).0[i]) == Run(step2, t, n).0[i]
      {
        if i < m {
          assert Run(step1, s, n).0[i] == xs[i] && Run(step2, t, n).0[i] == ys[i];
        }
      }
    }
  }
}
