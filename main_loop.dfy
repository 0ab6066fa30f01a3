/**
 * The forwarding loop at the end of `main`: pull a block of I/Q samples from
 * the source buffer, pass it through the downsampler and hand it to the
 * output, until the stop flag is raised or the source buffer reports the end
 * of the stream with an empty block.
 *
 * Time is the iteration number. What the loop reads from outside at each
 * iteration is an input indexed by it: the stop flag set by the signal
 * handler, whether the source buffer is over its high-water mark
 * (`queued_samples() > 10 * ifrate`), and the block `pull()` returns. The
 * downsampler's `process` is a parameter, since its body is not part of this
 * model.
 */
module Forwarding {

  /** The loop's `block` counter is an `unsigned int`: it counts modulo 2^32. */
  const COUNTER_MODULUS: nat := 0x1_0000_0000

  /** `outputbuf_samples`, fixed in `main` since the buffer sizing is commented out. */
  const OUTPUT_BUFFER_SAMPLES: nat := 250000

  /** A per-iteration flag; iterations past the recorded ones read `false`. */
  function Flag(flags: seq<bool>, k: nat): bool {
    k < |flags| && flags[k]
  }

  /** The block pulled at iteration `k`; past the recorded blocks the stream has ended. */
  function Pulled<S>(pulls: seq<seq<S>>, k: nat): seq<S> {
    if k < |pulls| then pulls[k] else []
  }

  /** Whether the flag is raised at some iteration before `n`. */
  function RaisedBefore(flags: seq<bool>, n: nat): bool {
    n > 0 && (RaisedBefore(flags, n - 1) || Flag(flags, n - 1))
  }

  /**
   * The first iteration at or after `k` that does not process a block: its
   * stop flag is set or its pull comes back empty.
   */
  function Rounds<S>(pulls: seq<seq<S>>, stop: seq<bool>, k: nat): (n: nat)
    requires k <= |pulls|
    ensures k <= n <= |pulls|
    decreases |pulls| - k
  {
    if Flag(stop, k) || Pulled(pulls, k) == [] then k else Rounds(pulls, stop, k + 1)
  }

  /**
   * The iterations that get as far as the warning check: all processed ones,
   * and the last one too unless the stop flag ended it first.
   */
  function Checked<S>(pulls: seq<seq<S>>, stop: seq<bool>): (c: nat)
    ensures Rounds(pulls, stop, 0) <= c <= |pulls| + 1
  {
    var n := Rounds(pulls, stop, 0);
    if Flag(stop, n) then n else n + 1
  }

  /** What the first `n` processed blocks send to the output: all but those processed while the counter reads 0. */
  function Forwarded<S>(pulls: seq<seq<S>>, process: seq<S> -> seq<S>, n: nat): (r: seq<seq<S>>)
    requires n <= |pulls|
    ensures |r| <= n
    ensures n > 0 ==> |r| < n
  {
    if n == 0 then []
    else Forwarded(pulls, process, n - 1) + (if (n - 1) % COUNTER_MODULUS == 0 then [] else [process(pulls[n - 1])])
  }

  /**
   * The `for (unsigned int block = 0; !stop_flag.load(); block++)` loop.
   * `pushed` is what goes into the output buffer, `written` what is written
   * to the UDP sink directly, and `warnings` how many times the
   * "input buffer is growing" warning is printed.
   */
  method ForwardLoop<S>(pulls: seq<seq<S>>, stop: seq<bool>, overHighWater: seq<bool>, process: seq<S> -> seq<S>)
    returns (pushed: seq<seq<S>>, written: seq<seq<S>>, warnings: nat)
    ensures pushed == Forwarded(pulls, process, Rounds(pulls, stop, 0))
    ensures written == []
    ensures warnings <= 1
    ensures warnings == 1 <==> RaisedBefore(overHighWater, Checked(pulls, stop))
  {
    pushed, written, warnings := [], [], 0;
    var warned := false;
    var block: nat := 0;
    var round: nat := 0;
    while !Flag(stop, round)
      invariant round <= |pulls|
      invariant Rounds(pulls, stop, 0) == Rounds(pulls, stop, round)
      invariant block == round % COUNTER_MODULUS
      invariant pushed == Forwarded(pulls, process, round)
      invariant written == []
      invariant warned == RaisedBefore(overHighWater, round)
      invariant warnings == if warned then 1 else 0
      decreases |pulls| - round
    {
      if !warned && Flag(overHighWater, round) {
        warnings := warnings + 1;
        warned := true;
      }
      var samples := Pulled(pulls, round);
      if samples == [] {
        break;
      }
      var out := process(samples);
      assert Forwarded(pulls, process, round + 1)
             == Forwarded(pulls, process, round) + (if block == 0 then [] else [out]);
      if block > 0 {
        if OUTPUT_BUFFER_SAMPLES > 0 {
          pushed := pushed + [out];
        } else {
          written := written + [out];
        }
      }
      CounterNext(round);
      block := (block + 1) % COUNTER_MODULUS;
      round := round + 1;
    }
  }

  /** Incrementing the `unsigned int` counter keeps it equal to the iteration number modulo 2^32. */
  lemma CounterNext(k: nat)
    ensures (k % COUNTER_MODULUS + 1) % COUNTER_MODULUS == (k + 1) % COUNTER_MODULUS
  {
  }

  // ---------------------------------------------------------------------
  // What the loop promises about the blocks it forwards.
  // ---------------------------------------------------------------------

  /**
   * The loop processes blocks up to the first iteration whose stop flag is
   * set or whose pull is empty, and every iteration before that one has a
   * block to process.
   */
  lemma {:induction false} RoundsStopsFirst<S>(pulls: seq<seq<S>>, stop: seq<bool>, k: nat)
    requires k <= |pulls|
    ensures var n := Rounds(pulls, stop, k);
      && (forall j :: k <= j < n ==> !Flag(stop, j) && Pulled(pulls, j) != [])
      && (Flag(stop, n) || Pulled(pulls, n) == [])
    decreases |pulls| - k
  {
    if !(Flag(stop, k) || Pulled(pulls, k) == []) {
      RoundsStopsFirst(pulls, stop, k + 1);
    }
  }

  /** `RaisedBefore` holds exactly when one of the first `n` flags is set. */
  lemma {:induction false} RaisedBeforeSome(flags: seq<bool>, n: nat)
    ensures RaisedBefore(flags, n) <==> exists k :: 0 <= k < n && Flag(flags, k)
  {
    if n > 0 {
      RaisedBeforeSome(flags, n - 1);
    }
  }

  /**
   * Below 2^32 iterations the first processed block is dropped and every
   * later one is forwarded exactly once, in pull order.
   */
  lemma {:induction false} ForwardedInOrder<S>(pulls: seq<seq<S>>, process: seq<S> -> seq<S>, n: nat)
    requires 1 <= n <= |pulls| && n <= COUNTER_MODULUS
    ensures |Forwarded(pulls, process, n)| == n - 1
    ensures forall j :: 0 <= j < n - 1 ==> Forwarded(pulls, process, n)[j] == process(pulls[j + 1])
  {
    if n > 1 {
      ForwardedInOrder(pulls, process, n - 1);
    }
  }

  /** With a downsampler that passes blocks through, the output is the pulled stream without its first block. */
  lemma ForwardedPassThrough<S>(pulls: seq<seq<S>>, process: seq<S> -> seq<S>, n: nat)
    requires 1 <= n <= |pulls| && n <= COUNTER_MODULUS
    requires forall b :: process(b) == b
    ensures Forwarded(pulls, process, n) == pulls[1..n]
  {
    ForwardedInOrder(pulls, process, n);
  }

  /**
   * When the counter wraps after 2^32 blocks it reads 0 again, and the block
   * processed then is dropped like the first one.
   */
  lemma ForwardedDropsAtWrap<S>(pulls: seq<seq<S>>, process: seq<S> -> seq<S>)
    requires COUNTER_MODULUS < |pulls|
    ensures Forwarded(pulls, process, COUNTER_MODULUS + 1) == Forwarded(pulls, process, COUNTER_MODULUS)
  {
  }
}
