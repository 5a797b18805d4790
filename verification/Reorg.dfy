/**
 Reorg configuration and the depth arithmetic of `maybeSimulateFork`, in Go's 64-bit `int`.
 */
module Reorg {
  import opened Words
  import opened Wrappers

  /** `probability` is a `float64` in Go; only its comparison with 0 and 1 matters here. */
  datatype ReorgConfig = ReorgConfig(probability: real, depthMin: int, depthMax: int)

  predicate IsInt64(x: int) {
    -TWO_63 <= x < TWO_63
  }

  datatype ConfigError = BadProbability | MinNotPositive | MaxBelowMin

  /** The reorg checks of `NewETHTestServer`. */
  function Validate(c: ReorgConfig): Result<ReorgConfig, ConfigError> {
    if c.probability < 0.0 || c.probability > 1.0 then Err(BadProbability)
    else if c.probability > 0.0 && c.depthMin <= 0 then Err(MinNotPositive)
    else if c.probability > 0.0 && c.depthMax < c.depthMin then Err(MaxBelowMin)
    else Ok(c)
  }

  predicate InRange(c: ReorgConfig, depth: int) {
    c.depthMin <= depth <= c.depthMax
  }

  /** The constructor accepts a configuration if and only if its probability lies between 0 and 1 and, unless it is
      0, there is a depth to draw and every depth that can be drawn is positive. */
  lemma {:induction false} ValidConfigs(c: ReorgConfig)
    ensures Validate(c).Ok? <==>
            0.0 <= c.probability <= 1.0 &&
            (c.probability > 0.0 ==>
               (exists depth :: InRange(c, depth)) && forall depth :: InRange(c, depth) ==> depth > 0)
    ensures Validate(c).Ok? ==> Validate(c).value == c
  {
    assert c.depthMin <= c.depthMax ==> InRange(c, c.depthMin);
  }

  /** Reorgs are switched on in a configuration that the constructor accepted. */
  predicate Enabled(c: ReorgConfig) {
    c.probability > 0.0 && Validate(c).Ok? && IsInt64(c.depthMin) && IsInt64(c.depthMax)
  }

  function DepthRange(c: ReorgConfig): int {
    ToInt64(ToInt64(c.depthMax - c.depthMin) + 1)
  }

  /** What `rand.Intn(depthRange)` may return, where it is called. */
  predicate Drawn(c: ReorgConfig, draw: int) {
    DepthRange(c) > 1 ==> 0 <= draw < DepthRange(c)
  }

  function ChosenDepth(c: ReorgConfig, draw: int): int {
    if DepthRange(c) > 1 then ToInt64(draw + c.depthMin) else c.depthMin
  }

  /** The depth after clamping; not positive means that no fork is simulated. */
  function ForkDepth(head: nat, c: ReorgConfig, draw: int): int {
    var height := ToInt64(head);
    if ChosenDepth(c, draw) >= height then ToInt64(height - 1) else ChosenDepth(c, draw)
  }

  /** The block to fork from, if a fork is simulated: it stays and everything above it goes. */
  function ForkTarget(head: nat, c: ReorgConfig, draw: int): (target: Option<nat>)
    requires Enabled(c) && Drawn(c, draw)
    ensures target.Some? ==> 1 <= target.value < head
  {
    var depth := ForkDepth(head, c, draw);
    if depth <= 0 then None
    else
      var blockNumber := ToInt64(ToInt64(head) - depth);
      if blockNumber < 0 then None else Some(blockNumber)
  }

  /** The random range is never empty, and drawing from it yields exactly the configured depths. */
  lemma {:induction false} DrawnDepths(c: ReorgConfig, depth: int)
    requires Enabled(c)
    ensures DepthRange(c) == c.depthMax - c.depthMin + 1 >= 1
    ensures c.depthMin <= depth <= c.depthMax <==> exists draw :: Drawn(c, draw) && ChosenDepth(c, draw) == depth
  {
    if c.depthMin <= depth <= c.depthMax {
      assert Drawn(c, depth - c.depthMin) && ChosenDepth(c, depth - c.depthMin) == depth;
    }
  }

  /** With fewer than 2^63 blocks, a fork is simulated exactly from height 2 on, and its depth is the
      chosen one cut down to `head - 1`: block 1 is the deepest block that can be forked from. */
  lemma {:induction false} ForkTargetIsClamped(head: nat, c: ReorgConfig, draw: int)
    requires Enabled(c) && Drawn(c, draw) && head < TWO_63
    ensures var depth := if ChosenDepth(c, draw) < head - 1 then ChosenDepth(c, draw) else head - 1;
            ForkTarget(head, c, draw) == if head >= 2 then Some(head - depth) else None
  {
    DrawnDepths(c, ChosenDepth(c, draw));
    hide ToInt64, DepthRange;
    Int64Fits(head);
    Int64Fits(head - 1);
    Int64Fits(head - ForkDepth(head, c, draw));
  }

  /** A depth that is left to fork always leads to a block: the check for a negative block number never fails. */
  lemma {:induction false} ForkTargetIsThere(head: nat, c: ReorgConfig, draw: int)
    requires Enabled(c) && Drawn(c, draw)
    ensures ForkTarget(head, c, draw) ==
            if ForkDepth(head, c, draw) > 0 then Some(ToInt64(ToInt64(head) - ForkDepth(head, c, draw))) else None
  {
    DrawnDepths(c, ChosenDepth(c, draw));
  }

  lemma {:induction false} Int64Fits(x: int)
    ensures ToInt64(x) == x <==> IsInt64(x)
  {
  }

  /** Beyond that, `int(head)` is negative and no fork is simulated, except at the one height where
      clamping overflows: there the fork goes all the way down to block 1. */
  lemma {:induction false} ForkTargetWraps(head: nat, c: ReorgConfig, draw: int)
    requires Enabled(c) && Drawn(c, draw) && TWO_63 <= head < TWO_64
    ensures ForkTarget(head, c, draw) == if head == TWO_63 then Some(1) else None
  {
    DrawnDepths(c, ChosenDepth(c, draw));
  }
}
