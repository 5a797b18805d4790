/**
 What the critical sections of the server do to the canonical chain and the statistics, one
 whole section part at a time: a block generation or a simulated fork. Everything here is about
 sequences of such events; module Interleaving shows that threads racing for the server's
 mutex never produce anything else.
 */
module Serial {
  import opened Ledger
  import opened Reorg
  import opened Words
  import opened Wrappers

  /** `maxBlockNum` 0 means no limit. */
  datatype Config = Config(maxBlockNum: nat, reorg: ReorgConfig)

  /** `currentBlock` is the number of the last block of the last successful generation;
      the two counters are `uint64` and wrap around. */
  datatype Stats = Stats(blocksMined: nat, txCount: nat, currentBlock: nat)

  /** The canonical chain, genesis first, and the statistics. */
  datatype Core = Core(chain: seq<Block>, stats: Stats)

  datatype Event =
    // `blocks` were built, the first `inserted` of them became canonical; `done` says that the
    // call returned them to its caller, which it does only after inserting and indexing them all
    | Generated(blocks: seq<Block>, inserted: nat, done: bool)
    // a fork below the head, on top of which the beacon commits at most one block
    | Forked(draw: int, commit: Option<Block>)

  function Head(chain: seq<Block>): nat
    requires chain != []
  {
    |chain| - 1
  }

  predicate LimitReached(c: Config, head: nat) {
    c.maxBlockNum > 0 && head >= c.maxBlockNum
  }

  /** `blocks` continue `chain` with the right numbers and with transactions that were accepted. */
  predicate Continues(chain: seq<Block>, blocks: seq<Block>) {
    (forall i :: 0 <= i < |blocks| ==> blocks[i].number == |chain| + i) &&
    ValidTxs(Flatten(chain + blocks))
  }

  predicate WellFormed(chain: seq<Block>) {
    chain != [] && (forall i :: 0 <= i < |chain| ==> chain[i].number == i) && ValidTxs(Flatten(chain))
  }

  function StatsAfter(s: Stats, blocks: seq<Block>): Stats
    requires blocks != []
  {
    Stats(ToUint64(s.blocksMined + |blocks|),
          ToUint64(s.txCount + |Flatten(blocks)|),
          blocks[|blocks| - 1].number)
  }

  predicate Allowed(c: Config, core: Core, e: Event)
    requires core.chain != []
  {
    match e
    case Generated(blocks, inserted, done) =>
      !LimitReached(c, Head(core.chain)) && blocks != [] && Continues(core.chain, blocks) &&
      inserted <= |blocks| && (done ==> inserted == |blocks|)
    case Forked(draw, commit) =>
      Enabled(c.reorg) && Drawn(c.reorg, draw) &&
      var target := ForkTarget(Head(core.chain), c.reorg, draw);
      target.Some? && (commit.Some? ==> Continues(core.chain[..target.value + 1], [commit.value]))
  }

  function Apply(c: Config, core: Core, e: Event): (after: Core)
    requires core.chain != [] && Allowed(c, core, e)
    ensures after.chain != []
  {
    match e
    case Generated(blocks, inserted, done) =>
      Core(core.chain + blocks[..inserted], if done then StatsAfter(core.stats, blocks) else core.stats)
    case Forked(draw, commit) =>
      var survivors := core.chain[..ForkTarget(Head(core.chain), c.reorg, draw).value + 1];
      core.(chain := survivors + if commit.Some? then [commit.value] else [])
  }

  /** The state after the events of `log`, or nothing if one of them was not allowed in its turn. */
  function Replay(c: Config, start: Core, log: seq<Event>): (r: Option<Core>)
    requires start.chain != []
    ensures r.Some? ==> r.value.chain != []
  {
    if log == [] then Some(start)
    else
      var before := Replay(c, start, log[..|log| - 1]);
      if before.Some? && Allowed(c, before.value, log[|log| - 1])
      then Some(Apply(c, before.value, log[|log| - 1])) else None
  }

  lemma {:induction false} ReplaySnoc(c: Config, start: Core, log: seq<Event>, e: Event)
    requires start.chain != []
    ensures Replay(c, start, log + [e]) ==
            var before := Replay(c, start, log);
            if before.Some? && Allowed(c, before.value, e) then Some(Apply(c, before.value, e)) else None
  {
    assert (log + [e])[..|log|] == log;
  }

  /** No generation in the log asked for more than `n` blocks. */
  predicate AtMost(log: seq<Event>, n: nat) {
    forall i :: 0 <= i < |log| && log[i].Generated? ==> |log[i].blocks| <= n
  }

  function Max(a: int, b: int): int {
    if a < b then b else a
  }

  // ----- The chain -----

  lemma {:induction false} ContinuesPrefix(chain: seq<Block>, blocks: seq<Block>, k: nat)
    requires Continues(chain, blocks) && k <= |blocks|
    ensures Continues(chain, blocks[..k])
  {
    assert chain + blocks == (chain + blocks[..k]) + blocks[k..];
    FlattenAppend(chain + blocks[..k], blocks[k..]);
    ValidPrefix(Flatten(chain + blocks[..k]), Flatten(blocks[k..]));
  }

  lemma {:induction false} WellFormedPrefix(chain: seq<Block>, k: nat)
    requires WellFormed(chain) && 0 < k <= |chain|
    ensures WellFormed(chain[..k])
  {
    assert chain == chain[..k] + chain[k..];
    FlattenAppend(chain[..k], chain[k..]);
    ValidPrefix(Flatten(chain[..k]), Flatten(chain[k..]));
  }

  lemma {:induction false} WellFormedJoin(chain: seq<Block>, blocks: seq<Block>)
    requires WellFormed(chain) && Continues(chain, blocks)
    ensures WellFormed(chain + blocks)
  {
  }

  lemma {:induction false} StepWellFormed(c: Config, core: Core, e: Event)
    requires WellFormed(core.chain) && Allowed(c, core, e)
    ensures WellFormed(Apply(c, core, e).chain)
  {
    match e
    case Generated(blocks, inserted, _) =>
      ContinuesPrefix(core.chain, blocks, inserted);
      WellFormedJoin(core.chain, blocks[..inserted]);
    case Forked(draw, commit) =>
      var survivors := core.chain[..ForkTarget(Head(core.chain), c.reorg, draw).value + 1];
      WellFormedPrefix(core.chain, |survivors|);
      if commit.Some? {
        WellFormedJoin(survivors, [commit.value]);
      } else {
        assert survivors + [] == survivors;
      }
  }

  /** Whatever is generated and forked away, the canonical chain is well formed, and hence every
      sender's nonces along it are 0, 1, 2, ... */
  lemma {:induction false} ChainStaysValid(c: Config, start: Core, log: seq<Event>)
    requires WellFormed(start.chain) && Replay(c, start, log).Some?
    ensures var chain := Replay(c, start, log).value.chain;
            WellFormed(chain) && forall a :: CountsUp(Flatten(chain), a)
  {
    var chain := Replay(c, start, log).value.chain;
    if log != [] {
      var before := Replay(c, start, log[..|log| - 1]).value;
      ChainStaysValid(c, start, log[..|log| - 1]);
      StepWellFormed(c, before, log[|log| - 1]);
    }
    NoncesCountUp(Flatten(chain));
  }

  /** The block-number limit: a generation starts below it and adds at most `n` blocks; forks never raise the head. */
  lemma {:induction false} HeadWithinLimit(c: Config, start: Core, log: seq<Event>, n: nat)
    requires start.chain != [] && Replay(c, start, log).Some?
    requires c.maxBlockNum > 0 && n >= 1 && AtMost(log, n)
    ensures Head(Replay(c, start, log).value.chain) <= Max(Head(start.chain), c.maxBlockNum - 1 + n)
  {
    if log != [] {
      HeadWithinLimit(c, start, log[..|log| - 1], n);
    }
  }

  /** Blocks 0 and 1 are never replaced once present. */
  lemma {:induction false} FirstBlocksStay(c: Config, start: Core, log: seq<Event>)
    requires |start.chain| >= 2 && Replay(c, start, log).Some?
    ensures var chain := Replay(c, start, log).value.chain; |chain| >= 2 && chain[..2] == start.chain[..2]
  {
    if log != [] {
      FirstBlocksStay(c, start, log[..|log| - 1]);
      var before := Replay(c, start, log[..|log| - 1]).value.chain;
      var after := Replay(c, start, log).value.chain;
      assert forall i :: 0 <= i < 2 ==> after[i] == before[i];
    }
  }

  /** With fewer than 2^63 blocks, a fork keeps exactly the first `head - depth + 1` of them, where depth is
      the drawn depth cut down to `head - 1`, and the beacon puts at most one block in place of the others. */
  lemma {:induction false} ForkKeepsPrefix(c: Config, core: Core, e: Event)
    requires core.chain != [] && e.Forked? && Allowed(c, core, e) && Head(core.chain) < TWO_63
    ensures var depth := if ChosenDepth(c.reorg, e.draw) < Head(core.chain) - 1
                         then ChosenDepth(c.reorg, e.draw) else Head(core.chain) - 1;
            var after := Apply(c, core, e).chain;
            1 <= depth < Head(core.chain) && |core.chain| - depth <= |after| <= |core.chain| - depth + 1 &&
            after[..|core.chain| - depth] == core.chain[..|core.chain| - depth] &&
            Apply(c, core, e).stats == core.stats
  {
    ForkTargetIsClamped(Head(core.chain), c.reorg, e.draw);
    DrawnDepths(c.reorg, ChosenDepth(c.reorg, e.draw));
  }

  /** Without forks the chain only grows, by blocks that continue it: what other threads do to it between two calls. */
  lemma {:induction false} ForkFreeRunsGrow(c: Config, start: Core, log: seq<Event>)
    requires WellFormed(start.chain) && Replay(c, start, log).Some?
    requires forall i :: 0 <= i < |log| ==> log[i].Generated?
    ensures var chain := Replay(c, start, log).value.chain;
            start.chain <= chain && Continues(start.chain, chain[|start.chain|..])
  {
    var chain := Replay(c, start, log).value.chain;
    ChainStaysValid(c, start, log);
    hide Flatten, ValidTxs;
    if log != [] {
      ForkFreeRunsGrow(c, start, log[..|log| - 1]);
    }
    hide Allowed, Replay, Apply;
    assert start.chain + chain[|start.chain|..] == chain;
    WellFormedContinues(start.chain, chain[|start.chain|..]);
  }

  // ----- One thread's events among those of others -----

  /** An event of the thread, after others have appended blocks. */
  datatype Turn = Turn(others: seq<Block>, own: Event)

  /** The log as turns of thread `t`, and the blocks of others after the last of them; `who` tells whose an event is. */
  function TurnsOf(log: seq<Event>, who: seq<nat>, t: nat): (seq<Turn>, seq<Block>)
    requires |log| == |who| && OnlyForks(log, who, t)
  {
    if log == [] then ([], [])
    else
      var k := |log| - 1;
      var (turns, rest) := TurnsOf(log[..k], who[..k], t);
      if who[k] == t then (turns + [Turn(rest, log[k])], [])
      else (turns, rest + log[k].blocks[..Inserted(log[k])])
  }

  /** Only thread `t` forks. */
  predicate OnlyForks(log: seq<Event>, who: seq<nat>, t: nat)
    requires |log| == |who|
  {
    forall i :: 0 <= i < |log| && who[i] != t ==> log[i].Generated?
  }

  function Inserted(e: Event): (n: nat)
    requires e.Generated?
    ensures n <= |e.blocks|
  {
    if e.inserted <= |e.blocks| then e.inserted else |e.blocks|
  }

  function EventsOf(log: seq<Event>, who: seq<nat>, t: nat): seq<Event>
    requires |log| == |who|
  {
    if log == [] then []
    else
      var k := |log| - 1;
      EventsOf(log[..k], who[..k], t) + if who[k] == t then [log[k]] else []
  }

  function OwnEvents(turns: seq<Turn>): seq<Event> {
    seq(|turns|, i requires 0 <= i < |turns| => turns[i].own)
  }

  /** The chain after the turns, or nothing if blocks do not continue it or an own event is not allowed; what is
      allowed does not depend on the statistics. */
  function Alternate(c: Config, chain: seq<Block>, turns: seq<Turn>): (r: Option<seq<Block>>)
    requires chain != []
    ensures r.Some? ==> r.value != []
  {
    if turns == [] then Some(chain)
    else
      var before, last := Alternate(c, chain, turns[..|turns| - 1]), turns[|turns| - 1];
      if before.None? || !Continues(before.value, last.others) then None
      else
        var core := Core(before.value + last.others, Totals([]));
        if Allowed(c, core, last.own) then Some(Apply(c, core, last.own).chain) else None
  }

  lemma {:induction false} WellFormedContinues(a: seq<Block>, b: seq<Block>)
    requires WellFormed(a + b)
    ensures Continues(a, b)
  {
    assert forall i :: 0 <= i < |b| ==> (a + b)[|a| + i] == b[i];
  }

  /** `turns` and then `rest` lead from `start` to `chain`. */
  predicate LeadTo(c: Config, start: seq<Block>, turns: seq<Turn>, rest: seq<Block>, chain: seq<Block>)
    requires start != []
  {
    var before := Alternate(c, start, turns);
    before.Some? && Continues(before.value, rest) && chain == before.value + rest
  }

  lemma {:induction false} AllowedForAll(c: Config, core: Core, stats: Stats, e: Event)
    requires core.chain != [] && Allowed(c, core, e)
    ensures Allowed(c, core.(stats := stats), e)
    ensures Apply(c, core.(stats := stats), e).chain == Apply(c, core, e).chain
  {
  }

  lemma {:induction false} AlternateSnoc(c: Config, start: seq<Block>, turns: seq<Turn>, turn: Turn)
    requires start != []
    ensures var before := Alternate(c, start, turns);
            before.Some? && Continues(before.value, turn.others) ==>
            var core := Core(before.value + turn.others, Totals([]));
            Allowed(c, core, turn.own) ==>
            Alternate(c, start, turns + [turn]) == Some(Apply(c, core, turn.own).chain)
  {
    hide Allowed, Apply, Continues;
    assert (turns + [turn])[..|turns|] == turns;
  }

  lemma {:induction false} OwnTurn(
      c: Config, start: seq<Block>, turns: seq<Turn>, rest: seq<Block>, core: Core, e: Event)
    requires start != [] && core.chain != [] && LeadTo(c, start, turns, rest, core.chain) && Allowed(c, core, e)
    requires WellFormed(Apply(c, core, e).chain)
    ensures LeadTo(c, start, turns + [Turn(rest, e)], [], Apply(c, core, e).chain)
    ensures OwnEvents(turns + [Turn(rest, e)]) == OwnEvents(turns) + [e]
  {
    AlternateSnoc(c, start, turns, Turn(rest, e));
    hide Allowed, Apply, Continues, WellFormed, Alternate;
    var chain := Apply(c, core, e).chain;
    AllowedForAll(c, core, Totals([]), e);
    assert chain + [] == chain;
    WellFormedContinues(chain, []);
  }

  lemma {:induction false} OthersTurn(
      c: Config, start: seq<Block>, turns: seq<Turn>, rest: seq<Block>, core: Core, e: Event)
    requires start != [] && core.chain != [] && LeadTo(c, start, turns, rest, core.chain) && Allowed(c, core, e)
    requires WellFormed(Apply(c, core, e).chain) && e.Generated?
    ensures LeadTo(c, start, turns, rest + e.blocks[..Inserted(e)], Apply(c, core, e).chain)
  {
    var before, more := Alternate(c, start, turns).value, e.blocks[..Inserted(e)];
    assert before + rest + more == before + (rest + more) == Apply(c, core, e).chain;
    hide Alternate, Allowed, Apply;
    WellFormedContinues(before, rest + more);
  }

  /** Every log in which no other thread forks is an alternation of one thread's events and blocks of the others. */
  lemma {:induction false} LogAlternates(c: Config, start: Core, log: seq<Event>, who: seq<nat>, t: nat)
    requires WellFormed(start.chain) && Replay(c, start, log).Some? && |log| == |who| && OnlyForks(log, who, t)
    ensures var (turns, rest) := TurnsOf(log, who, t);
            LeadTo(c, start.chain, turns, rest, Replay(c, start, log).value.chain) &&
            OwnEvents(turns) == EventsOf(log, who, t)
  {
    var chain := Replay(c, start, log).value.chain;
    ChainStaysValid(c, start, log);
    if log == [] {
      assert chain == chain + [];
      WellFormedContinues(chain, []);
    } else {
      var k := |log| - 1;
      var core := Replay(c, start, log[..k]).value;
      var (turns, rest) := TurnsOf(log[..k], who[..k], t);
      assert Allowed(c, core, log[k]) && chain == Apply(c, core, log[k]).chain;
      hide Allowed, Apply, LeadTo, Replay, Alternate, OwnEvents, WellFormed;
      LogAlternates(c, start, log[..k], who[..k], t);
      if who[k] == t {
        OwnTurn(c, start.chain, turns, rest, core, log[k]);
      } else {
        OthersTurn(c, start.chain, turns, rest, core, log[k]);
      }
    }
  }

  // ----- The statistics -----

  /** The blocks returned by the successful generations of the log, in order. */
  function Returned(log: seq<Event>): seq<Block> {
    if log == [] then []
    else
      var e := log[|log| - 1];
      Returned(log[..|log| - 1]) + if e.Generated? && e.done then e.blocks else []
  }

  /** The statistics of a server whose successful calls have returned `blocks`. */
  function Totals(blocks: seq<Block>): Stats {
    Stats(ToUint64(|blocks|), ToUint64(|Flatten(blocks)|),
          if blocks == [] then 0 else blocks[|blocks| - 1].number)
  }

  lemma {:induction false} TotalsAppend(returned: seq<Block>, blocks: seq<Block>)
    requires blocks != []
    ensures StatsAfter(Totals(returned), blocks) == Totals(returned + blocks)
  {
    FlattenAppend(returned, blocks);
    ToUint64Add(|returned|, |blocks|);
    ToUint64Add(|Flatten(returned)|, |Flatten(blocks)|);
    assert (returned + blocks)[|returned + blocks| - 1] == blocks[|blocks| - 1];
  }

  /** `BlocksMined` and `TxCount` count exactly what successful calls returned, whatever failed
      or was forked away in between, and `CurrentBlock` is the last block so returned. */
  lemma {:induction false} StatsCountReturned(c: Config, start: Core, log: seq<Event>)
    requires start.chain != [] && Replay(c, start, log).Some?
    requires start.stats == Totals([])
    ensures Replay(c, start, log).value.stats == Totals(Returned(log))
  {
    if log != [] {
      var init, e := log[..|log| - 1], log[|log| - 1];
      StatsCountReturned(c, start, init);
      if e.Generated? && e.done {
        TotalsAppend(Returned(init), e.blocks);
      } else {
        assert Returned(log) == Returned(init);
      }
    }
  }

  /** `CurrentBlock` obeys the limit too, so with one block per call the unsigned subtraction
      `MaxBlockNum - CurrentBlock` of `PrintStatus` never wraps around. */
  lemma {:induction false} BlocksRemaining(c: Config, start: Core, log: seq<Event>, n: nat)
    requires start.chain != [] && Replay(c, start, log).Some? && start.stats.currentBlock == 0
    requires 0 < c.maxBlockNum < TWO_64 && n >= 1 && AtMost(log, n)
    ensures var current := Replay(c, start, log).value.stats.currentBlock;
            current <= c.maxBlockNum - 1 + n &&
            (n == 1 ==> ToUint64(c.maxBlockNum - current) == c.maxBlockNum - current)
  {
    hide Flatten, ValidTxs, ForkTarget, Drawn, Enabled;
    if log != [] {
      BlocksRemaining(c, start, log[..|log| - 1], n);
    }
  }

  /** Call by call: after a successful generation the subtraction is right if and only if the blocks asked for fitted
      below the limit. */
  lemma {:induction false} RemainingAfterCall(c: Config, core: Core, e: Event)
    requires core.chain != [] && Allowed(c, core, e) && e.Generated? && e.done && 0 < c.maxBlockNum < TWO_64
    ensures var current := Apply(c, core, e).stats.currentBlock;
            ToUint64(c.maxBlockNum - current) == c.maxBlockNum - current <==>
            Head(core.chain) + |e.blocks| <= c.maxBlockNum
  {
    assert e.blocks[|e.blocks| - 1].number == |core.chain| + |e.blocks| - 1;
  }

  lemma {:induction false} EmptyBlocks(blocks: seq<Block>)
    requires forall i :: 0 <= i < |blocks| ==> blocks[i].txs == []
    ensures Flatten(blocks) == []
  {
    if blocks != [] {
      EmptyBlocks(blocks[..|blocks| - 1]);
    }
  }

  lemma {:induction false} NoTransactions(chain: seq<Block>, blocks: seq<Block>)
    requires WellFormed(chain)
    requires forall i :: 0 <= i < |blocks| ==> blocks[i] == Block(|chain| + i, [])
    ensures Continues(chain, blocks)
  {
    FlattenAppend(chain, blocks);
    EmptyBlocks(blocks);
    assert Flatten(chain) + [] == Flatten(chain);
  }

  predicate OnlyGenerations(log: seq<Event>) {
    forall i :: 0 <= i < |log| ==> log[i].Generated?
  }

  lemma {:induction false} EmptyBlockFits(c: Config, core: Core, e: Event)
    requires WellFormed(core.chain) && !LimitReached(c, Head(core.chain))
    requires e == Generated([Block(|core.chain|, [])], 1, true)
    ensures Allowed(c, core, e) && Head(Apply(c, core, e).chain) == Head(core.chain) + 1
  {
    NoTransactions(core.chain, e.blocks);
  }

  /** One-block calls can take the head anywhere up to the limit, and anywhere if there is none. */
  lemma {:induction false} GrowsTo(c: Config, start: Core, h: nat) returns (log: seq<Event>)
    requires WellFormed(start.chain) && Head(start.chain) <= h && (c.maxBlockNum > 0 ==> h <= c.maxBlockNum)
    ensures Replay(c, start, log).Some? && AtMost(log, 1) && Head(Replay(c, start, log).value.chain) == h
    ensures OnlyGenerations(log)
    decreases h
  {
    log := [];
    if h > Head(start.chain) {
      var before := GrowsTo(c, start, h - 1);
      var core := Replay(c, start, before).value;
      ChainStaysValid(c, start, before);
      var e := Generated([Block(|core.chain|, [])], 1, true);
      EmptyBlockFits(c, core, e);
      hide Allowed, Apply, Replay, WellFormed, Flatten, ValidTxs, Continues;
      ReplaySnoc(c, start, before, e);
      log := before + [e];
      assert forall i :: 0 <= i < |before| ==> log[i] == before[i];
    }
  }

  /** One block per call takes the head from where it is exactly to the heights up to the limit, and to every height
      above if `maxBlockNum` is 0. */
  lemma {:induction false} HeightsReached(c: Config, start: Core, h: nat)
    requires WellFormed(start.chain)
    ensures (exists log :: AtMost(log, 1) && OnlyGenerations(log) && Replay(c, start, log).Some? &&
               Head(Replay(c, start, log).value.chain) == h) <==>
            h == Head(start.chain) || (h > Head(start.chain) && (c.maxBlockNum == 0 || h <= c.maxBlockNum))
  {
    if h >= Head(start.chain) && (c.maxBlockNum == 0 || h <= c.maxBlockNum) {
      var log := GrowsTo(c, start, h);
    } else if h == Head(start.chain) {
      assert Replay(c, start, []) == Some(start);
      assert AtMost([], 1) && OnlyGenerations([]);
    }
    forall log | AtMost(log, 1) && OnlyGenerations(log) && Replay(c, start, log).Some? &&
                 Head(Replay(c, start, log).value.chain) == h
      ensures h == Head(start.chain) || (h > Head(start.chain) && (c.maxBlockNum == 0 || h <= c.maxBlockNum))
    {
      ForkFreeRunsGrow(c, start, log);
      if c.maxBlockNum > 0 {
        HeadWithinLimit(c, start, log, 1);
      }
    }
  }

  /** Whatever the limit, calls for up to n >= 2 blocks can make the subtraction wrap around. */
  lemma {:induction false} BlocksRemainingWraps(c: Config, start: Core, n: nat)
    requires WellFormed(start.chain) && Head(start.chain) < c.maxBlockNum < TWO_64 && n >= 2
    ensures exists log :: AtMost(log, n) && Replay(c, start, log).Some? &&
              var current := Replay(c, start, log).value.stats.currentBlock;
              ToUint64(c.maxBlockNum - current) != c.maxBlockNum - current
  {
    var before := GrowsTo(c, start, c.maxBlockNum - 1);
    var core := Replay(c, start, before).value;
    ChainStaysValid(c, start, before);
    var e := Generated(seq(n, (i: nat) => Block(|core.chain| + i, [])), n, true);
    NoTransactions(core.chain, e.blocks);
    ReplaySnoc(c, start, before, e);
    RemainingAfterCall(c, core, e);
    hide Apply, Allowed, ToUint64, WellFormed, Continues, Replay;
    assert AtMost(before + [e], n);
  }

  /** No generation of the log failed after it had inserted blocks. */
  predicate NoLateFailure(log: seq<Event>) {
    forall i :: 0 <= i < |log| && log[i].Generated? ==> log[i].done || log[i].inserted == 0
  }

  /** Without such a failure the head is never above `CurrentBlock`, once a block was generated. */
  lemma {:induction false} HeadAtMostCurrent(c: Config, start: Core, log: seq<Event>)
    requires start.chain != [] && Replay(c, start, log).Some?
    ensures var core := Replay(c, start, log).value;
            NoLateFailure(log) && Returned(log) != [] ==> Head(core.chain) <= core.stats.currentBlock
  {
    if log != [] {
      HeadAtMostCurrent(c, start, log[..|log| - 1]);
    }
  }

  /** Call by call: after any generation the head is at most `CurrentBlock` if and only if the call succeeded, or
      the blocks it inserted before it failed still fitted below a `CurrentBlock` that a fork had left behind. */
  lemma {:induction false} HeadAfterCall(c: Config, core: Core, e: Event)
    requires core.chain != [] && Allowed(c, core, e) && e.Generated?
    ensures var after := Apply(c, core, e);
            Head(after.chain) <= after.stats.currentBlock <==>
            e.done || Head(core.chain) + e.inserted <= core.stats.currentBlock
  {
    assert e.blocks[|e.blocks| - 1].number == |core.chain| + |e.blocks| - 1;
  }

  /** With one, the head moves past `CurrentBlock`: the block is on the chain, the statistics do not know. */
  lemma {:induction false} LateFailureHidesBlock(c: Config, start: Core)
    requires WellFormed(start.chain) && !LimitReached(c, Head(start.chain))
    requires start.stats.currentBlock == Head(start.chain)
    ensures var log := [Generated([Block(|start.chain|, [])], 1, false)];
            Replay(c, start, log).Some? &&
            var core := Replay(c, start, log).value; Head(core.chain) > core.stats.currentBlock
  {
    var e := Generated([Block(|start.chain|, [])], 1, false);
    FlattenSnoc(start.chain, e.blocks[0]);
    assert Flatten(start.chain) + [] == Flatten(start.chain);
    assert [] + [e] == [e];
    ReplaySnoc(c, start, [], e);
  }
}
