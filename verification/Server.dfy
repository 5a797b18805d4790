/**
 The test server's own methods, each as one thread runs it while it holds the mutex. Every
 method that changes the chain is proved to be an allowed event of module Serial, so what is
 proved there about sequences of events, and in Interleaving about threads, holds for them.

 go-ethereum and the database are the environment. What they do during a call is a parameter of the method, and
 so is what the random generator draws; given these, every result is determined.
 */
module Server {
  import opened Ledger
  import opened Packing
  import opened Reorg
  import opened Serial
  import opened Words
  import opened Wrappers

  datatype ServerError =
    | NotRunning | ErrLimitReached | BadCount | CallbackFailed | InsertFailed | IndexFailed
    | AddTxPanicked | ForkFailed | DeployFailed | PackFailed
    | BadKey | BadValue | EncodeFailed | NoStateDB | StateDBFailed

  /** What the operators keep in the state database. */
  datatype Value =
    | CallerValue(contract: nat)
    | MappingValue(mapping: map<Address, seq<nat>>)
    | FlagValue(flag: bool)

  /** What an operator's initialisation sees and changes: the contracts on the canonical chain and the state
      database. */
  datatype World = World(contracts: seq<Contract>, store: map<string, Value>)

  /** What go-ethereum does during a call: whether the arguments can be packed and the transaction signed, how many of
      the blocks it inserts, whether it indexes them, and whether it creates the contract. */
  datatype Env = Env(packs: bool, signs: bool, inserted: nat, indexes: bool, creates: bool)

  /** Nothing fails in a call that generates one block. */
  predicate Works(env: Env) {
    env.packs && env.signs && env.inserted >= 1 && env.indexes && env.creates
  }

  /** The event that the generation of `blocks` comes to. */
  function Generation(blocks: seq<Block>, env: Env): Event {
    Generated(blocks, if env.inserted < |blocks| then env.inserted else |blocks|,
              env.inserted >= |blocks| && env.indexes)
  }

  /** What a call that generates one block, below the limit, fails with. */
  function Failure(env: Env): Option<ServerError> {
    if !env.signs then Some(CallbackFailed)
    else if env.inserted == 0 then Some(InsertFailed)
    else if !env.indexes then Some(IndexFailed)
    else None
  }

  /** The block that the beacon commits on top of `survivors` after a fork. */
  function Committed(survivors: seq<Block>, commit: Option<Block>): Option<Block> {
    if commit.Some? && Continues(survivors, [commit.value]) then commit else None
  }

  /** One invocation of a block generation function: what it added to its block, and whether it returned nil. */
  datatype Outcome = Outcome(txs: seq<Tx>, ok: bool)

  predicate AllOk(script: seq<Outcome>) {
    forall i :: 0 <= i < |script| ==> script[i].ok
  }

  /** The blocks that come out if every invocation succeeds. */
  function Built(first: nat, script: seq<Outcome>): seq<Block> {
    seq(|script|, i requires 0 <= i < |script| => Block(first + i, script[i].txs))
  }

  /** How often a block generation function is invoked: up to and including its first error. */
  function Invocations(script: seq<Outcome>): (n: nat)
    ensures n <= |script|
  {
    if script == [] then 0 else if script[0].ok then 1 + Invocations(script[1..]) else 1
  }

  lemma {:induction false} InvocationsSplit(script: seq<Outcome>, k: nat)
    requires k <= |script| && forall i :: 0 <= i < k ==> script[i].ok
    ensures k == |script| ==> Invocations(script) == k
    ensures k < |script| && !script[k].ok ==> Invocations(script) == k + 1
  {
    if k > 0 {
      InvocationsSplit(script[1..], k - 1);
    }
  }

  /** The counters after the first blocks of a call; `currentBlock` is set at its end. */
  function Counted(s: Stats, blocks: seq<Block>): Stats {
    if blocks == [] then s else StatsAfter(s, blocks).(currentBlock := s.currentBlock)
  }

  lemma {:induction false} CountedSnoc(s: Stats, blocks: seq<Block>, i: nat)
    requires i < |blocks|
    ensures var before := Counted(s, blocks[..i]);
            Counted(s, blocks[..i + 1]) ==
            Stats(ToUint64(before.blocksMined + 1), ToUint64(before.txCount + |blocks[i].txs|), s.currentBlock)
  {
    FlattenSnoc(blocks[..i], blocks[i]);
    assert blocks[..i] + [blocks[i]] == blocks[..i + 1];
    ToUint64Add(s.blocksMined + i, 1);
    ToUint64Add(s.txCount + |Flatten(blocks[..i])|, |blocks[i].txs|);
  }

  lemma {:induction false} OneMoreContinues(chain: seq<Block>, tx: Tx)
    requires WellFormed(chain) && tx.nonce == NextNonce(Flatten(chain), tx.sender)
    ensures Continues(chain, [Block(|chain|, [tx])])
  {
    FlattenSnoc(chain, Block(|chain|, [tx]));
    ValidSnoc(Flatten(chain), tx);
  }

  /** The chain with one more block, if that has `landed`: one transaction of `signer`, carrying its next nonce. */
  predicate Sent(before: seq<Block>, signer: Address, gas: nat, call: Call, after: seq<Block>, landed: bool) {
    after ==
    before + if landed then [Block(|before|, [Tx(signer, NextNonce(Flatten(before), signer), gas, call)])] else []
  }

  lemma {:induction false} NothingSent(chain: seq<Block>, signer: Address, gas: nat, call: Call)
    ensures Sent(chain, signer, gas, call, chain, false)
  {
  }

  lemma {:induction false} GenerationSends(c: Config, before: Core, tx: Tx, env: Env, e: Option<Event>, after: Core)
    requires before.chain != [] && Leads(c, before, e, after)
    requires tx.nonce == NextNonce(Flatten(before.chain), tx.sender)
    requires e.Some? ==> e.value == Generation([Block(|before.chain|, [tx])], env)
    ensures Sent(before.chain, tx.sender, tx.gas, tx.call, after.chain, e.Some? && env.inserted >= 1)
  {
    var sent := [Block(|before.chain|, [tx])];
    assert sent[..0] == [] && sent[..1] == sent;
  }

  lemma {:induction false} SentExecutes(
      before: seq<Block>, signer: Address, gas: nat, call: Call, after: seq<Block>, landed: bool)
    requires Sent(before, signer, gas, call, after, landed)
    ensures Contracts(Flatten(after)) ==
            if landed then Execute(Contracts(Flatten(before)), signer, call) else Contracts(Flatten(before))
  {
    if landed {
      var tx := Tx(signer, NextNonce(Flatten(before), signer), gas, call);
      FlattenSnoc(before, Block(|before|, [tx]));
      ContractsSnoc(Flatten(before), tx);
    } else {
      assert before + [] == before;
    }
  }

  lemma {:induction false} DeployExecutes(contracts: seq<Contract>, caller: Address, standard: Standard)
    ensures Execute(contracts, caller, Deploy(standard, caller)) ==
            contracts + [Contract(standard, caller, map[], map[])]
  {
  }

  function Listed(e: Option<Event>): seq<Event> {
    if e.Some? then [e.value] else []
  }

  ghost predicate Leads(c: Config, before: Core, e: Option<Event>, after: Core)
    requires before.chain != []
  {
    if e.None? then after == before else Allowed(c, before, e.value) && after == Apply(c, before, e.value)
  }

  lemma {:induction false} NothingLeads(c: Config, core: Core)
    requires core.chain != []
    ensures Leads(c, core, None, core)
  {
  }

  /** The two halves of a tick are a serial log. */
  lemma {:induction false} TickLog(c: Config, start: Core, e: Option<Event>, middle: Core, f: Option<Event>, end: Core)
    requires start.chain != [] && middle.chain != [] && Leads(c, start, e, middle) && Leads(c, middle, f, end)
    requires e.Some? && e.value.Generated? ==> |e.value.blocks| == 1
    requires f.Some? ==> f.value.Forked?
    ensures var log := Listed(e) + Listed(f); Replay(c, start, log) == Some(end) && AtMost(log, 1)
  {
    assert Replay(c, start, []) == Some(start);
    hide Replay, Allowed, Apply;
    if e.Some? {
      ReplaySnoc(c, start, [], e.value);
      assert [] + [e.value] == [e.value];
    }
    if f.Some? {
      ReplaySnoc(c, start, Listed(e), f.value);
    } else {
      assert Listed(e) + [] == Listed(e);
    }
  }

  /** What the other threads do between two calls of one operator, whose own keys in the store are `own`: they append
      any blocks to the chain, and leave `store` under all other keys. */
  datatype Others = Others(blocks: seq<Block>, store: map<string, Value>)

  const NOTHING: Others := Others([], map[])

  function AfterOthers(w: World, own: set<string>, o: Others): World {
    World(ExecuteAll(w.contracts, Flatten(o.blocks)),
          (map k | k in w.store && k in own :: w.store[k]) + (o.store - own))
  }

  /** They do not mint or transfer on contract `c`. */
  predicate LeaveAlone(o: Others, c: nat) {
    Foreign(Flatten(o.blocks), c)
  }

  /** That keeps the contract, and the values under the operator's own keys. */
  lemma {:induction false} OthersKeep(w: World, own: set<string>, o: Others, c: nat)
    requires c < |w.contracts| && LeaveAlone(o, c)
    ensures var after := AfterOthers(w, own, o);
            |w.contracts| <= |after.contracts| && after.contracts[c] == w.contracts[c]
  {
    ForeignKeeps(w.contracts, Flatten(o.blocks), c);
  }

  lemma {:induction false} NobodyElse(chain: seq<Block>)
    requires WellFormed(chain)
    ensures Continues(chain, []) && forall c: nat :: Foreign(Flatten([]), c)
  {
    NoTransactions(chain, []);
  }

  lemma {:induction false} OthersContinue(chain: seq<Block>, blocks: seq<Block>)
    requires WellFormed(chain) && Continues(chain, blocks)
    ensures WellFormed(chain + blocks)
    ensures Contracts(Flatten(chain + blocks)) == ExecuteAll(Contracts(Flatten(chain)), Flatten(blocks))
  {
    WellFormedJoin(chain, blocks);
    FlattenAppend(chain, blocks);
    ContractsAppend(Flatten(chain), Flatten(blocks));
  }

  const GENESIS: Block := Block(0, [])

  lemma {:induction false} GenesisIsWellFormed()
    ensures WellFormed([GENESIS])
  {
    assert Flatten([GENESIS]) == Flatten([]) + [];
  }

  /** The canonical chain is always well formed, and the constructor lets only valid reorg settings through. */
  type Chain = chain: seq<Block> | WellFormed(chain) witness (GenesisIsWellFormed(); [GENESIS])

  type ServerConfig = c: Config | c.reorg.probability > 0.0 ==> Enabled(c.reorg)
    witness Config(0, ReorgConfig(0.0, 0, 0))

  class ETHTestServer {
    const config: ServerConfig
    const reliable: bool      // in this run neither go-ethereum nor the database ever fails
    var running: bool
    var chain: Chain
    var stats: Stats
    var stateDB: Option<map<string, Value>>

    function Now(): Core
      reads this
    {
      Core(chain, stats)
    }

    function Seen(): World
      reads this
    {
      World(Contracts(Flatten(chain)), if stateDB.Some? then stateDB.value else map[])
    }

    /** Nothing stands in the way of a call. */
    predicate Healthy()
      reads this
    {
      running && stateDB.Some? && reliable && config.maxBlockNum == 0
    }

    constructor (maxBlockNum: nat, reorg: ReorgConfig, db: map<string, Value>, reliable: bool)
      requires Validate(reorg).Ok? && IsInt64(reorg.depthMin) && IsInt64(reorg.depthMax)
      ensures config == Config(maxBlockNum, reorg) && this.reliable == reliable
      ensures chain == [GENESIS] && stats == Totals([]) && stateDB == Some(db) && !running
    {
      GenesisIsWellFormed();
      config, this.reliable := Config(maxBlockNum, reorg), reliable;
      running, chain, stats, stateDB := false, [GENESIS], Stats(0, 0, 0), Some(db);
    }

    method UpdateStatsAfterBlockGen(blocks: seq<Block>)
      modifies this`stats
      ensures stats == if blocks == [] then old(stats) else StatsAfter(old(stats), blocks)
    {
      if |blocks| == 0 {
        return;
      }
      for i := 0 to |blocks|
        invariant stats == Counted(old(stats), blocks[..i])
      {
        CountedSnoc(old(stats), blocks, i);
        stats := stats.(blocksMined := ToUint64(stats.blocksMined + 1),
                        txCount := ToUint64(stats.txCount + |blocks[i].txs|));
      }
      assert blocks[..|blocks|] == blocks;
      stats := stats.(currentBlock := blocks[|blocks| - 1].number);
    }

    /** The chain maker of go-ethereum: the callback runs once per index, in order, until it fails. */
    method GenerateChain(n: nat, callback: Option<seq<Outcome>>) returns (blocks: seq<Block>, genErr: bool, calls: nat)
      requires callback.Some? ==> |callback.value| == n
      ensures |blocks| == n
      ensures callback.None? ==> !genErr && calls == 0 && forall k :: 0 <= k < n ==> blocks[k] == Block(|chain| + k, [])
      ensures callback.Some? ==> genErr == !AllOk(callback.value) && calls == Invocations(callback.value)
      ensures callback.Some? && !genErr ==> blocks == Built(|chain|, callback.value)
    {
      blocks, genErr, calls := [], false, 0;
      for i := 0 to n
        invariant |blocks| == i
        invariant callback.None? ==>
          calls == 0 && !genErr && forall k :: 0 <= k < i ==> blocks[k] == Block(|chain| + k, [])
        invariant callback.Some? && !genErr ==> calls == i
        invariant callback.Some? && !genErr ==>
          forall k :: 0 <= k < i ==> callback.value[k].ok && blocks[k] == Block(|chain| + k, callback.value[k].txs)
        invariant genErr ==> callback.Some? && 0 < calls <= i && !callback.value[calls - 1].ok
        invariant genErr ==> forall k :: 0 <= k < calls - 1 ==> callback.value[k].ok
      {
        var txs := [];
        if callback.Some? && !genErr {
          calls := calls + 1;
          txs := callback.value[i].txs;
          genErr := !callback.value[i].ok;
        }
        blocks := blocks + [Block(|chain| + i, txs)];
      }
      if callback.Some? {
        InvocationsSplit(callback.value, if genErr then calls - 1 else n);
      }
    }

    /** `callback` nil generates empty blocks. `calls` is how often the callback ran. A callback error leaves chain and
        statistics alone; otherwise the call is one event, `e`, and it is a success if and only if `e` is done. */
    method GenerateBlocksUnlocked(n: int, callback: Option<seq<Outcome>>, env: Env)
      returns (r: Result<seq<Block>, ServerError>, calls: nat, ghost e: Option<Event>)
      requires !LimitReached(config, Head(chain))
      requires callback.Some? && n > 0 ==>
        |callback.value| == n && (AllOk(callback.value) ==> Continues(chain, Built(|chain|, callback.value)))
      modifies this`chain, this`stats
      ensures n <= 0 ==> r == Err(BadCount) && e.None? && calls == 0
      ensures n > 0 ==> calls == if callback.Some? then Invocations(callback.value) else 0
      ensures n > 0 && callback.Some? && !AllOk(callback.value) ==> r == Err(CallbackFailed) && e.None?
      ensures n > 0 && (callback.None? || AllOk(callback.value)) ==> e.Some?
      ensures Leads(config, old(Now()), e, Now())
      ensures e.Some? ==>
        e.value.Generated? && |e.value.blocks| == n && e.value == Generation(e.value.blocks, env) &&
        (if callback.Some? then e.value.blocks == Built(old(|chain|), callback.value)
         else forall k :: 0 <= k < n ==> e.value.blocks[k].txs == [])
      ensures e.Some? ==>
        r == if e.value.done then Ok(e.value.blocks) else Err(if env.inserted < n then InsertFailed else IndexFailed)
    {
      e, calls := None, 0;
      if n <= 0 {
        return Err(BadCount), 0, None;
      }
      var blocks, genErr;
      blocks, genErr, calls := GenerateChain(n, callback);
      if genErr {
        return Err(CallbackFailed), calls, None;
      }
      if callback.None? {
        NoTransactions(chain, blocks);
      }
      var inserted := if env.inserted < n then env.inserted else n;
      e := Some(Generated(blocks, inserted, false));
      StepWellFormed(config, Now(), e.value);
      chain := chain + blocks[..inserted];
      if inserted < n {
        return Err(InsertFailed), calls, e;
      }
      if !env.indexes {
        return Err(IndexFailed), calls, e;
      }
      UpdateStatsAfterBlockGen(blocks);
      return Ok(blocks), calls, Some(e.value.(done := true));
    }

    method GenerateBlocks(n: int, callback: Option<seq<Outcome>>, env: Env)
      returns (r: Result<seq<Block>, ServerError>, calls: nat, ghost e: Option<Event>)
      requires callback.Some? && n > 0 ==>
        |callback.value| == n && (AllOk(callback.value) ==> Continues(chain, Built(|chain|, callback.value)))
      modifies this`chain, this`stats
      ensures r == Err(ErrLimitReached) <==> 0 < config.maxBlockNum <= |old(chain)| - 1
      ensures r == Err(BadCount) <==> r != Err(ErrLimitReached) && n <= 0
      ensures r == Err(CallbackFailed) <==>
        r != Err(ErrLimitReached) && n > 0 && callback.Some? && !AllOk(callback.value)
      ensures e.Some? <==> r != Err(ErrLimitReached) && n > 0 && (callback.None? || AllOk(callback.value))
      ensures Leads(config, old(Now()), e, Now())
      ensures e.Some? ==>
        e.value.Generated? && |e.value.blocks| == n && e.value == Generation(e.value.blocks, env) &&
        (if callback.Some? then e.value.blocks == Built(old(|chain|), callback.value)
         else forall k :: 0 <= k < n ==> e.value.blocks[k].txs == [])
      ensures e.Some? ==>
        r == if e.value.done then Ok(e.value.blocks) else Err(if env.inserted < n then InsertFailed else IndexFailed)
      ensures calls ==
        if r == Err(ErrLimitReached) || n <= 0 || callback.None? then 0 else Invocations(callback.value)
    {
      if LimitReached(config, Head(chain)) {
        return Err(ErrLimitReached), 0, None;
      }
      r, calls, e := GenerateBlocksUnlocked(n, callback, env);
    }

    /** `gen.AddTx` one by one: it panics at the first transaction that does not carry its sender's next nonce. */
    method AddAll(selected: seq<Tx>) returns (panicked: bool)
      ensures panicked <==> !ValidTxs(Flatten(chain) + selected)
    {
      ghost var base := Flatten(chain);
      var added := [];
      assert base + [] == base;
      for i := 0 to |selected|
        invariant added == selected[..i] && ValidTxs(base + added)
      {
        ValidSnoc(base + added, selected[i]);
        assert base + added + [selected[i]] == base + selected[..i + 1];
        if selected[i].nonce != NextNonce(Flatten(chain) + added, selected[i].sender) {
          assert base + selected == base + selected[..i + 1] + selected[i + 1..];
          if ValidTxs(base + selected) {
            ValidPrefix(base + selected[..i + 1], selected[i + 1..]);
          }
          return true;
        }
        added := added + [selected[i]];
      }
      assert selected[..|selected|] == selected;
      return false;
    }

    /** One block from the pool, unless a limit is reached. It panics if and only if the greedy selection is
        not acceptable to AddTx; PoolBlockAccepted says when that is. */
    method MaybeGenerateBlock(pending: seq<Batch>, blockGasLimit: nat, expired: bool, env: Env)
      returns (r: Result<(), ServerError>, ghost e: Option<Event>)
      modifies this`chain, this`stats
      ensures r == Err(AddTxPanicked) <==>
        !expired && (config.maxBlockNum == 0 || old(|chain|) - 1 < config.maxBlockNum) &&
        !ValidTxs(old(Flatten(chain)) + Pack(Entries(pending), 0, blockGasLimit).txs)
      ensures e.Some? <==>
        !expired && (config.maxBlockNum == 0 || old(|chain|) - 1 < config.maxBlockNum) &&
        ValidTxs(old(Flatten(chain)) + Pack(Entries(pending), 0, blockGasLimit).txs)
      ensures Leads(config, old(Now()), e, Now())
      ensures e.Some? ==>
        e.value == Generation([Block(old(|chain|), Pack(Entries(pending), 0, blockGasLimit).txs)], env)
      ensures e.Some? ==>
        r == if e.value.done then Ok(()) else Err(if env.inserted == 0 then InsertFailed else IndexFailed)
      ensures e.None? && r != Err(AddTxPanicked) ==> r == Ok(())
    {
      e := None;
      if LimitReached(config, Head(chain)) || expired {
        return Ok(()), None;
      }
      var selected, gasUsed := PackPool(pending, blockGasLimit);
      var panicked := AddAll(selected);
      if panicked {
        return Err(AddTxPanicked), None;
      }
      var script := [Outcome(selected, true)];
      FlattenSnoc(chain, Block(|chain|, selected));
      assert Built(|chain|, script) == [Block(|chain|, selected)];
      var blocks, calls;
      blocks, calls, e := GenerateBlocksUnlocked(1, Some(script), env);
      r := if blocks.Ok? then Ok(()) else Err(blocks.error);
    }

    /** `draw` is what `rand.Intn` returned; `works` is whether the beacon forks, and `commit` what it commits then. */
    method SimulateForkUnlocked(ghost draw: int, blockNumber: int, works: bool, commit: Option<Block>)
      returns (r: Result<(), ServerError>, ghost e: Option<Event>)
      requires Enabled(config.reorg) && Drawn(config.reorg, draw)
      requires blockNumber >= 0 ==> ForkTarget(Head(chain), config.reorg, draw) == Some(blockNumber)
      modifies this`chain
      ensures r == if works && blockNumber >= 0 then Ok(()) else Err(ForkFailed)
      ensures Leads(config, old(Now()), e, Now())
      ensures r.Ok? ==>
        var survivors := old(chain)[..blockNumber + 1];
        e == Some(Forked(draw, if commit.Some? && Continues(survivors, [commit.value]) then commit else None))
      ensures r.Err? ==> e.None?
    {
      hide ValidTxs, Flatten, ForkTarget, Drawn, Enabled;
      if blockNumber < 0 {
        return Err(ForkFailed), None;
      }
      if !works {
        return Err(ForkFailed), None;
      }
      var survivors := chain[..blockNumber + 1];
      var committed := Committed(survivors, commit);
      e := Some(Forked(draw, committed));
      StepWellFormed(config, Now(), e.value);
      chain := survivors + if committed.Some? then [committed.value] else [];
      r := Ok(());
    }

    method MaybeSimulateFork(triggered: bool, draw: int, works: bool, commit: Option<Block>)
      returns (r: Result<(), ServerError>, ghost e: Option<Event>)
      requires config.reorg.probability > 0.0 ==> Drawn(config.reorg, draw)
      modifies this`chain
      ensures Leads(config, old(Now()), e, Now())
      ensures
        var target :=
          if config.reorg.probability > 0.0 && triggered then ForkTarget(old(|chain|) - 1, config.reorg, draw)
          else None;
        r == (if target.Some? && !works then Err(ForkFailed) else Ok(())) &&
        e == if target.Some? && works
             then Some(Forked(draw, Committed(old(chain)[..target.value + 1], commit))) else None
    {
      hide Flatten, ValidTxs, ForkTarget, Leads, Drawn;
      if config.reorg.probability <= 0.0 || !triggered {
        NothingLeads(config, Now());
        return Ok(()), None;
      }
      ForkTargetIsThere(Head(chain), config.reorg, draw);
      NothingLeads(config, Now());
      hide Enabled, Committed;
      var currentHeight := ToInt64(Head(chain));
      var depthRange := ToInt64(ToInt64(config.reorg.depthMax - config.reorg.depthMin) + 1);
      var depth := config.reorg.depthMin;
      if depthRange > 1 {
        depth := ToInt64(draw + config.reorg.depthMin);
      }
      if depth >= currentHeight {
        depth := ToInt64(currentHeight - 1);
      }
      if depth <= 0 {
        return Ok(()), None;
      }
      r, e := SimulateForkUnlocked(draw, ToInt64(currentHeight - depth), works, commit);
    }

    method Mine(pending: seq<Batch>, blockGasLimit: nat, expired: bool, env: Env)
      returns (r: Result<(), ServerError>, ghost e: Option<Event>)
      modifies this`chain, this`stats
      ensures r == Err(NotRunning) <==> !running
      ensures r == Err(AddTxPanicked) <==>
        running && !expired && (config.maxBlockNum == 0 || old(|chain|) - 1 < config.maxBlockNum) &&
        !ValidTxs(old(Flatten(chain)) + Pack(Entries(pending), 0, blockGasLimit).txs)
      ensures e.Some? <==>
        running && !expired && (config.maxBlockNum == 0 || old(|chain|) - 1 < config.maxBlockNum) &&
        ValidTxs(old(Flatten(chain)) + Pack(Entries(pending), 0, blockGasLimit).txs)
      ensures Leads(config, old(Now()), e, Now())
      ensures e.Some? ==>
        e.value == Generation([Block(old(|chain|), Pack(Entries(pending), 0, blockGasLimit).txs)], env)
      ensures e.Some? ==>
        r == if e.value.done then Ok(()) else Err(if env.inserted == 0 then InsertFailed else IndexFailed)
      ensures e.None? && r.Err? ==> r.error in {NotRunning, AddTxPanicked}
    {
      if !running {
        return Err(NotRunning), None;
      }
      r, e := MaybeGenerateBlock(pending, blockGasLimit, expired, env);
    }

    /** A tick is a generation `e` that leads to `middle`, followed by a fork `f`, each of which may not take place.
        A failed generation does not keep the fork from being tried; a panic does. */
    method NextTick(pending: seq<Batch>, blockGasLimit: nat, expired: bool, env: Env,
        triggered: bool, draw: int, works: bool, commit: Option<Block>)
      returns (r: Result<(), ServerError>, ghost e: Option<Event>, ghost middle: Core, ghost f: Option<Event>)
      requires config.reorg.probability > 0.0 ==> Drawn(config.reorg, draw)
      modifies this`chain, this`stats
      ensures r == Err(AddTxPanicked) <==>
        !expired && (config.maxBlockNum == 0 || old(|chain|) - 1 < config.maxBlockNum) &&
        !ValidTxs(old(Flatten(chain)) + Pack(Entries(pending), 0, blockGasLimit).txs)
      ensures e.Some? <==>
        !expired && (config.maxBlockNum == 0 || old(|chain|) - 1 < config.maxBlockNum) &&
        ValidTxs(old(Flatten(chain)) + Pack(Entries(pending), 0, blockGasLimit).txs)
      ensures e.Some? ==>
        e.value == Generation([Block(old(|chain|), Pack(Entries(pending), 0, blockGasLimit).txs)], env)
      ensures middle.chain != [] && Leads(config, old(Now()), e, middle) && Leads(config, middle, f, Now())
      ensures
        var target :=
          if config.reorg.probability > 0.0 && triggered then ForkTarget(|middle.chain| - 1, config.reorg, draw)
          else None;
        f == (if r != Err(AddTxPanicked) && target.Some? && works
              then Some(Forked(draw, Committed(middle.chain[..target.value + 1], commit))) else None) &&
        (r.Ok? <==> r != Err(AddTxPanicked) && (e.Some? ==> e.value.done) && (target.Some? ==> works))
    {
      hide Pack, Entries, Flatten, ValidTxs, ForkTarget, Drawn;
      f := None;
      r, e := MaybeGenerateBlock(pending, blockGasLimit, expired, env);
      middle := Now();
      if r != Err(AddTxPanicked) {
        var generated := r;
        r, f := MaybeSimulateFork(triggered, draw, works, commit);
        r := if generated.Err? then generated else r;
      }
    }

    /** What go-ethereum does in one of an operator's calls. */
    method AnyEnv() returns (env: Env)
      ensures reliable ==> Works(env)
    {
      env := *;
      if reliable {
        env := Env(true, true, 1, true, true);
      }
    }

    /** What the database does in one of them. */
    method AnyAnswer() returns (works: bool)
      ensures reliable ==> works
    {
      works := *;
      works := reliable || works;
    }

    method AnyOthers() returns (o: Others) {
      o := *;
    }

    /** The other threads run: other operators, and anyone else who calls the server. They leave contract `c` alone, if
        there is one. By Interleaving.EveryThreadAlternates they can do nothing else to the chain without forking it. */
    method OtherThreads(own: set<string>, c: Option<nat>) returns (o: Others)
      modifies this`chain, this`stats, this`stateDB
      ensures chain == old(chain) + o.blocks && (c.Some? ==> LeaveAlone(o, c.value))
      ensures o.blocks == [] ==> stats == old(stats)
      ensures stateDB.None? <==> old(stateDB).None?
      ensures old(Healthy()) ==> Healthy()
      ensures Seen() == AfterOthers(old(Seen()), own, o)
    {
      hide ExecuteAll, Foreign, Contracts, Flatten;
      o := AnyOthers();
      if !Continues(chain, o.blocks) || (c.Some? && !LeaveAlone(o, c.value)) {
        o := o.(blocks := []);
        NobodyElse(chain);
      }
      if stateDB.None? {
        o := o.(store := map[]);
      }
      OthersContinue(chain, o.blocks);
      if o.blocks != [] {
        stats := *;
      }
      chain := chain + o.blocks;
      if stateDB.Some? {
        stateDB := Some((map k | k in stateDB.value && k in own :: stateDB.value[k]) + (o.store - own));
      }
    }

    // ----- Contracts -----

    /** A block with one transaction gets onto the chain. */
    predicate Lands(env: Env)
      reads this
    {
      (config.maxBlockNum == 0 || |chain| - 1 < config.maxBlockNum) && env.signs && env.inserted >= 1
    }

    /** How the generation of such a block ends. */
    function Ending(env: Env): Option<ServerError>
      reads this
    {
      if 0 < config.maxBlockNum <= |chain| - 1 then Some(ErrLimitReached) else Failure(env)
    }

    /** A block with one transaction of `signer`, carrying its next nonce. */
    method SendOne(signer: Address, gas: nat, call: Call, env: Env)
      returns (r: Result<seq<Block>, ServerError>, ghost e: Option<Event>)
      modifies this`chain, this`stats
      ensures if r.Ok? then old(Ending(env)).None? else old(Ending(env)) == Some(r.error)
      ensures Sent(old(chain), signer, gas, call, chain, old(Lands(env)))
      ensures Leads(config, old(Now()), e, Now())
    {
      var tx := Tx(signer, NextNonce(Flatten(chain), signer), gas, call);
      var script := [Outcome(if env.signs then [tx] else [], env.signs)];
      ghost var sent := [Block(|chain|, [tx])];
      assert AllOk(script) == script[0].ok && (env.signs ==> Built(|chain|, script) == sent);
      OneMoreContinues(chain, tx);
      hide Flatten, ValidTxs, NextNonce, Continues, Built, Leads, WellFormed, Enabled, AllOk, Invocations, Sent, Works;
      var calls;
      r, calls, e := GenerateBlocks(1, Some(script), env);
      GenerationSends(config, old(Now()), tx, env, e, Now());
    }

    /** On success the contract is that of the next address. */
    method DeployContract(signer: Address, standard: Standard, env: Env)
      returns (r: Result<nat, ServerError>, ghost e: Option<Event>)
      modifies this`chain, this`stats
      ensures r ==
        if !running then Err(NotRunning)
        else if !env.packs then Err(PackFailed)
        else if old(Ending(env)).Some? then Err(old(Ending(env)).value)
        else if !env.creates then Err(DeployFailed)
        else Ok(old(|Contracts(Flatten(chain))|))
      ensures Sent(old(chain), signer, 5_000_000, Deploy(standard, signer), chain,
                   running && env.packs && old(Lands(env)))
      ensures Contracts(Flatten(chain)) ==
        old(Contracts(Flatten(chain))) +
        if running && env.packs && old(Lands(env)) then [Contract(standard, signer, map[], map[])] else []
      ensures Leads(config, old(Now()), e, Now())
    {
      NothingLeads(config, Now());
      NothingSent(chain, signer, 5_000_000, Deploy(standard, signer));
      hide *;
      if !running {
        return Err(NotRunning), None;
      }
      if !env.packs {
        return Err(PackFailed), None;
      }
      var address := |Contracts(Flatten(chain))|;
      var blocks;
      blocks, e := SendOne(signer, 5_000_000, Deploy(standard, signer), env);
      SentExecutes(old(chain), signer, 5_000_000, Deploy(standard, signer), chain, old(Lands(env)));
      DeployExecutes(old(Contracts(Flatten(chain))), signer, standard);
      if blocks.Err? {
        return Err(blocks.error), e;
      }
      if !env.creates {
        return Err(DeployFailed), e;
      }
      r := Ok(address);
    }

    /** The call's receipt status is not looked at: a reverted call is a success here. */
    method ContractTransact(signer: Address, call: Call, env: Env)
      returns (r: Result<(), ServerError>, ghost e: Option<Event>)
      modifies this`chain, this`stats
      ensures r ==
        if !running then Err(NotRunning)
        else if !env.packs then Err(PackFailed)
        else if old(Ending(env)).Some? then Err(old(Ending(env)).value)
        else Ok(())
      ensures Sent(old(chain), signer, 300_000, call, chain, running && env.packs && old(Lands(env)))
      ensures Contracts(Flatten(chain)) ==
        if running && env.packs && old(Lands(env)) then Execute(old(Contracts(Flatten(chain))), signer, call)
        else old(Contracts(Flatten(chain)))
      ensures Leads(config, old(Now()), e, Now())
    {
      NothingLeads(config, Now());
      NothingSent(chain, signer, 300_000, call);
      hide *;
      if !running {
        return Err(NotRunning), None;
      }
      if !env.packs {
        return Err(PackFailed), None;
      }
      var blocks;
      blocks, e := SendOne(signer, 300_000, call, env);
      SentExecutes(old(chain), signer, 300_000, call, chain, old(Lands(env)));
      r := if blocks.Ok? then Ok(()) else Err(blocks.error);
    }

    // ----- The key/value store -----

    /** `value` None is Go's nil. `encodes` and `works` are what the encoder and the database do. */
    method StoreValue(key: string, value: Option<Value>, encodes: bool, works: bool)
      returns (r: Result<(), ServerError>)
      modifies this`stateDB
      ensures r.Ok? <==> running && key != "" && value.Some? && encodes && old(stateDB).Some? && works
      ensures stateDB == if r.Ok? then Some(old(stateDB).value[key := value.value]) else old(stateDB)
      ensures r == Err(NotRunning) <==> !running
      ensures r == Err(BadKey) <==> running && key == ""
      ensures r == Err(BadValue) <==> running && key != "" && value.None?
      ensures r == Err(EncodeFailed) <==> running && key != "" && value.Some? && !encodes
      ensures r == Err(NoStateDB) <==> running && key != "" && value.Some? && encodes && old(stateDB).None?
      ensures r.Err? ==> r.error in {NotRunning, BadKey, BadValue, EncodeFailed, NoStateDB, StateDBFailed}
    {
      if !running { return Err(NotRunning); }
      if |key| == 0 { return Err(BadKey); }
      if value.None? { return Err(BadValue); }
      if !encodes { return Err(EncodeFailed); }
      if stateDB.None? { return Err(NoStateDB); }
      if !works { return Err(StateDBFailed); }
      stateDB := Some(stateDB.value[key := value.value]);
      return Ok(());
    }

    /** Reads back what was stored last under the key, or reports that there is nothing. */
    method RetrieveValue(key: string, works: bool) returns (r: Result<Option<Value>, ServerError>)
      ensures r.Ok? <==> running && stateDB.Some? && works
      ensures r.Ok? ==> r.value == if key in stateDB.value then Some(stateDB.value[key]) else None
      ensures r == Err(NotRunning) <==> !running
      ensures r == Err(NoStateDB) <==> running && stateDB.None?
      ensures r.Err? ==> r.error in {NotRunning, NoStateDB, StateDBFailed}
    {
      if !running { return Err(NotRunning); }
      if stateDB.None? { return Err(NoStateDB); }
      if !works { return Err(StateDBFailed); }
      if key !in stateDB.value { return Ok(None); }
      return Ok(Some(stateDB.value[key]));
    }

    method DeleteValue(key: string, works: bool) returns (r: Result<(), ServerError>)
      modifies this`stateDB
      ensures r.Ok? <==> running && key != "" && old(stateDB).Some? && works
      ensures stateDB == if r.Ok? then Some(old(stateDB).value - {key}) else old(stateDB)
      ensures r == Err(NotRunning) <==> !running
      ensures r == Err(BadKey) <==> running && key == ""
      ensures r == Err(NoStateDB) <==> running && key != "" && old(stateDB).None?
      ensures r.Err? ==> r.error in {NotRunning, BadKey, NoStateDB, StateDBFailed}
    {
      if !running { return Err(NotRunning); }
      if |key| == 0 { return Err(BadKey); }
      if stateDB.None? { return Err(NoStateDB); }
      if !works { return Err(StateDBFailed); }
      stateDB := Some(stateDB.value - {key});
      return Ok(());
    }
  }
}
