/**
 The monkey operator: on every tick it asks the server for one block and fills it with generated transactions. Here it
 drives the ERC721 generator, whose index has to stay in step with the chain. The goroutine
 around the tick loop, and Run and Stop racing for it, are in module MonkeyLifecycle.
 */
module Monkey {
  import opened Erc721
  import Fungible
  import opened Ledger
  import opened Nft
  import opened Restart
  import opened Serial
  import opened Server
  import opened Slices
  import opened Wrappers

  // ----- Configuration -----

  datatype Settings = Settings(
    ticks: int, tickerInterval: int, transactionsPerBlock: int, minTransactions: int, maxTransactions: int)

  const DEFAULT_INTERVAL := 1_000_000_000
  const DEFAULT_TRANSACTIONS := 120

  function Normalised(s: Settings): Settings {
    s.(tickerInterval := if s.tickerInterval <= 0 then DEFAULT_INTERVAL else s.tickerInterval,
       transactionsPerBlock := if s.transactionsPerBlock <= 0 then DEFAULT_TRANSACTIONS else s.transactionsPerBlock)
  }

  /** The number of transactions of the next block, or None if `rand.Intn` panics; `draw` is what the random generator
      returns, before it is reduced to the range. */
  function BlockSize(s: Settings, draw: nat): Option<int> {
    if s.minTransactions > 0 && s.maxTransactions > 0 then
      var range := s.maxTransactions - s.minTransactions + 1;
      if range <= 0 then None else Some(s.minTransactions + draw % range)
    else Some(s.transactionsPerBlock)
  }

  /** The bounds contradict each other. */
  predicate PanicsAlways(s: Settings) {
    0 < s.maxTransactions < s.minTransactions
  }

  /** With 0 < min <= max exactly the sizes from min to max are possible, with a non-positive bound exactly
      `transactionsPerBlock`, and with 0 < max < min every block panics. */
  lemma {:induction false} BlockSizes(s: Settings, n: int)
    ensures (exists draw: nat :: BlockSize(s, draw) == Some(n)) <==>
            if s.minTransactions <= 0 || s.maxTransactions <= 0 then n == s.transactionsPerBlock
            else s.minTransactions <= n <= s.maxTransactions
    ensures forall draw: nat :: BlockSize(s, draw) == None <==> PanicsAlways(s)
  {
    var draw: nat := if s.minTransactions <= n <= s.maxTransactions then n - s.minTransactions else 0;
    if s.minTransactions > 0 && s.minTransactions <= n <= s.maxTransactions {
      SmallRemainder(draw, s.maxTransactions - s.minTransactions + 1);
      assert BlockSize(s, draw) == Some(n);
    } else if s.minTransactions <= 0 || s.maxTransactions <= 0 {
      assert BlockSize(s, draw) == Some(s.transactionsPerBlock);
    }
  }

  /** The constructor changes exactly the configurations that lack an interval or a number of transactions: one second
      and 120 take their place. After that every block that does not panic asks for at least one transaction. */
  lemma {:induction false} NormalisedConfigs(s: Settings)
    ensures Normalised(s) == s <==> s.tickerInterval > 0 && s.transactionsPerBlock > 0
    ensures var t := Normalised(s);
            t.tickerInterval > 0 && Normalised(t) == t && forall draw: nat :: BlockSize(t, draw).Some? ==>
              BlockSize(t, draw).value >= 1
    ensures var t := Normalised(Settings(s.ticks, 0, 0, s.minTransactions, s.maxTransactions));
            t == Settings(s.ticks, 1_000_000_000, 120, s.minTransactions, s.maxTransactions)
  {
  }

  // ----- Ticks -----

  datatype TickResult = Generated | LimitHit | Failed | Panicked

  /** The loop ends after these ticks. A tick that hits the limit never ends it, not even the last configured one. */
  predicate Ends(ticks: int, results: seq<TickResult>) {
    results != [] &&
    var last := results[|results| - 1];
    last.Failed? || last.Panicked? || (last.Generated? && ticks > 0 && |results| >= ticks)
  }

  /** The loop gets to process all these ticks. */
  ghost predicate Reached(ticks: int, results: seq<TickResult>) {
    forall k :: 0 <= k < |results| ==> !Ends(ticks, results[..k])
  }

  function Successes(results: seq<TickResult>): (n: nat)
    ensures n <= |results|
  {
    if results == [] then 0
    else Successes(results[..|results| - 1]) + if results[|results| - 1].Generated? then 1 else 0
  }

  lemma {:induction false} SuccessesFull(results: seq<TickResult>)
    ensures Successes(results) == |results| <==> forall k :: 0 <= k < |results| ==> results[k].Generated?
  {
    if results != [] {
      SuccessesFull(results[..|results| - 1]);
    }
  }

  lemma {:induction false} SuccessesSame(results: seq<TickResult>, k: nat)
    requires k <= |results| && forall i :: k <= i < |results| ==> !results[i].Generated?
    ensures Successes(results) == Successes(results[..k])
  {
    if k < |results| {
      SuccessesSame(results[..|results| - 1], k);
      assert results[..|results| - 1][..k] == results[..k];
    } else {
      assert results[..k] == results;
    }
  }

  /** After the first `ticks - 1` ticks no success lets the loop go on. */
  lemma {:induction false} NoLateSuccess(ticks: int, results: seq<TickResult>, i: nat)
    requires Reached(ticks, results) && 0 < ticks - 1 + 1 <= i + 1 < |results|
    ensures !results[i].Generated?
  {
    assert !Ends(ticks, results[..i + 1]);
  }

  /** The configured number of ticks bounds the number of generated blocks, however many ticks hit the limit in between.
      It is reached if and only if all ticks but the last configured one generated a block, and the loop
      then ended with one more block, maybe after waiting for the limit to go away. */
  lemma {:induction false} TicksBoundBlocks(ticks: int, results: seq<TickResult>)
    requires ticks > 0 && Reached(ticks, results)
    ensures Successes(results) <= ticks
    ensures Successes(results) == ticks <==>
            |results| >= ticks && results[|results| - 1].Generated? &&
            forall k :: 0 <= k < ticks - 1 ==> results[k].Generated?
  {
    if |results| >= ticks {
      var init, first := results[..|results| - 1], results[..ticks - 1];
      forall i | ticks - 1 <= i < |init| ensures !init[i].Generated? {
        NoLateSuccess(ticks, results, i);
      }
      SuccessesSame(init, ticks - 1);
      assert init[..ticks - 1] == first;
      SuccessesFull(first);
      assert forall k :: 0 <= k < ticks - 1 ==> first[k] == results[k];
    }
  }

  /** The number of ticks itself is not bounded: as long as all of them hit the limit, the loop goes on. */
  lemma {:induction false} LimitNeverEnds(ticks: int, k: nat)
    ensures var results := seq(k, _ => LimitHit); Reached(ticks, results) && !Ends(ticks, results)
  {
    var results := seq(k, _ => LimitHit);
    forall l | 0 <= l < k ensures !Ends(ticks, results[..l]) {
      assert l > 0 ==> results[..l][l - 1] == LimitHit;
    }
  }

  /** The loop goes on exactly after ticks that hit the limit, and after those before the last configured one that
      generated a block. */
  lemma {:induction false} ReachedExactly(ticks: int, results: seq<TickResult>)
    ensures Reached(ticks, results) <==>
            forall i :: 0 <= i < |results| - 1 ==>
              results[i].LimitHit? || (results[i].Generated? && (ticks <= 0 || i + 1 < ticks))
  {
    if Reached(ticks, results) {
      forall i | 0 <= i < |results| - 1
        ensures results[i].LimitHit? || (results[i].Generated? && (ticks <= 0 || i + 1 < ticks))
      {
        assert !Ends(ticks, results[..i + 1]);
      }
    } else {
      var k :| 0 <= k < |results| && Ends(ticks, results[..k]);
      assert results[..k][k - 1] == results[k - 1];
    }
  }

  /** When the configured tick ends the loop: exactly if it does not hit the limit. If it does, the loop goes on as
      long as all ticks hit the limit. */
  lemma {:induction false} ConfiguredTickEnds(ticks: int, results: seq<TickResult>)
    requires ticks > 0 && Reached(ticks, results)
    ensures |results| == ticks ==> (Ends(ticks, results) <==> !results[ticks - 1].LimitHit?)
    ensures forall i :: ticks - 1 <= i < |results| - 1 ==> results[i].LimitHit?
  {
    forall i | ticks - 1 <= i < |results| - 1 ensures results[i].LimitHit? {
      assert !Ends(ticks, results[..i + 1]);
    }
  }

  // ----- Transfers on the chain -----

  function CallsOf(txs: seq<Tx>): seq<Call> {
    seq(|txs|, i requires 0 <= i < |txs| => txs[i].call)
  }

  /** All are transfers of contract `c`, sent by the one they take the token from. */
  predicate AreTransfers(txs: seq<Tx>, c: nat) {
    forall i :: 0 <= i < |txs| ==>
      txs[i].call.SafeTransfer? && txs[i].call.contract == c && txs[i].call.from == txs[i].sender
  }

  predicate IsNft(contracts: seq<Contract>, c: nat) {
    c < |contracts| && contracts[c].standard == ERC721
  }

  lemma {:induction false} CallsOfSnoc(txs: seq<Tx>, tx: Tx)
    ensures CallsOf(txs + [tx]) == CallsOf(txs) + [tx.call]
  {
  }

  lemma {:induction false} TransferExecutes(contracts: seq<Contract>, c: nat, holders: map<nat, Address>, tx: Tx)
    requires IsNft(contracts, c) && AreTransfers([tx], c)
    requires tx.call.SafeTransfer? && tx.call.id in holders && holders[tx.call.id] == tx.call.from
    ensures Execute(contracts[c := contracts[c].(holders := holders)], tx.sender, tx.call) ==
            contracts[c := contracts[c].(holders := holders[tx.call.id := tx.call.to])]
  {
    assert [tx][0] == tx;
  }

  /** Transfers by the owners do on the chain what `Settle` says. */
  lemma {:induction false} TransfersSettle(base: seq<Tx>, txs: seq<Tx>, c: nat)
    requires IsNft(Contracts(base), c) && AreTransfers(txs, c)
    requires Settle(Contracts(base)[c].holders, CallsOf(txs)).Some?
    ensures var before := Contracts(base);
            Contracts(base + txs) == before[c := before[c].(holders := Settle(before[c].holders, CallsOf(txs)).value)]
  {
    var before := Contracts(base);
    if txs == [] {
      assert base + txs == base && CallsOf(txs) == [];
      assert before[c := before[c]] == before;
    } else {
      var init, last := txs[..|txs| - 1], txs[|txs| - 1];
      assert txs == init + [last] && AreTransfers([last], c) && AreTransfers(init, c);
      hide Settle, Contracts, CallsOf, Execute, AreTransfers;
      CallsOfSnoc(init, last);
      SettleSnoc(before[c].holders, CallsOf(init), last.call);
      TransfersSettle(base, init, c);
      TransferExecutes(before, c, Settle(before[c].holders, CallsOf(init)).value, last);
      assert base + txs == (base + init) + [last];
      ContractsSnoc(base + init, last);
    }
  }

  /** The owners of the tokens of contract `c` on a chain. */
  function Owners(chain: seq<Block>, c: nat): map<nat, Address>
    requires IsNft(Contracts(Flatten(chain)), c)
  {
    Contracts(Flatten(chain))[c].holders
  }

  /** A block of generated transfers keeps the index in step with the chain it is put on. */
  lemma {:induction false} BlockKeepsAgreement(chain: seq<Block>, b: Block, c: nat, m: Mapping, picks: seq<Pick>)
    requires IsNft(Contracts(Flatten(chain)), c) && Agrees(m, Owners(chain, c))
    requires AreTransfers(b.txs, c) && CallsOf(b.txs) == EmittedAll(m, picks, c)
    ensures var before, after := Contracts(Flatten(chain)), Contracts(Flatten(chain + [b]));
            IsNft(after, c) && after == before[c := before[c].(holders := after[c].holders)] &&
            Agrees(AfterPicks(m, picks), Owners(chain + [b], c))
  {
    FlattenSnoc(chain, b);
    PicksKeepAgreement(m, Owners(chain, c), picks, c);
    TransfersSettle(Flatten(chain), b.txs, c);
  }

  lemma {:induction false} PicksSnoc(m: Mapping, picks: seq<Pick>, p: Pick, c: nat)
    ensures AfterPicks(m, picks + [p]) == AfterPick(AfterPicks(m, picks), p)
    ensures EmittedAll(m, picks + [p], c) ==
            EmittedAll(m, picks, c) +
            var call := Emitted(AfterPicks(m, picks), p, c); if call.Some? then [call.value] else []
  {
    assert (picks + [p])[..|picks|] == picks;
  }

  /** `sent` are the transactions that the calls with these picks returned. */
  predicate IsSent(m: Mapping, picks: seq<Pick>, c: nat, sent: seq<Tx>) {
    AreTransfers(sent, c) && CallsOf(sent) == EmittedAll(m, picks, c)
  }

  /** One more call of GenerateTransaction, whose transaction, if any, is added to the block. */
  lemma {:induction false} OneMoreCall(
      base: seq<Tx>, txs: seq<Tx>, tx: Option<Tx>, m: Mapping, picks: seq<Pick>, p: Pick, c: nat)
    requires ValidTxs(base + txs) && IsSent(m, picks, c, txs)
    requires tx == Signed(AfterPicks(m, picks), p, c, base + txs)
    ensures var longer := txs + if tx.Some? then [tx.value] else [];
            ValidTxs(base + longer) && IsSent(m, picks + [p], c, longer) &&
            AfterPicks(m, picks + [p]) == AfterPick(AfterPicks(m, picks), p)
  {
    PicksSnoc(m, picks, p, c);
    if tx.Some? {
      CallsOfSnoc(txs, tx.value);
      ValidSnoc(base + txs, tx.value);
      assert base + (txs + [tx.value]) == base + txs + [tx.value];
    } else {
      assert txs + [] == txs;
    }
  }

  lemma {:induction false} OneBlockContinues(chain: seq<Block>, txs: seq<Tx>)
    requires WellFormed(chain) && ValidTxs(Flatten(chain) + txs)
    ensures Continues(chain, [Block(|chain|, txs)])
  {
    FlattenSnoc(chain, Block(|chain|, txs));
  }

  // ----- The operator -----

  /** The choices of one tick: the size of its block, what each of its GenerateTransaction calls draws and whether it
      can be packed and signed, and what go-ethereum does. */
  datatype Roll = Roll(size: nat, draws: nat -> Draw, packs: nat -> bool, env: Env)

  /** What the loop's `select` sees next. */
  datatype Signal = ContextDone | StopClosed | Ticked(roll: Roll)

  /** No tick failed: every generated block is on the chain. */
  predicate Clean(results: seq<TickResult>) {
    forall k :: 0 <= k < |results| ==> results[k].Generated? || results[k].LimitHit?
  }

  ghost predicate InStep(m: Mapping, chain: seq<Block>, c: nat) {
    IsNft(Contracts(Flatten(chain)), c) && Agrees(m, Owners(chain, c))
  }

  /** The picks of the first `k` calls for a block. */
  function PicksOf(senders: Signers, recipients: Signers, roll: Roll, k: nat): (picks: seq<Pick>)
    ensures |picks| == k
  {
    seq(k, i requires 0 <= i < k => PickOf(senders, recipients, roll.draws(i)))
  }

  lemma {:induction false} NextPick(senders: Signers, recipients: Signers, roll: Roll, k: nat)
    ensures PicksOf(senders, recipients, roll, k + 1) ==
            PicksOf(senders, recipients, roll, k) + [PickOf(senders, recipients, roll.draws(k))]
  {
  }

  /** On contract `c`, only tokens have changed hands; other contracts may have come and changed. */
  ghost predicate OnlyTransferred(before: seq<Contract>, after: seq<Contract>, c: nat) {
    c < |before| <= |after| && after[c] == before[c].(holders := after[c].holders)
  }

  lemma {:induction false} OnlyTransfers(base: seq<Tx>, txs: seq<Tx>, c: nat)
    requires IsNft(Contracts(base), c) && AreTransfers(txs, c)
    ensures OnlyTransferred(Contracts(base), Contracts(base + txs), c)
  {
    if txs == [] {
      assert base + txs == base;
    } else {
      var init, last := txs[..|txs| - 1], txs[|txs| - 1];
      OnlyTransfers(base, init, c);
      assert base + txs == (base + init) + [last];
      ContractsSnoc(base + init, last);
    }
  }

  /** What a generation has put on the chain. */
  function Put(e: Option<Event>): seq<Block> {
    if e.Some? && e.value.Generated? then e.value.blocks[..Inserted(e.value)] else []
  }

  lemma {:induction false} PutsOne(e: Option<Event>, b: Block, env: Env)
    requires e.Some? ==> e.value == Generation([b], env)
    ensures Put(e) == [] || Put(e) == [b]
  {
  }

  /** What the loop does not change. */
  datatype Stage = Stage(
    config: Serial.Config, settings: Settings, senders: Signers, recipients: Signers, contract: nat)

  /** The first `k` calls for a block have returned `txs`, and moved the index from `m` to `now`. */
  ghost predicate Filled(
      st: Stage, m: Mapping, now: Mapping, below: seq<Tx>, txs: seq<Tx>, roll: Roll, k: nat) {
    var picks := PicksOf(st.senders, st.recipients, roll, k);
    ValidTxs(below + txs) && IsSent(m, picks, st.contract, txs) && now == AfterPicks(m, picks)
  }

  lemma {:induction false} NothingFilled(st: Stage, m: Mapping, below: seq<Tx>, roll: Roll)
    requires ValidTxs(below)
    ensures Filled(st, m, m, below, [], roll, 0)
  {
    assert below + [] == below && PicksOf(st.senders, st.recipients, roll, 0) == [];
  }

  lemma {:induction false} FilledMeans(
      st: Stage, m: Mapping, now: Mapping, below: seq<Tx>, txs: seq<Tx>, roll: Roll, k: nat)
    requires Filled(st, m, now, below, txs, roll, k)
    ensures var picks := PicksOf(st.senders, st.recipients, roll, k);
            ValidTxs(below + txs) && IsSent(m, picks, st.contract, txs) && now == AfterPicks(m, picks)
  {
  }

  /** After a tick that puts its block on the chain the index is in step with the chain. After one that loses its block
      it is if and only if the lost transfers would have moved nothing in the end. */
  lemma {:induction false} TickAndAgreement(
      m: Mapping, picks: seq<Pick>, before: seq<Block>, sent: seq<Tx>, put: seq<Block>, c: nat)
    requires InStep(m, before, c) && IsSent(m, picks, c, sent) && (put == [] || put == [Block(|before|, sent)])
    ensures InStep(AfterPicks(m, picks), before + put, c) <==>
            put != [] || Settle(Owners(before, c), CallsOf(sent)) == Some(Owners(before, c))
  {
    if put == [] {
      assert before + put == before;
      LostBlockAgreement(m, Owners(before, c), picks, c);
    } else {
      BlockKeepsAgreement(before, Block(|before|, sent), c, m, picks);
    }
  }

  /** One round of the loop: what the other threads put on the chain, and then the tick's picks, their transactions, and
      the generation that it comes to, if it comes to one. */
  datatype Round = Round(others: seq<Block>, picks: seq<Pick>, sent: seq<Tx>, e: Option<Event>)

  /** What a tick is, with this index and on this chain: `roll` decides all of it. */
  ghost predicate TickIs(st: Stage, m: Mapping, chain: seq<Block>, roll: Roll, r: Round, result: TickResult) {
    (result.LimitHit? <==> 0 < st.config.maxBlockNum <= |chain| - 1) &&
    (result.Panicked? <==> !result.LimitHit? && 0 < st.settings.maxTransactions < st.settings.minTransactions) &&
    (result.Generated? <==> r.e.Some? && r.e.value.Generated? && r.e.value.done) &&
    (result.LimitHit? || result.Panicked? ==> r.picks == [] && r.e.None?) &&
    r.picks == PicksOf(st.senders, st.recipients, roll, |r.picks|) && IsSent(m, r.picks, st.contract, r.sent) &&
    (r.e.Some? ==> r.e.value == Generation([Block(|chain|, r.sent)], roll.env) &&
                   BlockSize(st.settings, roll.size).Some? &&
                   |r.picks| == Max(0, BlockSize(st.settings, roll.size).value)) &&
    (result.Failed? && r.e.None? ==> !roll.packs(|r.picks|))
  }

  function AfterRounds(chain: seq<Block>, rounds: seq<Round>): seq<Block> {
    if rounds == [] then chain
    else
      var last := rounds[|rounds| - 1];
      AfterRounds(chain, rounds[..|rounds| - 1]) + last.others + Put(last.e)
  }

  function Moved(m: Mapping, rounds: seq<Round>): Mapping {
    if rounds == [] then m else AfterPicks(Moved(m, rounds[..|rounds| - 1]), rounds[|rounds| - 1].picks)
  }

  /** The chain on which round `k` ticks. */
  function Below(chain: seq<Block>, rounds: seq<Round>, k: nat): seq<Block>
    requires k < |rounds|
  {
    AfterRounds(chain, rounds[..k]) + rounds[k].others
  }

  /** Round `k` followed its signal. */
  ghost predicate RoundIs(st: Stage, m: Mapping, chain: seq<Block>, signals: seq<Signal>,
      results: seq<TickResult>, rounds: seq<Round>, k: nat)
    requires k < |rounds| == |results| <= |signals|
  {
    signals[k].Ticked? && Foreign(Flatten(rounds[k].others), st.contract) &&
    TickIs(st, Moved(m, rounds[..k]), Below(chain, rounds, k), signals[k].roll, rounds[k], results[k])
  }

  /** The rounds tell everything that has happened to index and chain, and the results are those of their ticks. */
  ghost predicate Told(st: Stage, m: Mapping, chain: seq<Block>, signals: seq<Signal>,
      results: seq<TickResult>, rounds: seq<Round>) {
    |rounds| == |results| <= |signals| &&
    forall k :: 0 <= k < |results| ==> RoundIs(st, m, chain, signals, results, rounds, k)
  }

  ghost predicate Played(st: Stage, m: Mapping, chain: seq<Block>, signals: seq<Signal>,
      results: seq<TickResult>, rounds: seq<Round>, now: Mapping, longer: seq<Block>) {
    Told(st, m, chain, signals, results, rounds) && now == Moved(m, rounds) && longer == AfterRounds(chain, rounds)
  }

  lemma {:induction false} RoundStays(st: Stage, m: Mapping, chain: seq<Block>, signals: seq<Signal>,
      results: seq<TickResult>, rounds: seq<Round>, k: nat, r: Round, result: TickResult)
    requires k < |rounds| == |results| < |signals| && RoundIs(st, m, chain, signals, results, rounds, k)
    ensures RoundIs(st, m, chain, signals, results + [result], rounds + [r], k)
  {
    assert (rounds + [r])[..k] == rounds[..k] && (rounds + [r])[k] == rounds[k];
    hide TickIs, Foreign, Flatten, Moved, AfterRounds;
  }

  lemma {:induction false} RoundsSnoc(m: Mapping, chain: seq<Block>, rounds: seq<Round>, r: Round)
    ensures Moved(m, rounds + [r]) == AfterPicks(Moved(m, rounds), r.picks)
    ensures AfterRounds(chain, rounds + [r]) == AfterRounds(chain, rounds) + r.others + Put(r.e)
    ensures Below(chain, rounds + [r], |rounds|) == AfterRounds(chain, rounds) + r.others
    ensures Moved(m, (rounds + [r])[..|rounds|]) == Moved(m, rounds)
  {
    assert (rounds + [r])[..|rounds|] == rounds;
    hide AfterPicks, Put;
  }

  lemma {:induction false} PlayedSnoc(st: Stage, m: Mapping, chain: seq<Block>, signals: seq<Signal>,
      results: seq<TickResult>, rounds: seq<Round>, now: Mapping, longer: seq<Block>, r: Round, result: TickResult)
    requires Played(st, m, chain, signals, results, rounds, now, longer)
    requires |results| < |signals| && signals[|results|].Ticked? && Foreign(Flatten(r.others), st.contract)
    requires TickIs(st, now, longer + r.others, signals[|results|].roll, r, result)
    ensures Played(st, m, chain, signals, results + [result], rounds + [r],
                   AfterPicks(now, r.picks), longer + r.others + Put(r.e))
  {
    RoundsSnoc(m, chain, rounds, r);
    hide TickIs, Foreign, Flatten, AfterPicks, Put, Moved, AfterRounds, Below;
    assert RoundIs(st, m, chain, signals, results + [result], rounds + [r], |rounds|);
    forall k | 0 <= k < |rounds| ensures RoundIs(st, m, chain, signals, results + [result], rounds + [r], k) {
      assert RoundIs(st, m, chain, signals, results, rounds, k);
      hide RoundIs;
      RoundStays(st, m, chain, signals, results, rounds, k, r, result);
    }
  }

  /** Nothing that a tick relies on fails. */
  ghost predicate AllWork(signals: seq<Signal>) {
    forall k :: 0 <= k < |signals| && signals[k].Ticked? ==>
      Works(signals[k].roll.env) && forall i: nat :: signals[k].roll.packs(i)
  }

  /** A result of the loop is `Generated` exactly if its round's generation is done. If nothing fails and there is no
      limit, every tick generates its block, unless every block panics. */
  lemma {:induction false} ResultsTell(st: Stage, m: Mapping, chain: seq<Block>, signals: seq<Signal>,
      results: seq<TickResult>, rounds: seq<Round>)
    requires Told(st, m, chain, signals, results, rounds)
    ensures forall k :: 0 <= k < |results| ==>
              (results[k].Generated? <==>
                 rounds[k].e.Some? && rounds[k].e.value.Generated? && rounds[k].e.value.done)
    ensures (AllWork(signals) && st.config.maxBlockNum == 0 &&
             !PanicsAlways(st.settings)) ==>
            forall k :: 0 <= k < |results| ==> results[k].Generated?
  {
    forall k | 0 <= k < |results|
      ensures results[k].Generated? <==>
                rounds[k].e.Some? && rounds[k].e.value.Generated? && rounds[k].e.value.done
      ensures (AllWork(signals) && st.config.maxBlockNum == 0 &&
               !PanicsAlways(st.settings)) ==> results[k].Generated?
    {
      hide Moved, Below, IsSent, PicksOf, BlockSize;
      assert RoundIs(st, m, chain, signals, results, rounds, k);
    }
  }

  /** All ids are still there, and an index that was in step with the chain still is. */
  ghost predicate Holds(m: Mapping, chain: seq<Block>, now: Mapping, longer: seq<Block>, c: nat) {
    Bag(now) == Bag(m) &&
    (IsNft(Contracts(Flatten(chain)), c) ==>
       OnlyTransferred(Contracts(Flatten(chain)), Contracts(Flatten(longer)), c)) &&
    (InStep(m, chain, c) ==> InStep(now, longer, c))
  }

  /** Blocks of other threads leave the index in step. */
  lemma {:induction false} ForeignKeepsStep(m: Mapping, chain: seq<Block>, blocks: seq<Block>, c: nat)
    requires IsNft(Contracts(Flatten(chain)), c) && Foreign(Flatten(blocks), c)
    ensures OnlyTransferred(Contracts(Flatten(chain)), Contracts(Flatten(chain + blocks)), c)
    ensures InStep(m, chain + blocks, c) <==> InStep(m, chain, c)
    ensures Contracts(Flatten(chain + blocks))[c] == Contracts(Flatten(chain))[c]
  {
    FlattenAppend(chain, blocks);
    ContractsAppend(Flatten(chain), Flatten(blocks));
    ForeignKeeps(Contracts(Flatten(chain)), Flatten(blocks), c);
  }

  lemma {:induction false} OthersKeepHolding(
      m: Mapping, chain: seq<Block>, now: Mapping, longer: seq<Block>, c: nat, blocks: seq<Block>)
    requires Holds(m, chain, now, longer, c) && Foreign(Flatten(blocks), c)
    ensures Holds(m, chain, now, longer + blocks, c)
  {
    hide Foreign, Flatten, Contracts, Agrees, Bag;
    if IsNft(Contracts(Flatten(chain)), c) {
      ForeignKeepsStep(now, longer, blocks, c);
    }
  }

  lemma {:induction false} OwnBlockTransfers(longer: seq<Block>, b: Block, c: nat)
    requires IsNft(Contracts(Flatten(longer)), c) && AreTransfers(b.txs, c)
    ensures OnlyTransferred(Contracts(Flatten(longer)), Contracts(Flatten(longer + [b])), c)
  {
    FlattenSnoc(longer, b);
    OnlyTransfers(Flatten(longer), b.txs, c);
  }

  /** What an index that was in step before the loop is after a tick, `longer` being the chain on which it ticks. */
  ghost predicate Decides(m: Mapping, chain: seq<Block>, now: Mapping, longer: seq<Block>,
      sent: seq<Tx>, put: seq<Block>, c: nat) {
    InStep(m, chain, c) ==>
      IsNft(Contracts(Flatten(longer)), c) &&
      (InStep(now, longer + put, c) <==>
         put != [] || Settle(Owners(longer, c), CallsOf(sent)) == Some(Owners(longer, c)))
  }

  lemma {:induction false} BlockKeepsHolding(
      m: Mapping, chain: seq<Block>, now: Mapping, longer: seq<Block>, c: nat, picks: seq<Pick>, sent: seq<Tx>)
    requires Holds(m, chain, now, longer, c) && IsSent(now, picks, c, sent)
    ensures Holds(m, chain, AfterPicks(now, picks), longer + [Block(|longer|, sent)], c)
  {
    var b := Block(|longer|, sent);
    PicksConserve(now, picks);
    hide Flatten, Contracts, Agrees, Bag, EmittedAll, CallsOf, AfterPicks, Settle, AreTransfers;
    if IsNft(Contracts(Flatten(chain)), c) {
      OwnBlockTransfers(longer, b, c);
    }
    if InStep(m, chain, c) {
      TickAndAgreement(now, picks, longer, sent, [b], c);
    }
  }

  lemma {:induction false} TickKeepsHolding(
      m: Mapping, chain: seq<Block>, now: Mapping, longer: seq<Block>, c: nat,
      picks: seq<Pick>, sent: seq<Tx>, put: seq<Block>)
    requires Holds(m, chain, now, longer, c) && IsSent(now, picks, c, sent)
    requires put == [] || put == [Block(|longer|, sent)]
    ensures Bag(AfterPicks(now, picks)) == Bag(m) && Decides(m, chain, AfterPicks(now, picks), longer, sent, put, c)
    ensures put != [] || picks == [] ==> Holds(m, chain, AfterPicks(now, picks), longer + put, c)
  {
    PicksConserve(now, picks);
    BlockKeepsHolding(m, chain, now, longer, c, picks, sent);
    if InStep(m, chain, c) {
      TickAndAgreement(now, picks, longer, sent, put, c);
    }
    assert picks == [] ==> AfterPicks(now, picks) == now;
    assert longer + [] == longer;
    hide IsSent, AfterPicks, Bag, Flatten, Contracts, Agrees, Settle, CallsOf;
  }

  /** The index is in step at the end exactly if the last tick has put its block on the chain, or what it sent moves
      nothing in the end; before the first tick it is. */
  ghost predicate Decided(m: Mapping, chain: seq<Block>, rounds: seq<Round>, now: Mapping, longer: seq<Block>, c: nat) {
    if rounds == [] then InStep(m, chain, c) ==> InStep(now, longer, c)
    else
      var k := |rounds| - 1;
      longer == Below(chain, rounds, k) + Put(rounds[k].e) &&
      Decides(m, chain, now, Below(chain, rounds, k), rounds[k].sent, Put(rounds[k].e), c)
  }

  lemma {:induction false} DecidedSnoc(m: Mapping, chain: seq<Block>, rounds: seq<Round>, r: Round,
      now: Mapping, longer: seq<Block>, c: nat)
    requires longer == AfterRounds(chain, rounds) + r.others && Decides(m, chain, now, longer, r.sent, Put(r.e), c)
    ensures Decided(m, chain, rounds + [r], now, longer + Put(r.e), c)
  {
    assert (rounds + [r])[..|rounds|] == rounds;
  }

  /** The loop has processed these ticks, none of them failed, and it goes on. */
  ghost predicate GoesOn(ticks: int, results: seq<TickResult>) {
    Reached(ticks, results) && !Ends(ticks, results) && Clean(results)
  }

  /** In the middle of the loop: one result for each of the first signals, which were ticks. */
  ghost predicate Processing(ticks: int, signals: seq<Signal>, results: seq<TickResult>) {
    GoesOn(ticks, results) && |results| <= |signals| && forall k :: 0 <= k < |results| ==> signals[k].Ticked?
  }

  /** At its end: it has processed all ticks up to the first other signal, unless one of them ended it. */
  ghost predicate Processed(ticks: int, signals: seq<Signal>, results: seq<TickResult>) {
    Reached(ticks, results) && |results| <= |signals| && (forall k :: 0 <= k < |results| ==> signals[k].Ticked?) &&
    (Ends(ticks, results) || |results| == |signals| || !signals[|results|].Ticked?)
  }

  /** The loop never stops early: nothing shorter counts as its end. */
  lemma {:induction false} ProcessedToTheEnd(ticks: int, signals: seq<Signal>, results: seq<TickResult>, k: nat)
    requires Processed(ticks, signals, results) && k < |results|
    ensures !Processed(ticks, signals, results[..k])
  {
    assert !Ends(ticks, results[..k]);
  }

  lemma {:induction false} NoMoreTicks(ticks: int, signals: seq<Signal>, results: seq<TickResult>)
    requires Processing(ticks, signals, results)
    requires |results| == |signals| || !signals[|results|].Ticked?
    ensures Processed(ticks, signals, results)
  {
  }

  lemma {:induction false} NothingYet(st: Stage, signals: seq<Signal>, m: Mapping, chain: seq<Block>)
    ensures Processing(st.settings.ticks, signals, []) && Played(st, m, chain, signals, [], [], m, chain)
    ensures Holds(m, chain, m, chain, st.contract) && Decided(m, chain, [], m, chain, st.contract)
  {
  }

  lemma {:induction false} ResultsSnoc(
      ticks: int, signals: seq<Signal>, results: seq<TickResult>, result: TickResult)
    requires Processing(ticks, signals, results) && |results| < |signals| && signals[|results|].Ticked?
    ensures var longer := results + [result];
      (if Ends(ticks, longer) then Processed(ticks, signals, longer) else Processing(ticks, signals, longer)) &&
      (Ends(ticks, longer) <==>
         result.Failed? || result.Panicked? || (result.Generated? && ticks > 0 && |longer| >= ticks)) &&
      (Clean(longer) <==> result.Generated? || result.LimitHit?)
  {
    var longer := results + [result];
    assert longer[..|results|] == results && longer[|results|] == result;
    assert forall k :: 0 <= k < |results| ==> longer[k] == results[k] && longer[..k] == results[..k];
  }

  /** The configuration is shared with the caller, and normalised in place. */
  class MonkeyOperatorConfig {
    var settings: Settings

    constructor (settings: Settings)
      ensures this.settings == settings
    {
      this.settings := settings;
    }
  }

  class MonkeyOperator {
    const config: MonkeyOperatorConfig
    const txGen: ERC721TransactionGenerator

    /** The command line passes the same server to the generator and to the operator. */
    constructor (config: MonkeyOperatorConfig, txGen: ERC721TransactionGenerator)
      modifies config
      ensures this.config == config && this.txGen == txGen && config.settings == Normalised(old(config.settings))
    {
      this.config, this.txGen := config, txGen;
      new;
      if config.settings.tickerInterval <= 0 {
        config.settings := config.settings.(tickerInterval := DEFAULT_INTERVAL);
      }
      if config.settings.transactionsPerBlock <= 0 {
        config.settings := config.settings.(transactionsPerBlock := DEFAULT_TRANSACTIONS);
      }
    }

    function Here(): Stage
      requires txGen.erc721Caller.Some?
      reads config, txGen`erc721Caller
    {
      Stage(txGen.server.config, config.settings, txGen.senders, txGen.recipients, txGen.erc721Caller.value)
    }

    /** One call of GenerateTransaction for a block, the `k`-th. Adding its transaction never panics: it carries its
        sender's next nonce. */
    method AddNext(below: seq<Tx>, txs: seq<Tx>, roll: Roll, k: nat, ghost m: Mapping)
      returns (longer: seq<Tx>, ok: bool)
      requires Separate(txGen.tokenMapping) && txGen.erc721Caller.Some?
      requires Filled(Here(), m, txGen.Index(), below, txs, roll, k)
      modifies txGen`tokenMapping, Arrays(txGen.tokenMapping)
      ensures Separate(txGen.tokenMapping) && fresh(Arrays(txGen.tokenMapping) - old(Arrays(txGen.tokenMapping)))
      ensures Filled(Here(), m, txGen.Index(), below, longer, roll, if ok then k + 1 else k)
      ensures !ok ==> !roll.packs(k)
    {
      ghost var picks, p := PicksOf(txGen.senders, txGen.recipients, roll, k),
        PickOf(txGen.senders, txGen.recipients, roll.draws(k));
      hide ValidTxs, IsSent, AfterPicks, AfterPick, PicksOf, PickOf, Separate, Lists, Signed;
      var tx := txGen.GenerateTransaction(below + txs, roll.draws(k), roll.packs(k));
      if tx.Err? {
        return txs, false;
      }
      OneMoreCall(below, txs, tx.value, m, picks, p, txGen.erc721Caller.value);
      NextPick(txGen.senders, txGen.recipients, roll, k);
      longer, ok := txs + if tx.value.Some? then [tx.value.value] else [], true;
    }

    /** The loop over the transactions of a block, up to the first call that fails. */
    method FillBlock(below: seq<Tx>, n: nat, roll: Roll) returns (txs: seq<Tx>, ok: bool, ghost picks: seq<Pick>)
      requires ValidTxs(below) && Separate(txGen.tokenMapping) && txGen.erc721Caller.Some?
      modifies txGen`tokenMapping, Arrays(txGen.tokenMapping)
      ensures Separate(txGen.tokenMapping) && fresh(Arrays(txGen.tokenMapping) - old(Arrays(txGen.tokenMapping)))
      ensures picks == PicksOf(txGen.senders, txGen.recipients, roll, |picks|)
      ensures txGen.Index() == AfterPicks(old(txGen.Index()), picks)
      ensures ValidTxs(below + txs) && IsSent(old(txGen.Index()), picks, txGen.erc721Caller.value, txs)
      ensures if ok then |picks| == n else |picks| < n && !roll.packs(|picks|)
    {
      ghost var m, st := txGen.Index(), Here();
      txs, picks := [], [];
      NothingFilled(st, m, below, roll);
      hide *;
      for i := 0 to n
        invariant Separate(txGen.tokenMapping) && st == Here()
        invariant fresh(Arrays(txGen.tokenMapping) - old(Arrays(txGen.tokenMapping)))
        invariant Filled(st, m, txGen.Index(), below, txs, roll, i)
      {
        txs, ok := AddNext(below, txs, roll, i, m);
        if !ok {
          picks := PicksOf(txGen.senders, txGen.recipients, roll, i);
          FilledMeans(st, m, txGen.Index(), below, txs, roll, i);
          return;
        }
      }
      picks, ok := PicksOf(txGen.senders, txGen.recipients, roll, n), true;
      FilledMeans(st, m, txGen.Index(), below, txs, roll, n);
    }

    /** The rest of the generation once the callback has returned `ok`. */
    method Submit(txs: seq<Tx>, ok: bool, env: Env) returns (works: bool, ghost e: Option<Event>)
      requires !LimitReached(txGen.server.config, Head(txGen.server.chain))
      requires ValidTxs(Flatten(txGen.server.chain) + txs)
      modifies txGen.server`chain, txGen.server`stats
      ensures e == if ok then Some(Generation([Block(old(|txGen.server.chain|), txs)], env)) else None
      ensures works <==> e.Some? && e.value.Generated? && e.value.done
      ensures Leads(txGen.server.config, old(txGen.server.Now()), e, txGen.server.Now())
      ensures txGen.server.chain == old(txGen.server.chain) + Put(e)
    {
      var chain := txGen.server.chain;
      OneBlockContinues(chain, txs);
      var script := [Outcome(txs, ok)];
      assert Built(|chain|, script) == [Block(|chain|, txs)] && AllOk(script) == script[0].ok;
      assert chain + [] == chain;
      var r, calls;
      r, calls, e := txGen.server.GenerateBlocksUnlocked(1, Some(script), env);
      works := r.Ok?;
    }

    /** The generation of a block with `n` calls of GenerateTransaction, below the limit. */
    method Generate(n: nat, roll: Roll)
      returns (works: bool, ghost picks: seq<Pick>, sent: seq<Tx>, ghost e: Option<Event>)
      requires Separate(txGen.tokenMapping) && txGen.erc721Caller.Some?
      requires !LimitReached(txGen.server.config, Head(txGen.server.chain))
      modifies txGen`tokenMapping, Arrays(txGen.tokenMapping), txGen.server`chain, txGen.server`stats
      ensures Separate(txGen.tokenMapping) && fresh(Arrays(txGen.tokenMapping) - old(Arrays(txGen.tokenMapping)))
      ensures picks == PicksOf(txGen.senders, txGen.recipients, roll, |picks|)
      ensures txGen.Index() == AfterPicks(old(txGen.Index()), picks)
      ensures IsSent(old(txGen.Index()), picks, txGen.erc721Caller.value, sent)
      ensures works <==> e.Some? && e.value.Generated? && e.value.done
      ensures e.Some? ==>
        |picks| == n && e.value == Generation([Block(old(|txGen.server.chain|), sent)], roll.env)
      ensures e.None? ==> |picks| < n && !roll.packs(|picks|)
      ensures Leads(txGen.server.config, old(txGen.server.Now()), e, txGen.server.Now())
      ensures txGen.server.chain == old(txGen.server.chain) + Put(e)
    {
      hide ValidTxs, Flatten, AfterPicks, IsSent, Leads, Separate, Lists, LimitReached, PicksOf, Generation, Put;
      var ok;
      sent, ok, picks := FillBlock(Flatten(txGen.server.chain), n, roll);
      works, e := Submit(sent, ok, roll.env);
    }

    /** One tick: the server checks its limit and then has `FillBlock` run as the callback of the generation. */
    method Tick(roll: Roll) returns (result: TickResult, ghost picks: seq<Pick>, sent: seq<Tx>, ghost e: Option<Event>)
      requires Separate(txGen.tokenMapping) && txGen.erc721Caller.Some?
      modifies txGen`tokenMapping, Arrays(txGen.tokenMapping), txGen.server`chain, txGen.server`stats
      ensures Separate(txGen.tokenMapping) && fresh(Arrays(txGen.tokenMapping) - old(Arrays(txGen.tokenMapping)))
      ensures picks == PicksOf(txGen.senders, txGen.recipients, roll, |picks|)
      ensures txGen.Index() == AfterPicks(old(txGen.Index()), picks)
      ensures IsSent(old(txGen.Index()), picks, txGen.erc721Caller.value, sent)
      ensures result.LimitHit? <==> 0 < txGen.server.config.maxBlockNum <= old(|txGen.server.chain|) - 1
      ensures result.Panicked? <==>
        !result.LimitHit? && 0 < config.settings.maxTransactions < config.settings.minTransactions
      ensures result.LimitHit? || result.Panicked? ==> picks == [] && e.None?
      ensures result.Generated? <==> e.Some? && e.value.Generated? && e.value.done
      ensures e.Some? ==>
        BlockSize(config.settings, roll.size).Some? &&
        |picks| == Max(0, BlockSize(config.settings, roll.size).value) &&
        e.value == Generation([Block(old(|txGen.server.chain|), sent)], roll.env)
      ensures result.Failed? && e.None? ==> !roll.packs(|picks|)
      ensures Leads(txGen.server.config, old(txGen.server.Now()), e, txGen.server.Now())
      ensures txGen.server.chain == old(txGen.server.chain) + Put(e)
    {
      picks, sent, e := [], [], None;
      assert IsSent(txGen.Index(), [], txGen.erc721Caller.value, []);
      assert Leads(txGen.server.config, txGen.server.Now(), None, txGen.server.Now());
      assert Put(None) == [] && txGen.server.chain + [] == txGen.server.chain;
      hide ValidTxs, Flatten, EmittedAll, IsSent, Leads, Separate, Lists, PicksOf, Generation, Put;
      if LimitReached(txGen.server.config, Head(txGen.server.chain)) {
        return LimitHit, picks, sent, e;
      }
      var size := BlockSize(config.settings, roll.size);
      if size.None? {
        return Panicked, picks, sent, e;
      }
      var works;
      works, picks, sent, e := Generate(Max(0, size.value), roll);
      result := if works then TickResult.Generated else Failed;
    }

    /** The other threads run; index and contract are not theirs. */
    method RunOthers() returns (o: Others)
      requires Separate(txGen.tokenMapping) && txGen.erc721Caller.Some?
      modifies txGen.server`chain, txGen.server`stats, txGen.server`stateDB
      ensures txGen.server.chain == old(txGen.server.chain) + o.blocks
      ensures Foreign(Flatten(o.blocks), txGen.erc721Caller.value)
      ensures txGen.tokenMapping == old(txGen.tokenMapping) && txGen.Index() == old(txGen.Index())
    {
      o := txGen.server.OtherThreads(Own(txGen.ThePlan()), txGen.erc721Caller);
    }

    /** A tick as part of the loop, after the blocks `others`. `m` and `chain` are index and chain before the loop. */
    method TickOnce(roll: Roll, ghost st: Stage, ghost m: Mapping, ghost chain: seq<Block>, ghost others: seq<Block>)
      returns (result: TickResult, ghost r: Round)
      requires Separate(txGen.tokenMapping) && txGen.erc721Caller.Some? && st == Here()
      requires Holds(m, chain, txGen.Index(), txGen.server.chain, st.contract)
      modifies txGen`tokenMapping, Arrays(txGen.tokenMapping), txGen.server`chain, txGen.server`stats
      ensures Separate(txGen.tokenMapping) && fresh(Arrays(txGen.tokenMapping) - old(Arrays(txGen.tokenMapping)))
      ensures r.others == others && TickIs(st, old(txGen.Index()), old(txGen.server.chain), roll, r, result)
      ensures txGen.Index() == AfterPicks(old(txGen.Index()), r.picks)
      ensures txGen.server.chain == old(txGen.server.chain) + Put(r.e)
      ensures Bag(txGen.Index()) == Bag(m)
      ensures Decides(m, chain, txGen.Index(), old(txGen.server.chain), r.sent, Put(r.e), st.contract)
      ensures result.Generated? || result.LimitHit? ==>
        Holds(m, chain, txGen.Index(), txGen.server.chain, st.contract)
    {
      ghost var before, below := txGen.Index(), txGen.server.chain;
      assert st.config == txGen.server.config && st.settings == config.settings;
      assert st.senders == txGen.senders && st.recipients == txGen.recipients;
      assert st.contract == txGen.erc721Caller.value;
      hide Separate, Lists, Holds, AfterPicks, PicksOf, IsSent, Bag, Decides, BlockSize, Leads, Here, Put, Generation;
      var sent;
      ghost var picks, e;
      result, picks, sent, e := Tick(roll);
      r := Round(others, picks, sent, e);
      PutsOne(e, Block(|below|, sent), roll.env);
      TickKeepsHolding(m, chain, before, below, st.contract, picks, sent, Put(e));
    }

    /** The end of the loop's case for a tick. */
    method Count(ghost signals: seq<Signal>, results: seq<TickResult>, result: TickResult)
      returns (longer: seq<TickResult>, stop: bool)
      requires Processing(config.settings.ticks, signals, results)
      requires |results| < |signals| && signals[|results|].Ticked?
      ensures longer == results + [result] && (Clean(longer) <==> result.Generated? || result.LimitHit?)
      ensures if stop then Processed(config.settings.ticks, signals, longer)
              else Processing(config.settings.ticks, signals, longer) && Clean(longer)
    {
      hide *;
      ResultsSnoc(config.settings.ticks, signals, results, result);
      longer := results + [result];
      if result.LimitHit? {
        stop := false;
      } else {
        stop := !result.Generated? || (config.settings.ticks > 0 && |longer| >= config.settings.ticks);
      }
    }

    /** The other threads, and then a tick. */
    method PlayRound(roll: Roll, ghost st: Stage, ghost m: Mapping, ghost chain: seq<Block>, ghost rounds: seq<Round>)
      returns (result: TickResult, ghost r: Round)
      requires Separate(txGen.tokenMapping) && txGen.erc721Caller.Some? && st == Here()
      requires txGen.server.chain == AfterRounds(chain, rounds)
      requires Holds(m, chain, txGen.Index(), txGen.server.chain, st.contract)
      modifies txGen`tokenMapping, Arrays(txGen.tokenMapping)
      modifies txGen.server`chain, txGen.server`stats, txGen.server`stateDB
      ensures Separate(txGen.tokenMapping) && fresh(Arrays(txGen.tokenMapping) - old(Arrays(txGen.tokenMapping)))
      ensures Foreign(Flatten(r.others), st.contract)
      ensures TickIs(st, old(txGen.Index()), old(txGen.server.chain) + r.others, roll, r, result)
      ensures txGen.Index() == AfterPicks(old(txGen.Index()), r.picks)
      ensures txGen.server.chain == old(txGen.server.chain) + r.others + Put(r.e)
      ensures Bag(txGen.Index()) == Bag(m)
      ensures Decided(m, chain, rounds + [r], txGen.Index(), txGen.server.chain, st.contract)
      ensures result.Generated? || result.LimitHit? ==>
        Holds(m, chain, txGen.Index(), txGen.server.chain, st.contract)
    {
      ghost var now, was := txGen.Index(), txGen.server.chain;
      assert st.contract == txGen.erc721Caller.value;
      hide *;
      var o := RunOthers();
      OthersKeepHolding(m, chain, now, was, st.contract, o.blocks);
      ghost var below := txGen.server.chain;
      result, r := TickOnce(roll, st, m, chain, o.blocks);
      DecidedSnoc(m, chain, rounds, r, txGen.Index(), below, st.contract);
    }

    /** The loop's case for a tick: count it, and decide whether to go on. */
    method ProcessTick(signals: seq<Signal>, results: seq<TickResult>,
        ghost st: Stage, ghost m: Mapping, ghost chain: seq<Block>, ghost rounds: seq<Round>)
      returns (longer: seq<TickResult>, stop: bool, ghost more: seq<Round>)
      requires Separate(txGen.tokenMapping) && txGen.erc721Caller.Some? && st == Here()
      requires Processing(st.settings.ticks, signals, results)
      requires |results| < |signals| && signals[|results|].Ticked?
      requires Played(st, m, chain, signals, results, rounds, txGen.Index(), txGen.server.chain)
      requires Holds(m, chain, txGen.Index(), txGen.server.chain, st.contract)
      modifies txGen`tokenMapping, Arrays(txGen.tokenMapping)
      modifies txGen.server`chain, txGen.server`stats, txGen.server`stateDB
      ensures Separate(txGen.tokenMapping) && fresh(Arrays(txGen.tokenMapping) - old(Arrays(txGen.tokenMapping)))
      ensures |longer| == |results| + 1
      ensures if stop then Processed(st.settings.ticks, signals, longer)
              else Processing(st.settings.ticks, signals, longer) && Clean(longer)
      ensures Played(st, m, chain, signals, longer, more, txGen.Index(), txGen.server.chain)
      ensures Bag(txGen.Index()) == Bag(m)
      ensures Decided(m, chain, more, txGen.Index(), txGen.server.chain, st.contract)
      ensures Clean(longer) ==> Holds(m, chain, txGen.Index(), txGen.server.chain, st.contract)
    {
      ghost var now, was := txGen.Index(), txGen.server.chain;
      assert st.settings == config.settings && was == AfterRounds(chain, rounds);
      hide *;
      var result;
      ghost var r;
      result, r := PlayRound(signals[|results|].roll, st, m, chain, rounds);
      PlayedSnoc(st, m, chain, signals, results, rounds, now, was, r, result);
      more := rounds + [r];
      longer, stop := Count(signals, results, result);
    }

    /** The goroutine's loop over what its `select` sees, one `results` entry per tick. Before every tick the other
        threads run. `rounds` tells what has happened; the results are those of its ticks. */
    method Loop(signals: seq<Signal>) returns (results: seq<TickResult>, ghost rounds: seq<Round>)
      requires Separate(txGen.tokenMapping) && txGen.erc721Caller.Some?
      modifies txGen`tokenMapping, Arrays(txGen.tokenMapping)
      modifies txGen.server`chain, txGen.server`stats, txGen.server`stateDB
      ensures Separate(txGen.tokenMapping) && Processed(config.settings.ticks, signals, results)
      ensures Played(Here(), old(txGen.Index()), old(txGen.server.chain), signals, results, rounds,
                     txGen.Index(), txGen.server.chain)
      ensures forall k :: 0 <= k < |results| ==>
        (results[k].Generated? <==> rounds[k].e.Some? && rounds[k].e.value.Generated? && rounds[k].e.value.done)
      ensures Bag(txGen.Index()) == old(Bag(txGen.Index()))
      ensures Decided(old(txGen.Index()), old(txGen.server.chain), rounds, txGen.Index(), txGen.server.chain,
                      txGen.erc721Caller.value)
      ensures Clean(results) ==>
        Holds(old(txGen.Index()), old(txGen.server.chain), txGen.Index(), txGen.server.chain,
              txGen.erc721Caller.value)
    {
      results, rounds := [], [];
      ghost var m, chain, st := txGen.Index(), txGen.server.chain, Here();
      NothingYet(st, signals, m, chain);
      assert st.contract == txGen.erc721Caller.value && st.settings == config.settings;
      hide *;
      for i := 0 to |signals|
        invariant |results| == i && Processing(st.settings.ticks, signals, results)
        invariant Separate(txGen.tokenMapping) && st == Here()
        invariant fresh(Arrays(txGen.tokenMapping) - old(Arrays(txGen.tokenMapping)))
        invariant Played(st, m, chain, signals, results, rounds, txGen.Index(), txGen.server.chain)
        invariant Holds(m, chain, txGen.Index(), txGen.server.chain, st.contract) && Bag(txGen.Index()) == Bag(m)
        invariant Decided(m, chain, rounds, txGen.Index(), txGen.server.chain, st.contract)
      {
        if !signals[i].Ticked? {
          break;
        }
        var stop;
        results, stop, rounds := ProcessTick(signals, results, st, m, chain, rounds);
        if stop {
          PlayedTells(st, m, chain, signals, results, rounds, txGen.Index(), txGen.server.chain);
          return;
        }
      }
      NoMoreTicks(st.settings.ticks, signals, results);
      PlayedTells(st, m, chain, signals, results, rounds, txGen.Index(), txGen.server.chain);
    }
  }

  lemma {:induction false} PlayedTells(st: Stage, m: Mapping, chain: seq<Block>, signals: seq<Signal>,
      results: seq<TickResult>, rounds: seq<Round>, now: Mapping, longer: seq<Block>)
    requires Played(st, m, chain, signals, results, rounds, now, longer)
    ensures |rounds| == |results|
    ensures forall k :: 0 <= k < |results| ==>
              (results[k].Generated? <==>
                 rounds[k].e.Some? && rounds[k].e.value.Generated? && rounds[k].e.value.done)
  {
    ResultsTell(st, m, chain, signals, results, rounds);
  }

  // ----- The command line -----

  /** The store holds a contract `c` of the operator and the complete index, and the index is in step with the chain
      if and only if the first sender owns the contract or there is nothing to mint. */
  ghost predicate Recovered(g: Erc721.Setup, w: World, chain: seq<Block>, c: nat)
    requires g.senders != []
  {
    Stored(PlanOf(g), w) == Some(c) &&
    MAPPING_KEY in w.store && w.store[MAPPING_KEY] == MappingValue(FullIndex(g)) &&
    w.contracts == Contracts(Flatten(chain)) && IsNft(w.contracts, c) &&
    (InStep(FullIndex(g), chain, c) <==> w.contracts[c].owner == g.senders[0] || Total(g) == 0)
  }

  lemma {:induction false} OneMoreRecovers(
      g: Erc721.Setup, w: World, attempts: seq<Attempt>, a: Attempt, chain: seq<Block>, c: nat)
    requires g.senders != [] && CALLER_KEY !in w.store && MAPPING_KEY !in w.store
    requires AllPossible(PlanOf(g), w, attempts) && Possible(PlanOf(g), AfterAttempts(PlanOf(g), w, attempts), a)
    requires var after := AfterAttempt(PlanOf(g), AfterAttempts(PlanOf(g), w, attempts), a);
             MAPPING_KEY in after.store && Stored(PlanOf(g), after) == Some(c) &&
             after.contracts == Contracts(Flatten(chain))
    ensures var after := AfterAttempt(PlanOf(g), AfterAttempts(PlanOf(g), w, attempts), a);
            Recovered(g, after, chain, c) && Deployer(attempts + [a]) == Some(after.contracts[c].owner)
  {
    AttemptsSnoc(PlanOf(g), w, attempts, a);
    hide AfterAttempts, AfterAttempt, AllPossible, Possible, FullIndex, Agrees;
    Recovery(g, w, attempts + [a]);
  }

  lemma {:induction false} EarlierIsReadable(g: Erc721.Setup, w: World, attempts: seq<Attempt>)
    requires g.senders != [] && CALLER_KEY !in w.store && MAPPING_KEY !in w.store
    requires AllPossible(PlanOf(g), w, attempts)
    ensures Readable(PlanOf(g), AfterAttempts(PlanOf(g), w, attempts))
  {
    var p := PlanOf(g);
    PlanIsProper(g);
    AttemptsAreAccounted(p, w, attempts);
    assert |CALLER_KEY| > 0 && |MAPPING_KEY| > 0;
    AccountedIsReadable(p, AfterAttempts(p, w, attempts), Deployer(attempts), Landed(p, w, attempts),
                        Furthest(p, w, attempts));
  }

  lemma {:induction false} RecoveredIsReadable(g: Erc721.Setup, w: World, chain: seq<Block>, c: nat)
    requires g.senders != [] && Recovered(g, w, chain, c)
    ensures Readable(PlanOf(g), w)
  {
    assert |CALLER_KEY| > 0 && |MAPPING_KEY| > 0;
  }

  /** The first initialisation, after any number of attempts that were cut off, and with the other threads running. On
      a healthy server it succeeds. */
  method InitializeFirst(
      txGen: ERC721TransactionGenerator, random: nat, ghost w: World, ghost attempts: seq<Attempt>)
    returns (ready: bool, ghost a: Attempt)
    requires CALLER_KEY !in w.store && MAPPING_KEY !in w.store && AllPossible(txGen.ThePlan(), w, attempts)
    requires txGen.Now() == AfterAttempts(txGen.ThePlan(), w, attempts)
    modifies txGen, txGen.server`chain, txGen.server`stats, txGen.server`stateDB
    ensures ready ==>
      txGen.erc721Caller.Some? &&
      Recovered(txGen.Config(), txGen.Now(), txGen.server.chain, txGen.erc721Caller.value) &&
      Deployer(attempts + [a]) == Some(txGen.Now().contracts[txGen.erc721Caller.value].owner)
    ensures ready ==>
      Separate(txGen.tokenMapping) && Complete(txGen.senders, txGen.mintedTokens, txGen.Index())
    ensures a.deployer == txGen.senders[random % |txGen.senders|]
    ensures old(txGen.server.Healthy()) ==> txGen.server.Healthy() && ready
  {
    EarlierIsReadable(txGen.Config(), w, attempts);
    FullIndexIsComplete(txGen.Config());
    var r;
    r, a := txGen.Initialize(random);
    ready := r.Ok?;
    if ready {
      hide AfterAttempts, AfterAttempt, AllPossible, Possible, FullIndex, Contracts, Flatten, Complete;
      OneMoreRecovers(txGen.Config(), w, attempts, a, txGen.server.chain, txGen.erc721Caller.value);
    }
  }

  lemma {:induction false} OthersKeepRecovered(g: Erc721.Setup, w: World, chain: seq<Block>, c: nat, o: Others)
    requires g.senders != [] && Recovered(g, w, chain, c) && LeaveAlone(o, c)
    requires AfterOthers(w, Own(PlanOf(g)), o).contracts == Contracts(Flatten(chain + o.blocks))
    ensures var after := AfterOthers(w, Own(PlanOf(g)), o);
            Recovered(g, after, chain + o.blocks, c) && after.contracts[c] == w.contracts[c]
  {
    ForeignKeepsStep(FullIndex(g), chain, o.blocks, c);
  }

  /** The second one puts no block on the chain and nothing into the store: all that changes there is what the other
      threads do. It leads to the same contract and the same index. */
  method InitializeAgain(txGen: ERC721TransactionGenerator, random: nat, ghost c: nat)
    returns (ready: bool, ghost others: Others)
    requires Recovered(txGen.Config(), txGen.Now(), txGen.server.chain, c)
    modifies txGen, txGen.server`chain, txGen.server`stats, txGen.server`stateDB
    ensures txGen.server.chain == old(txGen.server.chain) + others.blocks && LeaveAlone(others, c)
    ensures txGen.Now() == AfterOthers(old(txGen.Now()), Own(txGen.ThePlan()), others)
    ensures Recovered(txGen.Config(), txGen.Now(), txGen.server.chain, c)
    ensures txGen.Now().contracts[c] == old(txGen.Now()).contracts[c]
    ensures ready ==>
      Separate(txGen.tokenMapping) && fresh(Arrays(txGen.tokenMapping)) &&
      txGen.erc721Caller == Some(c) && txGen.Index() == FullIndex(txGen.Config())
    ensures old(txGen.server.Healthy()) ==> txGen.server.Healthy() && ready
  {
    RecoveredIsReadable(txGen.Config(), txGen.Now(), txGen.server.chain, c);
    ghost var a;
    ghost var start, chain := txGen.Now(), txGen.server.chain;
    var r;
    r, a := txGen.Initialize(random);
    others := a.before;
    ready := r.Ok?;
    hide Contracts, Flatten, ExecuteAll, FullIndex, AfterAttempt, InStep, Foreign;
    OthersKeepRecovered(txGen.Config(), start, chain, c, others);
  }

  lemma {:induction false} HeldToTheEnd(m: Mapping, chain: seq<Block>, now: Mapping, longer: seq<Block>, c: nat)
    requires Holds(m, chain, now, longer, c) && IsNft(Contracts(Flatten(chain)), c)
    ensures var before, after := Contracts(Flatten(chain)), Contracts(Flatten(longer));
            IsNft(after, c) && after[c].owner == before[c].owner &&
            (InStep(m, chain, c) ==> Agrees(now, Owners(longer, c)))
  {
  }

  /** `MonkeyOperator.Run`: the second initialisation and the loop. The index lists every token once, whatever fails; if
      no tick fails and it was complete and in step, it is the inverse of the owners at the end. */
  method Run(operator: MonkeyOperator, random: nat, signals: seq<Signal>, ghost c: nat)
    returns (ready: bool, results: seq<TickResult>)
    requires Recovered(operator.txGen.Config(), operator.txGen.Now(), operator.txGen.server.chain, c)
    modifies operator.txGen
    modifies operator.txGen.server`chain, operator.txGen.server`stats, operator.txGen.server`stateDB
    ensures ready ==>
      Separate(operator.txGen.tokenMapping) && operator.txGen.erc721Caller == Some(c) &&
      Processed(operator.config.settings.ticks, signals, results) &&
      Bag(operator.txGen.Index()) == Bag(FullIndex(operator.txGen.Config()))
    ensures ready && Clean(results) ==>
      IsNft(operator.txGen.Now().contracts, c) &&
      operator.txGen.Now().contracts[c].owner == old(operator.txGen.Now()).contracts[c].owner &&
      (old(operator.txGen.Now()).contracts[c].owner == operator.txGen.senders[0] || Total(operator.txGen.Config()) == 0
       ==> Agrees(operator.txGen.Index(), Owners(operator.txGen.server.chain, c)))
    ensures old(operator.txGen.server.Healthy()) ==>
      ready &&
      (AllWork(signals) && !PanicsAlways(operator.config.settings) ==>
         forall k :: 0 <= k < |results| ==> results[k].Generated?)
  {
    hide Processed, Bag, Flatten, Contracts, Agrees, Lists, MintedIndex, Clean, Foreign, ExecuteAll;
    hide Total, Holds, InStep, AfterOthers, Told, Decided, AllWork, FullIndex;
    results := [];
    ghost var others, rounds, start := NOTHING, [], operator.txGen.Now();
    ready, others := InitializeAgain(operator.txGen, random, c);
    if !ready {
      return;
    }
    ghost var m, chain := operator.txGen.Index(), operator.txGen.server.chain;
    results, rounds := operator.Loop(signals);
    ResultsTell(operator.Here(), m, chain, signals, results, rounds);
    if Clean(results) {
      HeldToTheEnd(m, chain, operator.txGen.Index(), operator.txGen.server.chain, c);
    }
  }

  /** From any number of attempts that were cut off to the last tick, with the other threads running all the time.
      Whatever fails, no token is lost or doubled in the index. If no tick fails, the index is at the end the inverse of
      the owners on the chain, provided that the contract was deployed by the first sender or there was nothing to mint.
      On a healthy server nothing fails, and every tick generates its block. */
  method RunMonkeyERC721Transferors(
      txGen: ERC721TransactionGenerator, config: MonkeyOperatorConfig, random: nat, signals: seq<Signal>,
      ghost w: World, ghost attempts: seq<Attempt>)
    returns (ready: bool, results: seq<TickResult>, ghost a: Attempt)
    requires CALLER_KEY !in w.store && MAPPING_KEY !in w.store && AllPossible(txGen.ThePlan(), w, attempts)
    requires txGen.Now() == AfterAttempts(txGen.ThePlan(), w, attempts)
    modifies config, txGen, txGen.server`chain, txGen.server`stats, txGen.server`stateDB
    ensures ready ==>
      Separate(txGen.tokenMapping) && txGen.erc721Caller.Some? &&
      config.settings == Normalised(old(config.settings)) && Processed(config.settings.ticks, signals, results) &&
      var minted := if txGen.mintedTokens <= 0 then 0 else txGen.mintedTokens * |txGen.senders|;
      forall id: nat :: Bag(txGen.Index())[id] == if 1 <= id <= minted then 1 else 0
    ensures ready && Clean(results) ==>
      IsNft(txGen.Now().contracts, txGen.erc721Caller.value) &&
      Deployer(attempts + [a]) == Some(txGen.Now().contracts[txGen.erc721Caller.value].owner) &&
      (Deployer(attempts + [a]) == Some(txGen.senders[0]) || txGen.mintedTokens <= 0 ==>
         Agrees(txGen.Index(), Owners(txGen.server.chain, txGen.erc721Caller.value)))
    ensures old(txGen.server.running && txGen.server.stateDB.Some?) && txGen.server.reliable &&
            txGen.server.config.maxBlockNum == 0 ==>
      ready &&
      (AllWork(signals) && !PanicsAlways(config.settings) ==>
         forall k :: 0 <= k < |results| ==> results[k].Generated?)
  {
    assert Total(txGen.Config()) == if txGen.mintedTokens <= 0 then 0 else txGen.mintedTokens * |txGen.senders|;
    assert FullIndex(txGen.Config()) == MintedIndex(txGen.senders, Total(txGen.Config()));
    hide Processed, Bag, Flatten, Contracts, Agrees, Lists, MintedIndex, Clean, Deployer, FullIndex;
    hide AfterAttempts, AllPossible, Total, InStep, Normalised, Complete, AllWork, PanicsAlways;
    results := [];
    ready, a := InitializeFirst(txGen, random, w, attempts);
    if !ready {
      return;
    }
    var operator := new MonkeyOperator(config, txGen);
    ready, results := Run(operator, random, signals, txGen.erc721Caller.value);
    MintedBag(txGen.senders, Total(txGen.Config()));
  }

  // ----- Three operators on one server -----

  /** The three token operators use different keys: each is one of the others for the other two. */
  lemma {:induction false} KeysAreSeparate()
    ensures {CALLER_KEY, MAPPING_KEY} !!
            {Fungible.ERC1155_KEY + Fungible.CALLER, Fungible.ERC1155_KEY + Fungible.MINTED} !!
            {Fungible.ERC20_KEY + Fungible.CALLER, Fungible.ERC20_KEY + Fungible.MINTED}
  {
    var minted1155, caller20 := Fungible.ERC1155_KEY + Fungible.MINTED, Fungible.ERC20_KEY + Fungible.CALLER;
    assert |CALLER_KEY| == 43 && |MAPPING_KEY| == 41;
    assert |Fungible.ERC1155_KEY + Fungible.CALLER| == 44 && |minted1155| == 42;
    assert |caller20| == 42 && |Fungible.ERC20_KEY + Fungible.MINTED| == 40;
    assert minted1155[9] == '1' && caller20[9] == '2';
  }
}
