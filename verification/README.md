# A verified model of the Ethereum test server and its monkey operators

`ethtestserver.go` wraps a go-ethereum node and adds a small concurrent machine of its own: blocks are
generated under a mutex up to a block-number limit, pool transactions are packed greedily, forks below the head are
simulated, statistics are kept, values are stored in a side database, and all of it is started and stopped.
`operator/monkey/monkey.go` fills blocks on a ticker, and the generators in
`cmd/ethtestserver/operators.go` mint tokens once and then keep sending transfers. This project models the three
together and proves what they keep over every run.

The chain is a sequence of blocks, genesis first, and a block a sequence of transactions. go-ethereum and the database are the
environment. It is described by what the code relies on: a block generation runs its callback
once per index, in order; `TxNonce` reports the sender's next nonce and `AddTx` panics on any other; an
insertion may stop anywhere; a fork either fails and changes nothing or cuts the chain at the given block, after which the beacon
commits at most one valid block; `node.Start` fails on a node that was started before; decoding undoes encoding.
What the environment does and what the random generator draws are parameters: of the step labels in the state machines,
and of the methods, whose results they determine exactly. Methods that make many calls (the initialisations) leave
them free, unless the server is `reliable`: then nothing in the environment fails. The contracts say that nothing in the
operators fails either on a healthy server, that is, one that runs, has its database and no block limit, and is reliable.

| file | content |
|---|---|
| `Words.dfy` | Go's 64-bit integers; `Option` and `Result` |
| `Ledger.dfy` | transactions, nonces, token contracts |
| `Packing.dfy` | greedy gas packing, and when `AddTx` accepts the result |
| `Reorg.dfy` | reorg configuration and fork depth arithmetic |
| `Serial.dfy` | generations and forks as events on chain and statistics |
| `Interleaving.dfy` | threads racing for the mutex, refined to serial events |
| `Server.dfy` | the server's methods, each proved to be such an event |
| `Lifecycle.dfy` | `Run`, `Stop`, the main loop and the key/value operations as racing threads |
| `Restart.dfy` | what the token operators' restartable initialisations share, with other threads running in between |
| `Nft.dfy` | the ERC721 index and the owners on the chain |
| `Slices.dfy` | Go slices in a map, with shared or new storage |
| `Erc721.dfy` | the ERC721 generator: recovery of its initialisation, in-place transfers |
| `Fungible.dfy` | the ERC20 and ERC1155 generators' initialisation |
| `Monkey.dfy` | the operator's ticks and blocks, and the whole ERC721 run |
| `MonkeyLifecycle.dfy` | the operator's `Run` and `Stop` as racing threads |

How the pieces fit: `Interleaving` cuts the calls into steps between which other threads run, and shows that every
interleaving equals a sequence of the serial events and the other way round, by whatever threads and, one block at a
time, by ticks alone; the methods of `Server.ETHTestServer` are
proved to produce the same events; `Serial` proves what all such sequences keep. The generators and the
operator call the server's methods, and before each of these calls the other threads may run
(`Server.ETHTestServer.OtherThreads`). By `Interleaving.EveryThreadAlternates` that is what one thread sees of any
interleaving in which the others do not fork: they append any valid blocks, deploy and use other contracts and store other
values, and leave only the operator's own contract and keys alone. `Monkey.RunMonkeyERC721Transferors` composes
everything: from any number of initialisations that were cut off to the last tick.

## What does not hold

The code is modelled as it is; where a property fails, the model has the exact condition or an input that shows it.

* The ERC721 contract is deployed by a sender picked at random (`cmd/ethtestserver/operators.go:343`), but the first
  sender sends the mints (line 376), and `ContractTransact` does not look at the receipt's status. If the two
  differ, every mint reverts unnoticed, and the index lists tokens that do not exist: `Erc721.Recovery` is an
  if-and-only-if in the deployer, `Erc721.OtherDeployerFails` the failure.
* A pool batch with a dear transaction before a cheaper one of the same sender, or with one that the pool has
  dropped before one that it has not, can be packed without its first part; `AddTx` then panics.
  `Packing.PoolBlockAccepted` says exactly when, `Packing.PoolAcceptedUnderEveryLimit` says it of the pool alone,
  `Packing.DearFirstPanics` and `Packing.DroppedFirstPanics` give an input each.
* When inserting worked but indexing failed, the block is on the chain and the statistics do not know it:
  `Serial.HeadAfterCall` says when that puts the head above `CurrentBlock`, `Serial.LateFailureHidesBlock` that it
  happens.
* `PrintStatus` subtracts without a check. With one block per call this never wraps around; a call for more does so
  exactly when they do not fit below the limit: `Serial.RemainingAfterCall`, `Serial.BlocksRemainingWraps`.
* The comment at `operator/monkey/monkey.go:25` calls `Ticks` the number of ticks to run. The code counts every tick
  but checks the count only after a successful one, so the configured tick ends the loop exactly if it does not hit
  the limit (`Monkey.ConfiguredTickEnds`), and ticks that do go on without end (`Monkey.LimitNeverEnds`), while the
  blocks stay within `Ticks` (`Monkey.TicksBoundBlocks`).
* `0 < Max < Min` is not rejected by `NewMonkeyOperatorWithConfig`, and makes every block panic:
  `Monkey.BlockSizes`.
* An operator that is run again after it has ended closes `doneCh` twice: `MonkeyLifecycle.SecondRunPanics`, and
  `MonkeyLifecycle.ChannelsClosedOnce` for when exactly. A running operator refuses a Run
  (`MonkeyLifecycle.RunningRefusesRun`), but two Runs at the same time can both pass the check:
  `MonkeyLifecycle.RacingRunsBothPass`.
* A server `Stop` that gives up waiting leaves everything open, and no later call closes it:
  `Lifecycle.TimedOutStopLeaks`. A `Run` overtaken by a `Stop` can find the node nil, and only then:
  `Lifecycle.OvertakenRunCrashes`, `Lifecycle.NilNodeExactlyAfterStop`.
* `GenerateBlocks` does not ask whether the server runs, and `Stop` does not take its mutex, so a generation can use
  the chain of a closed node: `Lifecycle.GenerationAfterClose`, `Lifecycle.GenerationAfterCloseHappens`.
* A generated block that never reaches the chain leaves the ERC721 index ahead of it, except when its transfers move
  nothing in the end: `Nft.LostBlockAgreement`, `Monkey.TickAndAgreement`, and `Monkey.MonkeyOperator.Loop` for the end
  of the loop.

## Model

| member | source | states |
|---|---|---|
| Ledger.NoncesCountUp | operator/monkey/monkey.go:131-133 | accepting every transaction on its own is the same as every sender counting 0, 1, 2, ... along the chain |
| Packing.PackPool | ethtestserver.go:995-1008 | the two packing loops, with the `uint64` gas counter, compute the specification `Pack` on the batches in iteration order |
| Packing.GasWithinLimit | ethtestserver.go:1002-1005 | if limit plus gas stays below 2^64, the counter is the true total and never exceeds the limit |
| Packing.SafeIsNeeded | ethtestserver.go:1002-1005 | that bound is exact: a transaction keeps every packing within the limit if and only if it meets it |
| Packing.SkippedNeverFits | ethtestserver.go:999-1008 | a resolved transaction that was skipped does not fit at the end either |
| Packing.HalfFull | ethtestserver.go:999-1008 | if every gas is at most half the limit and something was skipped, more than half the limit is used |
| Packing.CheapestFirstIsPrefix | ethtestserver.go:1000-1007 | from a resolved batch with non-decreasing gas a prefix is selected, whatever was used before |
| Packing.PrefixUnderEveryLoad | ethtestserver.go:1000-1007 | a batch is packed as a prefix under every load if and only if its gas is non-decreasing |
| Packing.PoolBlockAccepted | ethtestserver.go:993-1012 | for every iteration order, `AddTx` accepts the whole selection if and only if it takes a prefix of every batch |
| Packing.PoolAcceptedUnderEveryLimit | ethtestserver.go:993-1012 | seen from the pool alone: no block gas limit makes the block panic if and only if in every batch nothing that resolves follows an entry that does not, and the gas along what resolves is non-decreasing |
| Packing.CheapestFirstAccepted | ethtestserver.go:993-1012 | with cheapest-first batches building the block never panics |
| Packing.DearFirstPanics | ethtestserver.go:993-1012 | a two-transaction batch for which it does |
| Packing.DroppedFirstPanics | ethtestserver.go:1001-1012 | a batch whose first transaction the pool has dropped, for which it does too |
| Reorg.ValidConfigs | ethtestserver.go:167-179 | a configuration is accepted if and only if its probability lies between 0 and 1 and, unless it is 0, there is a depth to draw and every one of them is positive |
| Reorg.ForkTarget | ethtestserver.go:1038-1054 | in Go's wrapping `int` arithmetic, a fork target is always a block from 1 up to below the head |
| Reorg.ForkTargetIsThere | ethtestserver.go:1052-1054 | a fork is tried if and only if a positive depth is left, and the block number passed on is never negative |
| Reorg.DrawnDepths | ethtestserver.go:1039-1046 | a validated configuration never gives an empty random range or an overflow, and exactly the configured depths are drawn |
| Reorg.ForkTargetIsClamped | ethtestserver.go:1048-1054 | below 2^63 blocks there is a fork exactly from height 2 on, of the chosen depth cut down to height - 1 |
| Reorg.ForkTargetWraps | ethtestserver.go:1038-1054 | from 2^63 blocks on there is none, except at one height, where clamping overflows and the fork goes down to block 1 |
| Serial.ChainStaysValid | ethtestserver.go:721-764 | after any generations and forks the chain is well formed and every sender's nonces on it are 0, 1, 2, ... |
| Serial.HeadWithinLimit | ethtestserver.go:705-719 | with calls for at most n blocks the head stays within max(first head, MaxBlockNum - 1 + n) |
| Serial.HeightsReached | ethtestserver.go:709-718 | with one block per call, generations take the head exactly to the heights up to MaxBlockNum, and to every height if MaxBlockNum is 0 |
| Serial.FirstBlocksStay | ethtestserver.go:1048-1054 | blocks 0 and 1 are never replaced once present |
| Serial.ForkKeepsPrefix | ethtestserver.go:529-549 | a fork keeps exactly the first height - depth + 1 blocks, adds at most one, and leaves the statistics alone |
| Serial.StatsCountReturned | ethtestserver.go:381-389 | BlocksMined, TxCount and CurrentBlock are those of exactly the blocks that successful calls returned, modulo 2^64 |
| Serial.BlocksRemaining | ethtestserver.go:917-920 | CurrentBlock is at most MaxBlockNum - 1 + n, so with n = 1 the unsigned subtraction of PrintStatus does not wrap around |
| Serial.RemainingAfterCall | ethtestserver.go:917-920 | after a successful call the unsigned subtraction is right if and only if the blocks asked for fitted below the limit |
| Serial.BlocksRemainingWraps | ethtestserver.go:917-920 | for every limit and every n >= 2 some run with calls for at most n blocks makes it wrap around |
| Serial.ForkFreeRunsGrow | ethtestserver.go:705-764 | without forks the chain only grows, by blocks that continue it; this is what other threads are taken to do between two calls |
| Serial.LogAlternates | ethtestserver.go:705-764 | a log in which no other thread forks is an alternation of one thread's events, each allowed in its turn, and of blocks of the others that continue the chain |
| Serial.HeadAtMostCurrent | ethtestserver.go:752-763 | if nothing failed after an insertion, the head is at most CurrentBlock once a block was generated |
| Serial.HeadAfterCall | ethtestserver.go:752-763 | call by call: after a generation the head is at most CurrentBlock if and only if the call succeeded, or what it inserted fitted below a CurrentBlock that a fork had left behind |
| Serial.LateFailureHidesBlock | ethtestserver.go:757-761 | so from a head equal to CurrentBlock one failure after an insertion puts the head above it |
| Interleaving.EveryRunIsSerial | ethtestserver.go:705-764 | every interleaving of calls and forks equals a log of serial events, each allowed in its turn; the mutex excludes, and no operator-built transaction is refused |
| Interleaving.EverySerialLogHappens | ethtestserver.go:705-764 | the converse: every log of serial events, each allowed in its turn and by any choice of threads, is what some run of the threads does, with one call for each event |
| Interleaving.EveryTickLogHappens | ethtestserver.go:949-970 | the automatic miner alone can do it: every log of forks and one-block generations is what a run does in which all calls are ticks, one for each event |
| Interleaving.OneCallMines | ethtestserver.go:937-970 | below the limit, one call of Mine or one tick puts any transactions that continue the chain on it as a block and counts that block |
| Interleaving.EveryThreadAlternates | ethtestserver.go:705-764 | what one thread sees of any interleaving in which no other thread forks: its own events, and in between blocks of the others that continue the chain |
| Interleaving.RacingThreadsKeepNonces | operator/monkey/monkey.go:125-134 | in every reachable state no nonce was refused, what a thread has read as the next nonce still is it, and along the chain every sender counts 0, 1, 2, ... |
| Interleaving.CrashesExactly | ethtestserver.go:1010-1012 | in every reachable state, the step that kills the process is exactly one that adds a pool transaction with a nonce other than its sender's next one |
| Interleaving.CrashIsFinal | ethtestserver.go:1010-1012 | after that nothing happens any more |
| Interleaving.RacingThreadsKeepLimit | ethtestserver.go:709-718 | check and insertion cannot be raced apart: the limit bounds the head in every reachable state |
| Interleaving.RacingThreadsKeepFirstBlocks | ethtestserver.go:949-970 | no interleaving replaces blocks 0 and 1 |
| Interleaving.RacingThreadsKeepAccounts | ethtestserver.go:381-389 | the statistics count exactly what successful calls generated, at every moment |
| Interleaving.RacingThreadsKeepStatus | ethtestserver.go:894-920 | with one block per call PrintStatus never shows a wrapped number |
| Interleaving.RacingThreadsKeepHead | ethtestserver.go:899-911 | the head is at most CurrentBlock in every reachable state, except while a thread waits for the index after inserting, and unless a generation failed after inserting |
| Server.ETHTestServer.UpdateStatsAfterBlockGen | ethtestserver.go:381-389 | the counting loop adds the blocks and their transactions and sets CurrentBlock, and does nothing for no blocks |
| Server.ETHTestServer.GenerateChain | ethtestserver.go:731-746 | the callback runs up to and including its first error and never again; without an error the blocks are what it built |
| Server.ETHTestServer.GenerateBlocksUnlocked | ethtestserver.go:721-764 | a callback error changes neither chain nor statistics; anything else is one serial event, which go-ethereum's part in the call determines, done if and only if the call succeeds |
| Server.ETHTestServer.GenerateBlocks | ethtestserver.go:705-719 | refused if and only if MaxBlockNum is positive and reached, without running the callback; otherwise as above |
| Server.ETHTestServer.AddAll | ethtestserver.go:1010-1012 | adding the selection panics if and only if a nonce is not its sender's next one |
| Server.ETHTestServer.MaybeGenerateBlock | ethtestserver.go:972-1025 | nothing at a limit; otherwise one event whose block is the greedy selection, or a panic exactly when that is not acceptable |
| Server.ETHTestServer.SimulateForkUnlocked | ethtestserver.go:529-549 | a failed fork changes nothing; any other is the serial fork event for its draw and commit |
| Server.ETHTestServer.MaybeSimulateFork | ethtestserver.go:1027-1064 | the depth arithmetic, step by step: if triggered, a fork is tried at `ForkTarget` and only there, and only its own failure is an error |
| Server.ETHTestServer.Mine | ethtestserver.go:937-945 | refused if and only if not running; otherwise a generation or a panic exactly as in maybeGenerateBlock, successful if and only if nothing is due or the generation is done |
| Server.ETHTestServer.NextTick | ethtestserver.go:949-970 | a generation exactly as in maybeGenerateBlock and then, also if it failed, a fork exactly where `ForkTarget` has one; the tick succeeds if and only if neither fails |
| Server.TickLog | ethtestserver.go:949-970 | a generation and a fork, each of which may be missing, are a serial log with one block at most |
| Server.ETHTestServer.OtherThreads | cmd/ethtestserver/main.go:191-250 | the other operators and callers: any valid blocks that do not mint or transfer on the given contract, any values under other keys |
| Server.ETHTestServer.SendOne | ethtestserver.go:863-884 | a block of one transaction with the signer's next nonce: on the chain exactly if it was signed and inserted below the limit, whatever happens after that |
| Server.ETHTestServer.DeployContract | ethtestserver.go:781-844 | a deployment by the signer, with its next nonce; on success the new contract is owned by the signer and is the one returned; which failures have deployed it all the same |
| Server.ETHTestServer.ContractTransact | ethtestserver.go:847-891 | one transaction of the signer, with its next nonce; success means executed, not that the call took effect: a reverted one is a success |
| Server.ETHTestServer.StoreValue | ethtestserver.go:650-679 | succeeds exactly if no check and neither encoder nor database fails; then the key maps to the value and nothing else changed, otherwise nothing did |
| Server.ETHTestServer.RetrieveValue | ethtestserver.go:611-648 | succeeds exactly if the server runs and the database works, with what was stored last under the key, or that there is nothing |
| Server.ETHTestServer.DeleteValue | ethtestserver.go:681-702 | succeeds exactly if no check and no database fails; then the key is gone and nothing else changed, otherwise nothing did |
| Lifecycle.EveryRunKeepsInv | ethtestserver.go:421-609 | the invariant of Run, Stop, main loop and key/value threads in every reachable state |
| Lifecycle.NothingUsedAfterClose | ethtestserver.go:582-589 | no key/value operation ever touches a closed database, and no tick a stopped beacon, also with a Stop between check and lock |
| Lifecycle.KvWorks | ethtestserver.go:611-702 | with the mutex free, a key/value operation comes to use the database if and only if the server runs; it finds it open and leaves everything else as it was |
| Lifecycle.OneRunOneStop | ethtestserver.go:552-609 | at most one Run and one Stop win; that Stop finds cancel function and main loop; database, beacon and node are closed at most once, and once that Stop has ended exactly once if it did not time out and never if it did |
| Lifecycle.StoppedForGood | ethtestserver.go:421-461 | once a Stop has won, no Run and no Stop succeeds any more |
| Lifecycle.TimedOutStopLeaks | ethtestserver.go:573-578 | after a winning Stop that gave up waiting, nothing is ever closed |
| Lifecycle.NilNodeExactlyAfterStop | ethtestserver.go:421-428 | a step finds the node nil if and only if it is a Run that has checked it and starts it after a Stop has closed everything |
| Lifecycle.StopHappens | ethtestserver.go:552-609 | a run in which a Stop closes each resource exactly once while another thread is still inside Run |
| Lifecycle.OvertakenRunCrashes | ethtestserver.go:421-461 | and then that Run finds the node nil |
| Lifecycle.GenerationAfterClose | ethtestserver.go:552-609 | nothing keeps a block generation off a closed node: it uses the chain after the close if and only if it comes to that after a Stop has closed everything |
| Lifecycle.GenerationAfterCloseHappens | ethtestserver.go:705-719 | a run in which it does |
| Nft.TransferKeepsAgreement | cmd/ethtestserver/operators.go:451-452 | a listed token is owned by who lists it, and the index update follows the ownership change, self-transfers included |
| Nft.AgreesWithOne | cmd/ethtestserver/operators.go:450-452 | an index is the inverse of one owner map at most |
| Nft.TransferConserves | cmd/ethtestserver/operators.go:450-452 | a transfer keeps the multiset of all listed ids |
| Nft.PicksConserve | cmd/ethtestserver/operators.go:403-455 | so does any sequence of GenerateTransaction calls, whatever becomes of the transactions |
| Nft.PicksKeepAgreement | cmd/ethtestserver/operators.go:403-455 | from an index in step with the chain, every emitted transfer is made by the owner at that point, and the index agrees with the owners afterwards |
| Nft.LostBlockAgreement | cmd/ethtestserver/operators.go:450-454 | if the transfers never reach the chain, the index agrees with it if and only if they move nothing in the end |
| Nft.MintedAgrees | cmd/ethtestserver/operators.go:370-393 | the index built by the minting loops is the inverse of the owners that the mints create |
| Nft.MintedPartition | cmd/ethtestserver/operators.go:370-393 | each id from 1 to k is listed once, by the sender whose turn it was, and no other id is |
| Nft.MintedBag | cmd/ethtestserver/operators.go:370-393 | all lists together hold each id from 1 to k once and no other id |
| Nft.MintedLists | cmd/ethtestserver/operators.go:373-393 | of n distinct senders, sender q has exactly q+1, q+1+n, q+1+2n, ... in order, after any number of rounds and mints |
| Nft.RemintFillsUp | cmd/ethtestserver/operators.go:374-384 | minting over an earlier, cut-off minting only adds what it left out |
| Slices.Append | cmd/ethtestserver/operators.go:452 | appending in place or into a new array appends to one list, and no two addresses come to share storage |
| Slices.RemoveInPlace | cmd/ethtestserver/operators.go:451 | shifting the array in place removes one element of one list |
| Slices.Move | cmd/ethtestserver/operators.go:451-452 | the two slice updates together are the transfer of the index, also from an address to itself |
| Slices.Decode | ethtestserver.go:636-645 | a decoded mapping has the stored lists, each in storage of its own |
| Restart.MintFirstMints | cmd/ethtestserver/operators.go:373-393 | whatever the other threads do in between, the mints act on the operator's contract as if it were alone |
| Restart.AttemptsAreAccounted | cmd/ethtestserver/operators.go:331-401 | after any attempts the stored contract is exactly what a new contract of the first successful deployer is after the mints that the attempts put on the chain, and the store says done only if one put all of them there |
| Restart.CompletedIsStored | cmd/ethtestserver/operators.go:394-397 | an attempt that runs through notes that in the store, whatever came before |
| Restart.DeployAndStore | cmd/ethtestserver/operators.go:343-357 | a new contract is deployed and noted in the store, other threads running in between; on a reliable server that does not fail |
| Restart.EnsureCaller | cmd/ethtestserver/operators.go:332-357 | the stored contract, or a new one deployed and stored; an error leaves what `AfterAttempt` says; with a stored one no own block is added; on a healthy server there is no error |
| Restart.SendMint | cmd/ethtestserver/operators.go:375-384 | the next mint is sent by the first sender; if the call fails, it may have reached the chain; on a healthy server it does not fail |
| Restart.NoteDone | cmd/ethtestserver/operators.go:394-397 | after all mints the store says so, or the attempt ends without |
| Erc721.FullIndexIsComplete | cmd/ethtestserver/operators.go:370-393 | the index of a complete minting lists each id from 1 to mintedTokens times the number of senders once, and of distinct senders gives each its progression |
| Erc721.PicksPossible | cmd/ethtestserver/operators.go:404-413 | exactly the senders and recipients of the two lists can be picked |
| Erc721.TokensPossible | cmd/ethtestserver/operators.go:415-416 | and exactly the tokens of the sender's list |
| Erc721.Recovery | cmd/ethtestserver/operators.go:331-401 | after any attempts cut off anywhere, with other threads running at any point, and one that completed, the stored index is complete; it agrees with the chain if and only if the attempt that stored the contract let the first sender deploy it, or there was nothing to mint |
| Erc721.OtherDeployerFails | cmd/ethtestserver/operators.go:343-381 | whenever another sender deploys and there is something to mint, an attempt without any error ends with an index of tokens that do not exist |
| Erc721.ERC721TransactionGenerator.MintAll | cmd/ethtestserver/operators.go:370-393 | the nested loops mint the first k ids in order, other threads running in between, with the matching index, wherever they stop; on a healthy server they do not stop early |
| Erc721.ERC721TransactionGenerator.EnsureMapping | cmd/ethtestserver/operators.go:359-398 | the stored index, or a full minting and its index stored; an error leaves what `Finished` says |
| Erc721.ERC721TransactionGenerator.Initialize | cmd/ethtestserver/operators.go:331-401 | ends as one of the attempts of `Recovery`, other threads included, with the drawn sender as deployer; success stores contract and index, and if no index was stored lists mintedTokens tokens for every sender; with both stored, all that changes on the chain and in the store is what other threads do; on a healthy server it succeeds |
| Erc721.ERC721TransactionGenerator.GenerateTransaction | cmd/ethtestserver/operators.go:403-455 | for every random choice: the transfer of the drawn token of the drawn sender with its next nonce, or nothing exactly if it has none, and the index updated in place accordingly |
| Fungible.MintsAreAccounted | cmd/ethtestserver/operators.go:121-159 | after any attempts, with other threads running at any point, the stored contract has one amount for each mint of the slot that an attempt put on the chain |
| Fungible.Recovery | cmd/ethtestserver/operators.go:121-159 | once one of k attempts completed, every slot is minted at least as often as a complete attempt mints it, and at most k times as often |
| Fungible.EverySenderRecovers | cmd/ethtestserver/operators.go:132-156 | so each distinct sender has between the amount and k times the amount of every id in the range |
| Fungible.AttemptsShareOut | cmd/ethtestserver/operators.go:121-159 | after k attempts, one of them completed, every address has for each id in the range between once and k times the amount for each time it is a sender, and nothing else is minted |
| Fungible.EveryoneHasShare | cmd/ethtestserver/operators.go:132-156 | for distinct senders: each has between the amount and k times the amount of every id in the range, and nobody has anything else |
| Fungible.UpperBoundIsMet | cmd/ethtestserver/operators.go:128-158 | k - 1 attempts that fail only to store the flag and one that completes mint every slot k times: the upper bound is met |
| Fungible.RowsCount | cmd/ethtestserver/operators.go:132-136 | the nested loops mint every id of the range once per sender and no other id |
| Fungible.Begin | cmd/ethtestserver/operators.go:217-255 | the stored contract, or a new one of the first sender, and whether the flag says that it is minted; an error leaves what `AfterAttempt` says |
| Fungible.SendSlot | cmd/ethtestserver/operators.go:258-269 | the mint for the next slot, after other threads have run; if it fails, it may have reached the chain |
| Fungible.ERC1155TransactionGenerator.MintTokens | cmd/ethtestserver/operators.go:132-155 | the nested loops put the slots on the chain in order, wherever they stop |
| Fungible.ERC1155TransactionGenerator.Initialize | cmd/ethtestserver/operators.go:93-162 | ends as one of the attempts of `Recovery`, other threads included; success stores contract and flag; with both stored, all that changes on the chain and in the store is what other threads do; on a healthy server it succeeds |
| Fungible.ERC1155TransactionGenerator.InitializeFirst | cmd/ethtestserver/operators.go:93-162 | after any cut-off attempts: success leaves an ERC1155 contract of the first sender on which every sender has its share of every id from tokenMin to tokenMax and nobody anything else; on a healthy server it succeeds |
| Fungible.ERC20TransactionGenerator.MintTokens | cmd/ethtestserver/operators.go:258-269 | the same for the single loop over the senders |
| Fungible.ERC20TransactionGenerator.Initialize | cmd/ethtestserver/operators.go:216-276 | ends as one of the attempts of `Recovery`, other threads included; success stores contract and flag; with both stored, all that changes on the chain and in the store is what other threads do; on a healthy server it succeeds |
| Fungible.ERC20TransactionGenerator.InitializeFirst | cmd/ethtestserver/operators.go:216-276 | the same for an ERC20 contract and the senders' shares of it |
| Monkey.NormalisedConfigs | operator/monkey/monkey.go:62-68 | exactly the configurations without a positive interval or number of transactions are changed, to one second and 120; then every block that does not panic asks for at least one transaction |
| Monkey.BlockSizes | operator/monkey/monkey.go:120-123 | with 0 < Min <= Max exactly the sizes from Min to Max occur, with a non-positive bound exactly TransactionsPerBlock, and with 0 < Max < Min every block panics |
| Monkey.ReachedExactly | operator/monkey/monkey.go:139-156 | the loop goes on exactly after ticks that hit the limit and after successful ones before the configured last one |
| Monkey.ProcessedToTheEnd | operator/monkey/monkey.go:105-156 | the loop never stops before one of its ends |
| Monkey.TicksBoundBlocks | operator/monkey/monkey.go:139-156 | Ticks bounds the number of generated blocks, however many ticks hit the limit; and when exactly it is reached |
| Monkey.ConfiguredTickEnds | operator/monkey/monkey.go:139-156 | the configured tick ends the loop if and only if it does not hit the limit, and from then on the loop goes on only while ticks hit the limit |
| Monkey.LimitNeverEnds | operator/monkey/monkey.go:141-146 | ticks that hit the limit never end the loop, however many there are |
| Monkey.TransfersSettle | operator/monkey/monkey.go:131-133 | transfers by the owners have on the chain the effect that the index assumes |
| Monkey.BlockKeepsAgreement | operator/monkey/monkey.go:125-136 | a block of generated transfers keeps the index the inverse of the owners on the chain it is put on |
| Monkey.ForeignKeepsStep | cmd/ethtestserver/main.go:191-250 | blocks that do not mint or transfer on the operator's contract leave the contract, and the agreement of the index with it, as they were |
| Monkey.TickAndAgreement | operator/monkey/monkey.go:114-150 | after a tick the index agrees with the chain if and only if the block got there or its transfers move nothing |
| Monkey.ResultsTell | operator/monkey/monkey.go:114-150 | a tick is a success if and only if its generation is done; if nothing in the environment fails and there is no limit, every tick is one, unless the bounds make every block panic |
| Monkey.MonkeyOperator.constructor | operator/monkey/monkey.go:49-77 | the shared configuration is normalised in place |
| Monkey.MonkeyOperator.FillBlock | operator/monkey/monkey.go:125-134 | exactly n GenerateTransaction calls with the drawn picks, unless one fails; exactly the non-nil results are added, and none of them is refused for its nonce |
| Monkey.MonkeyOperator.Tick | operator/monkey/monkey.go:113-137 | at the limit nothing happens; otherwise one block with the transactions of the drawn number of calls; limit, panic, success and failure exactly as the drawn choices say |
| Monkey.MonkeyOperator.Loop | operator/monkey/monkey.go:105-157 | the loop ends by a signal, a failure or the tick count; its results are exactly the outcomes of its generations, whose blocks and those of the other threads are all that the chain has grown by; an index in step with the chain is so at the end if and only if the last tick's block got there or moves nothing |
| Monkey.InitializeFirst | cmd/ethtestserver/operators.go:523-527 | after any cut-off attempts, with other threads running, a successful initialisation leaves contract and complete index in the store, in step with the chain if and only if the first sender deployed the contract or there is nothing to mint; on a healthy server it is successful |
| Monkey.InitializeAgain | operator/monkey/monkey.go:86-89 | the second initialisation, by Run, adds no block and stores nothing: all changes are those of other threads; it leads to the same contract and index |
| Monkey.Run | operator/monkey/monkey.go:79-157 | the second initialisation and the loop: all ids stay listed whatever fails; without a failed tick an index in step stays so; on a healthy server nothing fails |
| Monkey.RunMonkeyERC721Transferors | cmd/ethtestserver/operators.go:523-543 | from cut-off attempts to the last tick, with other threads running all the time: the index lists every id from 1 to mintedTokens times the number of senders once and no other; if no tick failed and the first sender deployed the contract, it is the inverse of the owners on the chain; and on a healthy server every tick generates its block |
| Monkey.KeysAreSeparate | cmd/ethtestserver/operators.go:93-359 | the three token operators use different keys |
| MonkeyLifecycle.EveryRunKeepsInv | operator/monkey/monkey.go:79-191 | the invariant of Run, Stop and goroutine threads in every reachable state |
| MonkeyLifecycle.ChannelsClosedOnce | operator/monkey/monkey.go:94-101 | stopCh is never closed twice, and doneCh if and only if the goroutines of two successful Runs have come to their end |
| MonkeyLifecycle.RunningRefusesRun | operator/monkey/monkey.go:79-84 | while a goroutine neither ends nor an initialisation fails, a running operator stays running and lets no Run pass its check |
| MonkeyLifecycle.RacingRunsBothPass | operator/monkey/monkey.go:80-84 | check and store are two steps: two Runs of a stopped operator can both pass |
| MonkeyLifecycle.RunningAfterStop | operator/monkey/monkey.go:79-101 | with one successful Run and after a Stop has returned nil, the operator is running only while another Run has passed its check and not yet failed |
| MonkeyLifecycle.StoppedMeansNotRunning | operator/monkey/monkey.go:173-191 | once a Stop has returned nil, with one successful Run, any number of failed ones and none under way, the operator is not running until another Run passes its check |
| MonkeyLifecycle.SecondRunPanics | operator/monkey/monkey.go:79-101 | a second Run makes the operator run while Stops return nil, and its end closes doneCh twice |
| MonkeyLifecycle.SecondRunHappens | operator/monkey/monkey.go:79-191 | the state from which that happens is reached |

## Left out

- go-ethereum itself: state execution, transaction pool, beacon, indexing and the block's gas pool appear only through the assumptions above; a block that runs out of gas, on which `AddTx` also panics, is not part of this model.
- The contracts' bytecode: the ledger assumes that only the owner of a token contract may mint, that minting an existing ERC721 id reverts, and that a transfer needs its sender to be the owner; approvals, receiver hooks, the zero address, and any supply that the ERC20 constructor gives its recipient are not modelled.
- ERC20, ERC1155 and native `GenerateTransaction`, and the balances they move: they keep no state of their own; `Minted` counts what was ever minted, so transfers do not change it.
- Widths of token ids, block numbers and amounts: unbounded here, as is the minting loop's counter (`tokenMax` of 2^63 - 1 would make it run forever); the gas counter, the statistics and the fork arithmetic do wrap around. A negative mint amount is not modelled.
- ReorgConfig: the probability is a real number, so not-a-number, which passes the constructor's checks, is not modelled.
- Encoding of stored values: gob and ABI are the identity, a stored value of another type is an error.
- Interleaving: block generation functions other than the ones of this repository, which add transactions only with nonces from `TxNonce` or from the pool.
- Server.ETHTestServer.OtherThreads: the other threads do not touch the operator's own contract and keys (only an operator of the same kind would, see `Monkey.KeysAreSeparate`), and they do not fork the chain; for forks see the line on agreement below.
- Agreement of the ERC721 index with the chain across forks, or after a restart that follows transfers: the code does not maintain it; `Nft.PicksConserve` is what remains.
- Monkey.MonkeyOperator.Loop: drives the ERC721 generator, the only one with state that ticks change; errors of its callback are those of GenerateTransaction.
- Wall clock, rates, elapsed time, `CurrentBlockHash`, `MaxDuration` and the ticker: arrival of ticks and expiry are free choices.
- `NewETHTestServer` beyond its reorg checks, `Run` beyond its state changes (it may generate the initial block), endpoints, paths, logging, flags and signals.
- Nil receivers and nil arguments: the model's references are never nil.
- `examples/monkeyops/operators.go`: the same generators with other constants.
