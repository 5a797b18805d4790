/**
 The ERC721 monkey operator: initialisation that survives being cut off anywhere, and the in-place
 update of its index when it generates a transfer.
 */
module Erc721 {
  import opened Ledger
  import opened Nft
  import opened Restart
  import opened Server
  import opened Slices
  import opened Wrappers

  const CALLER_KEY := "monkeyERC721TransferorsState:contractCaller"
  const MAPPING_KEY := "monkeyERC721TransferorsState:tokenMapping"

  // ----- The plan of the initialisation -----

  datatype Setup = Setup(senders: seq<Address>, mintedTokens: int)

  function Rounds(g: Setup): nat {
    if g.mintedTokens <= 0 then 0 else g.mintedTokens
  }

  function Total(g: Setup): nat {
    Rounds(g) * |g.senders|
  }

  /** The index that a complete minting builds. */
  function FullIndex(g: Setup): Mapping
    requires g.senders != []
  {
    MintedIndex(g.senders, Total(g))
  }

  /** The mints of ids 1, ..., `k`. */
  function MintCalls(senders: seq<Address>, k: nat): (calls: seq<Call>)
    requires senders != []
    ensures |calls| == k
  {
    if k == 0 then [] else MintCalls(senders, k - 1) + [SafeMint(0, Turn(senders, k), k)]
  }

  /** The first sender mints everything, whoever has deployed the contract. */
  function PlanOf(g: Setup): (p: Plan)
    requires g.senders != []
    ensures p.callerKey == CALLER_KEY && p.doneKey == MAPPING_KEY
  {
    Plan(ERC721, CALLER_KEY, MAPPING_KEY, g.senders[0], MintCalls(g.senders, Total(g)), MappingValue(FullIndex(g)))
  }

  lemma {:induction false} MintCallsAt(senders: seq<Address>, n: nat, k: nat)
    requires senders != [] && k < n
    ensures MintCalls(senders, n)[k] == SafeMint(0, Turn(senders, k + 1), k + 1)
    ensures MintCalls(senders, n)[..k + 1] == MintCalls(senders, n)[..k] + [MintCalls(senders, n)[k]]
  {
    if k < n - 1 {
      MintCallsAt(senders, n - 1, k);
    }
  }

  lemma {:induction false} PlanIsProper(g: Setup)
    requires g.senders != []
    ensures Proper(PlanOf(g))
  {
    forall i | 0 <= i < Total(g) ensures MintCalls(g.senders, Total(g))[i].SafeMint? {
      MintCallsAt(g.senders, Total(g), i);
    }
    assert |CALLER_KEY| != |MAPPING_KEY|;
  }

  /** The index lists the ids 1, 2, ... for `mintedTokens` tokens for each sender, each id once, and of distinct senders
      the q-th has every n-th of them, from q + 1 on. */
  ghost predicate Complete(senders: seq<Address>, mintedTokens: int, index: Mapping) {
    var rounds := if mintedTokens <= 0 then 0 else mintedTokens;
    (forall id: nat :: Bag(index)[id] == if 1 <= id <= rounds * |senders| then 1 else 0) &&
    (Distinct(senders) ==>
       forall q :: 0 <= q < |senders| ==> ListOf(index, senders[q]) == Progression(q + 1, |senders|, rounds))
  }

  lemma {:induction false} FullIndexIsComplete(g: Setup)
    requires g.senders != []
    ensures Complete(g.senders, g.mintedTokens, FullIndex(g))
  {
    MintedBag(g.senders, Total(g));
    if Distinct(g.senders) {
      hide MintedIndex, Bag, Progression;
      forall q | 0 <= q < |g.senders|
        ensures ListOf(FullIndex(g), g.senders[q]) == Progression(q + 1, |g.senders|, Rounds(g))
      {
        MintedLists(g.senders, Rounds(g), 0, Total(g), q);
      }
    }
  }

  // ----- Recovery -----

  /** Minting the first `k` ids on a contract that belongs to the first sender, or to someone else. */
  lemma {:induction false} MintingIsRemint(contract: Contract, senders: seq<Address>, n: nat, k: nat)
    requires senders != [] && k <= n && contract.standard == ERC721
    ensures MintAllOn(contract, senders[0], MintCalls(senders, n)[..k]) ==
            if contract.owner == senders[0]
            then contract.(holders := Remint(contract.holders, senders, k)) else contract
  {
    if k > 0 {
      var calls := MintCalls(senders, n);
      MintingIsRemint(contract, senders, n, k - 1);
      MintCallsAt(senders, n, k - 1);
      assert calls[..k][..k - 1] == calls[..k - 1];
    }
  }

  /** All mints of all attempts together leave what the longest of them alone would leave. */
  lemma {:induction false} LandedMintsDeal(g: Setup, w: World, attempts: seq<Attempt>, contract: Contract)
    requires g.senders != [] && AllPossible(PlanOf(g), w, attempts)
    requires contract.standard == ERC721 && contract.holders == map[]
    ensures var p := PlanOf(g);
            Furthest(p, w, attempts) <= Total(g) &&
            MintAllOn(contract, g.senders[0], Landed(p, w, attempts)) ==
            if contract.owner == g.senders[0]
            then contract.(holders := Dealt(g.senders, Furthest(p, w, attempts))) else contract
  {
    var p := PlanOf(g);
    if attempts == [] {
      assert Dealt(g.senders, 0) == map[];
      assert contract == contract.(holders := map[]);
    } else {
      var before, a := attempts[..|attempts| - 1], attempts[|attempts| - 1];
      LandedMintsDeal(g, w, before, contract);
      var landed, more := Landed(p, w, before), LandedBy(p, AfterAttempts(p, w, before), a);
      assert |more| <= Total(g) && more == MintCalls(g.senders, Total(g))[..|more|];
      hide MintCalls, Dealt, Remint, LandedBy, AfterAttempts, AllPossible;
      MintAllOnAppend(contract, g.senders[0], landed, more);
      MintingIsRemint(MintAllOn(contract, g.senders[0], landed), g.senders, Total(g), |more|);
      RemintFillsUp(g.senders, Furthest(p, w, before), |more|);
    }
  }

  lemma {:induction false} FullIndexAgrees(g: Setup)
    requires g.senders != []
    ensures Agrees(FullIndex(g), Dealt(g.senders, Total(g)))
    ensures Agrees(FullIndex(g), map[]) <==> Total(g) == 0
  {
    MintedAgrees(g.senders, Total(g));
    DealtIds(g.senders, Total(g));
    if Agrees(FullIndex(g), map[]) {
      AgreesWithOne(FullIndex(g), Dealt(g.senders, Total(g)), map[]);
      assert Total(g) !in Dealt(g.senders, Total(g));
    } else {
      assert Dealt(g.senders, 0) == map[];
    }
  }

  /** Recovery. Let any number of attempts be cut off anywhere, with the other threads running at any point, on a
      store that has never seen this operator. Once one of them has completed, the stored index is the complete one,
      and it agrees with the owners on the stored contract if and only if that contract was deployed by the first
      sender, who sends the mints, or there was nothing to mint: a mint by anyone but the contract's owner reverts,
      and the operator does not notice. */
  lemma {:induction false} Recovery(g: Setup, w: World, attempts: seq<Attempt>)
    requires g.senders != [] && CALLER_KEY !in w.store && MAPPING_KEY !in w.store
    requires AllPossible(PlanOf(g), w, attempts)
    requires MAPPING_KEY in AfterAttempts(PlanOf(g), w, attempts).store
    ensures var after := AfterAttempts(PlanOf(g), w, attempts);
            Stored(PlanOf(g), after).Some? && Deployer(attempts).Some? &&
            var c := Stored(PlanOf(g), after).value;
            c < |after.contracts| && after.contracts[c].standard == ERC721 &&
            after.contracts[c].owner == Deployer(attempts).value &&
            after.store[MAPPING_KEY] == MappingValue(FullIndex(g)) &&
            (Agrees(FullIndex(g), after.contracts[c].holders) <==>
             Deployer(attempts).value == g.senders[0] || Total(g) == 0)
  {
    PlanIsProper(g);
    AttemptsAreAccounted(PlanOf(g), w, attempts);
    LandedMintsDeal(g, w, attempts, Contract(ERC721, Deployer(attempts).value, map[], map[]));
    hide MintedIndex, Dealt, MintAllOn, Landed, Furthest, MintCalls, AfterAttempts, AllPossible;
    FullIndexAgrees(g);
  }

  lemma {:induction false} UndisturbedIsStored(g: Setup, w: World, deployer: Address)
    requires g.senders != [] && CALLER_KEY !in w.store && MAPPING_KEY !in w.store
    ensures var attempts := [Undisturbed(PlanOf(g), deployer, Completed)];
            AllPossible(PlanOf(g), w, attempts) && Deployer(attempts) == Some(deployer) &&
            MAPPING_KEY in AfterAttempts(PlanOf(g), w, attempts).store
  {
    var p, a := PlanOf(g), Undisturbed(PlanOf(g), deployer, Completed);
    assert [] + [a] == [a];
    assert Deployer([a][..0]) == None;
    PlanIsProper(g);
    UndisturbedIsPossible(p, w, deployer, Completed);
    AttemptsSnoc(p, w, [], a);
    assert AllPossible(p, w, []) && AfterAttempts(p, w, []) == w;
    hide AfterAttempt, Possible, AllPossible, AfterAttempts, PlanOf, Undisturbed;
    CompletedIsStored(p, w, [a]);
  }

  /** The failure, from every start: whenever the random deployer is not the first sender and there is something to
      mint, an attempt without any error ends with an index of tokens that do not exist. */
  lemma {:induction false} OtherDeployerFails(g: Setup, w: World, deployer: Address)
    requires g.senders != [] && CALLER_KEY !in w.store && MAPPING_KEY !in w.store
    requires deployer != g.senders[0] && Total(g) > 0
    ensures var p, attempts := PlanOf(g), [Undisturbed(PlanOf(g), deployer, Completed)];
            AllPossible(p, w, attempts) && MAPPING_KEY in AfterAttempts(p, w, attempts).store &&
            var after := AfterAttempts(p, w, attempts);
            Stored(p, after).Some? && Stored(p, after).value < |after.contracts| &&
            !Agrees(FullIndex(g), after.contracts[Stored(p, after).value].holders)
  {
    UndisturbedIsStored(g, w, deployer);
    Recovery(g, w, [Undisturbed(PlanOf(g), deployer, Completed)]);
  }

  // ----- The operator -----

  lemma {:induction false} RoundFits(g: Setup, i: nat)
    requires i < g.mintedTokens
    ensures i * |g.senders| + |g.senders| == (i + 1) * |g.senders| <= Total(g) && i + 1 <= Rounds(g)
  {
  }

  lemma {:induction false} AllRounds(g: Setup, i: nat)
    requires g.mintedTokens <= i <= Rounds(g)
    ensures i * |g.senders| == Total(g)
  {
  }

  /** `PickRandomSigner` panics on an empty list. */
  type Signers = s: seq<Address> | s != [] witness [0]

  const GAS_LIMIT: nat := 3_000_000

  /** The transaction that a call of GenerateTransaction returns. */
  function Signed(m: Mapping, p: Pick, contract: nat, below: seq<Tx>): Option<Tx> {
    var call := Emitted(m, p, contract);
    if call.None? then None else Some(Tx(p.sender, NextNonce(below, p.sender), GAS_LIMIT, call.value))
  }

  lemma {:induction false} PickSigns(m: Mapping, p: Pick, c: nat, below: seq<Tx>)
    ensures ListOf(m, p.sender) == [] ==> Signed(m, p, c, below) == None && AfterPick(m, p) == m
    ensures ListOf(m, p.sender) != [] ==>
      var index := p.draw % |ListOf(m, p.sender)|;
      var call := SafeTransfer(c, p.sender, p.recipient, ListOf(m, p.sender)[index]);
      Signed(m, p, c, below) == Some(Tx(p.sender, NextNonce(below, p.sender), GAS_LIMIT, call)) &&
      AfterPick(m, p) == Transfer(m, p.sender, p.recipient, index)
  {
    hide NextNonce, Transfer;
  }

  /** What the random generator returns in one call of GenerateTransaction, before it is reduced to a range. */
  datatype Draw = Draw(sender: nat, recipient: nat, token: nat)

  function PickOf(senders: Signers, recipients: Signers, d: Draw): Pick {
    Pick(senders[d.sender % |senders|], recipients[d.recipient % |recipients|], d.token)
  }

  /** Any sender can be picked, with any recipient and any draw for the token, and nobody else. */
  lemma {:induction false} PicksPossible(senders: Signers, recipients: Signers, p: Pick)
    ensures (exists d: Draw :: PickOf(senders, recipients, d) == p) <==>
            p.sender in senders && p.recipient in recipients
  {
    if p.sender in senders && p.recipient in recipients {
      var s :| 0 <= s < |senders| && senders[s] == p.sender;
      var r :| 0 <= r < |recipients| && recipients[r] == p.recipient;
      SmallRemainder(s, |senders|);
      SmallRemainder(r, |recipients|);
      assert PickOf(senders, recipients, Draw(s, r, p.draw)) == p;
    }
  }

  lemma {:induction false} SmallRemainder(x: nat, y: nat)
    requires x < y
    ensures x % y == x
  {
  }

  /** And of the sender's list every token. */
  lemma {:induction false} TokensPossible(m: Mapping, sender: Address, recipient: Address, i: nat)
    requires ListOf(m, sender) != []
    ensures (exists draw: nat :: Nft.Index(m, Pick(sender, recipient, draw)) == i) <==> i < |ListOf(m, sender)|
  {
    if i < |ListOf(m, sender)| {
      SmallRemainder(i, |ListOf(m, sender)|);
      assert Nft.Index(m, Pick(sender, recipient, i)) == i;
    }
  }

  class ERC721TransactionGenerator {
    const server: ETHTestServer
    const senders: Signers
    const recipients: Signers
    const mintedTokens: int
    var erc721Caller: Option<nat>
    var tokenMapping: SliceMap

    constructor (server: ETHTestServer, senders: Signers, recipients: Signers, mintedTokens: int)
      ensures this.server == server && this.senders == senders && this.recipients == recipients
      ensures this.mintedTokens == mintedTokens && erc721Caller == None && tokenMapping == map[]
    {
      this.server, this.senders, this.recipients, this.mintedTokens := server, senders, recipients, mintedTokens;
      erc721Caller, tokenMapping := None, map[];
    }

    function Config(): Setup {
      Setup(senders, mintedTokens)
    }

    function ThePlan(): Plan {
      PlanOf(Config())
    }

    function Index(): Mapping
      requires forall a :: a in tokenMapping ==> tokenMapping[a].len <= tokenMapping[a].arr.Length
      reads this, Arrays(tokenMapping)
    {
      Lists(tokenMapping)
    }

    function Now(): World
      reads server
    {
      server.Seen()
    }

    /** The index for the first `k` mints. */
    ghost predicate Indexed(slices: SliceMap, k: nat)
      reads Arrays(slices)
    {
      Separate(slices) && Lists(slices) == MintedIndex(senders, k)
    }

    lemma {:induction false} NoTokensYet()
      ensures Indexed(map[], 0) && Arrays(map[]) == {} && 0 <= Rounds(Config())
    {
    }

    lemma {:induction false} IndexIsDone(slices: SliceMap)
      requires Indexed(slices, Total(Config()))
      ensures ThePlan().done == MappingValue(Lists(slices))
    {
    }

    method Enter(slices: SliceMap, to: Address, k: nat) returns (after: SliceMap)
      requires Indexed(slices, k) && to == Turn(senders, k + 1)
      modifies Arrays(slices)
      ensures Indexed(after, k + 1) && fresh(Arrays(after) - Arrays(slices))
    {
      after := Append(slices, to, k + 1);
    }

    /** A mint and its entry in the index. */
    method MintNext(ghost start: World, c: nat, slices: SliceMap, to: Address, k: nat, ghost between: seq<Others>)
      returns (r: Result<(), ServerError>, after: SliceMap, ghost more: seq<Others>, ghost last: Others)
      requires Minting(server, ThePlan(), start, c, between) && |between| == k < Total(Config())
      requires Indexed(slices, k) && to == Turn(senders, k + 1)
      modifies server`chain, server`stats, server`stateDB, Arrays(slices)
      ensures fresh(Arrays(after) - Arrays(slices))
      ensures if r.Ok? then Minting(server, ThePlan(), start, c, more) && |more| == k + 1 && Indexed(after, k + 1)
              else MintingStopped(server, ThePlan(), start, c, more, last)
      ensures old(server.Healthy()) ==> server.Healthy() && r.Ok?
    {
      after := slices;
      MintCallsAt(senders, Total(Config()), k);
      hide MintFirst, MintedIndex, MintCalls, Turn, Separate, Lists, AllLeaveAlone, FullIndex, AfterOthers;
      r, more, last := SendMint(server, ThePlan(), SafeMint(c, to, k + 1), c, start, between);
      if r.Ok? {
        after := Enter(slices, to, k);
      }
    }

    /** One round: a token for every sender. */
    method MintRound(ghost start: World, c: nat, slices: SliceMap, i: nat, first: nat, ghost between: seq<Others>)
      returns (r: Result<(), ServerError>, after: SliceMap, ghost more: seq<Others>, ghost last: Others)
      requires Minting(server, ThePlan(), start, c, between) && |between| == first == i * |senders|
      requires first + |senders| <= Total(Config()) && Indexed(slices, first)
      modifies server`chain, server`stats, server`stateDB, Arrays(slices)
      ensures fresh(Arrays(after) - Arrays(slices))
      ensures if r.Ok?
              then Minting(server, ThePlan(), start, c, more) && |more| == first + |senders| && Indexed(after, |more|)
              else MintingStopped(server, ThePlan(), start, c, more, last)
      ensures old(server.Healthy()) ==> server.Healthy() && r.Ok?
    {
      hide *;
      var k := first;
      after, more := slices, between;
      for j := 0 to |senders|
        invariant k == first + j == |more|
        invariant Minting(server, ThePlan(), start, c, more)
        invariant Indexed(after, k)
        invariant fresh(Arrays(after) - Arrays(slices))
        invariant old(server.Healthy()) ==> server.Healthy()
      {
        TurnOfRound(senders, i, j, k);
        r, after, more, last := MintNext(start, c, after, senders[j], k, more);
        if r.Err? {
          return;
        }
        k := k + 1;
      }
      r, last := Ok(()), NOTHING;
    }

    /** The minting loops. Wherever they stop, the mints so far are on the chain. */
    method MintAll(ghost start: World, c: nat)
      returns (r: Result<(), ServerError>, slices: SliceMap, ghost more: seq<Others>, ghost last: Others)
      requires Minting(server, ThePlan(), start, c, [])
      modifies server`chain, server`stats, server`stateDB
      ensures fresh(Arrays(slices))
      ensures if r.Ok?
              then Minting(server, ThePlan(), start, c, more) && |more| == Total(Config()) && Indexed(slices, |more|)
              else MintingStopped(server, ThePlan(), start, c, more, last)
      ensures old(server.Healthy()) ==> server.Healthy() && r.Ok?
    {
      assert Config().senders == senders && Config().mintedTokens == mintedTokens;
      hide *;
      var i, k := 0, 0;
      slices, more := map[], [];
      NoTokensYet();
      while i < mintedTokens
        invariant 0 <= i <= Rounds(Config()) && k == i * |senders| == |more|
        invariant Minting(server, ThePlan(), start, c, more)
        invariant Indexed(slices, k)
        invariant fresh(Arrays(slices))
        invariant old(server.Healthy()) ==> server.Healthy()
      {
        RoundFits(Config(), i);
        r, slices, more, last := MintRound(start, c, slices, i, k, more);
        if r.Err? {
          return;
        }
        i, k := i + 1, k + |senders|;
      }
      AllRounds(Config(), i);
      r, last := Ok(()), NOTHING;
    }

    /** Minting on contract `c`, with nothing in the store yet. */
    method MintAndStore(c: nat, ghost base: Attempt) returns (r: Result<(), ServerError>, ghost a: Attempt)
      requires MAPPING_KEY !in Now().store
      modifies this`tokenMapping, server`chain, server`stats, server`stateDB
      ensures a == base.(between := a.between, last := a.last, end := a.end) && PastCaller(a.end)
      ensures FinishPossible(ThePlan(), false, c, a) && Now() == Finished(ThePlan(), old(Now()), c, a)
      ensures r.Ok? <==> a.end.Completed?
      ensures r.Ok? ==> Indexed(tokenMapping, Total(Config())) && fresh(Arrays(tokenMapping))
      ensures r.Err? ==> tokenMapping == old(tokenMapping)
      ensures old(server.Healthy()) ==> server.Healthy() && r.Ok?
    {
      ghost var start, more, last := Now(), [], NOTHING;
      assert Minting(server, ThePlan(), start, c, []);
      assert !Skips(ThePlan(), start) && |ThePlan().mints| == Total(Config());
      hide MintFirst, MintedIndex, Contracts, Flatten, Separate, Total, AfterOthers;
      hide AllLeaveAlone, LeaveAlone, PlanOf, Skips;
      var slices;
      r, slices, more, last := MintAll(start, c);
      a := base.(between := more, last := last, end := MintFailed);
      if r.Err? {
        return;
      }
      IndexIsDone(slices);
      assert |MAPPING_KEY| > 0 && ThePlan().doneKey == MAPPING_KEY;
      r, a := NoteDone(server, ThePlan(), MappingValue(Lists(slices)), c, start, base, more);
      if r.Ok? {
        tokenMapping := slices;
      }
    }

    /** The second half. */
    method EnsureMapping(c: nat, ghost base: Attempt) returns (r: Result<(), ServerError>, ghost a: Attempt)
      requires base.between == [] && base.last == NOTHING
      modifies this`tokenMapping, server`chain, server`stats, server`stateDB
      ensures a == base.(between := a.between, last := a.last, end := a.end) && PastCaller(a.end)
      ensures FinishPossible(ThePlan(), Skips(ThePlan(), old(Now())), c, a)
      ensures Now() == Finished(ThePlan(), old(Now()), c, a)
      ensures r.Ok? <==> a.end.Completed?
      ensures r.Ok? ==>
        Separate(tokenMapping) && fresh(Arrays(tokenMapping)) &&
        MAPPING_KEY in Now().store && Now().store[MAPPING_KEY] == MappingValue(Lists(tokenMapping))
      ensures r.Err? ==> tokenMapping == old(tokenMapping)
      ensures MAPPING_KEY in old(Now()).store ==> server.chain == old(server.chain) && Now() == old(Now())
      ensures r.Ok? && MAPPING_KEY !in old(Now()).store ==> Indexed(tokenMapping, Total(Config()))
      ensures old(server.Healthy()) ==>
        server.Healthy() &&
        ((MAPPING_KEY in old(Now()).store ==> old(Now()).store[MAPPING_KEY].MappingValue?) ==> r.Ok?)
    {
      NothingIsForeign(c);
      hide MintFirst, MintedIndex, Contracts, Flatten, Lists, Separate, MintCalls, Total, AfterOthers, LeaveAlone;
      a := base.(end := DoneUnread);
      var answer := server.AnyAnswer();
      var stored := server.RetrieveValue(MAPPING_KEY, answer);
      if stored.Err? {
        return Err(stored.error), a;
      }
      if stored.value.Some? {
        if !stored.value.value.MappingValue? {
          return Err(EncodeFailed), a;
        }
        tokenMapping := Decode(stored.value.value.mapping);
        return Ok(()), a.(end := Completed);
      }
      r, a := MintAndStore(c, base);
    }

    lemma {:induction false} IndexIsComplete(slices: SliceMap)
      requires Indexed(slices, Total(Config()))
      ensures Complete(senders, mintedTokens, Lists(slices))
    {
      FullIndexIsComplete(Config());
    }

    /** `random` picks the deployer. `a` tells what happened; chain and store are then as `AfterAttempt` says. */
    method Initialize(random: nat) returns (r: Result<(), ServerError>, ghost a: Attempt)
      modifies this, server`chain, server`stats, server`stateDB
      ensures Possible(ThePlan(), old(Now()), a) && a.deployer == senders[random % |senders|]
      ensures Now() == AfterAttempt(ThePlan(), old(Now()), a)
      ensures r.Ok? <==> a.end.Completed?
      ensures r.Ok? ==>
        Separate(tokenMapping) && fresh(Arrays(tokenMapping)) &&
        CALLER_KEY in Now().store && erc721Caller.Some? && Now().store[CALLER_KEY] == CallerValue(erc721Caller.value) &&
        MAPPING_KEY in Now().store && Now().store[MAPPING_KEY] == MappingValue(Lists(tokenMapping))
      ensures r.Ok? && MAPPING_KEY !in old(Now()).store ==> Complete(senders, mintedTokens, Index())
      ensures r.Err? ==> tokenMapping == old(tokenMapping)
      ensures CALLER_KEY in old(Now()).store && MAPPING_KEY in old(Now()).store ==>
        server.chain == old(server.chain) + a.before.blocks &&
        Now() == AfterOthers(old(Now()), Own(ThePlan()), a.before)
      ensures old(server.Healthy()) ==> server.Healthy() && (Readable(ThePlan(), old(Now())) ==> r.Ok?)
    {
      hide MintFirst, MintedIndex, Contracts, Flatten, Lists, MintCalls, Total, LeaveAlone, ExecuteAll;
      hide Bag, Progression, Complete, Distinct;
      ghost var start, c := Now(), 0;
      var contract;
      contract, a := EnsureCaller(server, ThePlan(), senders[random % |senders|]);
      NothingIsForeign(Target(ThePlan(), start, a));
      if contract.Err? {
        return Err(contract.error), a;
      }
      erc721Caller := Some(contract.value);
      r, a := EnsureMapping(contract.value, a);
      if r.Ok? && MAPPING_KEY !in start.store {
        IndexIsComplete(tokenMapping);
      }
      FinishedKeepsCaller(ThePlan(), Called(ThePlan(), start, a), contract.value, a);
      HalvesMeet(ThePlan(), start, a, contract.value);
    }

    /** `below` are the transactions below the new one, and `packs` is whether the call can be packed and signed. A
        transfer moves its token in the index at once. */
    method GenerateTransaction(below: seq<Tx>, d: Draw, packs: bool) returns (r: Result<Option<Tx>, ServerError>)
      requires Separate(tokenMapping) && erc721Caller.Some?
      modifies this`tokenMapping, Arrays(tokenMapping)
      ensures Separate(tokenMapping) && fresh(Arrays(tokenMapping) - old(Arrays(tokenMapping)))
      ensures r.Err? <==> ListOf(old(Index()), PickOf(senders, recipients, d).sender) != [] && !packs
      ensures r.Err? ==> Index() == old(Index())
      ensures r.Ok? ==> Index() == AfterPick(old(Index()), PickOf(senders, recipients, d))
      ensures r.Ok? ==> r.value == Signed(old(Index()), PickOf(senders, recipients, d), erc721Caller.value, below)
      ensures r.Ok? && r.value.Some? ==> r.value.value.gas == 3_000_000
    {
      hide NextNonce, Transfer, Signed, AfterPick, Emitted, Lists, ListOf;
      var sender := senders[d.sender % |senders|];
      ListsAt(tokenMapping, sender);
      PickSigns(Index(), PickOf(senders, recipients, d), erc721Caller.value, below);
      if sender !in tokenMapping || tokenMapping[sender].len == 0 {
        return Ok(None);
      }
      var recipient := recipients[d.recipient % |recipients|];
      var index := d.token % tokenMapping[sender].len;
      var tokenID := tokenMapping[sender].arr[index];
      if !packs {
        return Err(PackFailed);
      }
      var call := SafeTransfer(erc721Caller.value, sender, recipient, tokenID);
      var tx := Tx(sender, NextNonce(below, sender), GAS_LIMIT, call);
      tokenMapping := Move(tokenMapping, sender, recipient, index);
      r := Ok(Some(tx));
    }
  }
}
