/**
 The ERC20 and ERC1155 monkey operators' initialisation: a fixed amount is minted for every slot, that is,
 for every token id and sender. Unlike the ERC721 mints these can be repeated, so an attempt that
 starts over mints again what an earlier one already minted.
 */
module Fungible {
  import opened Ledger
  import Nft
  import opened Restart
  import opened Server
  import opened Wrappers

  /** Token id (0 for ERC20) and receiver. */
  type Slot = (int, Address)

  datatype Setup = Setup(
    standard: Standard, callerKey: string, mintedKey: string,
    deployer: Address, slots: seq<Slot>, amount: nat)

  predicate WellSet(g: Setup) {
    g.standard != ERC721 && g.callerKey != g.mintedKey
  }

  /** The deployer also mints. */
  function PlanOf(g: Setup): Plan {
    Plan(g.standard, g.callerKey, g.mintedKey, g.deployer, MintCalls(g.slots, g.amount), FlagValue(true))
  }

  lemma {:induction false} PlanIsProper(g: Setup)
    requires WellSet(g)
    ensures Proper(PlanOf(g))
  {
  }

  function MintCalls(slots: seq<Slot>, amount: nat): seq<Call> {
    seq(|slots|, i requires 0 <= i < |slots| => Call.Mint(0, slots[i].1, slots[i].0, amount))
  }

  /** How many of the mints are for the slot. */
  function Times(calls: seq<Call>, slot: Slot): nat {
    if calls == [] then 0
    else
      var last := calls[|calls| - 1];
      Times(calls[..|calls| - 1], slot) + if last.Mint? && (last.kind, last.to) == slot then 1 else 0
  }

  lemma {:induction false} TimesAppend(a: seq<Call>, b: seq<Call>, slot: Slot)
    ensures Times(a + b, slot) == Times(a, slot) + Times(b, slot)
  {
    if b == [] {
      assert a + b == a;
    } else {
      TimesAppend(a, b[..|b| - 1], slot);
      assert (a + b)[..|a + b| - 1] == a + b[..|b| - 1];
    }
  }

  lemma {:induction false} TimesOfPrefix(calls: seq<Call>, k: nat, slot: Slot)
    requires k <= |calls|
    ensures Times(calls[..k], slot) <= Times(calls, slot)
  {
    TimesAppend(calls[..k], calls[k..], slot);
    assert calls == calls[..k] + calls[k..];
  }

  /** A complete attempt mints every slot as often as it is listed. */
  lemma {:induction false} TimesOfSlots(slots: seq<Slot>, amount: nat, slot: Slot)
    ensures Times(MintCalls(slots, amount), slot) == multiset(slots)[slot]
  {
    if slots != [] {
      var init, last := slots[..|slots| - 1], slots[|slots| - 1];
      TimesOfSlots(init, amount, slot);
      assert MintCalls(slots, amount)[..|slots| - 1] == MintCalls(init, amount);
      assert slots == init + [last];
    }
  }

  // ----- What is minted after any attempts -----

  lemma {:induction false} OneMore(amount: nat, n: nat)
    ensures amount * (n + 1) == amount * n + amount
  {
  }

  lemma {:induction false} Monotone(amount: nat, low: nat, n: nat, high: nat)
    requires low <= n <= high
    ensures amount * low <= amount * n <= amount * high
  {
  }

  predicate AllMint(calls: seq<Call>, amount: nat) {
    forall i :: 0 <= i < |calls| ==> calls[i].Mint? && calls[i].amount == amount
  }

  lemma {:induction false} MintsAddUp(contract: Contract, calls: seq<Call>, amount: nat, slot: Slot)
    requires contract.standard != ERC721 && AllMint(calls, amount)
    ensures var after := MintAllOn(contract, contract.owner, calls);
            after.standard == contract.standard && after.owner == contract.owner &&
            Minted(after, slot) == Minted(contract, slot) + amount * Times(calls, slot)
  {
    if calls != [] {
      MintsAddUp(contract, calls[..|calls| - 1], amount, slot);
      OneMore(amount, Times(calls[..|calls| - 1], slot));
    }
  }

  lemma {:induction false} OneMoreAttempt(g: Setup, landed: seq<Call>, k: nat, slot: Slot, n: nat)
    requires k <= |g.slots| && AllMint(landed, g.amount) && Times(landed, slot) <= multiset(g.slots)[slot] * n
    ensures var all := landed + MintCalls(g.slots, g.amount)[..k];
            AllMint(all, g.amount) &&
            Times(landed, slot) <= Times(all, slot) <= multiset(g.slots)[slot] * (n + 1) &&
            (k == |g.slots| ==> Times(all, slot) >= multiset(g.slots)[slot])
  {
    var calls := MintCalls(g.slots, g.amount);
    TimesAppend(landed, calls[..k], slot);
    TimesOfPrefix(calls, k, slot);
    TimesOfSlots(g.slots, g.amount, slot);
    OneMore(multiset(g.slots)[slot], n);
    hide Times;
    assert k == |g.slots| ==> calls[..k] == calls;
  }

  /** Each attempt mints the slot at most as often as it is listed; one that got to the end did just that. */
  lemma {:induction false} LandedTimes(g: Setup, w: World, attempts: seq<Attempt>, slot: Slot)
    ensures var landed := Landed(PlanOf(g), w, attempts);
            AllMint(landed, g.amount) && Times(landed, slot) <= multiset(g.slots)[slot] * |attempts| &&
            (g.slots != [] && Furthest(PlanOf(g), w, attempts) == |g.slots| ==>
               Times(landed, slot) >= multiset(g.slots)[slot])
  {
    if attempts != [] {
      var p, before := PlanOf(g), attempts[..|attempts| - 1];
      var more := LandedBy(p, AfterAttempts(p, w, before), attempts[|attempts| - 1]);
      assert |more| <= |g.slots| && more == MintCalls(g.slots, g.amount)[..|more|];
      LandedTimes(g, w, before, slot);
      hide LandedBy, AfterAttempts, MintCalls, Times, AllMint;
      OneMoreAttempt(g, Landed(p, w, before), |more|, slot, |before|);
    }
  }

  /** Every attempt lets the first sender deploy. */
  predicate DeployedBy(attempts: seq<Attempt>, deployer: Address) {
    forall k :: 0 <= k < |attempts| ==> attempts[k].deployer == deployer
  }

  lemma {:induction false} OnlyDeployer(attempts: seq<Attempt>, deployer: Address)
    requires DeployedBy(attempts, deployer)
    ensures Deployer(attempts).None? || Deployer(attempts) == Some(deployer)
  {
    if attempts != [] {
      OnlyDeployer(attempts[..|attempts| - 1], deployer);
    }
  }

  /** After any attempts, cut off anywhere and with any other threads running in between, on a store that has never
      seen this operator, the stored contract, if there is one, has exactly one amount for each mint of the slot
      that an attempt put on the chain. */
  lemma {:induction false} MintsAreAccounted(g: Setup, w: World, attempts: seq<Attempt>, slot: Slot)
    requires WellSet(g) && g.callerKey !in w.store && g.mintedKey !in w.store
    requires AllPossible(PlanOf(g), w, attempts) && DeployedBy(attempts, g.deployer)
    ensures var p, after := PlanOf(g), AfterAttempts(PlanOf(g), w, attempts);
            (g.mintedKey in after.store ==> g.callerKey in after.store) &&
            (g.callerKey in after.store ==>
               Stored(p, after).Some? && Stored(p, after).value < |after.contracts| &&
               var contract := after.contracts[Stored(p, after).value];
               contract.standard == g.standard && contract.owner == g.deployer &&
               Minted(contract, slot) == g.amount * Times(Landed(p, w, attempts), slot))
  {
    AttemptsAreAccounted(PlanOf(g), w, attempts);
    OnlyDeployer(attempts, g.deployer);
    LandedTimes(g, w, attempts, slot);
    MintsAddUp(Contract(g.standard, g.deployer, map[], map[]), Landed(PlanOf(g), w, attempts), g.amount, slot);
  }

  /** Recovery. Once one of k attempts has completed, every slot has been minted at least as often as one
      complete attempt mints it, and at most as often as if all k had been complete. */
  lemma {:induction false} Recovery(g: Setup, w: World, attempts: seq<Attempt>, slot: Slot)
    requires WellSet(g) && g.callerKey !in w.store && g.mintedKey !in w.store
    requires AllPossible(PlanOf(g), w, attempts) && DeployedBy(attempts, g.deployer)
    ensures var p, after := PlanOf(g), AfterAttempts(PlanOf(g), w, attempts);
            g.mintedKey in after.store ==>
            Stored(p, after).Some? && Stored(p, after).value < |after.contracts| &&
            g.amount * multiset(g.slots)[slot] <= Minted(after.contracts[Stored(p, after).value], slot) <=
            g.amount * (multiset(g.slots)[slot] * |attempts|)
  {
    AttemptsAreAccounted(PlanOf(g), w, attempts);
    MintsAreAccounted(g, w, attempts, slot);
    LandedTimes(g, w, attempts, slot);
    if g.mintedKey in AfterAttempts(PlanOf(g), w, attempts).store {
      Monotone(g.amount, multiset(g.slots)[slot], Times(Landed(PlanOf(g), w, attempts), slot),
               multiset(g.slots)[slot] * |attempts|);
    }
  }

  function Repeat(a: Attempt, k: nat): (attempts: seq<Attempt>)
    ensures |attempts| == k
  {
    if k == 0 then [] else Repeat(a, k - 1) + [a]
  }

  lemma {:induction false} RepeatedDeployer(a: Attempt, k: nat)
    ensures DeployedBy(Repeat(a, k), a.deployer)
  {
    if k > 0 {
      RepeatedDeployer(a, k - 1);
    }
  }

  /** Attempts that mint everything and then fail to note it down. */
  lemma {:induction false} EveryAttemptMintsAgain(g: Setup, w: World, k: nat, slot: Slot)
    requires WellSet(g) && g.mintedKey !in w.store
    ensures var p := PlanOf(g); var attempts := Repeat(Undisturbed(p, g.deployer, DoneNotStored), k);
            AllPossible(p, w, attempts) && DeployedBy(attempts, g.deployer) &&
            g.mintedKey !in AfterAttempts(p, w, attempts).store &&
            Times(Landed(p, w, attempts), slot) == multiset(g.slots)[slot] * k
  {
    var p, a := PlanOf(g), Undisturbed(PlanOf(g), g.deployer, DoneNotStored);
    RepeatedDeployer(a, k);
    if k > 0 {
      var before := Repeat(a, k - 1);
      assert p.callerKey == g.callerKey && p.doneKey == g.mintedKey && a.end.DoneNotStored?;
      assert g.callerKey != g.mintedKey && MintsDone(DoneNotStored);
      assert Repeat(a, k) == before + [a];
      hide *;
      EveryAttemptMintsAgain(g, w, k - 1, slot);
      OneMoreMints(g, w, before, DoneNotStored, slot);
      OnlyCompletedIsStored(p, AfterAttempts(p, w, before), a);
      OneMore(multiset(g.slots)[slot], k - 1);
    }
  }

  lemma {:induction false} OneMoreMints(g: Setup, w: World, attempts: seq<Attempt>, end: End, slot: Slot)
    requires AllPossible(PlanOf(g), w, attempts) && MintsDone(end)
    requires g.mintedKey !in AfterAttempts(PlanOf(g), w, attempts).store
    ensures var p := PlanOf(g); var more := attempts + [Undisturbed(p, g.deployer, end)];
            AllPossible(p, w, more) &&
            AfterAttempts(p, w, more) ==
            AfterAttempt(p, AfterAttempts(p, w, attempts), Undisturbed(p, g.deployer, end)) &&
            Times(Landed(p, w, more), slot) == Times(Landed(p, w, attempts), slot) + multiset(g.slots)[slot]
  {
    var p, a := PlanOf(g), Undisturbed(PlanOf(g), g.deployer, end);
    UndisturbedIsPossible(p, AfterAttempts(p, w, attempts), g.deployer, end);
    AttemptsSnoc(p, w, attempts, a);
    assert LandedBy(p, AfterAttempts(p, w, attempts), a) == p.mints[..|p.mints|] == p.mints;
    hide LandedBy, AfterAttempts, AllPossible, Possible, AfterAttempt, Landed;
    TimesAppend(Landed(p, w, attempts), p.mints, slot);
    TimesOfSlots(g.slots, g.amount, slot);
  }

  lemma {:induction false} LastCompletes(g: Setup, w: World, before: seq<Attempt>, slot: Slot)
    requires WellSet(g) && g.callerKey !in w.store && g.mintedKey !in w.store
    requires AllPossible(PlanOf(g), w, before) && DeployedBy(before, g.deployer)
    requires g.mintedKey !in AfterAttempts(PlanOf(g), w, before).store
    ensures var p := PlanOf(g); var attempts := before + [Undisturbed(p, g.deployer, Completed)];
            var after := AfterAttempts(p, w, attempts);
            AllPossible(p, w, attempts) && DeployedBy(attempts, g.deployer) && g.mintedKey in after.store &&
            Stored(p, after).Some? && Stored(p, after).value < |after.contracts| &&
            Times(Landed(p, w, attempts), slot) == Times(Landed(p, w, before), slot) + multiset(g.slots)[slot] &&
            Minted(after.contracts[Stored(p, after).value], slot) == g.amount * Times(Landed(p, w, attempts), slot)
  {
    var p, last := PlanOf(g), Undisturbed(PlanOf(g), g.deployer, Completed);
    var attempts := before + [last];
    assert attempts[|attempts| - 1] == last && last.end.Completed? && last.deployer == g.deployer;
    assert DeployedBy(attempts, g.deployer) && MintsDone(Completed);
    PlanIsProper(g);
    assert p.callerKey == g.callerKey && p.doneKey == g.mintedKey;
    hide AllPossible, AfterAttempts, Landed, Times, AfterAttempt, Undisturbed, Minted;
    hide DeployedBy, PlanOf, Proper, Stored;
    OneMoreMints(g, w, before, Completed, slot);
    CompletedIsStored(p, w, attempts);
    MintsAreAccounted(g, w, attempts, slot);
  }

  /** The upper bound of `Recovery` is met: k - 1 attempts that fail only to note that they are done, and a last one
      that completes, mint every slot k times. */
  lemma {:induction false} UpperBoundIsMet(g: Setup, w: World, k: nat, slot: Slot)
    requires WellSet(g) && g.callerKey !in w.store && g.mintedKey !in w.store && k >= 1
    ensures var p := PlanOf(g);
            var before := Repeat(Undisturbed(p, g.deployer, DoneNotStored), k - 1);
            var attempts := before + [Undisturbed(p, g.deployer, Completed)];
            var after := AfterAttempts(p, w, attempts);
            |attempts| == k && AllPossible(p, w, attempts) && DeployedBy(attempts, g.deployer) &&
            g.mintedKey in after.store &&
            Stored(p, after).Some? && Stored(p, after).value < |after.contracts| &&
            Minted(after.contracts[Stored(p, after).value], slot) == g.amount * (multiset(g.slots)[slot] * k)
  {
    hide AllPossible, AfterAttempts, Landed, Times, Undisturbed, DeployedBy, Minted, Stored;
    EveryAttemptMintsAgain(g, w, k - 1, slot);
    LastCompletes(g, w, Repeat(Undisturbed(PlanOf(g), g.deployer, DoneNotStored), k - 1), slot);
    OneMore(multiset(g.slots)[slot], k - 1);
  }

  // ----- The slots in the order of the minting loops -----

  /** One token id for every sender. */
  function Row(id: int, senders: seq<Address>): (slots: seq<Slot>)
    ensures |slots| == |senders|
  {
    seq(|senders|, j requires 0 <= j < |senders| => (id, senders[j]))
  }

  /** The token ids from `low` up to `high`, each for every sender. */
  function Rows(low: int, high: int, senders: seq<Address>): seq<Slot>
    decreases high - low
  {
    if high < low then [] else Rows(low, high - 1, senders) + Row(high, senders)
  }

  lemma {:induction false} RowsGrow(low: int, i: int, senders: seq<Address>)
    requires low <= i
    ensures |Rows(low, i, senders)| == |Rows(low, i - 1, senders)| + |senders|
  {
  }

  /** Where the mint for id `i` and sender `j` stands. */
  lemma {:induction false} RowsAt(low: int, high: int, senders: seq<Address>, i: int, j: nat)
    requires low <= i <= high && j < |senders|
    ensures var k := |Rows(low, i - 1, senders)| + j;
            k < |Rows(low, high, senders)| && Rows(low, high, senders)[k] == (i, senders[j])
    decreases high - low
  {
    if i < high {
      RowsAt(low, high - 1, senders, i, j);
    }
  }

  lemma {:induction false} RowCounts(id: int, senders: seq<Address>, slot: Slot)
    ensures multiset(Row(id, senders))[slot] == if slot.0 == id then multiset(senders)[slot.1] else 0
  {
    if senders != [] {
      var n := |senders| - 1;
      RowCounts(id, senders[..n], slot);
      assert Row(id, senders) == Row(id, senders[..n]) + [(id, senders[n])];
      assert senders == senders[..n] + [senders[n]];
    }
  }

  /** Every id in the range is minted once for every sender, and no other. */
  lemma {:induction false} RowsCount(low: int, high: int, senders: seq<Address>, slot: Slot)
    ensures multiset(Rows(low, high, senders))[slot] == if low <= slot.0 <= high then multiset(senders)[slot.1] else 0
    decreases high - low
  {
    if low <= high {
      RowsCount(low, high - 1, senders, slot);
      RowCounts(high, senders, slot);
    }
  }

  lemma {:induction false} OnceInDistinct(senders: seq<Address>, q: nat)
    requires Nft.Distinct(senders) && q < |senders|
    ensures multiset(senders)[senders[q]] == 1
  {
    assert senders == senders[..q] + [senders[q]] + senders[q + 1..];
    assert senders[q] !in senders[..q] && senders[q] !in senders[q + 1..];
  }

  /** For the operators: once one of k attempts has completed, every one of the distinct senders has been minted at
      least `amount` and at most k times `amount` of every id in the range. */
  lemma {:induction false} EverySenderRecovers(
      g: Setup, w: World, attempts: seq<Attempt>, low: int, high: int, senders: seq<Address>, id: int, q: nat)
    requires WellSet(g) && g.callerKey !in w.store && g.mintedKey !in w.store
    requires AllPossible(PlanOf(g), w, attempts) && DeployedBy(attempts, g.deployer)
    requires g.slots == Rows(low, high, senders) && Nft.Distinct(senders) && low <= id <= high && q < |senders|
    ensures var p, after := PlanOf(g), AfterAttempts(PlanOf(g), w, attempts);
            g.mintedKey in after.store ==>
            Stored(p, after).Some? && Stored(p, after).value < |after.contracts| &&
            g.amount <= Minted(after.contracts[Stored(p, after).value], (id, senders[q])) <= g.amount * |attempts|
  {
    hide AfterAttempts, AllPossible, Rows, Minted;
    OnceInDistinct(senders, q);
    RowsCount(low, high, senders, (id, senders[q]));
    Recovery(g, w, attempts, (id, senders[q]));
    assert g.amount * 1 == g.amount && 1 * |attempts| == |attempts|;
  }

  /** On the contract each of `senders` has, as often as it is listed, at least `amount` and at most `k` times `amount`
      of every id in the range, and nobody has anything else. */
  ghost predicate SharedOut(contract: Contract, low: int, high: int, senders: seq<Address>, amount: nat, k: nat) {
    forall id: int, to: Address ::
      var n := if low <= id <= high then multiset(senders)[to] else 0;
      amount * n <= Minted(contract, (id, to)) <= amount * (n * k)
  }

  /** Of distinct senders, everyone has between `amount` and `k` times `amount` of every id in the range. */
  lemma {:induction false} EveryoneHasShare(
      contract: Contract, low: int, high: int, senders: seq<Address>, amount: nat, k: nat, id: int, to: Address)
    requires SharedOut(contract, low, high, senders, amount, k) && Nft.Distinct(senders)
    ensures if low <= id <= high && to in senders
            then amount <= Minted(contract, (id, to)) <= amount * k
            else Minted(contract, (id, to)) == 0
  {
    if to in senders {
      var q :| 0 <= q < |senders| && senders[q] == to;
      OnceInDistinct(senders, q);
    }
    hide Minted;
    var n := if low <= id <= high then multiset(senders)[to] else 0;
    assert n == 0 || n == 1;
    assert amount * n <= Minted(contract, (id, to)) <= amount * (n * k);
  }

  lemma {:induction false} SlotIsShared(
      g: Setup, w: World, attempts: seq<Attempt>, low: int, high: int, senders: seq<Address>, id: int, to: Address)
    requires WellSet(g) && g.callerKey !in w.store && g.mintedKey !in w.store
    requires AllPossible(PlanOf(g), w, attempts) && DeployedBy(attempts, g.deployer)
    requires g.slots == Rows(low, high, senders) && g.mintedKey in AfterAttempts(PlanOf(g), w, attempts).store
    ensures var p, after := PlanOf(g), AfterAttempts(PlanOf(g), w, attempts);
            Stored(p, after).Some? && Stored(p, after).value < |after.contracts| &&
            var n := if low <= id <= high then multiset(senders)[to] else 0;
            g.amount * n <= Minted(after.contracts[Stored(p, after).value], (id, to)) <= g.amount * (n * |attempts|)
  {
    hide AfterAttempts, AllPossible, Rows, Minted, PlanOf, DeployedBy, Stored;
    RowsCount(low, high, senders, (id, to));
    Recovery(g, w, attempts, (id, to));
  }

  /** Once one of k attempts has completed, everything is shared out. */
  lemma {:induction false} AttemptsShareOut(
      g: Setup, w: World, attempts: seq<Attempt>, low: int, high: int, senders: seq<Address>)
    requires WellSet(g) && g.callerKey !in w.store && g.mintedKey !in w.store
    requires AllPossible(PlanOf(g), w, attempts) && DeployedBy(attempts, g.deployer)
    requires g.slots == Rows(low, high, senders)
    ensures var p, after := PlanOf(g), AfterAttempts(PlanOf(g), w, attempts);
            g.mintedKey in after.store ==>
            Stored(p, after).Some? && Stored(p, after).value < |after.contracts| &&
            var contract := after.contracts[Stored(p, after).value];
            contract.standard == g.standard && contract.owner == g.deployer &&
            SharedOut(contract, low, high, senders, g.amount, |attempts|)
  {
    var p, after := PlanOf(g), AfterAttempts(PlanOf(g), w, attempts);
    hide AfterAttempts, AllPossible, Rows, Minted, PlanOf, DeployedBy, Stored, Landed, Times;
    MintsAreAccounted(g, w, attempts, (0, 0));
    if g.mintedKey in after.store {
      forall id: int, to: Address
        ensures var n := if low <= id <= high then multiset(senders)[to] else 0;
                g.amount * n <= Minted(after.contracts[Stored(p, after).value], (id, to)) <=
                g.amount * (n * |attempts|)
      {
        SlotIsShared(g, w, attempts, low, high, senders, id, to);
      }
    }
  }

  lemma {:induction false} OneMoreSharesOut(
      g: Setup, w: World, attempts: seq<Attempt>, a: Attempt, low: int, high: int, senders: seq<Address>)
    requires WellSet(g) && g.callerKey !in w.store && g.mintedKey !in w.store
    requires AllPossible(PlanOf(g), w, attempts) && Possible(PlanOf(g), AfterAttempts(PlanOf(g), w, attempts), a)
    requires DeployedBy(attempts, g.deployer) && a.deployer == g.deployer && g.slots == Rows(low, high, senders)
    ensures var p := PlanOf(g); var after := AfterAttempt(p, AfterAttempts(p, w, attempts), a);
            g.mintedKey in after.store ==>
            Stored(p, after).Some? && Stored(p, after).value < |after.contracts| &&
            var contract := after.contracts[Stored(p, after).value];
            contract.standard == g.standard && contract.owner == g.deployer &&
            SharedOut(contract, low, high, senders, g.amount, |attempts| + 1)
  {
    AttemptsSnoc(PlanOf(g), w, attempts, a);
    assert DeployedBy(attempts + [a], g.deployer);
    hide AfterAttempts, AfterAttempt, AllPossible, Possible, DeployedBy, SharedOut, Rows, PlanOf;
    AttemptsShareOut(g, w, attempts + [a], low, high, senders);
  }

  lemma {:induction false} EarlierIsReadable(g: Setup, w: World, attempts: seq<Attempt>)
    requires WellSet(g) && g.callerKey != "" && g.mintedKey != ""
    requires AllPossible(PlanOf(g), w, attempts) && g.callerKey !in w.store && g.mintedKey !in w.store
    ensures Readable(PlanOf(g), AfterAttempts(PlanOf(g), w, attempts))
  {
    var p := PlanOf(g);
    PlanIsProper(g);
    AttemptsAreAccounted(p, w, attempts);
    AccountedIsReadable(p, AfterAttempts(p, w, attempts), Deployer(attempts), Landed(p, w, attempts),
                        Furthest(p, w, attempts));
  }

  // ----- The operators -----

  /** `PickRandomSigner` and `senders[0]` panic on an empty list. */
  type Signers = s: seq<Address> | s != [] witness [0]

  lemma {:induction false} PlanMint(g: Setup, k: nat)
    requires k < |g.slots|
    ensures |PlanOf(g).mints| == |g.slots| && PlanOf(g).mints[k] == Call.Mint(0, g.slots[k].1, g.slots[k].0, g.amount)
  {
  }

  /** The first half of `Initialize` and the look at the flag; `r` is the contract and whether it is minted already.
      An error, or that it is, ends the attempt. */
  method Begin(server: ETHTestServer, g: Setup)
    returns (r: Result<nat, ServerError>, e: Option<ServerError>, minted: bool, ghost a: Attempt)
    requires WellSet(g)
    modifies server`chain, server`stats, server`stateDB
    ensures a.deployer == g.deployer && CallPossible(PlanOf(g), old(server.Seen()), a)
    ensures r.Err? || e.Some? || minted ==>
      Possible(PlanOf(g), old(server.Seen()), a) && server.Seen() == AfterAttempt(PlanOf(g), old(server.Seen()), a)
    ensures r.Err? || e.Some? ==> !a.end.Completed?
    ensures r.Ok? ==>
      Stored(PlanOf(g), server.Seen()) == Some(r.value) && Target(PlanOf(g), old(server.Seen()), a) == r.value
    ensures r.Ok? ==> server.Seen() == Called(PlanOf(g), old(server.Seen()), a)
    ensures r.Ok? && e.None? ==> (minted <==> Skips(PlanOf(g), server.Seen())) && (minted ==> a.end.Completed?)
    ensures g.callerKey in old(server.Seen()).store ==>
      server.chain == old(server.chain) + a.before.blocks &&
      server.Seen() == AfterOthers(old(server.Seen()), Own(PlanOf(g)), a.before)
    ensures old(server.Healthy()) ==>
      server.Healthy() && (Readable(PlanOf(g), old(server.Seen())) ==> r.Ok? && e.None?)
  {
    hide MintFirst, ExecuteAll, Foreign, Contracts, Flatten, MintCalls;
    ghost var start := server.Seen();
    e, minted := None, false;
    r, a := EnsureCaller(server, PlanOf(g), g.deployer);
    NothingIsForeign(Target(PlanOf(g), start, a));
    if r.Err? {
      return;
    }
    var answer := server.AnyAnswer();
    var stored := server.RetrieveValue(g.mintedKey, answer);
    a := a.(end := DoneUnread);
    HalvesMeet(PlanOf(g), start, a, r.value);
    if stored.Err? {
      e := Some(stored.error);
    } else if stored.value.Some? && !stored.value.value.FlagValue? {
      e := Some(EncodeFailed);
    } else if stored.value.Some? && stored.value.value.flag {
      a, minted := a.(end := Completed), true;
      HalvesMeet(PlanOf(g), start, a, r.value);
    }
  }

  lemma {:induction false} NoMintsYet(server: ETHTestServer, g: Setup, c: nat)
    ensures Minting(server, PlanOf(g), server.Seen(), c, [])
  {
  }

  /** The other threads, and then the mint for the next slot. */
  method SendSlot(server: ETHTestServer, g: Setup, slot: Slot, c: nat, ghost start: World, ghost between: seq<Others>)
    returns (r: Result<(), ServerError>, ghost more: seq<Others>, ghost last: Others)
    requires Minting(server, PlanOf(g), start, c, between) && |between| < |g.slots| && slot == g.slots[|between|]
    modifies server`chain, server`stats, server`stateDB
    ensures if r.Ok? then Minting(server, PlanOf(g), start, c, more) && |more| == |between| + 1
            else MintingStopped(server, PlanOf(g), start, c, more, last)
    ensures old(server.Healthy()) ==> server.Healthy() && r.Ok?
  {
    PlanMint(g, |between|);
    hide MintFirst, MintCalls, AfterOthers, AllLeaveAlone, LeaveAlone;
    r, more, last := SendMint(server, PlanOf(g), Call.Mint(c, slot.1, slot.0, g.amount), c, start, between);
  }

  const ERC1155_KEY := "monkeyERC1155TransferorsState"
  const ERC20_KEY := "monkeyERC20TransferorsState"
  const CALLER := ":contractCaller"
  const MINTED := ":tokensMinted"

  lemma {:induction false} KeysDiffer()
    ensures ERC1155_KEY + CALLER != ERC1155_KEY + MINTED && ERC20_KEY + CALLER != ERC20_KEY + MINTED
    ensures "" !in {ERC1155_KEY + CALLER, ERC1155_KEY + MINTED, ERC20_KEY + CALLER, ERC20_KEY + MINTED}
  {
    assert |CALLER| != |MINTED|;
  }

  /** The end of `Initialize` after the minting loops: `r` is what they returned. */
  method Finish(server: ETHTestServer, g: Setup, r: Result<(), ServerError>, c: nat,
      ghost start: World, ghost called: World, ghost base: Attempt, ghost between: seq<Others>, ghost last: Others)
    returns (q: Result<(), ServerError>, ghost a: Attempt)
    requires WellSet(g) && CallPossible(PlanOf(g), start, base) && called == Called(PlanOf(g), start, base)
    requires Stored(PlanOf(g), called) == Some(c) && Target(PlanOf(g), start, base) == c && !Skips(PlanOf(g), called)
    requires if r.Ok? then Minting(server, PlanOf(g), called, c, between) && |between| == |PlanOf(g).mints|
             else MintingStopped(server, PlanOf(g), called, c, between, last)
    modifies server`chain, server`stats, server`stateDB
    ensures Possible(PlanOf(g), start, a) && server.Seen() == AfterAttempt(PlanOf(g), start, a)
    ensures a.deployer == base.deployer && (q.Ok? <==> a.end.Completed?)
    ensures q.Ok? ==> Skips(PlanOf(g), server.Seen()) && Stored(PlanOf(g), server.Seen()) == Some(c)
    ensures old(server.Healthy()) && g.mintedKey != "" ==> server.Healthy() && (r.Ok? ==> q.Ok?)
  {
    hide MintFirst, MintCalls, Contracts, Flatten, AfterOthers, ExecuteAll;
    if r.Err? {
      q, a := r, base.(between := between, last := last, end := MintFailed);
    } else {
      q, a := NoteDone(server, PlanOf(g), FlagValue(true), c, called, base, between);
    }
    FinishedKeepsCaller(PlanOf(g), called, c, a);
    HalvesMeet(PlanOf(g), start, a, c);
  }

  class ERC1155TransactionGenerator {
    const server: ETHTestServer
    const senders: Signers
    const tokenMin: int
    const tokenMax: int
    const mintAmount: nat
    var erc1155Caller: Option<nat>

    constructor (server: ETHTestServer, senders: Signers, tokenMin: int, tokenMax: int, mintAmount: nat)
      ensures this.server == server && this.senders == senders && this.tokenMin == tokenMin && this.tokenMax == tokenMax
      ensures this.mintAmount == mintAmount && erc1155Caller == None
    {
      this.server, this.senders := server, senders;
      this.tokenMin, this.tokenMax, this.mintAmount := tokenMin, tokenMax, mintAmount;
      erc1155Caller := None;
    }

    function Config(): (g: Setup)
      ensures WellSet(g) && g.callerKey != "" && g.mintedKey != ""
      ensures g.deployer == senders[0] && g.amount == mintAmount
    {
      KeysDiffer();
      Setup(ERC1155, ERC1155_KEY + CALLER, ERC1155_KEY + MINTED,
            senders[0], Rows(tokenMin, tokenMax, senders), mintAmount)
    }

    function ThePlan(): Plan {
      PlanOf(Config())
    }

    lemma {:induction false} MintsAreRows()
      ensures |ThePlan().mints| == |Rows(tokenMin, tokenMax, senders)| && Rows(tokenMin, tokenMin - 1, senders) == []
      ensures tokenMax < tokenMin ==> ThePlan().mints == []
    {
    }

    /** The inner loop: one id for every sender. */
    method MintRow(i: int, c: nat, ghost start: World, ghost between: seq<Others>)
      returns (r: Result<(), ServerError>, ghost more: seq<Others>, ghost last: Others)
      requires tokenMin <= i <= tokenMax && |between| == |Rows(tokenMin, i - 1, senders)|
      requires Minting(server, ThePlan(), start, c, between)
      modifies server`chain, server`stats, server`stateDB
      ensures if r.Ok? then Minting(server, ThePlan(), start, c, more) && |more| == |Rows(tokenMin, i, senders)|
              else MintingStopped(server, ThePlan(), start, c, more, last)
      ensures old(server.Healthy()) ==> server.Healthy() && r.Ok?
    {
      assert Config().slots == Rows(tokenMin, tokenMax, senders);
      hide *;
      more := between;
      for j := 0 to |senders|
        invariant |more| == |Rows(tokenMin, i - 1, senders)| + j
        invariant Minting(server, ThePlan(), start, c, more)
        invariant old(server.Healthy()) ==> server.Healthy()
      {
        RowsAt(tokenMin, tokenMax, senders, i, j);
        r, more, last := SendSlot(server, Config(), (i, senders[j]), c, start, more);
        if r.Err? {
          return;
        }
      }
      RowsGrow(tokenMin, i, senders);
      r, last := Ok(()), NOTHING;
    }

    method MintTokens(c: nat, ghost start: World)
      returns (r: Result<(), ServerError>, ghost more: seq<Others>, ghost last: Others)
      requires Minting(server, ThePlan(), start, c, [])
      modifies server`chain, server`stats, server`stateDB
      ensures if r.Ok? then Minting(server, ThePlan(), start, c, more) && |more| == |ThePlan().mints|
              else MintingStopped(server, ThePlan(), start, c, more, last)
      ensures old(server.Healthy()) ==> server.Healthy() && r.Ok?
    {
      hide *;
      MintsAreRows();
      var i := tokenMin;
      more := [];
      while i <= tokenMax
        invariant tokenMin <= i && (i > tokenMin ==> i - 1 <= tokenMax)
        invariant |more| == |Rows(tokenMin, i - 1, senders)|
        invariant Minting(server, ThePlan(), start, c, more)
        invariant old(server.Healthy()) ==> server.Healthy()
      {
        r, more, last := MintRow(i, c, start, more);
        if r.Err? {
          return;
        }
        i := i + 1;
      }
      r, last := Ok(()), NOTHING;
    }

    /** `a` tells what happened; the chain and the store are then as `AfterAttempt` says. */
    method Initialize() returns (r: Result<(), ServerError>, ghost a: Attempt)
      modifies this`erc1155Caller, server`chain, server`stats, server`stateDB
      ensures Possible(ThePlan(), old(server.Seen()), a) && a.deployer == senders[0]
      ensures server.Seen() == AfterAttempt(ThePlan(), old(server.Seen()), a)
      ensures r.Ok? <==> a.end.Completed?
      ensures r.Ok? ==>
        erc1155Caller.Some? && Stored(ThePlan(), server.Seen()) == erc1155Caller && Skips(ThePlan(), server.Seen())
      ensures Config().callerKey in old(server.Seen()).store && Skips(ThePlan(), old(server.Seen())) ==>
        server.chain == old(server.chain) + a.before.blocks &&
        server.Seen() == AfterOthers(old(server.Seen()), Own(ThePlan()), a.before)
      ensures old(server.Healthy()) ==> server.Healthy() && (Readable(ThePlan(), old(server.Seen())) ==> r.Ok?)
    {
      hide MintFirst, MintCalls, Contracts, Flatten, ExecuteAll;
      ghost var start, more, last := server.Seen(), [], NOTHING;
      var contract, e, minted;
      contract, e, minted, a := Begin(server, Config());
      if contract.Err? {
        return Err(contract.error), a;
      }
      erc1155Caller := Some(contract.value);
      if e.Some? {
        return Err(e.value), a;
      }
      if minted {
        return Ok(()), a;
      }
      NoMintsYet(server, Config(), contract.value);
      ghost var called := server.Seen();
      r, more, last := MintTokens(contract.value, called);
      r, a := Finish(server, Config(), r, contract.value, start, called, a, more, last);
    }

    /** After any attempts that were cut off, with the other threads running at any point: success leaves a contract of
        the first sender on which everything is shared out, and on a healthy server nothing fails. */
    method InitializeFirst(ghost w: World, ghost attempts: seq<Attempt>)
      returns (r: Result<(), ServerError>, ghost a: Attempt)
      requires ERC1155_KEY + CALLER !in w.store && ERC1155_KEY + MINTED !in w.store
      requires AllPossible(ThePlan(), w, attempts) && DeployedBy(attempts, senders[0])
      requires server.Seen() == AfterAttempts(ThePlan(), w, attempts)
      modifies this`erc1155Caller, server`chain, server`stats, server`stateDB
      ensures r.Ok? ==>
        var contracts := Contracts(Flatten(server.chain));
        erc1155Caller.Some? && erc1155Caller.value < |contracts| &&
        var contract := contracts[erc1155Caller.value];
        contract.standard == ERC1155 && contract.owner == senders[0] &&
        SharedOut(contract, tokenMin, tokenMax, senders, mintAmount, |attempts| + 1)
      ensures old(server.running && server.stateDB.Some?) && server.reliable && server.config.maxBlockNum == 0 ==> r.Ok?
    {
      EarlierIsReadable(Config(), w, attempts);
      r, a := Initialize();
      hide AfterAttempt, AfterAttempts, AllPossible, Possible, DeployedBy, Contracts, Flatten, SharedOut, Rows;
      OneMoreSharesOut(Config(), w, attempts, a, tokenMin, tokenMax, senders);
    }
  }

  class ERC20TransactionGenerator {
    const server: ETHTestServer
    const senders: Signers
    const mintAmount: nat
    var erc20Caller: Option<nat>

    constructor (server: ETHTestServer, senders: Signers, mintAmount: nat)
      ensures this.server == server && this.senders == senders && this.mintAmount == mintAmount && erc20Caller == None
    {
      this.server, this.senders := server, senders;
      this.mintAmount := mintAmount;
      erc20Caller := None;
    }

    function Config(): (g: Setup)
      ensures WellSet(g) && g.callerKey != "" && g.mintedKey != ""
      ensures g.deployer == senders[0] && g.amount == mintAmount
    {
      KeysDiffer();
      Setup(ERC20, ERC20_KEY + CALLER, ERC20_KEY + MINTED, senders[0], Rows(0, 0, senders), mintAmount)
    }

    function ThePlan(): Plan {
      PlanOf(Config())
    }

    method MintTokens(c: nat, ghost start: World)
      returns (r: Result<(), ServerError>, ghost more: seq<Others>, ghost last: Others)
      requires Minting(server, ThePlan(), start, c, [])
      modifies server`chain, server`stats, server`stateDB
      ensures if r.Ok? then Minting(server, ThePlan(), start, c, more) && |more| == |ThePlan().mints|
              else MintingStopped(server, ThePlan(), start, c, more, last)
      ensures old(server.Healthy()) ==> server.Healthy() && r.Ok?
    {
      assert Config().slots == Rows(0, 0, senders) && Rows(0, -1, senders) == [];
      assert |ThePlan().mints| == |Config().slots| == |senders|;
      hide *;
      more := [];
      for j := 0 to |senders|
        invariant |more| == j && Minting(server, ThePlan(), start, c, more)
        invariant old(server.Healthy()) ==> server.Healthy()
      {
        RowsAt(0, 0, senders, 0, j);
        r, more, last := SendSlot(server, Config(), (0, senders[j]), c, start, more);
        if r.Err? {
          return;
        }
      }
      r, last := Ok(()), NOTHING;
    }

    /** `a` tells what happened; the chain and the store are then as `AfterAttempt` says. */
    method Initialize() returns (r: Result<(), ServerError>, ghost a: Attempt)
      modifies this`erc20Caller, server`chain, server`stats, server`stateDB
      ensures Possible(ThePlan(), old(server.Seen()), a) && a.deployer == senders[0]
      ensures server.Seen() == AfterAttempt(ThePlan(), old(server.Seen()), a)
      ensures r.Ok? <==> a.end.Completed?
      ensures r.Ok? ==>
        erc20Caller.Some? && Stored(ThePlan(), server.Seen()) == erc20Caller && Skips(ThePlan(), server.Seen())
      ensures Config().callerKey in old(server.Seen()).store && Skips(ThePlan(), old(server.Seen())) ==>
        server.chain == old(server.chain) + a.before.blocks &&
        server.Seen() == AfterOthers(old(server.Seen()), Own(ThePlan()), a.before)
      ensures old(server.Healthy()) ==> server.Healthy() && (Readable(ThePlan(), old(server.Seen())) ==> r.Ok?)
    {
      hide MintFirst, MintCalls, Contracts, Flatten, ExecuteAll;
      ghost var start, more, last := server.Seen(), [], NOTHING;
      var contract, e, minted;
      contract, e, minted, a := Begin(server, Config());
      if contract.Err? {
        return Err(contract.error), a;
      }
      erc20Caller := Some(contract.value);
      if e.Some? {
        return Err(e.value), a;
      }
      if minted {
        return Ok(()), a;
      }
      NoMintsYet(server, Config(), contract.value);
      ghost var called := server.Seen();
      r, more, last := MintTokens(contract.value, called);
      r, a := Finish(server, Config(), r, contract.value, start, called, a, more, last);
    }

    /** After any attempts that were cut off, with the other threads running at any point: success leaves a contract of
        the first sender on which everything is shared out, and on a healthy server nothing fails. */
    method InitializeFirst(ghost w: World, ghost attempts: seq<Attempt>)
      returns (r: Result<(), ServerError>, ghost a: Attempt)
      requires ERC20_KEY + CALLER !in w.store && ERC20_KEY + MINTED !in w.store
      requires AllPossible(ThePlan(), w, attempts) && DeployedBy(attempts, senders[0])
      requires server.Seen() == AfterAttempts(ThePlan(), w, attempts)
      modifies this`erc20Caller, server`chain, server`stats, server`stateDB
      ensures r.Ok? ==>
        var contracts := Contracts(Flatten(server.chain));
        erc20Caller.Some? && erc20Caller.value < |contracts| &&
        var contract := contracts[erc20Caller.value];
        contract.standard == ERC20 && contract.owner == senders[0] &&
        SharedOut(contract, 0, 0, senders, mintAmount, |attempts| + 1)
      ensures old(server.running && server.stateDB.Some?) && server.reliable && server.config.maxBlockNum == 0 ==> r.Ok?
    {
      EarlierIsReadable(Config(), w, attempts);
      r, a := Initialize();
      hide AfterAttempt, AfterAttempts, AllPossible, Possible, DeployedBy, Contracts, Flatten, SharedOut, Rows;
      OneMoreSharesOut(Config(), w, attempts, a, 0, 0, senders);
    }
  }
}
