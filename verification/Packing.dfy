/**
 Greedy packing of pending pool transactions into the block that `maybeGenerateBlock`
 builds, and the question that decides whether that block can be built at all: `AddTx`
 panics on a transaction that does not carry its sender's next nonce.
 */
module Packing {
  import opened Ledger
  import opened Words
  import opened Wrappers

  /** A pool entry resolves to its transaction, or to nothing if the pool has dropped it. */
  type Lazy = Option<Tx>

  /** The pool keys its batches by sender. A map is iterated in any order, so a sequence of
      batches stands for one such order and every theorem below is about all of them. */
  datatype Batch = Batch(sender: Address, entries: seq<Lazy>)

  /** The transactions chosen so far and the `uint64` gas counter. */
  datatype Packed = Packed(txs: seq<Tx>, gas: nat)

  predicate Fits(used: nat, gas: nat, limit: nat) {
    ToUint64(used + gas) <= limit
  }

  lemma {:induction false} FitsExactly(used: nat, gas: nat, limit: nat)
    requires used + gas < TWO_64
    ensures Fits(used, gas, limit) <==> used + gas <= limit
  {
  }

  function PackOne(p: Packed, entry: Lazy, limit: nat): Packed {
    match entry
    case None => p
    case Some(tx) =>
      if Fits(p.gas, tx.gas, limit) then Packed(p.txs + [tx], ToUint64(p.gas + tx.gas)) else p
  }

  /** What packing `entries` adds when the counter already stands at `used`. */
  function Pack(entries: seq<Lazy>, used: nat, limit: nat): Packed {
    if entries == [] then Packed([], used)
    else PackOne(Pack(entries[..|entries| - 1], used, limit), entries[|entries| - 1], limit)
  }

  lemma {:induction false} PackSnoc(entries: seq<Lazy>, entry: Lazy, used: nat, limit: nat)
    ensures Pack(entries + [entry], used, limit) == PackOne(Pack(entries, used, limit), entry, limit)
  {
    assert (entries + [entry])[..|entries|] == entries;
  }

  lemma {:induction false} PackNext(entries: seq<Lazy>, i: nat, used: nat, limit: nat)
    requires i < |entries|
    ensures Pack(entries[..i + 1], used, limit) == PackOne(Pack(entries[..i], used, limit), entries[i], limit)
  {
    PackSnoc(entries[..i], entries[i], used, limit);
    assert entries[..i] + [entries[i]] == entries[..i + 1];
  }

  function Entries(pending: seq<Batch>): seq<Lazy> {
    if pending == [] then [] else Entries(pending[..|pending| - 1]) + pending[|pending| - 1].entries
  }

  function SumGas(txs: seq<Tx>): nat {
    if txs == [] then 0 else SumGas(txs[..|txs| - 1]) + txs[|txs| - 1].gas
  }

  lemma {:induction false} EntriesStep(pending: seq<Batch>, i: nat)
    requires i < |pending|
    ensures Entries(pending[..i + 1]) == Entries(pending[..i]) + pending[i].entries
  {
    assert pending[..i + 1][..i] == pending[..i];
  }

  lemma {:induction false} PackStep(before: seq<Lazy>, batch: seq<Lazy>, j: nat, limit: nat)
    requires j < |batch|
    ensures var p := Pack(before + batch[..j], 0, limit);
            Pack(before + batch[..j + 1], 0, limit) ==
            if batch[j].Some? && ToUint64(p.gas + batch[j].value.gas) <= limit
            then Packed(p.txs + [batch[j].value], ToUint64(p.gas + batch[j].value.gas)) else p
  {
    PackSnoc(before + batch[..j], batch[j], 0, limit);
    assert before + batch[..j] + [batch[j]] == before + batch[..j + 1];
  }

  /** The packing loops of `maybeGenerateBlock`. */
  method PackPool(pending: seq<Batch>, blockGasLimit: nat) returns (selected: seq<Tx>, gasUsed: nat)
    ensures Packed(selected, gasUsed) == Pack(Entries(pending), 0, blockGasLimit)
  {
    selected, gasUsed := [], 0;
    assert Packed(selected, gasUsed) == Pack(Entries(pending[..0]), 0, blockGasLimit);
    hide Pack, Entries, ToUint64, PackOne, Fits;
    for i := 0 to |pending|
      invariant Packed(selected, gasUsed) == Pack(Entries(pending[..i]), 0, blockGasLimit)
    {
      var batch := pending[i].entries;
      ghost var before := Entries(pending[..i]);
      assert before + batch[..0] == before;
      for j := 0 to |batch|
        invariant Packed(selected, gasUsed) == Pack(before + batch[..j], 0, blockGasLimit)
      {
        PackStep(before, batch, j, blockGasLimit);
        var lazy := batch[j];
        if lazy.Some? {
          var tx := lazy.value;
          if ToUint64(gasUsed + tx.gas) <= blockGasLimit {
            selected := selected + [tx];
            gasUsed := ToUint64(gasUsed + tx.gas);
          }
        }
      }
      EntriesStep(pending, i);
      assert batch[..|batch|] == batch;
    }
    assert pending[..|pending|] == pending;
  }

  // ----- The gas counter -----

  /** No addition the packing can perform overflows. */
  ghost predicate Safe(entries: seq<Lazy>, limit: nat) {
    forall i :: 0 <= i < |entries| && entries[i].Some? ==> limit + entries[i].value.gas < TWO_64
  }

  lemma {:induction false} SumGasSnoc(txs: seq<Tx>, tx: Tx)
    ensures SumGas(txs + [tx]) == SumGas(txs) + tx.gas
  {
    assert (txs + [tx])[..|txs|] == txs;
  }

  lemma {:induction false} OneMoreWithinLimit(p: Packed, entry: Lazy, used: nat, limit: nat)
    requires used + SumGas(p.txs) == p.gas <= limit && (entry.Some? ==> limit + entry.value.gas < TWO_64)
    ensures var q := PackOne(p, entry, limit); used + SumGas(q.txs) == q.gas <= limit
  {
    hide ToUint64, SumGas;
    if entry.Some? {
      NoWrap(p.gas, entry.value.gas);
      SumGasSnoc(p.txs, entry.value);
    }
  }

  lemma {:induction false} NoWrap(used: nat, gas: nat)
    requires used + gas < TWO_64
    ensures ToUint64(used + gas) == used + gas
  {
  }

  /** The counter is the true total and stays within the limit. */
  lemma {:induction false} GasWithinLimit(entries: seq<Lazy>, used: nat, limit: nat)
    requires used <= limit && Safe(entries, limit)
    ensures var p := Pack(entries, used, limit); used + SumGas(p.txs) == p.gas <= limit
  {
    if entries != [] {
      var init, last := entries[..|entries| - 1], entries[|entries| - 1];
      assert Pack(entries, used, limit) == PackOne(Pack(init, used, limit), last, limit);
      hide Pack, PackOne, SumGas;
      GasWithinLimit(init, used, limit);
      OneMoreWithinLimit(Pack(init, used, limit), last, used, limit);
    }
  }

  /** The bound on the gas is needed exactly as it stands: a transaction keeps every packing it
      is added to within the limit if and only if limit plus gas is below 2^64. */
  lemma {:induction false} SafeIsNeeded(tx: Tx, limit: nat)
    requires tx.gas < TWO_64 && limit < TWO_64
    ensures limit + tx.gas < TWO_64 <==>
            forall used: nat | used <= limit :: used + SumGas(Pack([Some(tx)], used, limit).txs) <= limit
  {
    var one := [Some(tx)];
    assert one[..0] == [];
    assert [tx][..0] == [];
    forall used: nat | used <= limit && limit + tx.gas < TWO_64
      ensures used + SumGas(Pack(one, used, limit).txs) <= limit
    {
      GasWithinLimit(one, used, limit);
    }
    if limit + tx.gas >= TWO_64 {
      assert Pack(one[..0], limit, limit) == Packed([], limit);
      assert ToUint64(limit + tx.gas) == limit + tx.gas - TWO_64;
      assert Pack(one, limit, limit).txs == [tx];
      assert SumGas([tx]) == tx.gas;
    }
  }

  /** Entry `i` resolved but did not fit when its turn came. */
  predicate Skipped(entries: seq<Lazy>, i: nat, used: nat, limit: nat)
    requires i < |entries|
  {
    entries[i].Some? && !Fits(Pack(entries[..i], used, limit).gas, entries[i].value.gas, limit)
  }

  /** A skipped transaction does not fit into what is left at the end either. */
  lemma {:induction false} SkippedNeverFits(entries: seq<Lazy>, i: nat, used: nat, limit: nat)
    requires used <= limit && Safe(entries, limit)
    requires i < |entries| && Skipped(entries, i, used, limit)
    ensures Pack(entries, used, limit).gas + entries[i].value.gas > limit
  {
    var init, last := entries[..|entries| - 1], entries[|entries| - 1];
    GasWithinLimit(init, used, limit);
    if i < |init| {
      assert init[..i] == entries[..i];
      SkippedNeverFits(init, i, used, limit);
    }
  }

  /** If every transaction takes at most half a block and one was skipped, the block is more than half full. */
  lemma {:induction false} HalfFull(entries: seq<Lazy>, i: nat, limit: nat)
    requires Safe(entries, limit)
    requires forall k :: 0 <= k < |entries| && entries[k].Some? ==> entries[k].value.gas <= limit / 2
    requires i < |entries| && Skipped(entries, i, 0, limit)
    ensures 2 * Pack(entries, 0, limit).gas > limit
  {
    SkippedNeverFits(entries, i, 0, limit);
  }

  // ----- When one sender's part is a prefix of its batch -----

  /** `part` is the first `|part|` entries of the batch, none of them dropped. */
  ghost predicate IsPrefix(part: seq<Tx>, entries: seq<Lazy>) {
    |part| <= |entries| && forall i :: 0 <= i < |part| ==> entries[i] == Some(part[i])
  }

  predicate Resolved(entries: seq<Lazy>) {
    forall i :: 0 <= i < |entries| ==> entries[i].Some?
  }

  predicate NonDecreasing(entries: seq<Lazy>)
    requires Resolved(entries)
  {
    forall i :: 0 <= i < |entries| - 1 ==> entries[i].value.gas <= entries[i + 1].value.gas
  }

  lemma {:induction false} NonDecreasingApart(entries: seq<Lazy>, i: nat, j: nat)
    requires Resolved(entries) && NonDecreasing(entries) && i <= j < |entries|
    ensures entries[i].value.gas <= entries[j].value.gas
  {
    if i < j {
      NonDecreasingApart(entries, i, j - 1);
      assert entries[j - 1].value.gas <= entries[j - 1 + 1].value.gas;
    }
  }

  lemma {:induction false} CheapestFirstStep(entries: seq<Lazy>, p: Packed, limit: nat)
    requires Resolved(entries) && NonDecreasing(entries) && entries != [] && p.gas <= limit && Safe(entries, limit)
    requires IsPrefix(p.txs, entries[..|entries| - 1])
    requires |p.txs| < |entries| - 1 ==> p.gas + entries[|p.txs|].value.gas > limit
    ensures var q := PackOne(p, entries[|entries| - 1], limit);
            IsPrefix(q.txs, entries) && (|q.txs| < |entries| ==> q.gas + entries[|q.txs|].value.gas > limit)
  {
    NonDecreasingApart(entries, |p.txs|, |entries| - 1);
  }

  /** Cheapest first is enough: once one transaction is skipped, all later ones are. */
  lemma {:induction false} CheapestFirstIsPrefix(entries: seq<Lazy>, used: nat, limit: nat)
    requires Resolved(entries) && NonDecreasing(entries) && used <= limit && Safe(entries, limit)
    ensures var p := Pack(entries, used, limit);
            IsPrefix(p.txs, entries) &&
            (|p.txs| < |entries| ==> p.gas + entries[|p.txs|].value.gas > limit)
  {
    if entries != [] {
      var init := entries[..|entries| - 1];
      CheapestFirstIsPrefix(init, used, limit);
      GasWithinLimit(init, used, limit);
      CheapestFirstStep(entries, Pack(init, used, limit), limit);
    }
  }

  lemma {:induction false} DipPacks(entries: seq<Lazy>, i: nat, used: nat, limit: nat)
    requires Resolved(entries) && i + 1 < |entries| && entries[i + 1].value.gas < entries[i].value.gas
    requires limit == used + TotalGas(entries[..i]) + entries[i + 1].value.gas && limit + entries[i].value.gas < TWO_64
    ensures var before := Pack(entries[..i], used, limit).txs;
            |before| == i && Pack(entries[..i + 2], used, limit).txs == before + [entries[i + 1].value]
  {
    hide Pack, TotalGas, Fits, ToUint64, IsPrefix;
    PackAll(entries[..i], used, limit);
    PackNext(entries, i, used, limit);
    PackNext(entries, i + 1, used, limit);
    FitsExactly(used + TotalGas(entries[..i]), entries[i].value.gas, limit);
    FitsExactly(used + TotalGas(entries[..i]), entries[i + 1].value.gas, limit);
  }

  /** A transaction that is cheaper than an earlier one of its batch can be packed without it: with
      room for the entries before the dear one and for the cheap one, the dear one is left out. */
  lemma {:induction false} DipIsNotPrefix(entries: seq<Lazy>, i: nat, used: nat)
    requires Resolved(entries) && i + 1 < |entries|
    requires entries[i + 1].value.gas < entries[i].value.gas
    requires forall k :: 0 <= k < |entries| ==> used + TotalGas(entries) + entries[k].value.gas < TWO_64
    ensures var limit := used + TotalGas(entries[..i]) + entries[i + 1].value.gas;
            limit <= used + TotalGas(entries) && Safe(entries, limit) &&
            !IsPrefix(Pack(entries, used, limit).txs, entries)
  {
    hide Pack, TotalGas;
    var limit := used + TotalGas(entries[..i]) + entries[i + 1].value.gas;
    TotalGasMonotone(entries, i + 2);
    TotalGasSnoc(entries, i);
    TotalGasSnoc(entries, i + 1);
    DipPacks(entries, i, used, limit);
    PackExtends(entries, i + 2, used, limit);
    assert Pack(entries, used, limit).txs[i] == entries[i + 1].value;
  }

  function TotalGas(entries: seq<Lazy>): nat
    requires Resolved(entries)
  {
    if entries == [] then 0 else TotalGas(entries[..|entries| - 1]) + entries[|entries| - 1].value.gas
  }

  /** No sum of gas that the packing can compute overflows. */
  ghost predicate NoOverflow(entries: seq<Lazy>) {
    Resolved(entries) && forall e :: 0 <= e < |entries| ==> TotalGas(entries) + entries[e].value.gas < TWO_64
  }

  lemma {:induction false} TotalGasSnoc(entries: seq<Lazy>, i: nat)
    requires Resolved(entries) && i < |entries|
    ensures TotalGas(entries[..i + 1]) == TotalGas(entries[..i]) + entries[i].value.gas
  {
    assert entries[..i + 1][..i] == entries[..i];
  }

  lemma {:induction false} TotalGasMonotone(entries: seq<Lazy>, k: nat)
    requires Resolved(entries) && k <= |entries|
    ensures TotalGas(entries[..k]) <= TotalGas(entries)
  {
    if k < |entries| {
      TotalGasMonotone(entries[..|entries| - 1], k);
      assert entries[..|entries| - 1][..k] == entries[..k];
    } else {
      assert entries[..k] == entries;
    }
  }

  lemma {:induction false} PackAll(entries: seq<Lazy>, used: nat, limit: nat)
    requires Resolved(entries) && used + TotalGas(entries) <= limit < TWO_64
    ensures var p := Pack(entries, used, limit);
            p.gas == used + TotalGas(entries) && |p.txs| == |entries| && IsPrefix(p.txs, entries)
  {
    if entries != [] {
      PackAll(entries[..|entries| - 1], used, limit);
    }
  }

  lemma {:induction false} PackExtends(entries: seq<Lazy>, k: nat, used: nat, limit: nat)
    requires k <= |entries|
    ensures Pack(entries[..k], used, limit).txs <= Pack(entries, used, limit).txs
  {
    if k < |entries| {
      PackExtends(entries[..|entries| - 1], k, used, limit);
      assert entries[..|entries| - 1][..k] == entries[..k];
    } else {
      assert entries[..k] == entries;
    }
  }

  /** Exactly the batches with non-decreasing gas are packed as a prefix under every load of the block. */
  lemma {:induction false} PrefixUnderEveryLoad(entries: seq<Lazy>)
    requires NoOverflow(entries)
    ensures NonDecreasing(entries) <==>
            forall used: nat, limit: nat | used <= limit && Safe(entries, limit) ::
              IsPrefix(Pack(entries, used, limit).txs, entries)
  {
    forall used: nat, limit: nat | used <= limit && Safe(entries, limit) && NonDecreasing(entries)
      ensures IsPrefix(Pack(entries, used, limit).txs, entries)
    {
      CheapestFirstIsPrefix(entries, used, limit);
    }
    if !NonDecreasing(entries) {
      var i :| 0 <= i < |entries| - 1 && entries[i].value.gas > entries[i + 1].value.gas;
      DipIsNotPrefix(entries, i, 0);
    }
  }

  // ----- When AddTx accepts the whole selection -----

  /** The pool's promise about a batch: consecutive nonces of one sender, from the sender's next one on. */
  ghost predicate Pending(base: seq<Tx>, b: Batch) {
    forall i :: 0 <= i < |b.entries| && b.entries[i].Some? ==>
      b.entries[i].value.sender == b.sender &&
      b.entries[i].value.nonce == NextNonce(base, b.sender) + i
  }

  ghost predicate PendingPool(base: seq<Tx>, pending: seq<Batch>) {
    (forall k :: 0 <= k < |pending| ==> Pending(base, pending[k])) &&
    (forall k, l :: 0 <= k < l < |pending| ==> pending[k].sender != pending[l].sender)
  }

  /** What is selected from batch `k`, given the gas that the batches before it used. */
  function Part(pending: seq<Batch>, k: nat, limit: nat): seq<Tx>
    requires k < |pending|
  {
    Pack(pending[k].entries, Pack(Entries(pending[..k]), 0, limit).gas, limit).txs
  }

  lemma {:induction false} PackAppend(a: seq<Lazy>, b: seq<Lazy>, used: nat, limit: nat)
    ensures var p := Pack(a, used, limit); var q := Pack(b, p.gas, limit);
            Pack(a + b, used, limit) == Packed(p.txs + q.txs, q.gas)
  {
    if b == [] {
      assert a + b == a;
    } else {
      var init, last := b[..|b| - 1], b[|b| - 1];
      PackAppend(a, init, used, limit);
      assert a + b == (a + init) + [last];
      PackSnoc(a + init, last, used, limit);
    }
  }

  lemma {:induction false} PrefixSnoc(base: seq<Tx>, b: Batch, part: seq<Tx>, tx: Tx)
    requires Pending(base, b) && |part| < |b.entries| && b.entries[|b.entries| - 1] == Some(tx)
    ensures IsPrefix(part + [tx], b.entries) <==>
            IsPrefix(part, b.entries[..|b.entries| - 1]) && |part| == |b.entries| - 1
  {
    var longer := part + [tx];
    assert longer[|part|] == tx && forall i :: 0 <= i < |part| ==> longer[i] == part[i];
    if IsPrefix(longer, b.entries) {
      assert b.entries[|part|] == Some(tx);
    }
  }

  lemma {:induction false} PrefixKept(part: seq<Tx>, entries: seq<Lazy>, k: nat)
    requires |part| <= k <= |entries|
    ensures IsPrefix(part, entries) <==> IsPrefix(part, entries[..k])
  {
  }

  /** Adding the last entry of a batch behind an accepted part of the others. */
  lemma {:induction false} AcceptLast(base: seq<Tx>, b: Batch, part: seq<Tx>, tx: Tx)
    requires Pending(base, b) && |part| < |b.entries| && b.entries[|b.entries| - 1] == Some(tx)
    requires NextNonce(base + part, b.sender) == NextNonce(base, b.sender) + |part|
    requires ValidTxs(base + part) <==> IsPrefix(part, b.entries[..|b.entries| - 1])
    ensures ValidTxs(base + (part + [tx])) <==> IsPrefix(part + [tx], b.entries)
  {
    ValidSnoc(base + part, tx);
    assert base + (part + [tx]) == base + part + [tx];
    PrefixSnoc(base, b, part, tx);
  }

  lemma {:induction false} BatchNonces(base: seq<Tx>, b: Batch, used: nat, limit: nat, a: Address)
    requires forall i :: 0 <= i < |b.entries| && b.entries[i].Some? ==> b.entries[i].value.sender == b.sender
    ensures var part := Pack(b.entries, used, limit).txs;
            |part| <= |b.entries| &&
            NextNonce(base + part, a) == NextNonce(base, a) + if a == b.sender then |part| else 0
    decreases |b.entries|
  {
    if b.entries == [] {
      assert base + [] == base;
    } else {
      var k := |b.entries| - 1;
      BatchNonces(base, b.(entries := b.entries[..k]), used, limit, a);
      var before, part := Pack(b.entries[..k], used, limit).txs, Pack(b.entries, used, limit).txs;
      if part != before {
        ValidSnoc(base + before, b.entries[k].value);
        assert base + part == base + before + [b.entries[k].value];
      }
    }
  }

  lemma {:induction false} BatchAccepted(base: seq<Tx>, b: Batch, used: nat, limit: nat)
    requires ValidTxs(base) && Pending(base, b)
    ensures var part := Pack(b.entries, used, limit).txs;
            ValidTxs(base + part) <==> IsPrefix(part, b.entries)
    decreases |b.entries|
  {
    if b.entries == [] {
      assert base + [] == base;
    } else {
      var k := |b.entries| - 1;
      var shorter := b.(entries := b.entries[..k]);
      PackNext(b.entries, k, used, limit);
      assert b.entries[..k + 1] == b.entries;
      BatchAccepted(base, shorter, used, limit);
      BatchNonces(base, shorter, used, limit, b.sender);
      hide Pack, ValidTxs, NextNonce;
      var before, part := Pack(b.entries[..k], used, limit).txs, Pack(b.entries, used, limit).txs;
      if part == before {
        PrefixKept(part, b.entries, k);
      } else {
        AcceptLast(base, b, before, b.entries[k].value);
      }
    }
  }

  /** The selection leaves the next nonce of everybody else as it was. */
  lemma {:induction false} OtherNonces(base: seq<Tx>, pending: seq<Batch>, limit: nat, a: Address)
    requires PendingPool(base, pending)
    requires forall k :: 0 <= k < |pending| ==> pending[k].sender != a
    ensures NextNonce(base + Pack(Entries(pending), 0, limit).txs, a) == NextNonce(base, a)
  {
    if pending == [] {
      assert base + [] == base;
    } else {
      var n := |pending| - 1;
      var before := Pack(Entries(pending[..n]), 0, limit);
      assert Entries(pending) == Entries(pending[..n]) + pending[n].entries;
      hide Pack, NextNonce, Entries;
      OtherNonces(base, pending[..n], limit, a);
      PackAppend(Entries(pending[..n]), pending[n].entries, 0, limit);
      assert Pending(base, pending[n]);
      BatchNonces(base + before.txs, pending[n], before.gas, limit, a);
      assert base + (before.txs + Part(pending, n, limit)) == base + before.txs + Part(pending, n, limit);
    }
  }

  ghost predicate TakesPrefixes(pending: seq<Batch>, limit: nat) {
    forall k :: 0 <= k < |pending| ==> IsPrefix(Part(pending, k, limit), pending[k].entries)
  }

  lemma {:induction false} TakesPrefixesSnoc(pending: seq<Batch>, n: nat, limit: nat)
    requires |pending| == n + 1
    ensures TakesPrefixes(pending, limit) <==>
            TakesPrefixes(pending[..n], limit) && IsPrefix(Part(pending, n, limit), pending[n].entries)
  {
    forall k | 0 <= k < n ensures Part(pending[..n], k, limit) == Part(pending, k, limit) {
      assert pending[..n][..k] == pending[..k];
    }
    if TakesPrefixes(pending[..n], limit) && IsPrefix(Part(pending, n, limit), pending[n].entries) {
      forall k | 0 <= k < |pending| ensures IsPrefix(Part(pending, k, limit), pending[k].entries) {
        if k < n {
          assert IsPrefix(Part(pending[..n], k, limit), pending[..n][k].entries);
        }
      }
    }
    if TakesPrefixes(pending, limit) {
      forall k | 0 <= k < n ensures IsPrefix(Part(pending[..n], k, limit), pending[..n][k].entries) {
        assert IsPrefix(Part(pending, k, limit), pending[k].entries);
      }
    }
  }

  lemma {:induction false} NextBatchAccepted(base: seq<Tx>, before: seq<Tx>, b: Batch, used: nat, limit: nat)
    requires Pending(base + before, b)
    ensures var part := Pack(b.entries, used, limit).txs;
            ValidTxs(base + (before + part)) <==> ValidTxs(base + before) && IsPrefix(part, b.entries)
  {
    var part := Pack(b.entries, used, limit).txs;
    assert base + (before + part) == base + before + part;
    if ValidTxs(base + before) {
      BatchAccepted(base + before, b, used, limit);
    } else if ValidTxs(base + before + part) {
      ValidPrefix(base + before, part);
    }
  }

  /** Building the pool's block does not panic if and only if the selection takes a prefix of every batch. */
  lemma {:induction false} PoolBlockAccepted(base: seq<Tx>, pending: seq<Batch>, limit: nat)
    requires ValidTxs(base) && PendingPool(base, pending)
    ensures ValidTxs(base + Pack(Entries(pending), 0, limit).txs) <==> TakesPrefixes(pending, limit)
  {
    if pending == [] {
      assert base + [] == base;
    } else {
      var n := |pending| - 1;
      var before, part := Pack(Entries(pending[..n]), 0, limit), Part(pending, n, limit);
      PoolBlockAccepted(base, pending[..n], limit);
      TakesPrefixesSnoc(pending, n, limit);
      PackAppend(Entries(pending[..n]), pending[n].entries, 0, limit);
      StillPending(base, pending, limit);
      NextBatchAccepted(base, before.txs, pending[n], before.gas, limit);
    }
  }

  lemma {:induction false} StillPending(base: seq<Tx>, pending: seq<Batch>, limit: nat)
    requires PendingPool(base, pending) && pending != []
    ensures var n := |pending| - 1; Pending(base + Pack(Entries(pending[..n]), 0, limit).txs, pending[n])
  {
    OtherNonces(base, pending[..|pending| - 1], limit, pending[|pending| - 1].sender);
  }

  /** Cheapest-first batches never make the block panic, in whatever order the pool lists them. */
  lemma {:induction false} CheapestFirstAccepted(base: seq<Tx>, pending: seq<Batch>, limit: nat)
    requires ValidTxs(base) && PendingPool(base, pending) && Safe(Entries(pending), limit)
    requires forall k :: 0 <= k < |pending| ==> Resolved(pending[k].entries) && NonDecreasing(pending[k].entries)
    ensures ValidTxs(base + Pack(Entries(pending), 0, limit).txs)
  {
    forall k | 0 <= k < |pending| ensures IsPrefix(Part(pending, k, limit), pending[k].entries) {
      SafeParts(pending, k, limit);
      GasWithinLimit(Entries(pending[..k]), 0, limit);
      CheapestFirstIsPrefix(pending[k].entries, Pack(Entries(pending[..k]), 0, limit).gas, limit);
    }
    PoolBlockAccepted(base, pending, limit);
  }

  lemma {:induction false} SafeParts(pending: seq<Batch>, k: nat, limit: nat)
    requires k < |pending| && Safe(Entries(pending), limit)
    ensures Safe(Entries(pending[..k]), limit) && Safe(pending[k].entries, limit)
  {
    var n := |pending| - 1;
    var all, before := Entries(pending), Entries(pending[..n]);
    assert forall i :: 0 <= i < |before| ==> all[i] == before[i];
    if k < n {
      SafeParts(pending[..n], k, limit);
      assert pending[..n][..k] == pending[..k];
    } else {
      assert forall i :: 0 <= i < |pending[n].entries| ==> all[|before| + i] == pending[n].entries[i];
    }
  }

  lemma {:induction false} TotalGasAppend(a: seq<Lazy>, b: seq<Lazy>)
    requires Resolved(a) && Resolved(b) && Resolved(a + b)
    ensures TotalGas(a + b) == TotalGas(a) + TotalGas(b)
  {
    if b == [] {
      assert a + b == a;
    } else {
      TotalGasAppend(a, b[..|b| - 1]);
      assert (a + b)[..|a + b| - 1] == a + b[..|b| - 1];
    }
  }

  /** All entries up to and including batch `k`, as a prefix of all entries. */
  lemma {:induction false} EntriesPrefix(pending: seq<Batch>, k: nat)
    requires k < |pending|
    ensures Entries(pending[..k]) + pending[k].entries <= Entries(pending)
  {
    var n := |pending| - 1;
    if k < n {
      EntriesPrefix(pending[..n], k);
      assert pending[..n][..k] == pending[..k];
    }
  }

  lemma {:induction false} EntriesOfBatches(pending: seq<Batch>)
    ensures Resolved(Entries(pending)) <==> forall k :: 0 <= k < |pending| ==> Resolved(pending[k].entries)
  {
    if pending != [] {
      var n := |pending| - 1;
      EntriesOfBatches(pending[..n]);
      var before, last := Entries(pending[..n]), pending[n].entries;
      assert Entries(pending) == before + last;
      assert forall i :: 0 <= i < |before| ==> (before + last)[i] == before[i];
      assert forall i :: 0 <= i < |last| ==> (before + last)[|before| + i] == last[i];
    }
  }

  lemma {:induction false} BatchInPool(pending: seq<Batch>, k: nat)
    requires k < |pending| && NoOverflow(Entries(pending))
    ensures var before, batch := Entries(pending[..k]), pending[k].entries;
            Resolved(before) && Resolved(batch) &&
            TotalGas(before) + TotalGas(batch) <= TotalGas(Entries(pending)) &&
            forall e :: 0 <= e < |batch| ==> TotalGas(Entries(pending)) + batch[e].value.gas < TWO_64
  {
    hide TotalGas, Entries;
    var all, before, batch := Entries(pending), Entries(pending[..k]), pending[k].entries;
    EntriesPrefix(pending, k);
    assert forall e :: 0 <= e < |before| ==> before[e] == all[e];
    assert forall e :: 0 <= e < |batch| ==> batch[e] == all[|before| + e];
    TotalGasAppend(before, batch);
    assert all[..|before + batch|] == before + batch;
    TotalGasMonotone(all, |before + batch|);
  }

  lemma {:induction false} NoOverflowIsSafe(entries: seq<Lazy>, limit: nat)
    requires NoOverflow(entries) && limit <= TotalGas(entries)
    ensures Safe(entries, limit)
  {
    hide TotalGas;
  }

  /** A dip in batch `k` makes the block panic at the limit that has room for everything before the dear
      transaction, and for the cheap one. */
  lemma {:induction false} DipPanics(base: seq<Tx>, pending: seq<Batch>, k: nat, i: nat)
    requires ValidTxs(base) && PendingPool(base, pending) && NoOverflow(Entries(pending))
    requires k < |pending| && i + 1 < |pending[k].entries| && Resolved(pending[k].entries)
    requires pending[k].entries[i + 1].value.gas < pending[k].entries[i].value.gas
    ensures exists limit: nat :: Safe(Entries(pending), limit) && !ValidTxs(base + Pack(Entries(pending), 0, limit).txs)
  {
    hide TotalGas, Pack, NextNonce, ValidTxs, Entries, IsPrefix, NonDecreasing, PendingPool;
    var before, batch := Entries(pending[..k]), pending[k].entries;
    BatchInPool(pending, k);
    var used := TotalGas(before);
    assert forall e :: 0 <= e < |batch| ==> used + TotalGas(batch) + batch[e].value.gas < TWO_64;
    DipIsNotPrefix(batch, i, used);
    var limit := used + TotalGas(batch[..i]) + batch[i + 1].value.gas;
    NoOverflowIsSafe(Entries(pending), limit);
    assert limit < TWO_64;
    PackAll(before, 0, limit);
    PoolBlockAccepted(base, pending, limit);
    assert !IsPrefix(Part(pending, k, limit), pending[k].entries);
  }

  lemma {:induction false} ResolvedPoolAccepted(base: seq<Tx>, pending: seq<Batch>)
    requires ValidTxs(base) && PendingPool(base, pending) && NoOverflow(Entries(pending))
    ensures (forall k :: 0 <= k < |pending| ==> Resolved(pending[k].entries) && NonDecreasing(pending[k].entries)) <==>
            forall limit: nat | Safe(Entries(pending), limit) :: ValidTxs(base + Pack(Entries(pending), 0, limit).txs)
  {
    EntriesOfBatches(pending);
    if forall k :: 0 <= k < |pending| ==> NonDecreasing(pending[k].entries) {
      forall limit: nat | Safe(Entries(pending), limit)
        ensures ValidTxs(base + Pack(Entries(pending), 0, limit).txs)
      {
        CheapestFirstAccepted(base, pending, limit);
      }
    } else {
      var k :| 0 <= k < |pending| && !NonDecreasing(pending[k].entries);
      var batch := pending[k].entries;
      var i :| 0 <= i < |batch| - 1 && batch[i].value.gas > batch[i + 1].value.gas;
      DipPanics(base, pending, k, i);
    }
  }

  // ----- Pools with entries that no longer resolve -----

  /** The entries that resolve, in order. */
  function Strip(entries: seq<Lazy>): (stripped: seq<Lazy>)
    ensures Resolved(stripped) && |stripped| <= |entries|
  {
    if entries == [] then []
    else Strip(entries[..|entries| - 1]) + if entries[|entries| - 1].Some? then [entries[|entries| - 1]] else []
  }

  /** Nothing that resolves follows an entry that does not. */
  predicate Unbroken(entries: seq<Lazy>) {
    forall i, j :: 0 <= i < j < |entries| && entries[i].None? ==> entries[j].None?
  }

  function StripPool(pending: seq<Batch>): seq<Batch> {
    seq(|pending|, k requires 0 <= k < |pending| => pending[k].(entries := Strip(pending[k].entries)))
  }

  lemma {:induction false} PackStrips(entries: seq<Lazy>, used: nat, limit: nat)
    ensures Pack(entries, used, limit) == Pack(Strip(entries), used, limit)
  {
    if entries != [] {
      var init, last := entries[..|entries| - 1], entries[|entries| - 1];
      PackStrips(init, used, limit);
      if last.Some? {
        PackSnoc(Strip(init), last, used, limit);
      } else {
        assert Strip(init) + [] == Strip(init);
      }
    }
  }

  lemma {:induction false} StripAppend(a: seq<Lazy>, b: seq<Lazy>)
    ensures Strip(a + b) == Strip(a) + Strip(b)
  {
    if b == [] {
      assert a + b == a;
    } else {
      StripAppend(a, b[..|b| - 1]);
      assert (a + b)[..|a + b| - 1] == a + b[..|b| - 1];
    }
  }

  lemma {:induction false} StripOfPool(pending: seq<Batch>)
    ensures Entries(StripPool(pending)) == Strip(Entries(pending))
  {
    if pending != [] {
      var n := |pending| - 1;
      StripOfPool(pending[..n]);
      StripAppend(Entries(pending[..n]), pending[n].entries);
      assert StripPool(pending)[..n] == StripPool(pending[..n]);
    }
  }

  lemma {:induction false} StripKeepsSafe(entries: seq<Lazy>, limit: nat)
    ensures Safe(Strip(entries), limit) <==> Safe(entries, limit)
  {
    if entries != [] {
      var init, last := entries[..|entries| - 1], entries[|entries| - 1];
      StripKeepsSafe(init, limit);
      assert forall i :: 0 <= i < |init| ==> entries[i] == init[i];
      var stripped, before := Strip(entries), Strip(init);
      assert forall i :: 0 <= i < |before| ==> stripped[i] == before[i];
      assert last.Some? ==> stripped[|before|] == last;
    }
  }

  lemma {:induction false} StripOfResolved(entries: seq<Lazy>)
    requires Resolved(entries)
    ensures Strip(entries) == entries
  {
    if entries != [] {
      StripOfResolved(entries[..|entries| - 1]);
    }
  }

  /** At least the first entries and one more resolve, so as many are left. */
  lemma {:induction false} StripCounts(entries: seq<Lazy>, k: nat, j: nat)
    requires k <= j < |entries| && Resolved(entries[..k]) && entries[j].Some?
    ensures |Strip(entries)| > k
  {
    StripOfResolved(entries[..k]);
    assert entries == entries[..k] + entries[k..j] + [entries[j]] + entries[j + 1..];
    StripAppend(entries[..k] + entries[k..j] + [entries[j]], entries[j + 1..]);
    StripAppend(entries[..k] + entries[k..j], [entries[j]]);
    StripAppend(entries[..k], entries[k..j]);
    assert [entries[j]][..0] == [];
  }

  lemma {:induction false} UnbrokenIsPrefix(entries: seq<Lazy>)
    requires Unbroken(entries)
    ensures Strip(entries) == entries[..|Strip(entries)|]
  {
    if entries != [] {
      var init, last := entries[..|entries| - 1], entries[|entries| - 1];
      UnbrokenIsPrefix(init);
      if last.Some? {
        StripOfResolved(init);
      }
    }
  }

  /** A prefix of the batch can hold everything that resolves only if the batch is unbroken. */
  lemma {:induction false} FullPrefixIsUnbroken(part: seq<Tx>, entries: seq<Lazy>)
    requires IsPrefix(part, entries) && |part| == |Strip(entries)|
    ensures Unbroken(entries)
  {
    forall j | |part| <= j < |entries| ensures entries[j].None? {
      if entries[j].Some? {
        StripCounts(entries, |part|, j);
      }
    }
  }

  lemma {:induction false} StrippedPoolIsPending(base: seq<Tx>, pending: seq<Batch>)
    requires PendingPool(base, pending) && forall k :: 0 <= k < |pending| ==> Unbroken(pending[k].entries)
    ensures PendingPool(base, StripPool(pending))
  {
    forall k | 0 <= k < |pending| ensures Pending(base, StripPool(pending)[k]) {
      UnbrokenIsPrefix(pending[k].entries);
    }
  }

  lemma {:induction false} StripPrefix(pending: seq<Batch>, k: nat)
    requires k < |pending|
    ensures StripPool(pending)[..k] == StripPool(pending[..k])
  {
  }

  lemma {:induction false} StrippedBatchInPool(pending: seq<Batch>, k: nat)
    requires k < |pending| && NoOverflow(Strip(Entries(pending)))
    ensures TotalGas(Strip(Entries(pending[..k]))) + TotalGas(Strip(pending[k].entries)) <=
            TotalGas(Strip(Entries(pending)))
  {
    StripOfPool(pending);
    StripOfPool(pending[..k]);
    StripPrefix(pending, k);
    hide TotalGas, Entries, Strip;
    BatchInPool(StripPool(pending), k);
  }

  /** With room for everything, all that resolves is selected. */
  lemma {:induction false} RoomForAll(pending: seq<Batch>, k: nat)
    requires k < |pending| && NoOverflow(Strip(Entries(pending)))
    requires TotalGas(Strip(Entries(pending))) < TWO_64
    ensures |Part(pending, k, TotalGas(Strip(Entries(pending))))| == |Strip(pending[k].entries)|
  {
    hide TotalGas, Pack, Entries, Strip, NoOverflow, IsPrefix;
    var before, batch, limit := Entries(pending[..k]), pending[k].entries, TotalGas(Strip(Entries(pending)));
    StrippedBatchInPool(pending, k);
    PackStrips(before, 0, limit);
    PackAll(Strip(before), 0, limit);
    PackStrips(batch, TotalGas(Strip(before)), limit);
    PackAll(Strip(batch), TotalGas(Strip(before)), limit);
  }

  lemma {:induction false} SomethingResolves(pending: seq<Batch>, k: nat)
    requires k < |pending| && !Unbroken(pending[k].entries) && NoOverflow(Strip(Entries(pending)))
    ensures TotalGas(Strip(Entries(pending))) < TWO_64
  {
    var i, j :| 0 <= i < j < |pending[k].entries| && pending[k].entries[i].None? && pending[k].entries[j].Some?;
    hide TotalGas, Entries, Strip, Unbroken;
    var all, before := Entries(pending), Entries(pending[..k]);
    EntriesPrefix(pending, k);
    assert all[|before| + j] == pending[k].entries[j] && all[..0] == [];
    StripCounts(all, 0, |before| + j);
    assert Strip(all)[0].Some?;
  }

  /** A transaction that resolves behind one that does not makes the block panic as soon as there is room for
      everything. */
  lemma {:induction false} BreakPanics(base: seq<Tx>, pending: seq<Batch>, k: nat)
    requires ValidTxs(base) && PendingPool(base, pending) && NoOverflow(Strip(Entries(pending)))
    requires k < |pending| && !Unbroken(pending[k].entries)
    ensures exists limit: nat :: Safe(Entries(pending), limit) && !ValidTxs(base + Pack(Entries(pending), 0, limit).txs)
  {
    var limit := TotalGas(Strip(Entries(pending)));
    SomethingResolves(pending, k);
    RoomForAll(pending, k);
    hide TotalGas, Pack, ValidTxs, Entries, PendingPool, Strip, Part, Unbroken, NoOverflow, IsPrefix;
    NoOverflowIsSafe(Strip(Entries(pending)), limit);
    StripKeepsSafe(Entries(pending), limit);
    if IsPrefix(Part(pending, k, limit), pending[k].entries) {
      FullPrefixIsUnbroken(Part(pending, k, limit), pending[k].entries);
    }
    PoolBlockAccepted(base, pending, limit);
  }

  /** The batch can be packed as a prefix whatever the limit: nothing is missing in the middle, and the gas along what
      resolves is non-decreasing. */
  predicate Orderly(entries: seq<Lazy>) {
    Unbroken(entries) && NonDecreasing(Strip(entries))
  }

  lemma {:induction false} UnbrokenPoolAccepted(base: seq<Tx>, pending: seq<Batch>)
    requires ValidTxs(base) && PendingPool(base, pending) && NoOverflow(Strip(Entries(pending)))
    requires forall k :: 0 <= k < |pending| ==> Unbroken(pending[k].entries)
    ensures (forall k :: 0 <= k < |pending| ==> NonDecreasing(Strip(pending[k].entries))) <==>
            forall limit: nat | Safe(Entries(pending), limit) :: ValidTxs(base + Pack(Entries(pending), 0, limit).txs)
  {
    var stripped := StripPool(pending);
    StripOfPool(pending);
    StrippedPoolIsPending(base, pending);
    ResolvedPoolAccepted(base, stripped);
    hide Pack, ValidTxs, Entries, Strip, NonDecreasing, Safe;
    forall limit: nat ensures Safe(Entries(pending), limit) <==> Safe(Entries(stripped), limit)
      ensures Pack(Entries(pending), 0, limit) == Pack(Entries(stripped), 0, limit)
    {
      StripKeepsSafe(Entries(pending), limit);
      PackStrips(Entries(pending), 0, limit);
    }
    assert forall k :: 0 <= k < |pending| ==> stripped[k].entries == Strip(pending[k].entries);
  }

  /** The pool decides, before any packing: in any order and without overflow, no block gas limit makes the block
      panic if and only if every batch is orderly. */
  lemma {:induction false} PoolAcceptedUnderEveryLimit(base: seq<Tx>, pending: seq<Batch>)
    requires ValidTxs(base) && PendingPool(base, pending) && NoOverflow(Strip(Entries(pending)))
    ensures (forall k :: 0 <= k < |pending| ==> Orderly(pending[k].entries)) <==>
            forall limit: nat | Safe(Entries(pending), limit) :: ValidTxs(base + Pack(Entries(pending), 0, limit).txs)
  {
    hide Pack, ValidTxs, Entries, Strip, NonDecreasing, Safe, Unbroken, PendingPool, NoOverflow;
    if forall k :: 0 <= k < |pending| ==> Unbroken(pending[k].entries) {
      UnbrokenPoolAccepted(base, pending);
    } else {
      var k :| 0 <= k < |pending| && !Unbroken(pending[k].entries);
      BreakPanics(base, pending, k);
    }
  }

  /** A transaction that the pool has dropped: the next one of the same sender is packed without it, and adding it
      panics. */
  lemma {:induction false} DroppedFirstPanics()
    ensures var second := Tx(7, 1, 21_000, Other);
            var pending := [Batch(7, [None, Some(second)])];
            PendingPool([], pending) && Safe(Entries(pending), 60_000) &&
            Pack(Entries(pending), 0, 60_000).txs == [second] && !ValidTxs([] + [second])
  {
    var second := Tx(7, 1, 21_000, Other);
    var pending := [Batch(7, [None, Some(second)])];
    assert pending[..0] == [];
    assert Entries(pending) == [None, Some(second)];
    PackSnoc([], None, 0, 60_000);
    PackSnoc([None], Some(second), 0, 60_000);
    var dropped: Lazy := None;
    assert [] + [dropped] == [dropped];
    assert [dropped] + [Some(second)] == [dropped, Some(second)];
    ValidSnoc([], second);
  }

  /** A dearer transaction before a cheaper one of the same sender: both are pending, the first does
      not fit, the second does, and adding it panics. */
  lemma {:induction false} DearFirstPanics()
    ensures var first := Tx(7, 0, 70_000, Other); var second := Tx(7, 1, 21_000, Other);
            var pending := [Batch(7, [Some(first), Some(second)])];
            PendingPool([], pending) && Safe(Entries(pending), 60_000) &&
            Pack(Entries(pending), 0, 60_000).txs == [second] && !ValidTxs([] + [second])
  {
    var first, second := Tx(7, 0, 70_000, Other), Tx(7, 1, 21_000, Other);
    var pending := [Batch(7, [Some(first), Some(second)])];
    assert pending[..0] == [];
    assert Entries(pending) == [Some(first), Some(second)];
    PackSnoc([], Some(first), 0, 60_000);
    PackSnoc([Some(first)], Some(second), 0, 60_000);
    assert [] + [Some(first)] == [Some(first)];
    assert [Some(first)] + [Some(second)] == [Some(first), Some(second)];
    ValidSnoc([], second);
  }
}
