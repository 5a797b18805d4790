/**
 The ERC721 operator's in-memory index (address to list of token ids) and its agreement with the
 owners that the contract keeps on the chain, as values. Module Erc721 has the operator itself.
 */
module Nft {
  import opened Ledger
  import opened Wrappers

  type Mapping = map<Address, seq<nat>>

  /** A Go map yields the empty slice for a missing key. */
  function ListOf(m: Mapping, a: Address): seq<nat> {
    if a in m then m[a] else []
  }

  function Count(m: Mapping, a: Address, id: nat): nat {
    multiset(ListOf(m, a))[id]
  }

  /** The index is exactly the inverse of the owner map: every list holds what its address owns,
      each id once, and nothing else. */
  ghost predicate Agrees(m: Mapping, holders: map<nat, Address>) {
    forall a: Address, id: nat :: Count(m, a, id) == if id in holders && holders[id] == a then 1 else 0
  }

  function RemoveAt(s: seq<nat>, i: nat): seq<nat>
    requires i < |s|
  {
    s[..i] + s[i + 1..]
  }

  function Give(m: Mapping, to: Address, id: nat): Mapping {
    m[to := ListOf(m, to) + [id]]
  }

  /** The update of `GenerateTransaction`: remove from the sender's list, then append to the recipient's. */
  function Transfer(m: Mapping, from: Address, to: Address, i: nat): Mapping
    requires i < |ListOf(m, from)|
  {
    Give(m[from := RemoveAt(ListOf(m, from), i)], to, ListOf(m, from)[i])
  }

  lemma {:induction false} RemoveAtCounts(s: seq<nat>, i: nat)
    requires i < |s|
    ensures multiset(RemoveAt(s, i)) + multiset{s[i]} == multiset(s)
  {
    assert s == s[..i] + [s[i]] + s[i + 1..];
  }

  lemma {:induction false} GiveCounts(m: Mapping, to: Address, token: nat, a: Address, id: nat)
    ensures Count(Give(m, to, token), a, id) == Count(m, a, id) + if a == to && id == token then 1 else 0
  {
  }

  lemma {:induction false} TransferCounts(m: Mapping, from: Address, to: Address, i: nat, a: Address, id: nat)
    requires i < |ListOf(m, from)|
    ensures var token := ListOf(m, from)[i];
            Count(Transfer(m, from, to, i), a, id) + (if a == from && id == token then 1 else 0) ==
            Count(m, a, id) + if a == to && id == token then 1 else 0
  {
    RemoveAtCounts(ListOf(m, from), i);
    GiveCounts(m[from := RemoveAt(ListOf(m, from), i)], to, ListOf(m, from)[i], a, id);
  }

  /** A listed token belongs to the address that lists it, and moving it in the index follows moving it on the chain,
      also when it is sent to its owner. */
  lemma {:induction false} TransferKeepsAgreement(
      m: Mapping, holders: map<nat, Address>, from: Address, to: Address, i: nat)
    requires Agrees(m, holders) && i < |ListOf(m, from)|
    ensures var token := ListOf(m, from)[i];
            token in holders && holders[token] == from &&
            Agrees(Transfer(m, from, to, i), holders[token := to])
  {
    var token := ListOf(m, from)[i];
    assert Count(m, from, token) >= 1;
    forall a: Address, id: nat
      ensures Count(Transfer(m, from, to, i), a, id) ==
              if id in holders[token := to] && holders[token := to][id] == a then 1 else 0
    {
      TransferCounts(m, from, to, i, a, id);
      assert Count(m, a, id) == if id in holders && holders[id] == a then 1 else 0;
    }
  }

  lemma {:induction false} GiveKeepsAgreement(m: Mapping, holders: map<nat, Address>, to: Address, token: nat)
    requires Agrees(m, holders) && token !in holders
    ensures Agrees(Give(m, to, token), holders[token := to])
  {
    forall a: Address, id: nat
      ensures Count(Give(m, to, token), a, id) ==
              if id in holders[token := to] && holders[token := to][id] == a then 1 else 0
    {
      GiveCounts(m, to, token, a, id);
      assert Count(m, a, id) == if id in holders && holders[id] == a then 1 else 0;
    }
  }

  /** An index agrees with one owner map at most. */
  lemma {:induction false} AgreesWithOne(m: Mapping, h: map<nat, Address>, k: map<nat, Address>)
    requires Agrees(m, h) && Agrees(m, k)
    ensures h == k
  {
    forall id ensures id in h <==> id in k {
      if id in h { assert Count(m, h[id], id) == 1; }
      if id in k { assert Count(m, k[id], id) == 1; }
    }
    forall id | id in h ensures h[id] == k[id] {
      assert Count(m, h[id], id) == 1;
    }
  }

  // ----- Conservation -----

  ghost function BagOver(m: Mapping, keys: set<Address>): multiset<nat> {
    if keys == {} then multiset{}
    else
      var a :| a in keys;
      multiset(ListOf(m, a)) + BagOver(m, keys - {a})
  }

  /** All listed ids, with repetitions. */
  ghost function Bag(m: Mapping): multiset<nat> {
    BagOver(m, m.Keys)
  }

  lemma {:induction false} BagOverTake(m: Mapping, keys: set<Address>, a: Address)
    requires a in keys
    ensures BagOver(m, keys) == multiset(ListOf(m, a)) + BagOver(m, keys - {a})
  {
    var b :| b in keys && BagOver(m, keys) == multiset(ListOf(m, b)) + BagOver(m, keys - {b});
    if a != b {
      BagOverTake(m, keys - {b}, a);
      BagOverTake(m, keys - {a}, b);
      assert keys - {a} - {b} == keys - {b} - {a};
    }
  }

  lemma {:induction false} BagOverSame(m: Mapping, k: Mapping, keys: set<Address>)
    requires forall a :: a in keys ==> ListOf(m, a) == ListOf(k, a)
    ensures BagOver(m, keys) == BagOver(k, keys)
  {
    if keys != {} {
      var a :| a in keys;
      BagOverTake(m, keys, a);
      BagOverTake(k, keys, a);
      BagOverSame(m, k, keys - {a});
    }
  }

  lemma {:induction false} BagSplit(m: Mapping, a: Address)
    ensures Bag(m) == multiset(ListOf(m, a)) + BagOver(m, m.Keys - {a})
  {
    if a in m {
      BagOverTake(m, m.Keys, a);
    } else {
      assert m.Keys - {a} == m.Keys;
    }
  }

  lemma {:induction false} BagUpdate(m: Mapping, a: Address, s: seq<nat>)
    ensures Bag(m[a := s]) + multiset(ListOf(m, a)) == Bag(m) + multiset(s)
  {
    var k := m[a := s];
    BagSplit(m, a);
    BagSplit(k, a);
    assert k.Keys - {a} == m.Keys - {a};
    BagOverSame(m, k, m.Keys - {a});
  }

  lemma {:induction false} Cancel(a: multiset<nat>, b: multiset<nat>, c: multiset<nat>)
    requires a + c == b + c
    ensures a == b
  {
    assert a == (a + c) - c && b == (b + c) - c;
  }

  lemma {:induction false} TransferConserves(m: Mapping, from: Address, to: Address, i: nat)
    requires i < |ListOf(m, from)|
    ensures Bag(Transfer(m, from, to, i)) == Bag(m)
  {
    var list := ListOf(m, from);
    var taken := m[from := RemoveAt(list, i)];
    RemoveAtCounts(list, i);
    BagUpdate(m, from, RemoveAt(list, i));
    Cancel(Bag(taken) + multiset{list[i]}, Bag(m), multiset(RemoveAt(list, i)));
    BagUpdate(taken, to, ListOf(taken, to) + [list[i]]);
    Cancel(Bag(Transfer(m, from, to, i)), Bag(m), multiset(ListOf(taken, to)));
  }

  // ----- A sequence of GenerateTransaction calls -----

  /** The random choices of one call; the index is `draw` reduced to the length of the sender's list. */
  datatype Pick = Pick(sender: Address, recipient: Address, draw: nat)

  function Index(m: Mapping, p: Pick): nat
    requires ListOf(m, p.sender) != []
  {
    p.draw % |ListOf(m, p.sender)|
  }

  function AfterPick(m: Mapping, p: Pick): Mapping {
    if ListOf(m, p.sender) == [] then m else Transfer(m, p.sender, p.recipient, Index(m, p))
  }

  /** The transfer that a call emits, if its sender has a token. */
  function Emitted(m: Mapping, p: Pick, contract: nat): Option<Call> {
    if ListOf(m, p.sender) == [] then None
    else Some(SafeTransfer(contract, p.sender, p.recipient, ListOf(m, p.sender)[Index(m, p)]))
  }

  function AfterPicks(m: Mapping, picks: seq<Pick>): Mapping {
    if picks == [] then m else AfterPick(AfterPicks(m, picks[..|picks| - 1]), picks[|picks| - 1])
  }

  function EmittedAll(m: Mapping, picks: seq<Pick>, contract: nat): seq<Call> {
    if picks == [] then []
    else
      var last := Emitted(AfterPicks(m, picks[..|picks| - 1]), picks[|picks| - 1], contract);
      EmittedAll(m, picks[..|picks| - 1], contract) + if last.Some? then [last.value] else []
  }

  /** The owners after the transfers, each sent by its `from`, or nothing as soon as one is not made by the owner. */
  function Settle(holders: map<nat, Address>, calls: seq<Call>): Option<map<nat, Address>> {
    if calls == [] then Some(holders)
    else
      var before, last := Settle(holders, calls[..|calls| - 1]), calls[|calls| - 1];
      if before.Some? && last.SafeTransfer? && last.id in before.value && before.value[last.id] == last.from
      then Some(before.value[last.id := last.to]) else None
  }

  lemma {:induction false} SettleSnoc(holders: map<nat, Address>, calls: seq<Call>, call: Call)
    ensures Settle(holders, calls + [call]) ==
            var before := Settle(holders, calls);
            if before.Some? && call.SafeTransfer? && call.id in before.value && before.value[call.id] == call.from
            then Some(before.value[call.id := call.to]) else None
  {
    assert (calls + [call])[..|calls|] == calls;
  }

  /** However often GenerateTransaction is called and whatever becomes of its transactions, no token id is
      lost, invented or listed twice. */
  lemma {:induction false} PicksConserve(m: Mapping, picks: seq<Pick>)
    ensures Bag(AfterPicks(m, picks)) == Bag(m)
  {
    if picks != [] {
      var before, p := AfterPicks(m, picks[..|picks| - 1]), picks[|picks| - 1];
      PicksConserve(m, picks[..|picks| - 1]);
      if ListOf(before, p.sender) != [] {
        TransferConserves(before, p.sender, p.recipient, Index(before, p));
      }
    }
  }

  /** Starting from an index that agrees with the chain, every emitted transfer is made by the token's owner
      at that point, and the index agrees with the owners after all of them. */
  lemma {:induction false} PicksKeepAgreement(m: Mapping, holders: map<nat, Address>, picks: seq<Pick>, contract: nat)
    requires Agrees(m, holders)
    ensures var settled := Settle(holders, EmittedAll(m, picks, contract));
            settled.Some? && Agrees(AfterPicks(m, picks), settled.value) && settled.value.Keys == holders.Keys
  {
    if picks != [] {
      var before, p := AfterPicks(m, picks[..|picks| - 1]), picks[|picks| - 1];
      var calls := EmittedAll(m, picks[..|picks| - 1], contract);
      PicksKeepAgreement(m, holders, picks[..|picks| - 1], contract);
      if ListOf(before, p.sender) != [] {
        TransferKeepsAgreement(before, Settle(holders, calls).value, p.sender, p.recipient, Index(before, p));
        SettleSnoc(holders, calls, Emitted(before, p, contract).value);
      } else {
        assert EmittedAll(m, picks, contract) == calls;
      }
    }
  }

  /** When the block with these transfers never reaches the chain, the index still agrees with the chain
      if and only if the transfers would have left every token where it was. */
  lemma {:induction false} LostBlockAgreement(m: Mapping, holders: map<nat, Address>, picks: seq<Pick>, contract: nat)
    requires Agrees(m, holders)
    ensures Agrees(AfterPicks(m, picks), holders) <==>
            Settle(holders, EmittedAll(m, picks, contract)) == Some(holders)
  {
    PicksKeepAgreement(m, holders, picks, contract);
    var settled := Settle(holders, EmittedAll(m, picks, contract)).value;
    if Agrees(AfterPicks(m, picks), holders) {
      AgreesWithOne(AfterPicks(m, picks), holders, settled);
    }
  }

  // ----- Minting -----

  /** Whose turn it is to get token `id`: the senders in order, over and over. */
  function Turn(senders: seq<Address>, id: nat): Address
    requires senders != [] && id >= 1
  {
    if id <= |senders| then senders[id - 1] else Turn(senders, id - |senders|)
  }

  /** The index after minting ids 1, ..., `k` in turn. */
  function MintedIndex(senders: seq<Address>, k: nat): Mapping
    requires senders != []
  {
    if k == 0 then map[] else Give(MintedIndex(senders, k - 1), Turn(senders, k), k)
  }

  /** The owners after minting ids 1, ..., `k` in turn. */
  function Dealt(senders: seq<Address>, k: nat): map<nat, Address>
    requires senders != []
  {
    if k == 0 then map[] else Dealt(senders, k - 1)[k := Turn(senders, k)]
  }

  lemma {:induction false} NextRound(n: nat, i: nat)
    requires i > 0
    ensures (i - 1) * n + n == i * n
  {
  }

  /** In round `i` it is the turn of sender `j` at id `i * n + j + 1`. */
  lemma {:induction false} TurnOfRound(senders: seq<Address>, i: nat, j: nat, k: nat)
    requires j < |senders| && k == i * |senders| + j
    ensures Turn(senders, k + 1) == senders[j]
  {
    if i > 0 {
      NextRound(|senders|, i);
      TurnOfRound(senders, i - 1, j, k - |senders|);
    }
  }

  lemma {:induction false} DealtIds(senders: seq<Address>, k: nat)
    requires senders != []
    ensures forall id: nat :: id in Dealt(senders, k) <==> 1 <= id <= k
    ensures forall id: nat :: 1 <= id <= k ==> Dealt(senders, k)[id] == Turn(senders, id)
  {
    if k > 0 {
      DealtIds(senders, k - 1);
    }
  }

  /** The index built by the minting loops is the inverse of the owners that these mints create. */
  lemma {:induction false} MintedAgrees(senders: seq<Address>, k: nat)
    requires senders != []
    ensures Agrees(MintedIndex(senders, k), Dealt(senders, k))
  {
    if k > 0 {
      MintedAgrees(senders, k - 1);
      DealtIds(senders, k - 1);
      GiveKeepsAgreement(MintedIndex(senders, k - 1), Dealt(senders, k - 1), Turn(senders, k), k);
    }
  }

  /** The lists split the ids 1, ..., `k` among the senders: each id is listed once, by the one whose turn it was. */
  lemma {:induction false} MintedPartition(senders: seq<Address>, k: nat)
    requires senders != []
    ensures forall a: Address, id: nat ::
              Count(MintedIndex(senders, k), a, id) == if 1 <= id <= k && a == Turn(senders, id) then 1 else 0
  {
    MintedAgrees(senders, k);
    DealtIds(senders, k);
  }

  lemma {:induction false} GiveBag(m: Mapping, to: Address, id: nat)
    ensures Bag(Give(m, to, id)) == Bag(m) + multiset{id}
  {
    var list := ListOf(m, to);
    BagUpdate(m, to, list + [id]);
    hide BagOver, Bag, ListOf;
    assert multiset(list + [id]) == multiset(list) + multiset{id};
    Cancel(Bag(Give(m, to, id)), Bag(m) + multiset{id}, multiset(list));
  }

  lemma {:induction false} EmptyBag()
    ensures Bag(map[]) == multiset{}
  {
  }

  lemma {:induction false} OneMoreListed(m: Mapping, to: Address, k: nat, id: nat)
    requires k > 0 && forall id: nat :: Bag(m)[id] == if 1 <= id <= k - 1 then 1 else 0
    ensures Bag(Give(m, to, k))[id] == if 1 <= id <= k then 1 else 0
  {
    GiveBag(m, to, k);
    hide Bag, Give;
    assert (Bag(m) + multiset{k})[id] == Bag(m)[id] + multiset{k}[id];
  }

  /** So the index lists each of the ids once and nothing else. */
  lemma {:induction false} MintedBag(senders: seq<Address>, k: nat)
    requires senders != []
    ensures forall id: nat :: Bag(MintedIndex(senders, k))[id] == if 1 <= id <= k then 1 else 0
  {
    if k == 0 {
      EmptyBag();
    } else {
      hide Turn, Bag, Give;
      var before := MintedIndex(senders, k - 1);
      assert MintedIndex(senders, k) == Give(before, Turn(senders, k), k);
      hide MintedIndex;
      MintedBag(senders, k - 1);
      forall id: nat ensures Bag(MintedIndex(senders, k))[id] == if 1 <= id <= k then 1 else 0 {
        OneMoreListed(before, Turn(senders, k), k, id);
      }
    }
  }

  ghost predicate Distinct(senders: seq<Address>) {
    forall k, l :: 0 <= k < l < |senders| ==> senders[k] != senders[l]
  }

  /** first, first + step, first + 2 * step, ... */
  function Progression(first: nat, step: nat, length: nat): seq<nat> {
    if length == 0 then [] else Progression(first, step, length - 1) + [first + (length - 1) * step]
  }

  /** After `i` rounds and `j` more mints over `n` distinct senders, sender `q` has exactly the ids
      q+1, q+1+n, q+1+2n, ... in this order. */
  lemma {:induction false} MintedLists(senders: seq<Address>, i: nat, j: nat, k: nat, q: nat)
    requires Distinct(senders) && q < |senders| && j < |senders| && k == i * |senders| + j
    ensures ListOf(MintedIndex(senders, k), senders[q]) ==
            Progression(q + 1, |senders|, i + if q < j then 1 else 0)
    decreases k
  {
    hide Turn;
    if j > 0 {
      MintedLists(senders, i, j - 1, k - 1, q);
      TurnOfRound(senders, i, j - 1, k - 1);
    } else if i > 0 {
      var last := |senders| - 1;
      NextRound(|senders|, i);
      MintedLists(senders, i - 1, last, k - 1, q);
      TurnOfRound(senders, i - 1, last, k - 1);
    }
  }

  // ----- Minting again after a failed attempt -----

  /** The owners after minting 1, ..., `k` in order; a mint of an id that exists reverts. */
  function Remint(holders: map<nat, Address>, senders: seq<Address>, k: nat): map<nat, Address>
    requires senders != []
  {
    if k == 0 then holders
    else
      var before := Remint(holders, senders, k - 1);
      if k in before then before else before[k := Turn(senders, k)]
  }

  /** Ids are dealt out the same way in every attempt, so minting over an earlier attempt only fills in what it left
      out. */
  lemma {:induction false} RemintFillsUp(senders: seq<Address>, p: nat, k: nat)
    requires senders != []
    ensures Remint(Dealt(senders, p), senders, k) == Dealt(senders, if p < k then k else p)
  {
    if k > 0 {
      RemintFillsUp(senders, p, k - 1);
      DealtIds(senders, if p < k - 1 then k - 1 else p);
    }
  }
}
