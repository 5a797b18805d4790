/**
 The part of Ethereum that the test server relies on: blocks of transactions, account
 nonces, and the token contracts that the monkey operators deploy and mint from.
 A reverted call stays in its block and consumes its nonce, but changes no contract.
 */
module Ledger {
  type Address = nat

  datatype Standard = ERC20 | ERC721 | ERC1155

  datatype Call =
    | Other                                                              // touches no modelled contract state
    | Deploy(standard: Standard, initialOwner: Address)
    | SafeMint(contract: nat, to: Address, id: nat)                      // ERC721, onlyOwner
    | SafeTransfer(contract: nat, from: Address, to: Address, id: nat)   // ERC721
    | Mint(contract: nat, to: Address, kind: int, amount: nat)           // ERC20 and ERC1155, onlyOwner

  datatype Tx = Tx(sender: Address, nonce: nat, gas: nat, call: Call)

  datatype Block = Block(number: nat, txs: seq<Tx>)

  datatype Contract = Contract(
    standard: Standard,
    owner: Address,
    holders: map<nat, Address>,         // ERC721: token id to its current owner
    minted: map<(int, Address), nat>)   // ERC20 and ERC1155: total ever minted per id and receiver

  // ----- Transactions of a chain -----

  function Flatten(blocks: seq<Block>): seq<Tx> {
    if blocks == [] then [] else Flatten(blocks[..|blocks| - 1]) + blocks[|blocks| - 1].txs
  }

  lemma {:induction false} FlattenSnoc(blocks: seq<Block>, b: Block)
    ensures Flatten(blocks + [b]) == Flatten(blocks) + b.txs
  {
    assert (blocks + [b])[..|blocks|] == blocks;
  }

  lemma {:induction false} FlattenAppend(a: seq<Block>, b: seq<Block>)
    ensures Flatten(a + b) == Flatten(a) + Flatten(b)
  {
    if b == [] {
      assert a + b == a;
    } else {
      var k := |b| - 1;
      FlattenSnoc(a + b[..k], b[k]);
      assert a + b == (a + b[..k]) + [b[k]];
      assert Flatten(b) == Flatten(b[..k]) + b[k].txs;
      hide Flatten;
      FlattenAppend(a, b[..k]);
      assert Flatten(a) + (Flatten(b[..k]) + b[k].txs) == Flatten(a) + Flatten(b[..k]) + b[k].txs;
    }
  }

  // ----- Nonces -----

  /** The nonce that `BlockGen.TxNonce` reports for `a` after the transactions `txs`. */
  function NextNonce(txs: seq<Tx>, a: Address): nat {
    if txs == [] then 0
    else NextNonce(txs[..|txs| - 1], a) + if txs[|txs| - 1].sender == a then 1 else 0
  }

  /** Every transaction was accepted: it carried its sender's next nonce when it was added. */
  predicate ValidTxs(txs: seq<Tx>) {
    txs == [] ||
    (ValidTxs(txs[..|txs| - 1]) &&
     txs[|txs| - 1].nonce == NextNonce(txs[..|txs| - 1], txs[|txs| - 1].sender))
  }

  /** The nonces that `a` used, in chain order. */
  function NoncesOf(txs: seq<Tx>, a: Address): seq<nat> {
    if txs == [] then []
    else
      var last := txs[|txs| - 1];
      NoncesOf(txs[..|txs| - 1], a) + if last.sender == a then [last.nonce] else []
  }

  /** In chain order, `a` used the nonces 0, 1, 2, ... without gap or repetition. */
  ghost predicate CountsUp(txs: seq<Tx>, a: Address) {
    var nonces := NoncesOf(txs, a);
    forall i :: 0 <= i < |nonces| ==> nonces[i] == i
  }

  lemma {:induction false} ValidSnoc(txs: seq<Tx>, tx: Tx)
    ensures ValidTxs(txs + [tx]) <==> ValidTxs(txs) && tx.nonce == NextNonce(txs, tx.sender)
    ensures forall a :: NextNonce(txs + [tx], a) == NextNonce(txs, a) + if tx.sender == a then 1 else 0
  {
    assert (txs + [tx])[..|txs|] == txs;
  }

  lemma {:induction false} ValidPrefix(a: seq<Tx>, b: seq<Tx>)
    requires ValidTxs(a + b)
    ensures ValidTxs(a)
  {
    if b == [] {
      assert a + b == a;
    } else {
      assert (a + b)[..|a + b| - 1] == a + b[..|b| - 1];
      ValidPrefix(a, b[..|b| - 1]);
    }
  }

  lemma {:induction false} NonceCount(txs: seq<Tx>, a: Address)
    ensures |NoncesOf(txs, a)| == NextNonce(txs, a)
  {
    if txs != [] {
      NonceCount(txs[..|txs| - 1], a);
    }
  }

  lemma {:induction false} NoncesStep(txs: seq<Tx>, a: Address)
    requires txs != []
    ensures var init, last := txs[..|txs| - 1], txs[|txs| - 1];
            CountsUp(txs, a) <==>
            CountsUp(init, a) && (last.sender == a ==> last.nonce == NextNonce(init, a))
  {
    var init, last := txs[..|txs| - 1], txs[|txs| - 1];
    NonceCount(init, a);
    var before, after := NoncesOf(init, a), NoncesOf(txs, a);
    assert forall i :: 0 <= i < |before| ==> after[i] == before[i];
    if last.sender == a {
      assert after[|before|] == last.nonce;
    }
  }

  /** Accepting each transaction on its own is the same as every sender counting 0, 1, 2, ... */
  lemma {:induction false} NoncesCountUp(txs: seq<Tx>)
    ensures ValidTxs(txs) <==> forall a :: CountsUp(txs, a)
  {
    if txs != [] {
      var init, last := txs[..|txs| - 1], txs[|txs| - 1];
      NoncesCountUp(init);
      if ValidTxs(txs) {
        forall a ensures CountsUp(txs, a) {
          assert CountsUp(init, a);
          NoncesStep(txs, a);
        }
      }
      if forall a :: CountsUp(txs, a) {
        forall a ensures CountsUp(init, a) {
          assert CountsUp(txs, a);
          NoncesStep(txs, a);
        }
        assert CountsUp(txs, last.sender);
        NoncesStep(txs, last.sender);
      }
    }
  }

  // ----- Contract state -----

  /** The contract `c` if `call` is allowed to mint on it. */
  predicate MayMint(contracts: seq<Contract>, c: nat, caller: Address, nft: bool) {
    c < |contracts| && contracts[c].owner == caller && (contracts[c].standard == ERC721 <==> nft)
  }

  /** Minting an id that exists reverts, and so does minting by anyone but the contract's owner. */
  function MintToken(c: Contract, to: Address, id: nat): Contract {
    if id in c.holders then c else c.(holders := c.holders[id := to])
  }

  function Minted(c: Contract, slot: (int, Address)): nat {
    if slot in c.minted then c.minted[slot] else 0
  }

  function MintMore(c: Contract, slot: (int, Address), amount: nat): Contract {
    c.(minted := c.minted[slot := Minted(c, slot) + amount])
  }

  /** `transferFrom` throws unless `from` owns the token; the sender here is never an approved operator. */
  predicate TransferAllowed(c: Contract, caller: Address, from: Address, id: nat) {
    c.standard == ERC721 && id in c.holders && c.holders[id] == from && caller == from
  }

  function Execute(contracts: seq<Contract>, caller: Address, call: Call): (after: seq<Contract>)
    ensures |contracts| <= |after|
  {
    match call
    case Other => contracts
    case Deploy(standard, owner) => contracts + [Contract(standard, owner, map[], map[])]
    case SafeMint(c, to, id) =>
      if MayMint(contracts, c, caller, true) then contracts[c := MintToken(contracts[c], to, id)] else contracts
    case SafeTransfer(c, from, to, id) =>
      if c < |contracts| && TransferAllowed(contracts[c], caller, from, id)
      then contracts[c := contracts[c].(holders := contracts[c].holders[id := to])] else contracts
    case Mint(c, to, kind, amount) =>
      if MayMint(contracts, c, caller, false)
      then contracts[c := MintMore(contracts[c], (kind, to), amount)] else contracts
  }

  /** The contracts after executing `txs` in order. */
  function Contracts(txs: seq<Tx>): seq<Contract> {
    if txs == [] then []
    else Execute(Contracts(txs[..|txs| - 1]), txs[|txs| - 1].sender, txs[|txs| - 1].call)
  }

  lemma {:induction false} ContractsSnoc(txs: seq<Tx>, tx: Tx)
    ensures Contracts(txs + [tx]) == Execute(Contracts(txs), tx.sender, tx.call)
  {
    assert (txs + [tx])[..|txs|] == txs;
  }

  /** The contracts after executing `txs` on top of `contracts`. */
  function ExecuteAll(contracts: seq<Contract>, txs: seq<Tx>): seq<Contract> {
    if txs == [] then contracts
    else Execute(ExecuteAll(contracts, txs[..|txs| - 1]), txs[|txs| - 1].sender, txs[|txs| - 1].call)
  }

  lemma {:induction false} ContractsAppend(a: seq<Tx>, b: seq<Tx>)
    ensures Contracts(a + b) == ExecuteAll(Contracts(a), b)
  {
    if b == [] {
      assert a + b == a;
    } else {
      var init, last := b[..|b| - 1], b[|b| - 1];
      ContractsAppend(a, init);
      assert a + b == (a + init) + [last];
      ContractsSnoc(a + init, last);
    }
  }

  // ----- Transactions that leave a contract alone -----

  predicate Touches(call: Call, c: nat) {
    (call.SafeMint? || call.SafeTransfer? || call.Mint?) && call.contract == c
  }

  /** None of the transactions mints or transfers on contract `c`; they may deploy and use any others. */
  predicate Foreign(txs: seq<Tx>, c: nat) {
    forall i :: 0 <= i < |txs| ==> !Touches(txs[i].call, c)
  }

  lemma {:induction false} ForeignKeeps(contracts: seq<Contract>, txs: seq<Tx>, c: nat)
    requires c < |contracts| && Foreign(txs, c)
    ensures |contracts| <= |ExecuteAll(contracts, txs)| && ExecuteAll(contracts, txs)[c] == contracts[c]
  {
    if txs != [] {
      ForeignKeeps(contracts, txs[..|txs| - 1], c);
      assert !Touches(txs[|txs| - 1].call, c);
    }
  }
}
