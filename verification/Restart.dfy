/**
 What the token operators' initialisations have in common: find the contract in the store or deploy one and store it,
 then, unless the store says that this is done, mint everything in a fixed order and store that.
 Any part can fail and be started over, and between any two calls the other threads run. (Where a call only reads an
 own key, which no other thread touches, it makes no difference whether they run before or after it.)
 */
module Restart {
  import opened Ledger
  import opened Server
  import opened Wrappers

  /** `mints` are the mints of a complete attempt in order, written for contract 0; `minter` sends them. `done` is what
      the store holds under `doneKey` after that. */
  datatype Plan = Plan(
    standard: Standard, callerKey: string, doneKey: string, minter: Address, mints: seq<Call>, done: Value)

  predicate Proper(p: Plan) {
    p.callerKey != p.doneKey && forall i :: 0 <= i < |p.mints| ==> p.mints[i].SafeMint? || p.mints[i].Mint?
  }

  function Own(p: Plan): set<string> {
    {p.callerKey, p.doneKey}
  }

  /** The mint for contract `c`. */
  function Aimed(call: Call, c: nat): Call {
    match call
    case SafeMint(_, to, id) => SafeMint(c, to, id)
    case Mint(_, to, kind, amount) => Mint(c, to, kind, amount)
    case other => other
  }

  /** Where an attempt ends. A call that fails may have reached the chain all the same. */
  datatype End =
    | CallerUnread | DeployFailed(landed: bool) | CallerNotStored
    | DoneUnread | MintFailed | DoneNotStored | Completed

  /** `deployer` deploys the contract if there is none. The other threads run first (`before`), after the deployment
      (`deployed`), before each mint that reaches the chain (`between`) and after the last of these (`last`). */
  datatype Attempt = Attempt(
    deployer: Address, before: Others, deployed: Others, between: seq<Others>, last: Others, end: End)

  /** The attempt had a contract to mint on. */
  predicate PastCaller(end: End) {
    end.DoneUnread? || end.MintFailed? || end.DoneNotStored? || end.Completed?
  }

  predicate MintsDone(end: End) {
    end.DoneNotStored? || end.Completed?
  }

  // ----- What an attempt does to the world -----

  function Stored(p: Plan, w: World): Option<nat> {
    if p.callerKey in w.store && w.store[p.callerKey].CallerValue? then Some(w.store[p.callerKey].contract) else None
  }

  /** What is stored under the operator's keys is what an operator of this kind stores there. */
  predicate Readable(p: Plan, w: World) {
    p.callerKey != "" && p.doneKey != "" && (p.callerKey in w.store ==> w.store[p.callerKey].CallerValue?) &&
    (p.doneKey in w.store ==>
       if p.done.MappingValue? then w.store[p.doneKey].MappingValue?
       else p.done.FlagValue? && w.store[p.doneKey].FlagValue?)
  }

  /** The operators with a flag also look at its value. */
  predicate Skips(p: Plan, w: World) {
    p.doneKey in w.store && (p.done.FlagValue? ==> w.store[p.doneKey] == p.done)
  }

  function Deployed(p: Plan, w: World, deployer: Address): World {
    w.(contracts := w.contracts + [Contract(p.standard, deployer, map[], map[])])
  }

  /** The world once the attempt has its contract. */
  function Called(p: Plan, w: World, a: Attempt): World {
    var begun := AfterOthers(w, Own(p), a.before);
    if p.callerKey in w.store then begun
    else
      var deployed := AfterOthers(Deployed(p, begun, a.deployer), Own(p), a.deployed);
      deployed.(store := deployed.store[p.callerKey := CallerValue(|begun.contracts|)])
  }

  function MintOne(p: Plan, w: World, c: nat, i: nat): World {
    if i < |p.mints| then w.(contracts := Execute(w.contracts, p.minter, Aimed(p.mints[i], c))) else w
  }

  function MintFirst(p: Plan, w: World, c: nat, between: seq<Others>): World {
    if between == [] then w
    else
      var k := |between| - 1;
      MintOne(p, AfterOthers(MintFirst(p, w, c, between[..k]), Own(p), between[k]), c, k)
  }

  /** The second half of an attempt, from a world that has contract `c`. */
  function Finished(p: Plan, w: World, c: nat, a: Attempt): World {
    if a.end.DoneUnread? || Skips(p, w) then w
    else
      var minted := AfterOthers(MintFirst(p, w, c, a.between), Own(p), a.last);
      if a.end.Completed? then minted.(store := minted.store[p.doneKey := p.done]) else minted
  }

  function AfterAttempt(p: Plan, w: World, a: Attempt): World {
    var begun, called := AfterOthers(w, Own(p), a.before), Called(p, w, a);
    if PastCaller(a.end) && Stored(p, called).Some? then Finished(p, called, Stored(p, called).value, a)
    else if p.callerKey in w.store then begun
    else if a.end.DeployFailed? && a.end.landed then Deployed(p, begun, a.deployer)
    else if a.end.CallerNotStored? then AfterOthers(Deployed(p, begun, a.deployer), Own(p), a.deployed)
    else begun
  }

  function AfterAttempts(p: Plan, w: World, attempts: seq<Attempt>): World {
    if attempts == [] then w
    else AfterAttempt(p, AfterAttempts(p, w, attempts[..|attempts| - 1]), attempts[|attempts| - 1])
  }

  // ----- Which attempts are possible -----

  /** The contract that the attempt uses. */
  function Target(p: Plan, w: World, a: Attempt): nat {
    if Stored(p, w).Some? then Stored(p, w).value else |AfterOthers(w, Own(p), a.before).contracts|
  }

  ghost predicate AllLeaveAlone(between: seq<Others>, c: nat) {
    forall i :: 0 <= i < |between| ==> LeaveAlone(between[i], c)
  }

  /** The other threads leave the operator's contract alone, once there is one. */
  ghost predicate CallPossible(p: Plan, w: World, a: Attempt) {
    (Stored(p, w).Some? ==> LeaveAlone(a.before, Stored(p, w).value)) && LeaveAlone(a.deployed, Target(p, w, a))
  }

  ghost predicate FinishPossible(p: Plan, skips: bool, c: nat, a: Attempt) {
    |a.between| <= |p.mints| && AllLeaveAlone(a.between, c) && LeaveAlone(a.last, c) &&
    (MintsDone(a.end) && !skips ==> |a.between| == |p.mints|)
  }

  ghost predicate Possible(p: Plan, w: World, a: Attempt) {
    CallPossible(p, w, a) && FinishPossible(p, Skips(p, w), Target(p, w, a), a)
  }

  ghost predicate AllPossible(p: Plan, w: World, attempts: seq<Attempt>) {
    attempts == [] ||
    (AllPossible(p, w, attempts[..|attempts| - 1]) &&
     Possible(p, AfterAttempts(p, w, attempts[..|attempts| - 1]), attempts[|attempts| - 1]))
  }

  // ----- What becomes of the contract -----

  /** The contract after a mint on it. */
  function MintOn(contract: Contract, minter: Address, call: Call): Contract {
    if contract.owner != minter then contract
    else if call.SafeMint? && contract.standard == ERC721 then MintToken(contract, call.to, call.id)
    else if call.Mint? && contract.standard != ERC721 then MintMore(contract, (call.kind, call.to), call.amount)
    else contract
  }

  function MintAllOn(contract: Contract, minter: Address, calls: seq<Call>): Contract {
    if calls == [] then contract
    else MintOn(MintAllOn(contract, minter, calls[..|calls| - 1]), minter, calls[|calls| - 1])
  }

  lemma {:induction false} MintAllOnAppend(contract: Contract, minter: Address, a: seq<Call>, b: seq<Call>)
    ensures MintAllOn(contract, minter, a + b) == MintAllOn(MintAllOn(contract, minter, a), minter, b)
    ensures MintAllOn(contract, minter, a).owner == contract.owner
    ensures MintAllOn(contract, minter, a).standard == contract.standard
    decreases |a| + |b|
  {
    if b != [] {
      MintAllOnAppend(contract, minter, a, b[..|b| - 1]);
      assert (a + b)[..|a + b| - 1] == a + b[..|b| - 1];
    } else {
      assert a + b == a;
      if a != [] {
        MintAllOnAppend(contract, minter, a[..|a| - 1], []);
      }
    }
  }

  lemma {:induction false} AimedMints(contracts: seq<Contract>, minter: Address, call: Call, c: nat)
    requires c < |contracts| && (call.SafeMint? || call.Mint?)
    ensures Execute(contracts, minter, Aimed(call, c)) == contracts[c := MintOn(contracts[c], minter, call)]
  {
  }

  lemma {:induction false} MintFirstKeepsStore(p: Plan, w: World, c: nat, between: seq<Others>, key: string)
    requires key in Own(p)
    ensures var after := MintFirst(p, w, c, between);
            (key in after.store <==> key in w.store) && (key in w.store ==> after.store[key] == w.store[key])
  {
    if between != [] {
      MintFirstKeepsStore(p, w, c, between[..|between| - 1], key);
    }
  }

  lemma {:induction false} FinishedKeepsCaller(p: Plan, w: World, c: nat, a: Attempt)
    requires p.callerKey != p.doneKey
    ensures var after := Finished(p, w, c, a);
            (p.callerKey in after.store <==> p.callerKey in w.store) &&
            (p.callerKey in w.store ==> after.store[p.callerKey] == w.store[p.callerKey])
  {
    MintFirstKeepsStore(p, w, c, a.between, p.callerKey);
  }

  /** Whatever the other threads do in between, the mints act on the operator's contract as if it were alone. */
  lemma {:induction false} MintFirstMints(p: Plan, w: World, c: nat, between: seq<Others>)
    requires Proper(p) && c < |w.contracts| && |between| <= |p.mints| && AllLeaveAlone(between, c)
    ensures var after := MintFirst(p, w, c, between);
            |w.contracts| <= |after.contracts| &&
            after.contracts[c] == MintAllOn(w.contracts[c], p.minter, p.mints[..|between|])
  {
    if between != [] {
      var k := |between| - 1;
      var before := MintFirst(p, w, c, between[..k]);
      MintFirstMints(p, w, c, between[..k]);
      OthersKeep(before, Own(p), between[k], c);
      AimedMints(AfterOthers(before, Own(p), between[k]).contracts, p.minter, p.mints[k], c);
      assert p.mints[..|between|][..k] == p.mints[..k];
    }
  }

  /** The mints of the attempt that reach the chain. */
  function LandedBy(p: Plan, w: World, a: Attempt): seq<Call> {
    if !PastCaller(a.end) || a.end.DoneUnread? || Skips(p, w) || |p.mints| < |a.between| then []
    else p.mints[..|a.between|]
  }

  function Landed(p: Plan, w: World, attempts: seq<Attempt>): seq<Call> {
    if attempts == [] then []
    else
      var before := attempts[..|attempts| - 1];
      Landed(p, w, before) + LandedBy(p, AfterAttempts(p, w, before), attempts[|attempts| - 1])
  }

  /** The most mints that any of the attempts has put on the chain. */
  function Furthest(p: Plan, w: World, attempts: seq<Attempt>): nat {
    if attempts == [] then 0
    else
      var before := attempts[..|attempts| - 1];
      var n, k := Furthest(p, w, before), |LandedBy(p, AfterAttempts(p, w, before), attempts[|attempts| - 1])|;
      if n < k then k else n
  }

  /** Who deployed the contract that is in the store after the attempts: the deployer of the first one that got past
      that. */
  function Deployer(attempts: seq<Attempt>): Option<Address> {
    if attempts == [] then None
    else
      var before := Deployer(attempts[..|attempts| - 1]);
      if before.Some? || !PastCaller(attempts[|attempts| - 1].end) then before
      else Some(attempts[|attempts| - 1].deployer)
  }

  /** The stored contract is what a new one of `deployer` is after the mints `landed`. */
  ghost predicate Accounted(p: Plan, w: World, deployer: Option<Address>, landed: seq<Call>, furthest: nat) {
    (p.callerKey in w.store <==> deployer.Some?) &&
    (deployer.None? ==> landed == [] && p.doneKey !in w.store) &&
    (deployer.Some? ==>
       Stored(p, w).Some? && Stored(p, w).value < |w.contracts| &&
       w.contracts[Stored(p, w).value] ==
       MintAllOn(Contract(p.standard, deployer.value, map[], map[]), p.minter, landed)) &&
    furthest <= |p.mints| && (p.doneKey in w.store ==> w.store[p.doneKey] == p.done && furthest == |p.mints|)
  }

  lemma {:induction false} CalledIsAccounted(
      p: Plan, w: World, a: Attempt, deployer: Option<Address>, landed: seq<Call>, furthest: nat)
    requires Proper(p) && CallPossible(p, w, a) && Accounted(p, w, deployer, landed, furthest)
    ensures Accounted(p, Called(p, w, a), if deployer.Some? then deployer else Some(a.deployer), landed, furthest)
    ensures Stored(p, Called(p, w, a)) == Some(Target(p, w, a)) && (Skips(p, Called(p, w, a)) <==> Skips(p, w))
  {
    var begun := AfterOthers(w, Own(p), a.before);
    if deployer.Some? {
      OthersKeep(w, Own(p), a.before, Stored(p, w).value);
    } else {
      OthersKeep(Deployed(p, begun, a.deployer), Own(p), a.deployed, |begun.contracts|);
    }
  }

  lemma {:induction false} FinishedIsAccounted(
      p: Plan, w: World, c: nat, a: Attempt, deployer: Address, landed: seq<Call>, furthest: nat)
    requires Proper(p) && PastCaller(a.end) && FinishPossible(p, Skips(p, w), c, a)
    requires Accounted(p, w, Some(deployer), landed, furthest) && Stored(p, w) == Some(c)
    ensures var more := LandedBy(p, w, a);
            Accounted(p, Finished(p, w, c, a), Some(deployer),
                      landed + more, if furthest < |more| then |more| else furthest)
  {
    var contract := Contract(p.standard, deployer, map[], map[]);
    if a.end.DoneUnread? || Skips(p, w) {
      assert landed + [] == landed;
    } else {
      MintFirstMints(p, w, c, a.between);
      MintFirstKeepsStore(p, w, c, a.between, p.callerKey);
      MintFirstKeepsStore(p, w, c, a.between, p.doneKey);
      OthersKeep(MintFirst(p, w, c, a.between), Own(p), a.last, c);
      MintAllOnAppend(contract, p.minter, landed, p.mints[..|a.between|]);
    }
  }

  lemma {:induction false} AttemptIsAccounted(
      p: Plan, w: World, a: Attempt, deployer: Option<Address>, landed: seq<Call>, furthest: nat)
    requires Proper(p) && Possible(p, w, a) && Accounted(p, w, deployer, landed, furthest)
    ensures var more := LandedBy(p, w, a);
            Accounted(p, AfterAttempt(p, w, a),
                      if deployer.Some? || !PastCaller(a.end) then deployer else Some(a.deployer),
                      landed + more, if furthest < |more| then |more| else furthest)
  {
    CalledIsAccounted(p, w, a, deployer, landed, furthest);
    if PastCaller(a.end) {
      FinishedIsAccounted(p, Called(p, w, a), Target(p, w, a), a,
                          if deployer.Some? then deployer.value else a.deployer, landed, furthest);
      assert LandedBy(p, Called(p, w, a), a) == LandedBy(p, w, a);
    } else {
      assert landed + [] == landed;
      if deployer.Some? {
        OthersKeep(w, Own(p), a.before, Stored(p, w).value);
      }
    }
  }

  /** After any attempts, cut off anywhere and with any other threads running in between, on a store that has never seen
      this operator, the stored contract is exactly what a new contract of `Deployer(attempts)` is after the
      mints that the attempts have put on the chain; and the store says done only if one put all of them there. */
  lemma {:induction false} AttemptsAreAccounted(p: Plan, w: World, attempts: seq<Attempt>)
    requires Proper(p) && AllPossible(p, w, attempts) && p.callerKey !in w.store && p.doneKey !in w.store
    ensures Accounted(p, AfterAttempts(p, w, attempts),
                      Deployer(attempts), Landed(p, w, attempts), Furthest(p, w, attempts))
  {
    if attempts != [] {
      var before := attempts[..|attempts| - 1];
      AttemptsAreAccounted(p, w, before);
      AttemptIsAccounted(p, AfterAttempts(p, w, before), attempts[|attempts| - 1],
                         Deployer(before), Landed(p, w, before), Furthest(p, w, before));
    }
  }

  /** So the operator can read what its earlier attempts have stored. */
  lemma {:induction false} AccountedIsReadable(
      p: Plan, w: World, deployer: Option<Address>, landed: seq<Call>, furthest: nat)
    requires Accounted(p, w, deployer, landed, furthest)
    requires p.callerKey != "" && p.doneKey != "" && (p.done.MappingValue? || p.done.FlagValue?)
    ensures Readable(p, w)
  {
  }

  /** An attempt that runs through notes that down, whatever the attempts before it did. */
  lemma {:induction false} CompletedIsStored(p: Plan, w: World, attempts: seq<Attempt>)
    requires Proper(p) && AllPossible(p, w, attempts) && p.callerKey !in w.store && p.doneKey !in w.store
    requires attempts != [] && attempts[|attempts| - 1].end.Completed?
    ensures p.doneKey in AfterAttempts(p, w, attempts).store
  {
    var before, a := attempts[..|attempts| - 1], attempts[|attempts| - 1];
    AttemptsAreAccounted(p, w, before);
    CalledIsAccounted(p, AfterAttempts(p, w, before), a,
                      Deployer(before), Landed(p, w, before), Furthest(p, w, before));
  }

  lemma {:induction false} AttemptsSnoc(p: Plan, w: World, attempts: seq<Attempt>, a: Attempt)
    ensures var before := AfterAttempts(p, w, attempts);
            AfterAttempts(p, w, attempts + [a]) == AfterAttempt(p, before, a) &&
            Landed(p, w, attempts + [a]) == Landed(p, w, attempts) + LandedBy(p, before, a) &&
            (AllPossible(p, w, attempts + [a]) <==> AllPossible(p, w, attempts) && Possible(p, before, a))
  {
    assert (attempts + [a])[..|attempts|] == attempts;
  }

  lemma {:induction false} OnlyCompletedIsStored(p: Plan, w: World, a: Attempt)
    requires p.callerKey != p.doneKey && p.doneKey !in w.store && !a.end.Completed?
    ensures p.doneKey !in AfterAttempt(p, w, a).store
  {
    var called := Called(p, w, a);
    if PastCaller(a.end) && Stored(p, called).Some? {
      MintFirstKeepsStore(p, called, Stored(p, called).value, a.between, p.doneKey);
    }
  }

  lemma {:induction false} NothingIsForeign(c: nat)
    ensures LeaveAlone(NOTHING, c)
  {
  }

  /** An attempt that nobody disturbs and that gets to mint everything. */
  function Undisturbed(p: Plan, deployer: Address, end: End): Attempt {
    Attempt(deployer, NOTHING, NOTHING, seq(|p.mints|, (i: nat) => NOTHING), NOTHING, end)
  }

  lemma {:induction false} UndisturbedIsPossible(p: Plan, w: World, deployer: Address, end: End)
    ensures Possible(p, w, Undisturbed(p, deployer, end))
  {
    forall c: nat ensures LeaveAlone(NOTHING, c) {
      NothingIsForeign(c);
    }
  }

  // ----- The parts of the operators' `Initialize` that they share -----

  lemma {:induction false} NothingKeeps(w: World, own: set<string>)
    ensures AfterOthers(w, own, Others([], w.store)) == w && forall c: nat :: LeaveAlone(Others([], w.store), c)
  {
  }

  /** The deployment of a contract when none is stored, and the note of it in the store; `before` is what the other
      threads have done since `start`. */
  method DeployAndStore(server: ETHTestServer, p: Plan, deployer: Address, ghost start: World, ghost before: Others)
    returns (r: Result<nat, ServerError>, ghost a: Attempt)
    requires p.callerKey !in start.store && server.Seen() == AfterOthers(start, Own(p), before)
    modifies server`chain, server`stats, server`stateDB
    ensures a == Attempt(deployer, before, a.deployed, [], NOTHING, a.end) && !PastCaller(a.end)
    ensures CallPossible(p, start, a)
    ensures r.Err? ==> server.Seen() == AfterAttempt(p, start, a)
    ensures r.Ok? ==> server.Seen() == Called(p, start, a) && r.value == |AfterOthers(start, Own(p), before).contracts|
    ensures old(server.Healthy()) ==> server.Healthy() && (p.callerKey != "" ==> r.Ok?)
  {
    hide ExecuteAll, Foreign, Contracts, Flatten;
    ghost var begun := server.Seen();
    a := Attempt(deployer, before, NOTHING, [], NOTHING, CallerUnread);
    NothingIsForeign(Target(p, start, a));
    ghost var e;
    var env := server.AnyEnv();
    r, e := server.DeployContract(deployer, p.standard, env);
    if r.Err? {
      return r, a.(end := End.DeployFailed(server.Seen().contracts != begun.contracts));
    }
    var others := server.OtherThreads(Own(p), Some(r.value));
    a := a.(deployed := others);
    var encodes := server.AnyAnswer();
    var answer := server.AnyAnswer();
    var put := server.StoreValue(p.callerKey, Some(CallerValue(r.value)), encodes, answer);
    if put.Err? {
      return Err(put.error), a.(end := CallerNotStored);
    }
  }

  /** The stored contract, or a new one. An error ends the attempt. */
  method EnsureCaller(server: ETHTestServer, p: Plan, deployer: Address)
    returns (r: Result<nat, ServerError>, ghost a: Attempt)
    modifies server`chain, server`stats, server`stateDB
    ensures a == Attempt(deployer, a.before, a.deployed, [], NOTHING, a.end) && !PastCaller(a.end)
    ensures CallPossible(p, old(server.Seen()), a)
    ensures r.Err? ==> server.Seen() == AfterAttempt(p, old(server.Seen()), a)
    ensures r.Ok? ==>
      server.Seen() == Called(p, old(server.Seen()), a) && Stored(p, server.Seen()) == Some(r.value) &&
      Target(p, old(server.Seen()), a) == r.value
    ensures p.callerKey in old(server.Seen()).store ==>
      server.chain == old(server.chain) + a.before.blocks &&
      server.Seen() == AfterOthers(old(server.Seen()), Own(p), a.before)
    ensures old(server.Healthy()) ==> server.Healthy() && (Readable(p, old(server.Seen())) ==> r.Ok?)
  {
    hide ExecuteAll, Foreign, Contracts, Flatten;
    ghost var start := server.Seen();
    var before := server.OtherThreads(Own(p), Stored(p, server.Seen()));
    a := Attempt(deployer, before, NOTHING, [], NOTHING, CallerUnread);
    NothingIsForeign(Target(p, start, a));
    var answer := server.AnyAnswer();
    var stored := server.RetrieveValue(p.callerKey, answer);
    if stored.Err? {
      return Err(stored.error), a;
    }
    if stored.value.Some? {
      return if stored.value.value.CallerValue? then Ok(stored.value.value.contract) else Err(EncodeFailed), a;
    }
    hide AfterAttempt, CallPossible;
    r, a := DeployAndStore(server, p, deployer, start, before);
  }

  /** The mints with these interruptions have reached the chain, from `start` on. */
  ghost predicate Minting(server: ETHTestServer, p: Plan, start: World, c: nat, between: seq<Others>)
    reads server
  {
    |between| <= |p.mints| && AllLeaveAlone(between, c) && server.Seen() == MintFirst(p, start, c, between)
  }

  /** The same, and then the other threads have run once more. */
  ghost predicate MintingStopped(
      server: ETHTestServer, p: Plan, start: World, c: nat, between: seq<Others>, last: Others)
    reads server
  {
    |between| <= |p.mints| && AllLeaveAlone(between, c) && LeaveAlone(last, c) &&
    server.Seen() == AfterOthers(MintFirst(p, start, c, between), Own(p), last)
  }

  lemma {:induction false} MintFirstSnoc(p: Plan, w: World, c: nat, between: seq<Others>, o: Others)
    requires |between| < |p.mints| && AllLeaveAlone(between, c) && LeaveAlone(o, c)
    ensures var before := AfterOthers(MintFirst(p, w, c, between), Own(p), o);
            MintFirst(p, w, c, between + [o]) ==
            before.(contracts := Execute(before.contracts, p.minter, Aimed(p.mints[|between|], c)))
    ensures AllLeaveAlone(between + [o], c)
  {
    assert (between + [o])[..|between|] == between;
  }

  /** The other threads, and then the next mint. If that fails, it may have reached the chain. */
  method SendMint(server: ETHTestServer, p: Plan, call: Call, c: nat, ghost start: World, ghost between: seq<Others>)
    returns (r: Result<(), ServerError>, ghost more: seq<Others>, ghost last: Others)
    requires Minting(server, p, start, c, between)
    requires |between| < |p.mints| && call == Aimed(p.mints[|between|], c)
    modifies server`chain, server`stats, server`stateDB
    ensures if r.Ok? then Minting(server, p, start, c, more) && |more| == |between| + 1
            else MintingStopped(server, p, start, c, more, last)
    ensures old(server.Healthy()) ==> server.Healthy() && r.Ok?
  {
    hide MintFirst, ExecuteAll, Foreign, Contracts, Flatten, Execute;
    ghost var e;
    var env := server.AnyEnv();
    var o := server.OtherThreads(Own(p), Some(c));
    MintFirstSnoc(p, start, c, between, o);
    NothingKeeps(MintFirst(p, start, c, between + [o]), Own(p));
    r, e := server.ContractTransact(p.minter, call, env);
    if server.Seen() == MintFirst(p, start, c, between + [o]) {
      more, last := between + [o], Others([], server.Seen().store);
    } else {
      more, last := between, o;
    }
  }

  /** The other threads, and then the note that everything is minted. */
  method NoteDone(server: ETHTestServer, p: Plan, value: Value, c: nat,
      ghost start: World, ghost base: Attempt, ghost between: seq<Others>)
    returns (r: Result<(), ServerError>, ghost a: Attempt)
    requires value == p.done && Minting(server, p, start, c, between) && |between| == |p.mints|
    requires !Skips(p, start)
    modifies server`chain, server`stats, server`stateDB
    ensures a == base.(between := between, last := a.last, end := a.end)
    ensures MintsDone(a.end) && (r.Ok? <==> a.end.Completed?)
    ensures FinishPossible(p, Skips(p, start), c, a) && server.Seen() == Finished(p, start, c, a)
    ensures old(server.Healthy()) && p.doneKey != "" ==> server.Healthy() && r.Ok?
  {
    hide MintFirst, ExecuteAll, Foreign, Contracts, Flatten;
    var o := server.OtherThreads(Own(p), Some(c));
    var encodes := server.AnyAnswer();
    var answer := server.AnyAnswer();
    r := server.StoreValue(p.doneKey, Some(value), encodes, answer);
    a := base.(between := between, last := o, end := if r.Ok? then Completed else DoneNotStored);
  }

  /** The two halves of an attempt make the attempt. */
  lemma {:induction false} HalvesMeet(p: Plan, w: World, a: Attempt, c: nat)
    requires p.callerKey != p.doneKey && PastCaller(a.end)
    requires CallPossible(p, w, a) && Stored(p, Called(p, w, a)) == Some(c)
    requires Target(p, w, a) == c && FinishPossible(p, Skips(p, Called(p, w, a)), c, a)
    ensures Possible(p, w, a) && AfterAttempt(p, w, a) == Finished(p, Called(p, w, a), c, a)
  {
  }
}
