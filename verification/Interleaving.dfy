/**
 Any number of threads calling `GenerateBlocks`, `Mine` and `nextTick` at the same time, cut
 into the steps between which other threads can run. A run is a sequence of step labels; a label
 carries the choices the program does not make itself (which sender, whether the database works,
 how deep a fork goes), and a step that is not possible when its turn comes changes nothing. So
 a statement about `After(c, s, steps)` for all `steps` is about every reachable state.
 */
module Interleaving {
  import opened Ledger
  import opened Serial
  import opened Words
  import opened Wrappers

  type Tid = nat

  datatype Op = Generate(n: int) | Mine | Tick

  datatype Pc =
    | Idle
    | Want(op: Op)                          // waits for the server's mutex; every later pc holds it
    | Checking(op: Op)                      // before the limit check
    | Checked(op: Op, n: nat)               // passed it, has not yet read the parent block
    | Building(op: Op, n: nat, parent: seq<Block>, sealed: seq<Block>, open: seq<Tx>, ready: Option<Tx>)
    | Inserted(op: Op, blocks: seq<Block>)  // waits for the transaction index
    | MaybeFork
    | Releasing

  datatype State = State(
    core: Core,
    holder: Option<Tid>,      // the owner of the mutex
    pcs: map<Tid, Pc>,        // absent: Idle
    log: seq<Event>,          // the critical section parts completed so far
    who: seq<Tid>,             // and by which thread
    refused: bool,            // AddTx has refused a transaction built by an operator
    crashed: bool)            // AddTx has panicked, the process is gone

  datatype Step =
    | Call(t: Tid, op: Op)
    | Acquire(t: Tid)
    | Check(t: Tid, expired: bool)
    | ReadParent(t: Tid)
    | ReadNonce(t: Tid, sender: Address, gas: nat, call: Ledger.Call)
    | AddOwn(t: Tid)
    | AddPooled(t: Tid, tx: Tx)
    | Seal(t: Tid)
    | CallbackFails(t: Tid)
    | Insert(t: Tid, inserted: nat)
    | Index(t: Tid, works: bool)
    | Fork(t: Tid, draw: int, works: bool, commit: Option<Block>)
    | NoFork(t: Tid)
    | Release(t: Tid)

  function PcOf(s: State, t: Tid): Pc {
    if t in s.pcs then s.pcs[t] else Idle
  }

  function Go(s: State, t: Tid, pc: Pc): State {
    s.(pcs := s.pcs[t := pc])
  }

  predicate Critical(pc: Pc) {
    !pc.Idle? && !pc.Want?
  }

  /** Where a block generation continues after it returned, with or without an error. */
  function AfterGenerate(op: Op): Pc {
    if op.Tick? then MaybeFork else Releasing
  }

  /** The transactions below the one that is being added. */
  function Below(pc: Pc): seq<Tx>
    requires pc.Building?
  {
    Flatten(pc.parent + pc.sealed) + pc.open
  }

  // ----- The steps -----

  function DoCheck(c: Config, s: State, t: Tid, op: Op, expired: bool): State
    requires s.core.chain != []
  {
    if LimitReached(c, Head(s.core.chain)) then
      Go(s, t, AfterGenerate(op))                // ErrLimitReached, or nothing to do for Mine and Tick
    else
      match op
      case Generate(n) => Go(s, t, if n <= 0 then Releasing else Checked(op, n))
      case _ => Go(s, t, if expired then AfterGenerate(op) else Checked(op, 1))
  }

  function DoAdd(s: State, t: Tid, pc: Pc, tx: Tx, own: bool): State
    requires pc.Building?
  {
    if tx.nonce == NextNonce(Below(pc), tx.sender)
    then Go(s, t, pc.(open := pc.open + [tx], ready := None))
    else s.(crashed := true, refused := s.refused || own)
  }

  function DoInsert(s: State, t: Tid, pc: Pc, inserted: nat): (after: State)
    requires pc.Building? && inserted <= |pc.sealed|
  {
    var s' := s.(core := s.core.(chain := pc.parent + pc.sealed[..inserted]));
    if inserted == |pc.sealed| then Go(s', t, Inserted(pc.op, pc.sealed))
    else Go(s'.(log := s.log + [Generated(pc.sealed, inserted, false)], who := s.who + [t]), t, AfterGenerate(pc.op))
  }

  function DoIndex(s: State, t: Tid, pc: Pc, works: bool): State
    requires pc.Inserted? && pc.blocks != []
  {
    var s' := s.(log := s.log + [Generated(pc.blocks, |pc.blocks|, works)], who := s.who + [t]);
    var stats := if works then StatsAfter(s.core.stats, pc.blocks) else s.core.stats;
    Go(s'.(core := s'.core.(stats := stats)), t, AfterGenerate(pc.op))
  }

  function DoFork(c: Config, s: State, t: Tid, e: Event, works: bool): State
    requires s.core.chain != [] && e.Forked?
  {
    Go(if works && Allowed(c, s.core, e)
       then s.(core := Apply(c, s.core, e), log := s.log + [e], who := s.who + [t]) else s, t, Releasing)
  }

  function Do(c: Config, s: State, step: Step): (after: State)
    requires s.core.chain != []
    ensures after.core.chain != []
  {
    if s.crashed then s
    else
      var pc := PcOf(s, step.t);
      match step
      case Call(t, op) => if pc.Idle? then Go(s, t, Want(op)) else s
      case Acquire(t) => if pc.Want? && s.holder.None? then Go(s.(holder := Some(t)), t, Checking(pc.op)) else s
      case Check(t, expired) => if pc.Checking? then DoCheck(c, s, t, pc.op, expired) else s
      case ReadParent(t) =>
        if pc.Checked? then Go(s, t, Building(pc.op, pc.n, s.core.chain, [], [], None)) else s
      case ReadNonce(t, a, gas, call) =>
        if pc.Building? && pc.op.Generate? && |pc.sealed| < pc.n && pc.ready.None?
        then Go(s, t, pc.(ready := Some(Tx(a, NextNonce(Below(pc), a), gas, call)))) else s
      case AddOwn(t) =>
        if pc.Building? && pc.ready.Some? then DoAdd(s, t, pc, pc.ready.value, true) else s
      case AddPooled(t, tx) =>
        if pc.Building? && !pc.op.Generate? && |pc.sealed| < pc.n then DoAdd(s, t, pc, tx, false) else s
      case Seal(t) =>
        if pc.Building? && |pc.sealed| < pc.n && pc.ready.None?
        then Go(s, t, pc.(sealed := pc.sealed + [Block(|pc.parent| + |pc.sealed|, pc.open)], open := [])) else s
      case CallbackFails(t) => if pc.Building? && |pc.sealed| < pc.n then Go(s, t, AfterGenerate(pc.op)) else s
      case Insert(t, inserted) =>
        if pc.Building? && |pc.sealed| == pc.n && inserted <= pc.n && pc.parent != []
        then DoInsert(s, t, pc, inserted) else s
      case Index(t, works) => if pc.Inserted? && pc.blocks != [] then DoIndex(s, t, pc, works) else s
      case Fork(t, draw, works, commit) => if pc.MaybeFork? then DoFork(c, s, t, Forked(draw, commit), works) else s
      case NoFork(t) => if pc.MaybeFork? then Go(s, t, Releasing) else s
      case Release(t) => if pc.Releasing? then Go(s.(holder := None), t, Idle) else s
  }

  function After(c: Config, s: State, steps: seq<Step>): (after: State)
    requires s.core.chain != []
    ensures after.core.chain != []
  {
    if steps == [] then s else Do(c, After(c, s, steps[..|steps| - 1]), steps[|steps| - 1])
  }

  function Initial(start: Core): State {
    State(start, None, map[], [], [], false, false)
  }

  /** No call of `GenerateBlocks` in the run asks for more than `n` blocks. */
  predicate CallsAtMost(steps: seq<Step>, n: nat) {
    forall i :: 0 <= i < |steps| && steps[i].Call? ==> SizeAtMost(steps[i].op, n)
  }

  predicate SizeAtMost(op: Op, n: nat) {
    op.Generate? ==> op.n <= n
  }

  // ----- The invariant -----

  /** The serial log that explains the state: blocks that are inserted but not yet indexed
      count as a generation that has not returned. */
  function SerialLog(s: State): seq<Event> {
    if s.holder.Some? && PcOf(s, s.holder.value).Inserted?
    then var blocks := PcOf(s, s.holder.value).blocks; s.log + [Generated(blocks, |blocks|, false)]
    else s.log
  }

  /** What the owner of the mutex relies on. */
  predicate Local(c: Config, n: nat, core: Core, pc: Pc)
    requires core.chain != []
  {
    match pc
    case Want(op) => SizeAtMost(op, n)
    case Checking(op) => SizeAtMost(op, n)
    case Checked(_, k) => 1 <= k <= n && !LimitReached(c, Head(core.chain))
    case Building(_, k, parent, sealed, open, ready) =>
      1 <= k <= n && parent == core.chain && !LimitReached(c, Head(core.chain)) &&
      |sealed| <= k && (forall i :: 0 <= i < |sealed| ==> sealed[i].number == |parent| + i) &&
      ValidTxs(Below(pc)) &&
      (ready.Some? ==> ready.value.nonce == NextNonce(Below(pc), ready.value.sender))
    case Inserted(_, blocks) => blocks != []
    case _ => true
  }

  /** Mutual exclusion. */
  ghost predicate Exclusive(s: State) {
    (forall t: Tid :: Critical(PcOf(s, t)) ==> s.holder == Some(t)) &&
    (s.holder.Some? ==> Critical(PcOf(s, s.holder.value)))
  }

  ghost predicate Inv(c: Config, start: Core, n: nat, s: State)
    requires start.chain != [] && s.core.chain != []
  {
    Exclusive(s) && !s.refused &&
    Replay(c, start, SerialLog(s)) == Some(s.core) && AtMost(SerialLog(s), n) &&
    forall t: Tid :: Local(c, n, s.core, PcOf(s, t))
  }

  lemma {:induction false} ReplayLog(c: Config, start: Core, n: nat, log: seq<Event>, e: Event, core: Core)
    requires start.chain != [] && Replay(c, start, log) == Some(core) && AtMost(log, n)
    requires core.chain != [] && Allowed(c, core, e) && (e.Generated? ==> |e.blocks| <= n)
    ensures Replay(c, start, log + [e]) == Some(Apply(c, core, e)) && AtMost(log + [e], n)
  {
    ReplaySnoc(c, start, log, e);
  }

  /** A step of the thread that holds the mutex, or takes it: only its own pc needs a look. */
  lemma {:induction false} OwnerStep(c: Config, start: Core, n: nat, s: State, t: Tid, after: State)
    requires start.chain != [] && s.core.chain != [] && after.core.chain != [] && Inv(c, start, n, s)
    requires s.holder == Some(t) || s.holder == None
    requires t in after.pcs && after.pcs == s.pcs[t := after.pcs[t]] && !after.refused
    requires after.holder == if Critical(after.pcs[t]) then Some(t) else None
    requires Local(c, n, after.core, after.pcs[t])
    requires Replay(c, start, SerialLog(after)) == Some(after.core) && AtMost(SerialLog(after), n)
    ensures Inv(c, start, n, after)
  {
    forall u: Tid ensures Local(c, n, after.core, PcOf(after, u)) {
      if u != t {
        assert PcOf(after, u) == PcOf(s, u) && !Critical(PcOf(s, u));
        assert Local(c, n, s.core, PcOf(s, u));
      }
    }
    forall u: Tid | Critical(PcOf(after, u)) ensures after.holder == Some(u) {
      if u != t {
        assert PcOf(after, u) == PcOf(s, u);
      }
    }
  }

  lemma {:induction false} AddIsLocal(c: Config, n: nat, core: Core, pc: Pc, tx: Tx)
    requires core.chain != [] && pc.Building? && Local(c, n, core, pc)
    requires tx.nonce == NextNonce(Below(pc), tx.sender)
    ensures Local(c, n, core, pc.(open := pc.open + [tx], ready := None))
  {
    var after := pc.(open := pc.open + [tx], ready := None);
    ValidSnoc(Below(pc), tx);
    assert Below(after) == Below(pc) + [tx];
  }

  lemma {:induction false} SealIsLocal(c: Config, n: nat, core: Core, pc: Pc)
    requires core.chain != [] && pc.Building? && Local(c, n, core, pc)
    requires |pc.sealed| < pc.n && pc.ready.None?
    ensures Local(c, n, core, pc.(sealed := pc.sealed + [Block(|pc.parent| + |pc.sealed|, pc.open)], open := []))
  {
    var b := Block(|pc.parent| + |pc.sealed|, pc.open);
    var after := pc.(sealed := pc.sealed + [b], open := []);
    FlattenSnoc(pc.parent + pc.sealed, b);
    assert pc.parent + pc.sealed + [b] == pc.parent + (pc.sealed + [b]);
    assert Below(after) == Below(pc);
  }

  lemma {:induction false} AddKeepsInv(c: Config, start: Core, n: nat, s: State, t: Tid, tx: Tx, own: bool)
    requires start.chain != [] && s.core.chain != [] && Inv(c, start, n, s)
    requires PcOf(s, t).Building? && (own ==> PcOf(s, t).ready == Some(tx))
    ensures Inv(c, start, n, DoAdd(s, t, PcOf(s, t), tx, own))
  {
    var pc := PcOf(s, t);
    assert Local(c, n, s.core, pc);
    if tx.nonce == NextNonce(Below(pc), tx.sender) {
      AddIsLocal(c, n, s.core, pc, tx);
      OwnerStep(c, start, n, s, t, DoAdd(s, t, pc, tx, own));
    } else {
      var after := DoAdd(s, t, pc, tx, own);
      assert SerialLog(after) == SerialLog(s) && forall u: Tid :: PcOf(after, u) == PcOf(s, u);
    }
  }

  lemma {:induction false} SealKeepsInv(c: Config, start: Core, n: nat, s: State, step: Step)
    requires start.chain != [] && s.core.chain != [] && Inv(c, start, n, s)
    requires step.Seal?
    ensures Inv(c, start, n, Do(c, s, step))
  {
    hide Allowed, Apply, Replay, AtMost, DoCheck, DoAdd, DoInsert, DoIndex, DoFork, Flatten, ValidTxs, NextNonce;
    var pc, after := PcOf(s, step.t), Do(c, s, step);
    if after != s {
      assert Local(c, n, s.core, pc);
      SealIsLocal(c, n, s.core, pc);
      OwnerStep(c, start, n, s, step.t, after);
    }
  }

  lemma {:induction false} InsertIsAllowed(c: Config, n: nat, core: Core, pc: Pc, inserted: nat)
    requires core.chain != [] && pc.Building? && Local(c, n, core, pc)
    requires |pc.sealed| == pc.n && inserted <= pc.n
    ensures var e := Generated(pc.sealed, inserted, false);
            Allowed(c, core, e) && |e.blocks| <= n &&
            Apply(c, core, e) == core.(chain := pc.parent + pc.sealed[..inserted])
  {
    ValidPrefix(Flatten(pc.parent + pc.sealed), pc.open);
  }

  lemma {:induction false} InsertKeepsInv(c: Config, start: Core, n: nat, s: State, t: Tid, inserted: nat)
    requires start.chain != [] && s.core.chain != [] && Inv(c, start, n, s)
    requires PcOf(s, t).Building? && |PcOf(s, t).sealed| == PcOf(s, t).n && inserted <= PcOf(s, t).n
    ensures var after := DoInsert(s, t, PcOf(s, t), inserted);
            after.core.chain != [] && Inv(c, start, n, after)
  {
    var pc := PcOf(s, t);
    var after := DoInsert(s, t, pc, inserted);
    assert Local(c, n, s.core, pc);
    InsertIsAllowed(c, n, s.core, pc, inserted);
    hide Allowed, Replay, Flatten, ValidTxs, AtMost, Below;
    ReplayLog(c, start, n, s.log, Generated(pc.sealed, inserted, false), s.core);
    assert SerialLog(after) == s.log + [Generated(pc.sealed, inserted, false)];
    OwnerStep(c, start, n, s, t, after);
  }

  lemma {:induction false} DropLast(c: Config, start: Core, n: nat, log: seq<Event>, e: Event, core: Core)
    requires start.chain != [] && AtMost(log + [e], n)
    requires Replay(c, start, log + [e]) == Some(core)
    ensures AtMost(log, n) && (e.Generated? ==> |e.blocks| <= n)
    ensures var before := Replay(c, start, log);
            before.Some? && Allowed(c, before.value, e) && core == Apply(c, before.value, e)
  {
    ReplaySnoc(c, start, log, e);
    assert (log + [e])[|log|] == e;
    assert forall i :: 0 <= i < |log| ==> (log + [e])[i] == log[i];
  }

  lemma {:induction false} IndexKeepsInv(c: Config, start: Core, n: nat, s: State, step: Step)
    requires start.chain != [] && s.core.chain != [] && Inv(c, start, n, s)
    requires step.Index?
    ensures Inv(c, start, n, Do(c, s, step))
  {
    var pc := PcOf(s, step.t);
    if pc.Inserted? && pc.blocks != [] && !s.crashed {
      var pending := Generated(pc.blocks, |pc.blocks|, false);
      DropLast(c, start, n, s.log, pending, s.core);
      ReplayLog(c, start, n, s.log, pending.(done := step.works), Replay(c, start, s.log).value);
      assert SerialLog(Do(c, s, step)) == s.log + [pending.(done := step.works)];
      OwnerStep(c, start, n, s, step.t, Do(c, s, step));
    }
  }

  lemma {:induction false} ForkKeepsInv(c: Config, start: Core, n: nat, s: State, step: Step)
    requires start.chain != [] && s.core.chain != [] && Inv(c, start, n, s)
    requires step.Fork?
    ensures Inv(c, start, n, Do(c, s, step))
  {
    hide Allowed, Apply, Replay, Flatten, ValidTxs, AtMost, DoCheck, DoAdd, DoInsert, DoIndex;
    var e := Forked(step.draw, step.commit);
    if PcOf(s, step.t).MaybeFork? && !s.crashed {
      if step.works && Allowed(c, s.core, e) {
        ReplayLog(c, start, n, s.log, e, s.core);
      }
      OwnerStep(c, start, n, s, step.t, Do(c, s, step));
    }
  }

  lemma {:induction false} CheckKeepsInv(c: Config, start: Core, n: nat, s: State, step: Step)
    requires WellFormed(start.chain) && s.core.chain != [] && Inv(c, start, n, s) && n >= 1
    requires step.ReadNonce? || step.Acquire? || step.Check? || step.ReadParent? ||
             step.CallbackFails? || step.NoFork? || step.Release?
    ensures Inv(c, start, n, Do(c, s, step))
  {
    hide Allowed, Apply, Replay, AtMost, DoAdd, DoInsert, DoIndex, DoFork;
    var pc, after := PcOf(s, step.t), Do(c, s, step);
    if after != s {
      assert Local(c, n, s.core, pc);
      if step.ReadParent? {
        ChainStaysValid(c, start, SerialLog(s));
        assert s.core.chain + [] == s.core.chain && Flatten(s.core.chain) + [] == Flatten(s.core.chain);
      }
      OwnerStep(c, start, n, s, step.t, after);
    }
  }

  lemma {:induction false} CallKeepsInv(c: Config, start: Core, n: nat, s: State, step: Step)
    requires start.chain != [] && s.core.chain != [] && Inv(c, start, n, s)
    requires step.Call? && SizeAtMost(step.op, n)
    ensures Inv(c, start, n, Do(c, s, step))
  {
    hide Allowed, Apply, Replay, Flatten, ValidTxs, AtMost, DoCheck, DoAdd, DoInsert, DoIndex, DoFork;
    var after := Do(c, s, step);
    forall u: Tid
      ensures Local(c, n, after.core, PcOf(after, u)) && (Critical(PcOf(after, u)) ==> Critical(PcOf(s, u)))
    {
      assert Local(c, n, s.core, PcOf(s, u));
    }
  }

  lemma {:induction false} StepKeepsInv(c: Config, start: Core, n: nat, s: State, step: Step)
    requires WellFormed(start.chain) && s.core.chain != [] && Inv(c, start, n, s) && n >= 1
    requires step.Call? ==> SizeAtMost(step.op, n)
    ensures Inv(c, start, n, Do(c, s, step))
  {
    var pc := PcOf(s, step.t);
    match step
    case Call(_, _) => CallKeepsInv(c, start, n, s, step);
    case ReadNonce(_, _, _, _) => CheckKeepsInv(c, start, n, s, step);
    case AddOwn(t) =>
      if Do(c, s, step) != s { AddKeepsInv(c, start, n, s, t, pc.ready.value, true); }
    case AddPooled(t, tx) =>
      if Do(c, s, step) != s { AddKeepsInv(c, start, n, s, t, tx, false); }
    case Seal(_) => SealKeepsInv(c, start, n, s, step);
    case Insert(t, inserted) =>
      if Do(c, s, step) != s { InsertKeepsInv(c, start, n, s, t, inserted); }
    case Index(_, _) => IndexKeepsInv(c, start, n, s, step);
    case Fork(_, _, _, _) => ForkKeepsInv(c, start, n, s, step);
    case _ => CheckKeepsInv(c, start, n, s, step);
  }

  /** Every interleaving is explained by a serial log: running the log's events one after the other, each
      allowed in its turn, gives exactly the chain and the statistics that the racing threads produced.
      The threads never hold the mutex together, and AddTx refuses no transaction that an operator built. */
  lemma {:induction false} EveryRunIsSerial(c: Config, start: Core, steps: seq<Step>, n: nat)
    requires WellFormed(start.chain) && CallsAtMost(steps, n) && n >= 1
    ensures Inv(c, start, n, After(c, Initial(start), steps))
  {
    if steps == [] {
      assert SerialLog(Initial(start)) == [];
    } else {
      EveryRunIsSerial(c, start, steps[..|steps| - 1], n);
      StepKeepsInv(c, start, n, After(c, Initial(start), steps[..|steps| - 1]), steps[|steps| - 1]);
    }
  }

  // ----- What this means for every reachable state -----

  function Size(steps: seq<Step>): (n: nat)
    ensures n >= 1 && CallsAtMost(steps, n)
  {
    if steps == [] then 1
    else
      var n, last := Size(steps[..|steps| - 1]), steps[|steps| - 1];
      assert forall i :: 0 <= i < |steps| - 1 ==> steps[i] == steps[..|steps| - 1][i];
      if last.Call? && last.op.Generate? && last.op.n > n then last.op.n else n
  }

  /** What a thread has read as the next nonce is still that when it adds its transaction. */
  lemma {:induction false} RacingThreadsKeepNonces(c: Config, start: Core, steps: seq<Step>)
    requires WellFormed(start.chain)
    ensures var s := After(c, Initial(start), steps);
            !s.refused && (forall a :: CountsUp(Flatten(s.core.chain), a)) &&
            forall t: Tid :: PcOf(s, t).Building? && PcOf(s, t).ready.Some? ==>
              PcOf(s, t).ready.value.nonce == NextNonce(Below(PcOf(s, t)), PcOf(s, t).ready.value.sender)
  {
    var s := After(c, Initial(start), steps);
    EveryRunIsSerial(c, start, steps, Size(steps));
    ChainStaysValid(c, start, SerialLog(s));
    forall t: Tid | PcOf(s, t).Building? && PcOf(s, t).ready.Some?
      ensures PcOf(s, t).ready.value.nonce == NextNonce(Below(PcOf(s, t)), PcOf(s, t).ready.value.sender)
    {
      assert Local(c, Size(steps), s.core, PcOf(s, t));
    }
  }

  /** The process dies of a pool transaction with a nonce other than its sender's next one, and of nothing else. */
  lemma {:induction false} CrashesExactly(c: Config, start: Core, steps: seq<Step>, step: Step)
    requires WellFormed(start.chain) && !After(c, Initial(start), steps).crashed
    ensures var s := After(c, Initial(start), steps); var pc := PcOf(s, step.t);
            Do(c, s, step).crashed <==>
            step.AddPooled? && pc.Building? && !pc.op.Generate? && |pc.sealed| < pc.n &&
            step.tx.nonce != NextNonce(Below(pc), step.tx.sender)
  {
    var s := After(c, Initial(start), steps);
    EveryRunIsSerial(c, start, steps, Size(steps));
    assert Local(c, Size(steps), s.core, PcOf(s, step.t));
    hide After, Allowed, Apply, Replay, Flatten, ValidTxs, AtMost, NextNonce, StatsAfter, LimitReached, Exclusive;
  }

  /** And then nothing happens any more. */
  lemma {:induction false} CrashIsFinal(c: Config, s: State, steps: seq<Step>)
    requires s.core.chain != [] && s.crashed
    ensures After(c, s, steps) == s
  {
    if steps != [] {
      CrashIsFinal(c, s, steps[..|steps| - 1]);
    }
  }

  lemma {:induction false} RacingThreadsKeepLimit(c: Config, start: Core, steps: seq<Step>, n: nat)
    requires WellFormed(start.chain) && c.maxBlockNum > 0 && CallsAtMost(steps, n) && n >= 1
    ensures Head(After(c, Initial(start), steps).core.chain) <= Max(Head(start.chain), c.maxBlockNum - 1 + n)
  {
    EveryRunIsSerial(c, start, steps, n);
    HeadWithinLimit(c, start, SerialLog(After(c, Initial(start), steps)), n);
  }

  lemma {:induction false} RacingThreadsKeepFirstBlocks(c: Config, start: Core, steps: seq<Step>)
    requires WellFormed(start.chain) && |start.chain| >= 2
    ensures var chain := After(c, Initial(start), steps).core.chain; |chain| >= 2 && chain[..2] == start.chain[..2]
  {
    EveryRunIsSerial(c, start, steps, Size(steps));
    FirstBlocksStay(c, start, SerialLog(After(c, Initial(start), steps)));
  }

  /** The statistics count exactly the blocks that calls of `GenerateBlocks`, `Mine` and `nextTick` have generated
      successfully, at every moment. */
  lemma {:induction false} RacingThreadsKeepAccounts(c: Config, start: Core, steps: seq<Step>)
    requires WellFormed(start.chain) && start.stats == Totals([])
    ensures var s := After(c, Initial(start), steps); s.core.stats == Totals(Returned(s.log))
  {
    var s := After(c, Initial(start), steps);
    EveryRunIsSerial(c, start, steps, Size(steps));
    StatsCountReturned(c, start, SerialLog(s));
    if s.holder.Some? && PcOf(s, s.holder.value).Inserted? {
      var blocks := PcOf(s, s.holder.value).blocks;
      PendingNotReturned(s.log, Generated(blocks, |blocks|, false));
    }
  }

  lemma {:induction false} PendingNotReturned(log: seq<Event>, e: Event)
    requires e.Generated? && !e.done
    ensures Returned(log + [e]) == Returned(log)
  {
    assert (log + [e])[..|log|] == log;
  }

  /** With one block per call, `PrintStatus` never prints a wrapped-around number of remaining blocks. */
  lemma {:induction false} RacingThreadsKeepStatus(c: Config, start: Core, steps: seq<Step>)
    requires WellFormed(start.chain) && start.stats == Totals([])
    requires 0 < c.maxBlockNum < TWO_64 && CallsAtMost(steps, 1)
    ensures var current := After(c, Initial(start), steps).core.stats.currentBlock;
            ToUint64(c.maxBlockNum - current) == c.maxBlockNum - current
  {
    hide After, Do, SerialLog, Local, Exclusive, Replay, Flatten, ToUint64, ValidTxs;
    var s := After(c, Initial(start), steps);
    EveryRunIsSerial(c, start, steps, 1);
    BlocksRemaining(c, start, SerialLog(s), 1);
  }

  /** The head is at most `CurrentBlock` at every moment, except between an insertion and the end of its indexing,
      and unless a generation has failed after inserting. */
  lemma {:induction false} RacingThreadsKeepHead(c: Config, start: Core, steps: seq<Step>)
    requires WellFormed(start.chain)
    ensures var s := After(c, Initial(start), steps);
            (forall t: Tid :: !PcOf(s, t).Inserted?) && NoLateFailure(s.log) && Returned(s.log) != [] ==>
            Head(s.core.chain) <= s.core.stats.currentBlock
  {
    EveryRunIsSerial(c, start, steps, Size(steps));
    var s := After(c, Initial(start), steps);
    HeadAtMostCurrent(c, start, SerialLog(s));
  }

  // ----- One thread and the others -----

  /** The threads of `SerialLog`. */
  function SerialBy(s: State): seq<Tid> {
    if s.holder.Some? && PcOf(s, s.holder.value).Inserted? then s.who + [s.holder.value] else s.who
  }

  lemma {:induction false} StepHasThread(c: Config, s: State, step: Step)
    requires s.core.chain != [] && |s.who| == |s.log|
    ensures |Do(c, s, step).who| == |Do(c, s, step).log|
  {
    hide Allowed, Apply, StatsAfter, Below, NextNonce, LimitReached;
  }

  lemma {:induction false} EveryEventHasThread(c: Config, s: State, steps: seq<Step>)
    requires s.core.chain != [] && |s.who| == |s.log|
    ensures |After(c, s, steps).who| == |After(c, s, steps).log|
  {
    if steps != [] {
      EveryEventHasThread(c, s, steps[..|steps| - 1]);
      StepHasThread(c, After(c, s, steps[..|steps| - 1]), steps[|steps| - 1]);
      hide Do;
    }
  }

  /** What a thread sees of a run in which no other thread forks: its own events, each allowed in its turn, and in
      between blocks of other threads that continue the chain. */
  lemma {:induction false} EveryThreadAlternates(c: Config, start: Core, steps: seq<Step>, t: Tid)
    requires WellFormed(start.chain)
    ensures var s := After(c, Initial(start), steps);
            var log, who := SerialLog(s), SerialBy(s);
            |log| == |who| &&
            (OnlyForks(log, who, t) ==>
               var (turns, rest) := TurnsOf(log, who, t);
               LeadTo(c, start.chain, turns, rest, s.core.chain) &&
               OwnEvents(turns) == EventsOf(log, who, t))
  {
    var s := After(c, Initial(start), steps);
    EveryEventHasThread(c, Initial(start), steps);
    EveryRunIsSerial(c, start, steps, Size(steps));
    hide After, Do, Local, Exclusive, Replay, TurnsOf, LeadTo, EventsOf, OwnEvents;
    if OnlyForks(SerialLog(s), SerialBy(s), t) {
      LogAlternates(c, start, SerialLog(s), SerialBy(s), t);
    }
  }

  // ----- Every serial log happens -----

  /** The calls of a run, in order, and by which thread. */
  function CallsOf(steps: seq<Step>): seq<(Tid, Op)> {
    if steps == [] then [] else CallsOf(steps[..|steps| - 1]) + Calls(steps[|steps| - 1])
  }

  function Calls(step: Step): seq<(Tid, Op)> {
    if step.Call? then [(step.t, step.op)] else []
  }

  /** Some run with just these calls leads from `s` to `target`. */
  ghost predicate Reaches(c: Config, s: State, target: State, calls: seq<(Tid, Op)>)
    requires s.core.chain != []
  {
    exists steps :: After(c, s, steps) == target && CallsOf(steps) == calls
  }

  lemma {:induction false} ReachesSelf(c: Config, s: State)
    requires s.core.chain != []
    ensures Reaches(c, s, s, [])
  {
    assert After(c, s, []) == s && CallsOf([]) == [];
  }

  lemma {:induction false} ReachesStep(
      c: Config, s: State, middle: State, calls: seq<(Tid, Op)>, step: Step)
    requires s.core.chain != [] && middle.core.chain != [] && Reaches(c, s, middle, calls)
    ensures Reaches(c, s, Do(c, middle, step), calls + Calls(step))
  {
    var steps :| After(c, s, steps) == middle && CallsOf(steps) == calls;
    hide Do;
    assert (steps + [step])[..|steps|] == steps;
    assert After(c, s, steps + [step]) == Do(c, middle, step) && CallsOf(steps + [step]) == calls + Calls(step);
  }

  lemma {:induction false} ReachesInside(
      c: Config, s: State, middle: State, calls: seq<(Tid, Op)>, step: Step)
    requires s.core.chain != [] && middle.core.chain != [] && Reaches(c, s, middle, calls) && !step.Call?
    ensures Reaches(c, s, Do(c, middle, step), calls)
  {
    assert calls + Calls(step) == calls;
    hide Reaches, Do;
    ReachesStep(c, s, middle, calls, step);
  }

  lemma {:induction false} OwnAddHappens(c: Config, s: State, t: Tid, pc: Pc, tx: Tx)
    requires s.core.chain != [] && !s.crashed && PcOf(s, t) == pc
    requires pc.Building? && pc.op.Generate? && |pc.sealed| < pc.n && pc.ready.None?
    requires tx.nonce == NextNonce(Below(pc), tx.sender)
    ensures Do(c, Do(c, s, ReadNonce(t, tx.sender, tx.gas, tx.call)), AddOwn(t)) ==
            Go(s, t, pc.(open := pc.open + [tx]))
  {
    var ready := Go(s, t, pc.(ready := Some(tx)));
    assert Do(c, s, ReadNonce(t, tx.sender, tx.gas, tx.call)) == ready;
    assert Below(PcOf(ready, t)) == Below(pc);
    assert ready.pcs[t := pc.(open := pc.open + [tx])] == s.pcs[t := pc.(open := pc.open + [tx])];
  }

  lemma {:induction false} PooledAddHappens(c: Config, s: State, t: Tid, pc: Pc, tx: Tx)
    requires s.core.chain != [] && !s.crashed && PcOf(s, t) == pc
    requires pc.Building? && !pc.op.Generate? && |pc.sealed| < pc.n && pc.ready.None?
    requires tx.nonce == NextNonce(Below(pc), tx.sender)
    ensures Do(c, s, AddPooled(t, tx)) == Go(s, t, pc.(open := pc.open + [tx]))
  {
    assert pc.(open := pc.open + [tx], ready := None) == pc.(open := pc.open + [tx]);
  }

  /** A transaction with its sender's next nonce can be added, by an operator or from the pool. */
  lemma {:induction false} AddHappens(
      c: Config, s: State, from: State, calls: seq<(Tid, Op)>, t: Tid, pc: Pc, tx: Tx)
    requires s.core.chain != [] && from.core.chain != [] && !s.crashed && PcOf(s, t) == pc
    requires pc.Building? && |pc.sealed| < pc.n && pc.ready.None? && tx.nonce == NextNonce(Below(pc), tx.sender)
    requires Reaches(c, from, s, calls)
    ensures Reaches(c, from, Go(s, t, pc.(open := pc.open + [tx])), calls)
  {
    if pc.op.Generate? {
      OwnAddHappens(c, s, t, pc, tx);
      hide Do, Go, Below, NextNonce, Reaches, PcOf;
      ReachesInside(c, from, s, calls, ReadNonce(t, tx.sender, tx.gas, tx.call));
      ReachesInside(c, from, Do(c, s, ReadNonce(t, tx.sender, tx.gas, tx.call)), calls, AddOwn(t));
    } else {
      PooledAddHappens(c, s, t, pc, tx);
      hide Do, Go, Below, NextNonce, Reaches, PcOf;
      ReachesInside(c, from, s, calls, AddPooled(t, tx));
    }
  }

  lemma {:induction false} AddsSplit(pc: Pc, txs: seq<Tx>)
    requires pc.Building? && txs != [] && ValidTxs(Below(pc) + txs)
    ensures var init, tx, before := txs[..|txs| - 1], txs[|txs| - 1], pc.(open := pc.open + txs[..|txs| - 1]);
            ValidTxs(Below(pc) + init) && tx.nonce == NextNonce(Below(before), tx.sender) &&
            before.(open := before.open + [tx]) == pc.(open := pc.open + txs)
  {
    var init, tx := txs[..|txs| - 1], txs[|txs| - 1];
    assert Below(pc.(open := pc.open + init)) == Below(pc) + init;
    hide Below, Flatten;
    assert Below(pc) + txs == Below(pc) + init + [tx];
    ValidSnoc(Below(pc) + init, tx);
    hide ValidTxs, NextNonce;
    assert pc.open + init + [tx] == pc.open + txs;
  }

  lemma {:induction false} GoTwice(s: State, t: Tid, a: Pc, b: Pc)
    ensures Go(Go(s, t, a), t, b) == Go(s, t, b) && PcOf(Go(s, t, a), t) == a
    ensures t in s.pcs && s.pcs[t] == a ==> Go(s, t, a) == s
  {
    assert s.pcs[t := a][t := b] == s.pcs[t := b];
    assert t in s.pcs && s.pcs[t] == a ==> s.pcs[t := a] == s.pcs;
  }

  /** A thread can add any transactions that are valid on top of what it has built so far. */
  lemma {:induction false} AddsHappen(
      c: Config, s: State, from: State, calls: seq<(Tid, Op)>, t: Tid, pc: Pc, txs: seq<Tx>)
    requires s.core.chain != [] && from.core.chain != [] && !s.crashed && t in s.pcs && s.pcs[t] == pc
    requires pc.Building? && |pc.sealed| < pc.n && pc.ready.None?
    requires ValidTxs(Below(pc) + txs) && Reaches(c, from, s, calls)
    ensures Reaches(c, from, Go(s, t, pc.(open := pc.open + txs)), calls)
  {
    GoTwice(s, t, pc, pc);
    if txs == [] {
      assert pc.open + txs == pc.open;
    } else {
      var init, tx := txs[..|txs| - 1], txs[|txs| - 1];
      var before := pc.(open := pc.open + init);
      hide Do, Go, Below, ValidTxs, NextNonce, Reaches, PcOf;
      AddsSplit(pc, txs);
      AddsHappen(c, s, from, calls, t, pc, init);
      GoTwice(s, t, before, pc.(open := pc.open + txs));
      GoKeeps(s, t, before);
      AddHappens(c, Go(s, t, before), from, calls, t, before, tx);
    }
  }

  lemma {:induction false} GoKeeps(s: State, t: Tid, pc: Pc)
    ensures Go(s, t, pc).core == s.core && Go(s, t, pc).crashed == s.crashed
  {
  }

  lemma {:induction false} SealHappens(c: Config, s: State, t: Tid, pc: Pc)
    requires s.core.chain != [] && !s.crashed && PcOf(s, t) == pc
    requires pc.Building? && |pc.sealed| < pc.n && pc.ready.None?
    ensures Do(c, s, Seal(t)) ==
            Go(s, t, pc.(sealed := pc.sealed + [Block(|pc.parent| + |pc.sealed|, pc.open)], open := []))
  {
  }

  lemma {:induction false} BlocksSplit(parent: seq<Block>, blocks: seq<Block>)
    requires blocks != [] && Continues(parent, blocks)
    ensures var init, b := blocks[..|blocks| - 1], blocks[|blocks| - 1];
            Continues(parent, init) && ValidTxs(Flatten(parent + init) + b.txs) && b.number == |parent| + |init| &&
            init + [b] == blocks
  {
    var init, b := blocks[..|blocks| - 1], blocks[|blocks| - 1];
    ContinuesPrefix(parent, blocks, |blocks| - 1);
    assert parent + blocks == (parent + init) + [b];
    FlattenSnoc(parent + init, b);
  }

  lemma {:induction false} SealAfterAdds(c: Config, s: State, t: Tid, pc: Pc, b: Block)
    requires s.core.chain != [] && !s.crashed && pc.Building? && |pc.sealed| < pc.n && pc.open == [] && pc.ready.None?
    requires b.number == |pc.parent| + |pc.sealed|
    ensures var full := Go(s, t, pc.(open := b.txs));
            full.core == s.core && Do(c, full, Seal(t)) == Go(s, t, pc.(sealed := pc.sealed + [b]))
  {
    var full := pc.(open := b.txs);
    GoTwice(s, t, full, pc.(sealed := pc.sealed + [b]));
    GoKeeps(s, t, full);
    SealHappens(c, Go(s, t, full), t, full);
    hide Do, Go, PcOf;
  }

  lemma {:induction false} BlockHappens(
      c: Config, s: State, from: State, calls: seq<(Tid, Op)>, t: Tid, pc: Pc, b: Block)
    requires s.core.chain != [] && from.core.chain != [] && !s.crashed && t in s.pcs && s.pcs[t] == pc
    requires pc.Building? && |pc.sealed| < pc.n && pc.open == [] && pc.ready.None?
    requires b.number == |pc.parent| + |pc.sealed| && ValidTxs(Below(pc) + b.txs) && Reaches(c, from, s, calls)
    ensures Reaches(c, from, Go(s, t, pc.(sealed := pc.sealed + [b])), calls)
  {
    var full, next := pc.(open := b.txs), pc.(sealed := pc.sealed + [b]);
    SealAfterAdds(c, s, t, pc, b);
    hide Do, Go, Below, ValidTxs, Reaches, PcOf, NextNonce;
    assert [] + b.txs == b.txs;
    AddsHappen(c, s, from, calls, t, pc, b.txs);
    ReachesInside(c, from, Go(s, t, full), calls, Seal(t));
  }

  /** A thread can build any blocks that continue the chain. */
  lemma {:induction false} BlocksHappen(
      c: Config, s: State, from: State, calls: seq<(Tid, Op)>, t: Tid, pc: Pc, blocks: seq<Block>)
    requires s.core.chain != [] && from.core.chain != [] && !s.crashed && t in s.pcs && s.pcs[t] == pc
    requires pc.Building? && pc.sealed == [] && pc.open == [] && pc.ready.None? && |blocks| <= pc.n
    requires Continues(pc.parent, blocks) && Reaches(c, from, s, calls)
    ensures Reaches(c, from, Go(s, t, pc.(sealed := blocks)), calls)
  {
    GoTwice(s, t, pc, pc);
    if blocks != [] {
      var init, b := blocks[..|blocks| - 1], blocks[|blocks| - 1];
      var middle := Go(s, t, pc.(sealed := init));
      assert t in middle.pcs && middle.pcs[t] == pc.(sealed := init);
      assert middle.core == s.core && middle.crashed == s.crashed;
      assert Below(pc.(sealed := init)) == Flatten(pc.parent + init);
      BlocksSplit(pc.parent, blocks);
      hide Do, Go, Below, ValidTxs, Reaches, PcOf, Continues, Flatten;
      BlocksHappen(c, s, from, calls, t, pc, init);
      BlockHappens(c, middle, from, calls, t, pc.(sealed := init), b);
      GoTwice(s, t, pc.(sealed := init), pc.(sealed := blocks));
    }
  }

  /** Nobody holds the mutex or waits for it. */
  ghost predicate Quiet(s: State) {
    !s.crashed && s.holder.None? && forall t: Tid :: PcOf(s, t).Idle?
  }

  /** All threads but `t` are idle. */
  ghost predicate Alone(s: State, t: Tid) {
    !s.crashed && s.holder == Some(t) && t in s.pcs && forall u: Tid :: u != t ==> PcOf(s, u).Idle?
  }

  lemma {:induction false} AloneGoes(s: State, t: Tid, pc: Pc)
    requires Alone(s, t)
    ensures Alone(Go(s, t, pc), t) && Go(s, t, pc).pcs[t] == pc
  {
    forall u: Tid | u != t ensures PcOf(Go(s, t, pc), u).Idle? {
      assert PcOf(s, u).Idle?;
    }
  }

  lemma {:induction false} AcquireHappens(
      c: Config, from: State, s: State, calls: seq<(Tid, Op)>, t: Tid, op: Op) returns (r: State)
    requires from.core.chain != [] && s.core.chain != [] && Reaches(c, from, s, calls) && Quiet(s)
    ensures Reaches(c, from, r, calls + [(t, op)]) && r == s.(holder := Some(t), pcs := s.pcs[t := Checking(op)])
    ensures Alone(r, t)
  {
    assert PcOf(s, t).Idle?;
    var called := Go(s, t, Want(op));
    assert Do(c, s, Call(t, op)) == called;
    r := Do(c, called, Acquire(t));
    assert s.pcs[t := Want(op)][t := Checking(op)] == s.pcs[t := Checking(op)];
    forall u: Tid | u != t ensures PcOf(r, u).Idle? {
      assert PcOf(s, u).Idle?;
    }
    assert Calls(Call(t, op)) == [(t, op)];
    hide Reaches, Do;
    ReachesStep(c, from, s, calls, Call(t, op));
    ReachesInside(c, from, called, calls + [(t, op)], Acquire(t));
  }

  lemma {:induction false} ReleaseHappens(
      c: Config, from: State, s: State, calls: seq<(Tid, Op)>, t: Tid) returns (r: State)
    requires from.core.chain != [] && s.core.chain != [] && Reaches(c, from, s, calls)
    requires Alone(s, t) && s.pcs[t].Releasing?
    ensures Reaches(c, from, r, calls) && r.core == s.core && r.log == s.log && r.who == s.who && Quiet(r)
  {
    r := Do(c, s, Release(t));
    forall u: Tid ensures PcOf(r, u).Idle? {
      assert u != t ==> PcOf(s, u).Idle?;
    }
    ReachesInside(c, from, s, calls, Release(t));
  }

  /** After its generation a call can come to its end; a tick need not fork. */
  lemma {:induction false} ReturnHappens(
      c: Config, from: State, s: State, calls: seq<(Tid, Op)>, t: Tid, op: Op) returns (r: State)
    requires from.core.chain != [] && s.core.chain != [] && Reaches(c, from, s, calls)
    requires Alone(s, t) && s.pcs[t] == AfterGenerate(op)
    ensures Reaches(c, from, r, calls) && r.core == s.core && r.log == s.log && r.who == s.who && Quiet(r)
  {
    if op.Tick? {
      assert Do(c, s, NoFork(t)) == Go(s, t, Releasing);
      GoKeeps(s, t, Releasing);
      AloneGoes(s, t, Releasing);
      hide Reaches, Do, Alone;
      ReachesInside(c, from, s, calls, NoFork(t));
      r := ReleaseHappens(c, from, Go(s, t, Releasing), calls, t);
    } else {
      r := ReleaseHappens(c, from, s, calls, t);
    }
  }

  /** How many blocks a call generates. */
  predicate Asks(op: Op, n: nat) {
    n >= 1 && if op.Generate? then op.n == n else n == 1
  }

  lemma {:induction false} CallHappens(
      c: Config, from: State, s: State, calls: seq<(Tid, Op)>, t: Tid, op: Op, n: nat) returns (r: State)
    requires from.core.chain != [] && s.core.chain != [] && Reaches(c, from, s, calls)
    requires Quiet(s) && Asks(op, n) && !LimitReached(c, Head(s.core.chain))
    ensures Reaches(c, from, r, calls + [(t, op)]) && r.core == s.core && r.log == s.log && r.who == s.who
    ensures Alone(r, t) && r.pcs[t] == Building(op, n, s.core.chain, [], [], None)
  {
    var held := AcquireHappens(c, from, s, calls, t, op);
    var pc := Building(op, n, s.core.chain, [], [], None);
    var checked := Go(held, t, Checked(op, n));
    assert Do(c, held, Check(t, false)) == checked;
    AloneGoes(held, t, Checked(op, n));
    r := Go(checked, t, pc);
    assert Do(c, checked, ReadParent(t)) == r;
    AloneGoes(checked, t, pc);
    hide Reaches, Do, Alone, Quiet;
    ReachesInside(c, from, held, calls + [(t, op)], Check(t, false));
    ReachesInside(c, from, checked, calls + [(t, op)], ReadParent(t));
  }

  lemma {:induction false} IndexHappens(
      c: Config, from: State, s: State, calls: seq<(Tid, Op)>, t: Tid, op: Op, e: Event) returns (r: State)
    requires from.core.chain != [] && s.core.chain != [] && Reaches(c, from, s, calls)
    requires Alone(s, t) && e.Generated? && e.blocks != [] && s.pcs[t] == Inserted(op, e.blocks)
    ensures Reaches(c, from, r, calls) && Alone(r, t) && r.pcs[t] == AfterGenerate(op)
    ensures r.log == s.log + [Generated(e.blocks, |e.blocks|, e.done)] && r.who == s.who + [t]
    ensures r.core == if e.done then s.core.(stats := StatsAfter(s.core.stats, e.blocks)) else s.core
  {
    r := Do(c, s, Index(t, e.done));
    hide StatsAfter;
    forall u: Tid | u != t ensures PcOf(r, u).Idle? {
      assert PcOf(s, u).Idle?;
    }
    ReachesInside(c, from, s, calls, Index(t, e.done));
  }

  lemma {:induction false} InsertHappens(
      c: Config, from: State, s: State, calls: seq<(Tid, Op)>, t: Tid, op: Op, e: Event) returns (r: State)
    requires from.core.chain != [] && s.core.chain != [] && Reaches(c, from, s, calls)
    requires Alone(s, t) && e.Generated? && Allowed(c, s.core, e)
    requires s.pcs[t] == Building(op, |e.blocks|, s.core.chain, e.blocks, [], None)
    ensures Reaches(c, from, r, calls) && r.core == Apply(c, s.core, e)
    ensures r.log == s.log + [e] && r.who == s.who + [t] && Quiet(r)
  {
    assert e.blocks[..|e.blocks|] == e.blocks;
    var inserted := DoInsert(s, t, PcOf(s, t), e.inserted);
    assert Do(c, s, Insert(t, e.inserted)) == inserted;
    forall u: Tid | u != t ensures PcOf(inserted, u).Idle? {
      assert PcOf(s, u).Idle?;
    }
    hide Reaches, Do, StatsAfter, Continues;
    ReachesInside(c, from, s, calls, Insert(t, e.inserted));
    if e.inserted == |e.blocks| {
      var indexed := IndexHappens(c, from, inserted, calls, t, op, e);
      r := ReturnHappens(c, from, indexed, calls, t, op);
    } else {
      r := ReturnHappens(c, from, inserted, calls, t, op);
    }
  }

  /** Any generation that is allowed happens, by any call for as many blocks, of any thread. */
  lemma {:induction false} GenerationHappens(
      c: Config, from: State, s: State, calls: seq<(Tid, Op)>, t: Tid, op: Op, e: Event) returns (r: State)
    requires from.core.chain != [] && s.core.chain != [] && Reaches(c, from, s, calls)
    requires Quiet(s) && e.Generated? && Allowed(c, s.core, e) && Asks(op, |e.blocks|)
    ensures Reaches(c, from, r, calls + [(t, op)]) && r.core == Apply(c, s.core, e)
    ensures r.log == s.log + [e] && r.who == s.who + [t] && Quiet(r)
  {
    var open := CallHappens(c, from, s, calls, t, op, |e.blocks|);
    var pc := open.pcs[t];
    AloneGoes(open, t, pc.(sealed := e.blocks));
    assert !open.crashed && t in open.pcs;
    hide Reaches, Do, Below, Apply, Alone, Quiet;
    BlocksHappen(c, open, from, calls + [(t, op)], t, pc, e.blocks);
    r := InsertHappens(c, from, Go(open, t, pc.(sealed := e.blocks)), calls + [(t, op)], t, op, e);
  }

  lemma {:induction false} ForkHappens(
      c: Config, from: State, s: State, calls: seq<(Tid, Op)>, t: Tid, e: Event) returns (r: State)
    requires from.core.chain != [] && s.core.chain != [] && Reaches(c, from, s, calls)
    requires Quiet(s) && e.Forked? && Allowed(c, s.core, e)
    ensures Reaches(c, from, r, calls + [(t, Tick)]) && r.core == Apply(c, s.core, e)
    ensures r.log == s.log + [e] && r.who == s.who + [t] && Quiet(r)
  {
    var held := AcquireHappens(c, from, s, calls, t, Tick);
    var checked := Go(held, t, MaybeFork);
    assert Do(c, held, Check(t, true)) == checked;
    AloneGoes(held, t, MaybeFork);
    var forked := DoFork(c, checked, t, e, true);
    assert Do(c, checked, Fork(t, e.draw, true, e.commit)) == forked;
    forall u: Tid | u != t ensures PcOf(forked, u).Idle? {
      assert PcOf(checked, u).Idle?;
    }
    assert Alone(forked, t);
    hide Reaches, Do, Allowed, Apply, Alone, Quiet;
    ReachesInside(c, from, held, calls + [(t, Tick)], Check(t, true));
    ReachesInside(c, from, checked, calls + [(t, Tick)], Fork(t, e.draw, true, e.commit));
    r := ReleaseHappens(c, from, forked, calls + [(t, Tick)], t);
  }

  /** The call that brings the event about: a fork needs a tick; a generation of one block can be one too. */
  function CallFor(e: Event, ticks: bool): Op {
    if ticks || e.Forked? then Tick else Generate(|e.blocks|)
  }

  function CallsFor(log: seq<Event>, who: seq<Tid>, ticks: bool): seq<(Tid, Op)>
    requires |log| == |who|
  {
    if log == [] then []
    else CallsFor(log[..|log| - 1], who[..|log| - 1], ticks) + [(who[|log| - 1], CallFor(log[|log| - 1], ticks))]
  }

  lemma {:induction false} LogHappens(c: Config, start: Core, log: seq<Event>, who: seq<Tid>, ticks: bool)
    returns (r: State)
    requires start.chain != [] && Replay(c, start, log).Some? && |log| == |who| && (ticks ==> AtMost(log, 1))
    ensures Reaches(c, Initial(start), r, CallsFor(log, who, ticks)) && Quiet(r)
    ensures Some(r.core) == Replay(c, start, log) && r.log == log && r.who == who
  {
    if log == [] {
      r := Initial(start);
      ReachesSelf(c, r);
    } else {
      var k := |log| - 1;
      var e, calls := log[k], CallsFor(log[..k], who[..k], ticks);
      assert log == log[..k] + [e] && who == who[..k] + [who[k]];
      ReplaySnoc(c, start, log[..k], e);
      assert CallsFor(log, who, ticks) == calls + [(who[k], CallFor(e, ticks))];
      assert e.Generated? && Replay(c, start, log[..k]).Some? && Allowed(c, Replay(c, start, log[..k]).value, e) ==>
        Asks(CallFor(e, ticks), |e.blocks|);
      hide Reaches, CallsFor, Asks, Allowed, Apply, Replay, Quiet;
      var before := LogHappens(c, start, log[..k], who[..k], ticks);
      if e.Generated? {
        r := GenerationHappens(c, Initial(start), before, calls, who[k], CallFor(e, ticks), e);
      } else {
        r := ForkHappens(c, Initial(start), before, calls, who[k], e);
      }
    }
  }

  /** The converse of `EveryRunIsSerial`: every log of serial events, each allowed in its turn and by whatever thread,
      is what some run of the threads does, with exactly its chain and statistics. One call for each event is enough. */
  lemma {:induction false} EverySerialLogHappens(c: Config, start: Core, log: seq<Event>, who: seq<Tid>)
    requires start.chain != [] && Replay(c, start, log).Some? && |log| == |who|
    ensures exists steps :: CallsOf(steps) == CallsFor(log, who, false) &&
              var s := After(c, Initial(start), steps);
              Some(s.core) == Replay(c, start, log) && s.log == log && s.who == who && s.holder.None?
  {
    var r := LogHappens(c, start, log, who, false);
    var steps :| After(c, Initial(start), steps) == r && CallsOf(steps) == CallsFor(log, who, false);
  }

  /** The automatic miner alone can do everything that takes one block at a time: every log of forks and of generations
      of one block is what some run does in which all calls are ticks, one for each event. */
  lemma {:induction false} EveryTickLogHappens(c: Config, start: Core, log: seq<Event>, who: seq<Tid>)
    requires start.chain != [] && Replay(c, start, log).Some? && |log| == |who| && AtMost(log, 1)
    ensures exists steps :: |CallsOf(steps)| == |log| &&
              (forall i :: 0 <= i < |log| ==> CallsOf(steps)[i] == (who[i], Tick)) &&
              var s := After(c, Initial(start), steps);
              Some(s.core) == Replay(c, start, log) && s.log == log && s.who == who && s.holder.None?
  {
    var r := LogHappens(c, start, log, who, true);
    var steps :| After(c, Initial(start), steps) == r && CallsOf(steps) == CallsFor(log, who, true);
    hide After, CallsOf, Replay;
    AllTicks(log, who);
  }

  lemma {:induction false} AllTicks(log: seq<Event>, who: seq<Tid>)
    requires |log| == |who|
    ensures |CallsFor(log, who, true)| == |log|
    ensures forall i :: 0 <= i < |log| ==> CallsFor(log, who, true)[i] == (who[i], Tick)
  {
    if log != [] {
      AllTicks(log[..|log| - 1], who[..|log| - 1]);
    }
  }

  /** Below the limit, a single `Mine` or a single tick puts any transactions that continue the chain on it as one
      block, and counts that block. */
  lemma {:induction false} OneCallMines(c: Config, start: Core, t: Tid, op: Op, txs: seq<Tx>)
    requires WellFormed(start.chain) && !op.Generate? && ValidTxs(Flatten(start.chain) + txs)
    requires c.maxBlockNum == 0 || Head(start.chain) < c.maxBlockNum
    ensures var e := Generated([Block(|start.chain|, txs)], 1, true);
            Allowed(c, start, e) &&
            exists steps :: CallsOf(steps) == [(t, op)] && After(c, Initial(start), steps).core == Apply(c, start, e)
  {
    var e := Generated([Block(|start.chain|, txs)], 1, true);
    FlattenSnoc(start.chain, e.blocks[0]);
    ReachesSelf(c, Initial(start));
    assert [] + [(t, op)] == [(t, op)];
    var r := GenerationHappens(c, Initial(start), Initial(start), [], t, op, e);
    var steps :| After(c, Initial(start), steps) == r && CallsOf(steps) == [(t, op)];
  }
}
