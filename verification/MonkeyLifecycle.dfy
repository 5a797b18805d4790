/**
 Run and Stop of one monkey operator and the goroutines that Run starts, called by any number of threads at
 the same time. As in module Interleaving, a run is a sequence of step labels, and a label that is
 not possible when its turn comes changes nothing.
 */
module MonkeyLifecycle {
  type Tid = nat

  datatype Pc =
    | Idle
    | RunChecked | RunStored                  // running was false, then set to true
    | Looping | LoopLeft | LoopCleared | Dead // a goroutine: its loop, its deferred function, its end
    | StopWaiting

  datatype Fields = Fields(
    running: bool,
    stopClosed: bool, doneClosed: bool,       // the two channels
    onceDone: bool,
    panicked: bool,                           // a channel was closed for the second time
    // history: Runs that passed the check, goroutines started and ended, whether a Stop has returned nil
    passed: nat, born: set<Tid>, dead: set<Tid>, stopped: bool)

  datatype State = State(f: Fields, pcs: map<Tid, Pc>)   // absent: Idle

  datatype Step =
    | RunCheck(t: Tid) | RunStore(t: Tid) | RunInitializeFails(t: Tid) | RunGo(t: Tid, child: Tid)
    | LoopLeaves(t: Tid) | LoopClears(t: Tid) | LoopCloses(t: Tid)
    | StopOnce(t: Tid) | StopReturns(t: Tid) | StopTimesOut(t: Tid)

  const CREATED := State(Fields(false, false, false, false, false, 0, {}, {}, false), map[])

  function PcOf(s: State, t: Tid): Pc {
    if t in s.pcs then s.pcs[t] else Idle
  }

  /** What a thread at `pc` does to the fields, and where it goes. */
  function Act(f: Fields, pc: Pc, step: Step): (Fields, Pc) {
    if f.panicked then (f, pc)
    else match step
    case RunCheck(_) =>
      if pc.Idle? && !f.running then (f.(passed := f.passed + 1), RunChecked) else (f, pc)
    case RunStore(_) => if pc.RunChecked? then (f.(running := true), RunStored) else (f, pc)
    case RunInitializeFails(_) => if pc.RunStored? then (f.(running := false), Idle) else (f, pc)
    case RunGo(_, child) => if pc.RunStored? then (f.(born := f.born + {child}), Idle) else (f, pc)
    case LoopLeaves(_) => (f, if pc.Looping? then LoopLeft else pc)
    case LoopClears(_) => if pc.LoopLeft? then (f.(running := false), LoopCleared) else (f, pc)
    case LoopCloses(t) =>
      if pc.LoopCleared?
      then (f.(panicked := f.doneClosed, doneClosed := true, dead := f.dead + {t}), Dead) else (f, pc)
    case StopOnce(_) =>
      if !pc.Idle? then (f, pc)
      else if f.onceDone then (f, StopWaiting)
      else (f.(panicked := f.stopClosed, stopClosed := true, onceDone := true), StopWaiting)
    case StopReturns(_) => if pc.StopWaiting? && f.doneClosed then (f.(stopped := true), Idle) else (f, pc)
    case StopTimesOut(_) => (f, if pc.StopWaiting? then Idle else pc)
  }

  /** A goroutine gets a thread of its own. */
  predicate Possible(s: State, step: Step) {
    step.RunGo? ==> step.child != step.t && PcOf(s, step.child).Idle?
  }

  function Do(s: State, step: Step): State {
    if !Possible(s, step) then s
    else
      var (f, next) := Act(s.f, PcOf(s, step.t), step);
      var pcs := s.pcs[step.t := next];
      State(f, if step.RunGo? && f.born != s.f.born then pcs[step.child := Looping] else pcs)
  }

  function After(s: State, steps: seq<Step>): State {
    if steps == [] then s else Do(After(s, steps[..|steps| - 1]), steps[|steps| - 1])
  }

  // ----- The invariant -----

  predicate InRun(pc: Pc) {
    pc.RunChecked? || pc.RunStored?
  }

  predicate InLoop(pc: Pc) {
    pc.Looping? || pc.LoopLeft? || pc.LoopCleared?
  }

  /** The threads that account for `running`. */
  predicate Active(pc: Pc) {
    pc.RunStored? || pc.Looping? || pc.LoopLeft?
  }

  /** What holds of the fields. */
  predicate Shared(f: Fields) {
    f.dead <= f.born && (f.doneClosed <==> f.dead != {}) && (f.stopClosed <==> f.onceDone) &&
    (f.panicked <==> |f.dead| >= 2) && (f.stopped ==> f.doneClosed)
  }

  /** What holds for a thread `t` at `pc`. */
  predicate Local(f: Fields, t: Tid, pc: Pc) {
    (InLoop(pc) || pc.Dead? <==> t in f.born) && (pc.Dead? <==> t in f.dead)
  }

  ghost predicate Inv(s: State) {
    Shared(s.f) && (forall t: Tid :: Local(s.f, t, PcOf(s, t))) &&
    (s.f.running ==> exists t: Tid :: Active(PcOf(s, t)))
  }

  lemma {:induction false} TwoElements(s: set<Tid>, t: Tid)
    requires t !in s && s != {}
    ensures |s + {t}| >= 2
  {
    var u :| u in s;
    assert s + {t} == s - {u} + {u} + {t};
  }

  lemma {:induction false} OneElement(s: set<Tid>, d: set<Tid>, t: Tid)
    requires |s| <= 1 && d <= s && t in s && t !in d
    ensures d == {}
  {
    if u :| u in d {
      TwoElements({u}, t);
      assert {u} + {t} <= s;
      Cardinality({u} + {t}, s);
    }
  }

  lemma {:induction false} Cardinality(a: set<Tid>, b: set<Tid>)
    requires a <= b
    ensures |a| <= |b|
  {
    assert b == a + (b - a);
  }

  lemma {:induction false} ActKeepsFields(f: Fields, pc: Pc, step: Step)
    requires Shared(f) && Local(f, step.t, pc)
    requires step.RunGo? ==> step.child !in f.born
    ensures Shared(Act(f, pc, step).0)
  {
    if step.LoopCloses? && pc.LoopCleared? {
      if f.dead != {} {
        TwoElements(f.dead, step.t);
      } else {
        assert f.dead + {step.t} == {step.t};
      }
    }
  }

  lemma {:induction false} ActKeepsOwn(f: Fields, pc: Pc, step: Step)
    requires Shared(f) && Local(f, step.t, pc)
    requires step.RunGo? ==> step.child != step.t
    ensures Local(Act(f, pc, step).0, step.t, Act(f, pc, step).1)
  {
  }

  lemma {:induction false} ActKeepsOthers(f: Fields, pc: Pc, step: Step, u: Tid, other: Pc)
    requires Shared(f) && Local(f, step.t, pc) && u != step.t && Local(f, u, other)
    requires step.RunGo? ==> step.child != step.t && (u == step.child ==> other.Idle?)
    ensures var after := Act(f, pc, step).0;
            Local(after, u, if step.RunGo? && after.born != f.born && u == step.child then Looping else other)
  {
  }

  lemma {:induction false} RunningIsAccounted(s: State, step: Step)
    requires Possible(s, step) && (step.RunGo? ==> step.child !in s.f.born)
    requires s.f.running ==> exists t: Tid :: Active(PcOf(s, t))
    ensures var after := Do(s, step); after.f.running ==> exists t: Tid :: Active(PcOf(after, t))
  {
    var after := Do(s, step);
    if after.f.running && !Active(PcOf(after, step.t)) {
      if step.RunGo? && PcOf(s, step.t).RunStored? && !s.f.panicked {
        assert after.f.born != s.f.born && Active(PcOf(after, step.child));
      } else {
        var u: Tid :| Active(PcOf(s, u));
        assert u != step.t && PcOf(after, u) == PcOf(s, u);
      }
    }
  }

  lemma {:induction false} StepKeepsInv(s: State, step: Step)
    requires Inv(s)
    ensures Inv(Do(s, step))
  {
    if Possible(s, step) {
      var pc := PcOf(s, step.t);
      assert Local(s.f, step.t, pc);
      assert step.RunGo? ==> Local(s.f, step.child, PcOf(s, step.child));
      ActKeepsFields(s.f, pc, step);
      ActKeepsOwn(s.f, pc, step);
      var after := Do(s, step);
      forall u: Tid ensures Local(after.f, u, PcOf(after, u)) {
        if u != step.t {
          assert Local(s.f, u, PcOf(s, u));
          ActKeepsOthers(s.f, pc, step, u, PcOf(s, u));
        }
      }
      RunningIsAccounted(s, step);
    }
  }

  lemma {:induction false} InvStays(s: State, more: seq<Step>)
    requires Inv(s)
    ensures Inv(After(s, more))
  {
    if more != [] {
      InvStays(s, more[..|more| - 1]);
      StepKeepsInv(After(s, more[..|more| - 1]), more[|more| - 1]);
    }
  }

  lemma {:induction false} EveryRunKeepsInv(steps: seq<Step>)
    ensures Inv(After(CREATED, steps))
  {
    InvStays(CREATED, steps);
  }

  // ----- What this means -----

  /** stopCh is closed once at most. doneCh is closed twice if and only if the goroutines of two successful Runs of
      the same operator have come to their end. */
  lemma {:induction false} ChannelsClosedOnce(steps: seq<Step>)
    ensures var f := After(CREATED, steps).f;
            |f.dead| <= |f.born| && (f.panicked <==> |f.dead| >= 2)
  {
    EveryRunKeepsInv(steps);
    var f := After(CREATED, steps).f;
    Cardinality(f.dead, f.born);
  }

  lemma {:induction false} StoppedStays(s: State, more: seq<Step>)
    requires s.f.stopped
    ensures After(s, more).f.stopped
  {
    if more != [] {
      StoppedStays(s, more[..|more| - 1]);
    }
  }

  lemma {:induction false} PassedGrows(s: State, more: seq<Step>)
    ensures s.f.passed <= After(s, more).f.passed
  {
    if more != [] {
      PassedGrows(s, more[..|more| - 1]);
    }
  }

  /** No thread is between Run's check and the start of its goroutine. */
  ghost predicate NoRun(s: State) {
    forall t: Tid :: !InRun(PcOf(s, t))
  }

  lemma {:induction false} NoRunStays(s: State, more: seq<Step>)
    requires NoRun(s) && After(s, more).f.passed == s.f.passed
    ensures NoRun(After(s, more)) && After(s, more).f.born == s.f.born
  {
    if more != [] {
      var before, step := After(s, more[..|more| - 1]), more[|more| - 1];
      PassedGrows(s, more[..|more| - 1]);
      NoRunStays(s, more[..|more| - 1]);
      assert !InRun(PcOf(before, step.t));
      forall t: Tid ensures !InRun(PcOf(Do(before, step), t)) {
        assert !InRun(PcOf(before, t));
      }
    }
  }

  lemma {:induction false} OnlyRunsAreActive(s: State)
    requires Inv(s) && s.f.stopped && |s.f.born| <= 1 && s.f.running
    ensures exists t: Tid :: PcOf(s, t).RunStored?
  {
    var t: Tid :| Active(PcOf(s, t));
    assert Local(s.f, t, PcOf(s, t));
    if !PcOf(s, t).RunStored? {
      OneElement(s.f.born, s.f.dead, t);
    }
  }

  /** With one successful Run, and after a Stop has returned nil, the operator is running only while some other Run has
      passed its check and not yet failed. */
  lemma {:induction false} RunningAfterStop(steps: seq<Step>)
    requires var f := After(CREATED, steps).f; f.stopped && |f.born| <= 1 && f.running
    ensures exists t: Tid :: PcOf(After(CREATED, steps), t).RunStored?
  {
    EveryRunKeepsInv(steps);
    OnlyRunsAreActive(After(CREATED, steps));
  }

  /** Once a Stop has returned nil, with one successful Run, however many have failed, and none under way, the operator
      is not running, and this stays so until another Run passes its check. */
  lemma {:induction false} StoppedMeansNotRunning(steps: seq<Step>, more: seq<Step>)
    requires var s := After(CREATED, steps); s.f.stopped && |s.f.born| <= 1 && NoRun(s)
    requires var s := After(CREATED, steps); After(s, more).f.passed == s.f.passed
    ensures !After(After(CREATED, steps), more).f.running
  {
    var s := After(CREATED, steps);
    EveryRunKeepsInv(steps);
    InvStays(s, more);
    StoppedStays(s, more);
    NoRunStays(s, more);
    if After(s, more).f.running {
      OnlyRunsAreActive(After(s, more));
    }
  }

  lemma {:induction false} AfterThree(s: State, x: Step, y: Step, z: Step)
    ensures After(s, [x, y, z]) == Do(Do(Do(s, x), y), z)
  {
    assert [x, y, z][..2] == [x, y] && [x, y][..1] == [x] && [x][..0] == [];
    assert After(s, [x, y]) == Do(After(s, [x]), y);
  }

  predicate Clears(step: Step) {
    step.LoopClears? || step.RunInitializeFails?
  }

  lemma {:induction false} RunningStays(f: Fields, pc: Pc, step: Step)
    requires f.running && !Clears(step)
    ensures Act(f, pc, step).0.running && Act(f, pc, step).0.passed == f.passed
  {
  }

  /** A Run on a running operator is refused: until a goroutine comes to its end or an initialisation fails, no further
      Run passes its check. */
  lemma {:induction false} RunningRefusesRun(s: State, more: seq<Step>)
    requires s.f.running && forall i :: 0 <= i < |more| ==> !Clears(more[i])
    ensures After(s, more).f.running && After(s, more).f.passed == s.f.passed
  {
    if more != [] {
      var before, step := After(s, more[..|more| - 1]), more[|more| - 1];
      RunningRefusesRun(s, more[..|more| - 1]);
      RunningStays(before.f, PcOf(before, step.t), step);
      hide Act;
    }
  }

  /** But the check and the store are two steps: two Runs of a stopped operator can both pass. */
  lemma {:induction false} RacingRunsBothPass(s: State, t: Tid, u: Tid)
    requires !s.f.running && !s.f.panicked && PcOf(s, t).Idle? && PcOf(s, u).Idle? && t != u
    ensures var after := After(s, [RunCheck(t), RunCheck(u), RunStore(t)]);
            after.f.passed == s.f.passed + 2 && PcOf(after, t).RunStored? && PcOf(Do(after, RunStore(u)), u).RunStored?
  {
    AfterThree(s, RunCheck(t), RunCheck(u), RunStore(t));
  }

  /** When an operator that has come to its end is run again, it is running although its Stops return nil at once, and
      the end of its second goroutine panics. */
  lemma {:induction false} SecondRunPanics(s: State, t: Tid, child: Tid, u: Tid)
    requires Inv(s) && s.f.doneClosed && !s.f.running && !s.f.panicked
    requires PcOf(s, t).Idle? && PcOf(s, child).Idle? && PcOf(s, u).StopWaiting? && t != child
    ensures var again := Do(After(s, [RunCheck(t), RunStore(t), RunGo(t, child)]), StopReturns(u));
            again.f.running && again.f.stopped &&
            After(again, [LoopLeaves(child), LoopClears(child), LoopCloses(child)]).f.panicked
  {
    AfterThree(s, RunCheck(t), RunStore(t), RunGo(t, child));
    assert Local(s.f, child, PcOf(s, child));
    var again := Do(After(s, [RunCheck(t), RunStore(t), RunGo(t, child)]), StopReturns(u));
    AfterThree(again, LoopLeaves(child), LoopClears(child), LoopCloses(child));
  }

  ghost predicate Reachable(s: State) {
    exists steps :: After(CREATED, steps) == s
  }

  /** A thread at `pc` takes a step of its own that starts no goroutine. */
  lemma {:induction false} Advance(s: State, step: Step, f: Fields, pc: Pc) returns (next: State)
    requires Reachable(s) && !step.RunGo? && Act(s.f, PcOf(s, step.t), step) == (f, pc)
    ensures Reachable(next) && next == State(f, s.pcs[step.t := pc])
  {
    var steps :| After(CREATED, steps) == s;
    assert (steps + [step])[..|steps|] == steps;
    next := Do(s, step);
    assert After(CREATED, steps + [step]) == next;
  }

  /** Thread 0 can run the operator, with thread 1 as its goroutine. */
  lemma {:induction false} RunHappens() returns (s: State)
    ensures Reachable(s)
    ensures s == State(CREATED.f.(running := true, passed := 1, born := {1}), map[0 := Idle, 1 := Looping])
  {
    assert After(CREATED, []) == CREATED;
    s := Advance(CREATED, RunCheck(0), CREATED.f.(passed := 1), RunChecked);
    s := Advance(s, RunStore(0), CREATED.f.(passed := 1, running := true), RunStored);
    assert s.pcs == map[0 := RunStored];
    var steps :| After(CREATED, steps) == s;
    assert (steps + [RunGo(0, 1)])[..|steps|] == steps;
    var next := Do(s, RunGo(0, 1));
    assert next.pcs == map[0 := Idle, 1 := Looping] && next.f.born == {1};
    assert After(CREATED, steps + [RunGo(0, 1)]) == next;
    s := next;
  }

  /** The goroutine can come to its end. */
  lemma {:induction false} EndHappens() returns (s: State)
    ensures Reachable(s)
    ensures s == State(CREATED.f.(doneClosed := true, passed := 1, born := {1}, dead := {1}), map[0 := Idle, 1 := Dead])
  {
    s := RunHappens();
    hide After, Reachable, Do;
    var f := s.f;
    s := Advance(s, LoopLeaves(1), f, LoopLeft);
    f := f.(running := false);
    s := Advance(s, LoopClears(1), f, LoopCleared);
    assert f.dead + {1} == {1};
    f := f.(doneClosed := true, dead := {1});
    s := Advance(s, LoopCloses(1), f, Dead);
    assert s.pcs == map[0 := Idle, 1 := Dead];
  }

  /** Such a state is reached: run, come to the end, and be stopped. */
  lemma {:induction false} SecondRunHappens()
    ensures exists steps :: var s := After(CREATED, steps);
              s.f.doneClosed && !s.f.running && !s.f.panicked &&
              PcOf(s, 0).Idle? && PcOf(s, 3).Idle? && PcOf(s, 2).StopWaiting?
  {
    var s := EndHappens();
    s := Advance(s, StopOnce(2), s.f.(stopClosed := true, onceDone := true), StopWaiting);
    var steps :| After(CREATED, steps) == s;
    hide After;
    assert PcOf(s, 0).Idle? && PcOf(s, 3).Idle? && PcOf(s, 2).StopWaiting?;
  }
}
