/** The loop with any number of producer threads, step by step. */
module Reactor {
  import opened EventLoops

  type Thread = nat
  type Task = nat

  /**
   * Where the loop thread stands. `Dispatch(wake)`: in the active channels, the wake-up channel still to come or
   * not. `Marked`: the flag set, the swap ahead. `Running`: in the batch.
   */
  datatype Pc = AtPoll | Dispatch(wake: bool) | Marked | Running

  /**
   * `pushed`: the loop thread has pushed a functor of its own and not yet tested the flag.
   * `midway`: the producers between their push and their eventfd write.
   * `history`: everything pushed so far. `left`, `taken`: how long it was when the loop last left the poll, and at
   * its last swap.
   */
  datatype State = State(
    pc: Pc, pushed: bool, calling: bool, counter: nat,
    pending: seq<Task>, batch: seq<Task>, executed: seq<Task>,
    midway: set<Thread>,
    history: seq<Task>, left: nat, taken: nat)

  const START: State := State(AtPoll, false, false, 0, [], [], [], {}, [], 0, 0)

  /** Every push, every test of `calling_pending_functors_`, every eventfd write and read is a step of its own. */
  datatype Step =
    | Push(thread: Thread, task: Task)     // QueueInLoop on another thread: the push
    | Write(thread: Thread)                // ... and its WakeUp
    | Poll                                 // epoll_wait returns: ready, timed out or interrupted
    | ReadWakeup                           // HandleRead
    | OwnPush(task: Task)                  // QueueInLoop on the loop thread: the push
    | OwnTest                              // ... and the test, with WakeUp if the flag is set
    | Mark | Swap | RunOne | Unmark        // DoPendingFunctors

  ghost predicate Enabled(s: State, step: Step) {
    match step
    case Push(t, _) => t !in s.midway
    case Write(t) => t in s.midway
    case Poll => s.pc == AtPoll && !s.pushed
    case ReadWakeup => s.pc == Dispatch(true) && !s.pushed
    case OwnPush(_) => (s.pc.Dispatch? || s.pc.Running?) && !s.pushed
    case OwnTest => s.pushed
    case Mark => s.pc == Dispatch(false) && !s.pushed
    case Swap => s.pc == Marked && !s.pushed
    case RunOne => s.pc == Running && !s.pushed && s.batch != []
    case Unmark => s.pc == Running && !s.pushed && s.batch == []
  }

  function Next(s: State, step: Step): State
    requires Enabled(s, step)
  {
    match step
    case Push(t, f) => s.(pending := s.pending + [f], history := s.history + [f], midway := s.midway + {t})
    case Write(t) => s.(counter := Bump(s.counter, 1), midway := s.midway - {t})
    case Poll => s.(pc := Dispatch(s.counter > 0), left := |s.history|)
    case ReadWakeup => s.(counter := 0, pc := Dispatch(false))
    case OwnPush(f) => s.(pending := s.pending + [f], history := s.history + [f], pushed := true)
    case OwnTest => s.(pushed := false, counter := if s.calling then Bump(s.counter, 1) else s.counter)
    case Mark => s.(pc := Marked, calling := true)
    case Swap => s.(pc := Running, batch := s.pending, pending := [], taken := |s.history|)
    case RunOne => s.(executed := s.executed + [s.batch[0]], batch := s.batch[1..])
    case Unmark => s.(pc := AtPoll, calling := false)
  }

  /** Functors pushed so far are those executed, then the rest of the batch, then those pending. */
  ghost predicate FifoOnce(s: State) {
    && s.history == s.executed + s.batch + s.pending
    && (s.batch != [] ==> s.pc == Running)
  }

  /** Pending functors have a swap ahead of the next poll, a readable eventfd, or a write on its way. */
  ghost predicate NothingLost(s: State) {
    && (s.calling <==> s.pc == Marked || s.pc == Running)
    && (s.pushed ==> s.pc.Dispatch? || s.pc == Running)
    && (s.pending != [] ==> s.pc.Dispatch? || s.pc == Marked || s.pushed || s.counter > 0 || s.midway != {})
  }

  /** The batch is what was there at the swap; what was there at the last poll is covered by it. */
  ghost predicate BatchFixed(s: State) {
    && s.left <= |s.history| && s.taken <= |s.history|
    && (s.pc == Running ==> |s.executed| + |s.batch| == s.taken)
    && (s.pc == Running || s.pc == AtPoll ==> s.left <= s.taken)
    && (s.pc == AtPoll ==> |s.executed| == s.taken)
  }

  ghost predicate Inv(s: State) {
    FifoOnce(s) && NothingLost(s) && BatchFixed(s)
  }

  lemma StepInv(s: State, step: Step)
    requires Inv(s) && Enabled(s, step)
    ensures Inv(Next(s, step))
    ensures s.history <= Next(s, step).history && s.executed <= Next(s, step).executed
  {
    var r := Next(s, step);
    match step {
      case Push(t, f) => assert r.midway != {};
      case RunOne => assert s.batch == [s.batch[0]] + r.batch;
      case _ =>
    }
  }

  ghost predicate IsRun(states: seq<State>, steps: seq<Step>) {
    && |states| == |steps| + 1
    && states[0] == START
    && forall i :: 0 <= i < |steps| ==> Enabled(states[i], steps[i]) && states[i + 1] == Next(states[i], steps[i])
  }

  lemma {:induction false} RunInv(states: seq<State>, steps: seq<Step>, n: nat)
    requires IsRun(states, steps) && n < |states|
    ensures Inv(states[n])
  {
    if n > 0 {
      RunInv(states, steps, n - 1);
      StepInv(states[n - 1], steps[n - 1]);
    }
  }

  lemma {:induction false} RunGrows(states: seq<State>, steps: seq<Step>, m: nat, n: nat)
    requires IsRun(states, steps) && m <= n < |states|
    ensures states[m].history <= states[n].history && states[m].executed <= states[n].executed
  {
    if m < n {
      RunGrows(states, steps, m, n - 1);
      RunInv(states, steps, n - 1);
      StepInv(states[n - 1], steps[n - 1]);
    }
  }

  /**
   * No lost wake-up: in every interleaving, a loop about to poll with functors pending finds the eventfd readable,
   * or some producer has yet to write it.
   */
  lemma NoLostWakeup(states: seq<State>, steps: seq<Step>, n: nat)
    requires IsRun(states, steps) && n < |states|
    requires states[n].pc == AtPoll && states[n].pending != []
    ensures states[n].counter > 0 || states[n].midway != {}
  {
    RunInv(states, steps, n);
  }

  /** Exactly once, in order: the executed functors are always a prefix of those pushed, and none is missing. */
  lemma ExactlyOnceFifo(states: seq<State>, steps: seq<Step>, n: nat)
    requires IsRun(states, steps) && n < |states|
    ensures states[n].history == states[n].executed + states[n].batch + states[n].pending
    ensures states[n].executed == states[n].history[..|states[n].executed|]
  {
    RunInv(states, steps, n);
  }

  /**
   * A turn executes what was queued before it: if the poll of step m returned, then whenever the loop is back at the
   * poll everything pushed before step m has been executed, whatever the producers and functors pushed meanwhile.
   */
  lemma {:induction false} TurnDrains(states: seq<State>, steps: seq<Step>, m: nat, n: nat)
    requires IsRun(states, steps) && m < n < |states|
    requires steps[m] == Poll && states[n].pc == AtPoll
    ensures states[m].history <= states[n].executed
  {
    RunInv(states, steps, n);
    RunInv(states, steps, m);
    LeftGrows(states, steps, m, n);
    RunGrows(states, steps, m, n);
    assert states[n].executed == states[n].history[..states[n].taken];
  }

  /** After a poll returned, `left` never falls below what was there then. */
  lemma {:induction false} LeftGrows(states: seq<State>, steps: seq<Step>, m: nat, n: nat)
    requires IsRun(states, steps) && m < n < |states| && steps[m] == Poll
    ensures |states[m].history| <= states[n].left
  {
    if m + 1 < n {
      LeftGrows(states, steps, m, n - 1);
      RunInv(states, steps, n - 1);
    }
  }

  lemma {:induction false} StaysRunning(states: seq<State>, steps: seq<Step>, m: nat, n: nat)
    requires IsRun(states, steps) && m < n < |states| && steps[m] == Swap
    requires forall i :: m < i < n ==> steps[i] != Unmark
    ensures states[n].pc == Running && states[n].taken == |states[m].history|
  {
    if m + 1 < n {
      StaysRunning(states, steps, m, n - 1);
    }
  }

  /**
   * One call of DoPendingFunctors, from its swap at step m to its end at step n, runs exactly the functors pending at
   * the swap, in order; what was pushed meanwhile, by whomever, is pending at the end.
   */
  lemma BatchIsExact(states: seq<State>, steps: seq<Step>, m: nat, n: nat)
    requires IsRun(states, steps) && m < n < |steps| && steps[m] == Swap && steps[n] == Unmark
    requires forall i :: m < i < n ==> steps[i] != Unmark
    ensures states[n].executed == states[m].executed + states[m].pending
    ensures states[n].history == states[m].history + states[n].pending
  {
    StaysRunning(states, steps, m, n);
    RunInv(states, steps, m);
    RunInv(states, steps, n);
    RunGrows(states, steps, m, n);
    assert states[m].batch == [];
    assert states[n].executed == states[n].history[..|states[m].history|] == states[m].history;
  }

  // ---------------------------------------------------------------- the wake-up channel

  /** Until the wake-up is read, the loop is at its handlers with it still to come. */
  lemma {:induction false} StaysUnread(states: seq<State>, steps: seq<Step>, m: nat, n: nat)
    requires IsRun(states, steps) && m < n < |states| && steps[m] == Poll
    requires forall i :: m < i < n ==> steps[i] != ReadWakeup && steps[i] != Mark
    ensures states[n].pc == Dispatch(states[m].counter > 0)
  {
    if m + 1 < n {
      StaysUnread(states, steps, m, n - 1);
    }
  }

  /**
   * A turn reads the eventfd exactly when its poll found it readable: before the pending functors are taken, and it
   * leaves the counter at zero.
   */
  lemma WokenReads(states: seq<State>, steps: seq<Step>, m: nat, n: nat) returns (i: nat)
    requires IsRun(states, steps) && m < n < |steps| && steps[m] == Poll && steps[n] == Mark
    requires states[m].counter > 0 && forall k :: m < k < n ==> steps[k] != Mark
    ensures m < i < n && steps[i] == ReadWakeup && states[i + 1].counter == 0
  {
    i := m + 1;
    while i < n && steps[i] != ReadWakeup
      invariant m < i <= n
      invariant forall k :: m < k < i ==> steps[k] != ReadWakeup
    {
      i := i + 1;
    }
    StaysUnread(states, steps, m, i);
  }

  /** Only then: a read would find nothing otherwise. */
  lemma ReadsOnlyWoken(states: seq<State>, steps: seq<Step>, m: nat, i: nat)
    requires IsRun(states, steps) && m < i < |steps| && steps[m] == Poll && steps[i] == ReadWakeup
    requires forall k :: m < k < i ==> steps[k] != ReadWakeup && steps[k] != Mark
    ensures states[m].counter > 0
  {
    StaysUnread(states, steps, m, i);
  }
}
