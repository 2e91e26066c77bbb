/** EventLoop (event_loop.cpp) as one thread sees it: the functor queue and the batch run. */
module EventLoops {

  /** A queued functor, and the functors it queues on its own loop when it runs. */
  datatype Functor = Functor(id: nat, queues: seq<Functor>)

  /** The largest value an eventfd counter takes; a write that would pass it fails and leaves it there. */
  const EVENTFD_MAX: nat := 0xffff_ffff_ffff_fffe

  function Bump(counter: nat, times: nat): (r: nat)
    ensures times > 0 ==> r > 0
    ensures counter <= EVENTFD_MAX ==> r <= EVENTFD_MAX
  {
    if counter + times <= EVENTFD_MAX then counter + times
    else if counter <= EVENTFD_MAX then EVENTFD_MAX else counter
  }

  /** Writes add up, one at a time, as far as the counter goes. */
  lemma BumpAdds(counter: nat, a: nat, b: nat)
    requires counter <= EVENTFD_MAX
    ensures Bump(counter, 0) == counter
    ensures Bump(Bump(counter, a), b) == Bump(counter, a + b)
    ensures counter < EVENTFD_MAX ==> Bump(counter, 1) == counter + 1
    ensures Bump(EVENTFD_MAX, a) == EVENTFD_MAX
  {
  }

  /** Everything a batch queues, in order. */
  function Queued(batch: seq<Functor>): seq<Functor> {
    if batch == [] then [] else batch[0].queues + Queued(batch[1..])
  }

  lemma {:induction false} QueuedLast(batch: seq<Functor>, f: Functor)
    ensures Queued(batch + [f]) == Queued(batch) + f.queues
  {
    var all := batch + [f];
    if batch == [] {
      assert all[1..] == [];
    } else {
      assert all[1..] == batch[1..] + [f];
      QueuedLast(batch[1..], f);
    }
  }

  class EventLoop {
    var pending: seq<Functor>
    var calling: bool          // calling_pending_functors_
    var counter: nat           // the eventfd
    var executed: seq<Functor>

    constructor ()
      ensures pending == [] && !calling && counter == 0 && executed == []
    {
      pending, calling, counter, executed := [], false, 0, [];
    }

    /** `inLoopThread`: the caller is the loop's own thread. */
    method QueueInLoop(f: Functor, inLoopThread: bool)
      modifies this`pending, this`counter
      ensures pending == old(pending) + [f]
      ensures counter == if !inLoopThread || calling then Bump(old(counter), 1) else old(counter)
    {
      pending := pending + [f];
      if !inLoopThread || calling {
        WakeUp();
      }
    }

    method RunInLoop(f: Functor, inLoopThread: bool)
      modifies this`pending, this`counter, this`executed
      ensures inLoopThread ==> executed == old(executed) + [f] && pending == old(pending) + f.queues
      ensures !inLoopThread ==> executed == old(executed) && pending == old(pending) + [f] && counter > 0
      ensures counter == if !inLoopThread then Bump(old(counter), 1)
                         else if calling then Bump(old(counter), |f.queues|) else old(counter)
    {
      if inLoopThread {
        Call(f);
      } else {
        QueueInLoop(f, false);
      }
    }

    method WakeUp()
      modifies this`counter
      ensures counter == Bump(old(counter), 1)
    {
      if counter < EVENTFD_MAX {
        counter := counter + 1;
      }
    }

    /** The read empties the counter; at 0 it would block and changes nothing. */
    method HandleRead()
      modifies this`counter
      ensures counter == 0
    {
      counter := 0;
    }

    /** The loop thread runs a functor, which queues others. */
    method Call(f: Functor)
      modifies this`pending, this`counter, this`executed
      ensures executed == old(executed) + [f]
      ensures pending == old(pending) + f.queues
      ensures !calling ==> counter == old(counter)
      ensures calling ==> counter == Bump(old(counter), |f.queues|)
    {
      executed := executed + [f];
      for i := 0 to |f.queues|
        modifies this`pending, this`counter
        invariant pending == old(pending) + f.queues[..i]
        invariant !calling ==> counter == old(counter)
        invariant calling ==> counter == Bump(old(counter), i)
      {
        QueueInLoop(f.queues[i], true);
        assert f.queues[..i + 1] == f.queues[..i] + [f.queues[i]];
      }
      assert f.queues[..|f.queues|] == f.queues;
    }

    /**
     * Exactly the functors pending at the swap run, in order; what they queue waits for the next turn, and
     * leaves the eventfd readable.
     */
    method DoPendingFunctors()
      modifies this
      ensures executed == old(executed) + old(pending)
      ensures pending == Queued(old(pending))
      ensures !calling
      ensures counter == Bump(old(counter), |pending|)
    {
      calling := true;
      var functors := pending;
      pending := [];
      for i := 0 to |functors|
        invariant calling
        invariant executed == old(executed) + functors[..i]
        invariant pending == Queued(functors[..i])
        invariant counter == Bump(old(counter), |pending|)
      {
        QueuedLast(functors[..i], functors[i]);
        assert functors[..i + 1] == functors[..i] + [functors[i]];
        Call(functors[i]);
      }
      assert functors[..|functors|] == functors;
      calling := false;
    }

    /** The handlers run one after the other; what they queue is pending, and wakes nobody. */
    method RunHandlers(handlers: seq<Functor>)
      requires !calling
      modifies this`pending, this`counter, this`executed
      ensures executed == old(executed) + handlers
      ensures pending == old(pending) + Queued(handlers)
      ensures counter == old(counter)
    {
      for i := 0 to |handlers|
        modifies this`pending, this`counter, this`executed
        invariant executed == old(executed) + handlers[..i]
        invariant pending == old(pending) + Queued(handlers[..i])
        invariant counter == old(counter)
      {
        QueuedLast(handlers[..i], handlers[i]);
        assert handlers[..i + 1] == handlers[..i] + [handlers[i]];
        Call(handlers[i]);
      }
      assert handlers[..|handlers|] == handlers;
    }

    /**
     * One turn of Loop(): the handlers of the active channels, the wake-up one among them if `woken`, then the
     * pending functors. Everything queued before or by the handlers has run when the turn ends, and if anything
     * is pending then the next poll does not block; after a wake-up nothing else keeps it from blocking.
     */
    method Turn(woken: bool, handlers: seq<Functor>)
      requires !calling
      modifies this
      ensures executed == old(executed) + handlers + (old(pending) + Queued(handlers))
      ensures pending == Queued(old(pending) + Queued(handlers))
      ensures !calling
      ensures counter == Bump(if woken then 0 else old(counter), |pending|)
      ensures pending != [] ==> counter > 0
      ensures woken && pending == [] ==> counter == 0
    {
      if woken {
        HandleRead();
      }
      RunHandlers(handlers);
      DoPendingFunctors();
    }
  }
}
