/** EventLoopThreadPool (event_loop_thread_pool.cpp), updated in place. */
module ThreadPools {
  import opened ThreadPoolSpec

  class EventLoopThreadPool {
    const baseLoop: Loop
    var loops: seq<Loop>
    var next: nat
    var started: bool

    ghost function View(): Pool
      reads this
    {
      Pool(baseLoop, loops, next)
    }

    ghost predicate Valid()
      reads this
    {
      View().Valid()
    }

    constructor (base: Loop)
      ensures Valid() && View() == Pool(base, [], 0) && !started
    {
      baseLoop, loops, next, started := base, [], 0, false;
    }

    /** `made` are the loops the new threads report, one for each thread asked for. */
    method Start(made: seq<Loop>)
      requires Valid()
      modifies this
      ensures Valid() && started
      ensures View() == old(View()).(loops := old(loops) + made)
    {
      started := true;
      var i := 0;
      while i < |made|
        invariant 0 <= i <= |made|
        invariant loops == old(loops) + made[..i] && next == old(next) && started
      {
        loops := loops + [made[i]];
        i := i + 1;
      }
    }

    method GetNextLoop() returns (loop: Loop)
      requires Valid()
      modifies this`next
      ensures Valid()
      ensures loop == Chosen(old(View())) && View() == Advance(old(View()))
      ensures old(loops) != [] ==> loop == loops[old(next)] && next == (old(next) + 1) % |loops|
    {
      loop := baseLoop;
      if loops != [] {
        NextPlace(next, |loops|);
        loop := loops[next];
        next := next + 1;
        if next >= |loops| {
          next := 0;
        }
      }
    }

    /** Every loop a connection may be given to. */
    function GetLoops(): (r: seq<Loop>)
      reads this
      requires Valid()
      ensures r != [] && Chosen(View()) in r
      ensures forall l :: l in r <==> l in loops || (loops == [] && l == baseLoop)
      ensures loops <= r && |r| == if loops == [] then 1 else |loops|
    {
      if loops == [] then [baseLoop] else loops
    }
  }
}
