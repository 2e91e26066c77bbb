/** TcpServer (tcp_server.cpp), updated in place. */
module TcpServers {
  import opened Bytes
  import opened ThreadPoolSpec
  import opened ThreadPools
  import opened TcpServerSpec

  class TcpServer {
    const baseLoop: Loop
    const name: bytes
    const ipPort: Name
    const pool: EventLoopThreadPool
    var nextId: nat
    var started: nat
    var connections: map<bytes, Entry>

    ghost function View(): Server
      reads this, pool
    {
      Server(name, ipPort, pool.View(), nextId, connections)
    }

    ghost predicate Valid()
      reads this, pool
    {
      View().Valid() && pool.baseLoop == baseLoop
    }

    constructor (base: Loop, n: bytes, address: Name)
      ensures Valid() && fresh(pool) && View() == Server(n, address, Pool(base, [], 0), 1, map[]) && started == 0
    {
      baseLoop, name, ipPort, nextId, started, connections := base, n, address, 1, 0, map[];
      pool := new EventLoopThreadPool(base);
    }

    /** Only the first call starts the threads; `listens` tells whether the listening socket is opened. */
    method Start(made: seq<Loop>) returns (listens: bool)
      requires Valid()
      modifies this`started, pool
      ensures Valid() && started == old(started) + 1 && listens == (old(started) == 0)
      ensures pool.View() == if listens then old(pool.View()).(loops := old(pool.loops) + made) else old(pool.View())
    {
      started := started + 1;
      listens := started == 1;
      if listens {
        pool.Start(made);
      }
    }

    /** `now`: ConnectionEstablished runs at once, on the main loop; else it is queued for `e.loop`. */
    method Accept(fd: nat) returns (e: Entry, now: bool)
      requires Valid()
      modifies this, pool
      ensures Valid() && View() == NewConnection(old(View()), fd)
      ensures e == NewEntry(old(View()), fd) && now == (e.loop == baseLoop) && started == old(started)
    {
      ghost var v := View();
      var loop := pool.GetNextLoop();
      var connName := name + Suffix(ipPort, nextId);
      e := Entry(nextId, fd, loop);
      nextId := nextId + 1;
      connections := connections[connName := e];
      now := loop == baseLoop;
      assert connName == ConnName(v, v.nextId);
    }

    /** ConnectDestroyed is always queued, for the loop returned, even when that is the loop running this. */
    method RemoveConnectionInLoop(e: Entry) returns (queuedOn: Loop)
      requires Valid()
      modifies this`connections
      ensures Valid() && View() == RemoveConnection(old(View()), e) && queuedOn == e.loop
    {
      ghost var v := View();
      var connName := name + Suffix(ipPort, e.id);
      assert connName == ConnName(v, e.id);
      connections := connections - {connName};
      queuedOn := e.loop;
    }
  }
}
