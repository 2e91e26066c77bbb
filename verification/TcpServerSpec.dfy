/** The server's map of connections, the names it is keyed by, and the loops they are given to. */
module TcpServerSpec {
  import opened Bytes
  import opened ThreadPoolSpec

  const SHARP: byte := 35         // '#'
  const NAME_BUFFER := 64
  const MAX_ID: nat := 0x7fff_ffff

  /** A connection, by the number it was accepted under. */
  datatype Entry = Entry(id: nat, fd: nat, loop: Loop)

  datatype Server = Server(name: bytes, ipPort: Name, pool: Pool, nextId: nat, connections: map<bytes, Entry>) {
    ghost predicate Valid() {
      pool.Valid() && nextId > 0
    }
  }

  datatype Event = Accepted(fd: nat) | Removed(e: Entry)

  /** %d */
  function Decimal(n: nat): (r: bytes)
    ensures r != []
  {
    (if n < 10 then [] else Decimal(n / 10)) + [(48 + n % 10) as byte]
  }

  /** %s#%d, cut off by snprintf so that its terminator still fits. */
  function Suffix(ipPort: Name, id: nat): bytes {
    var full := ipPort + [SHARP] + Decimal(id);
    if |full| < NAME_BUFFER then full else full[..NAME_BUFFER - 1]
  }

  /** All of the text if it fits the buffer with its terminator, else its first 63 bytes. */
  lemma SuffixExact(ipPort: Name, id: nat)
    ensures var full, r := ipPort + [SHARP] + Decimal(id), Suffix(ipPort, id);
      r <= full && |r| == (if |full| <= 63 then |full| else 63) && (r == full <==> |full| <= 63)
  {
  }

  function ConnName(s: Server, id: nat): bytes {
    s.name + Suffix(s.ipPort, id)
  }

  function NewEntry(s: Server, fd: nat): Entry
    requires s.Valid()
  {
    Entry(s.nextId, fd, Chosen(s.pool))
  }

  function NewConnection(s: Server, fd: nat): Server
    requires s.Valid()
  {
    s.(pool := Advance(s.pool), nextId := s.nextId + 1,
       connections := s.connections[ConnName(s, s.nextId) := NewEntry(s, fd)])
  }

  function RemoveConnection(s: Server, e: Entry): Server {
    s.(connections := s.connections - {ConnName(s, e.id)})
  }

  // ---------------------------------------------------------------- names

  lemma {:induction false} DecimalInjective(m: nat, n: nat)
    requires Decimal(m) == Decimal(n)
    ensures m == n
  {
    var a, b := Decimal(m), Decimal(n);
    assert a[|a| - 1] == b[|b| - 1];
    assert m % 10 == n % 10;
    if m >= 10 && n >= 10 {
      assert a[..|a| - 1] == Decimal(m / 10) && b[..|b| - 1] == Decimal(n / 10);
      DecimalInjective(m / 10, n / 10);
    }
  }

  function Pow10(d: nat): nat {
    if d == 0 then 1 else 10 * Pow10(d - 1)
  }

  lemma {:induction false} DigitCount(n: nat, d: nat)
    requires d > 0 && n < Pow10(d)
    ensures |Decimal(n)| <= d
  {
    if n >= 10 {
      assert d > 1 by {
        assert Pow10(1) == 10 * Pow10(0);
      }
      DigitCount(n / 10, d - 1);
    }
  }

  lemma TenDigits(n: nat)
    requires n <= MAX_ID
    ensures |Decimal(n)| <= 10
  {
    assert Pow10(10) == 10_000_000_000;
    DigitCount(n, 10);
  }

  /** Two ids of ten digits that differ in the last only. */
  lemma LastDigitApart()
    ensures |Decimal(1_000_000_000)| == 10 && Decimal(1_000_000_000)[..9] == Decimal(1_000_000_001)[..9]
  {
    var head := Decimal(100_000_000);
    assert |head| == 9;
    assert Decimal(1_000_000_000) == head + [48] && Decimal(1_000_000_001) == head + [49];
  }

  /**
   * The names of all the connections an int can number are distinct exactly when the address is short enough not to
   * be cut off: an IPv4 address with its port, of 21 bytes at most, is.
   */
  lemma NamesNeverCollide(s: Server)
    ensures (forall i: nat, j: nat :: i <= MAX_ID && j <= MAX_ID && ConnName(s, i) == ConnName(s, j) ==> i == j)
            <==> |s.ipPort| <= 52
  {
    if |s.ipPort| <= 52 {
      forall i: nat, j: nat | i <= MAX_ID && j <= MAX_ID && ConnName(s, i) == ConnName(s, j) ensures i == j {
        ShortNamesDiffer(s, i, j);
      }
    } else {
      var i, j := 1_000_000_000, 1_000_000_001;
      LastDigitApart();
      var a, b := s.ipPort + [SHARP] + Decimal(i), s.ipPort + [SHARP] + Decimal(j);
      assert a[..|s.ipPort| + 10] == s.ipPort + [SHARP] + Decimal(i)[..9];
      assert b[..|s.ipPort| + 10] == s.ipPort + [SHARP] + Decimal(j)[..9];
      assert a[..63] == a[..|s.ipPort| + 10][..63] && b[..63] == b[..|s.ipPort| + 10][..63];
      assert ConnName(s, i) == ConnName(s, j);
    }
  }

  lemma ShortNamesDiffer(s: Server, i: nat, j: nat)
    requires |s.ipPort| <= 52 && i <= MAX_ID && j <= MAX_ID && ConnName(s, i) == ConnName(s, j)
    ensures i == j
  {
    TenDigits(i);
    TenDigits(j);
    assert Suffix(s.ipPort, i) == ConnName(s, i)[|s.name|..];
    assert Suffix(s.ipPort, j) == ConnName(s, j)[|s.name|..];
    assert Decimal(i) == Suffix(s.ipPort, i)[|s.ipPort| + 1..];
    assert Decimal(j) == Suffix(s.ipPort, j)[|s.ipPort| + 1..];
    DecimalInjective(i, j);
  }

  // ---------------------------------------------------------------- whole runs

  function After(s: Server, events: seq<Event>): (r: Server)
    requires s.Valid()
    ensures r.Valid() && r.name == s.name && r.ipPort == s.ipPort
  {
    if events == [] then s
    else
      var t := After(s, events[..|events| - 1]);
      match events[|events| - 1]
      case Accepted(fd) => NewConnection(t, fd)
      case Removed(e) => RemoveConnection(t, e)
  }

  function Accepts(events: seq<Event>): nat {
    if events == [] then 0
    else Accepts(events[..|events| - 1]) + if events[|events| - 1].Accepted? then 1 else 0
  }

  /** The connections accepted and not yet removed, over any history, whatever their names. */
  function Live(p: Pool, events: seq<Event>): set<Entry>
    requires p.Valid()
  {
    if events == [] then {}
    else
      var before, last := events[..|events| - 1], events[|events| - 1];
      match last
      case Accepted(fd) => Live(p, before) + {Entry(Accepts(before) + 1, fd, Chosen(AfterAll(p, Accepts(before))))}
      case Removed(e) => Live(p, before) - {e}
  }

  /** Only connections the server has accepted close. */
  predicate RemovesLive(p: Pool, events: seq<Event>)
    requires p.Valid()
  {
    events == [] ||
    var before, last := events[..|events| - 1], events[|events| - 1];
    RemovesLive(p, before) && (last.Removed? ==> last.e in Live(p, before))
  }

  /** The map holds exactly these connections, each under its own name. */
  ghost predicate Holds(s: Server, live: set<Entry>) {
    && (forall e :: e in live ==> ConnName(s, e.id) in s.connections && s.connections[ConnName(s, e.id)] == e)
    && (forall n :: n in s.connections ==> s.connections[n] in live && ConnName(s, s.connections[n].id) == n)
  }

  lemma {:induction false} CountsAndPool(s: Server, events: seq<Event>)
    requires s.Valid()
    ensures After(s, events).nextId == s.nextId + Accepts(events)
    ensures After(s, events).pool == AfterAll(s.pool, Accepts(events))
  {
    if events != [] {
      CountsAndPool(s, events[..|events| - 1]);
    }
  }

  lemma {:induction false} IdsInRange(p: Pool, events: seq<Event>)
    requires p.Valid()
    ensures forall e :: e in Live(p, events) ==> 1 <= e.id <= Accepts(events)
  {
    if events != [] {
      IdsInRange(p, events[..|events| - 1]);
    }
  }

  /** Two live connections never share a number. */
  lemma {:induction false} IdsAreKeys(p: Pool, events: seq<Event>)
    requires p.Valid()
    ensures forall d, e :: d in Live(p, events) && e in Live(p, events) && d.id == e.id ==> d == e
  {
    if events != [] {
      IdsAreKeys(p, events[..|events| - 1]);
      IdsInRange(p, events[..|events| - 1]);
    }
  }

  /**
   * Over any history the map is exactly the accepted and not removed connections, each on the loop the round robin
   * gave it: no connection ever takes another's place, none removes another.
   */
  lemma {:induction false} ConnectionsExact(s: Server, events: seq<Event>)
    requires s.Valid() && s.nextId == 1 && s.connections == map[] && |s.ipPort| <= 52
    requires Accepts(events) <= MAX_ID && RemovesLive(s.pool, events)
    ensures Holds(After(s, events), Live(s.pool, events))
  {
    if events != [] {
      var before, last := events[..|events| - 1], events[|events| - 1];
      ConnectionsExact(s, before);
      CountsAndPool(s, before);
      IdsInRange(s.pool, before);
      IdsAreKeys(s.pool, before);
      var t, live := After(s, before), Live(s.pool, before);
      match last {
        case Accepted(fd) => AcceptHolds(t, live, fd);
        case Removed(e) => RemoveHolds(t, live, e);
      }
    }
  }

  lemma AcceptHolds(t: Server, live: set<Entry>, fd: nat)
    requires t.Valid() && Holds(t, live) && |t.ipPort| <= 52 && t.nextId <= MAX_ID
    requires forall e :: e in live ==> e.id < t.nextId
    ensures Holds(NewConnection(t, fd), live + {NewEntry(t, fd)})
  {
    forall e | e in live ensures ConnName(t, e.id) != ConnName(t, t.nextId) {
      if ConnName(t, e.id) == ConnName(t, t.nextId) {
        ShortNamesDiffer(t, e.id, t.nextId);
      }
    }
  }

  lemma RemoveHolds(t: Server, live: set<Entry>, e: Entry)
    requires Holds(t, live) && e in live && |t.ipPort| <= 52
    requires forall d :: d in live ==> d.id <= MAX_ID
    requires forall d, f :: d in live && f in live && d.id == f.id ==> d == f
    ensures Holds(RemoveConnection(t, e), live - {e})
  {
    forall d | d in live && d != e ensures ConnName(t, d.id) != ConnName(t, e.id) {
      if ConnName(t, d.id) == ConnName(t, e.id) {
        ShortNamesDiffer(t, d.id, e.id);
      }
    }
  }
}
