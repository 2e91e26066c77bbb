/** The channel index machine of epollpoller.cpp together with the kernel's interest set, as values. */
module PollerSpec {
  type Mask = bv32
  const NONE_EVENT: Mask := 0
  const READ_EVENT: Mask := 3     // EPOLLIN | EPOLLPRI
  const WRITE_EVENT: Mask := 4    // EPOLLOUT

  const NEW: int := -1
  const ADDED: int := 1
  const DELETED: int := 2

  datatype Chan = Chan(fd: int, events: Mask, index: int)

  datatype CtlOp = Add | Mod | Del

  /**
   * `T` names a channel: the kernel hands the channel's address back with each event. `refused` counts the epoll_ctl
   * calls the kernel turned down.
   */
  datatype Poller<T(==)> = Poller(
    chans: map<T, Chan>,
    channels: map<int, T>,
    interest: map<int, (T, Mask)>,
    refused: nat)

  datatype ChannelOp = EnableReading | DisableReading | EnableWriting | DisableWriting | DisableAll | Remove

  function NewMask(op: ChannelOp, m: Mask): Mask {
    match op
    case EnableReading => m | READ_EVENT
    case DisableReading => m & !READ_EVENT
    case EnableWriting => m | WRITE_EVENT
    case DisableWriting => m & !WRITE_EVENT
    case DisableAll => NONE_EVENT
    case Remove => m
  }

  predicate Reads(m: Mask) {
    m & READ_EVENT == READ_EVENT
  }

  predicate Writes(m: Mask) {
    m & WRITE_EVENT == WRITE_EVENT
  }

  lemma ReadBits(m: Mask)
    ensures (m | 3) & 3 == 3 && (m | 3) & 4 == m & 4
    ensures (m & 0xffff_fffc) & 3 == 0 && (m & 0xffff_fffc) & 4 == m & 4
  {
  }

  lemma WriteBits(m: Mask)
    ensures (m | 4) & 4 == 4 && (m | 4) & 3 == m & 3
    ensures (m & 0xffff_fffb) & 4 == 0 && (m & 0xffff_fffb) & 3 == m & 3
  {
  }

  /** Reading is switched without writing. */
  lemma ReadingApart(m: Mask)
    ensures Reads(NewMask(EnableReading, m)) && !Reads(NewMask(DisableReading, m))
    ensures Writes(NewMask(EnableReading, m)) <==> Writes(m)
    ensures Writes(NewMask(DisableReading, m)) <==> Writes(m)
  {
    ReadBits(m);
  }

  /** Writing is switched without reading. */
  lemma WritingApart(m: Mask)
    ensures Writes(NewMask(EnableWriting, m)) && !Writes(NewMask(DisableWriting, m))
    ensures Reads(NewMask(EnableWriting, m)) <==> Reads(m)
    ensures Reads(NewMask(DisableWriting, m)) <==> Reads(m)
  {
    WriteBits(m);
  }

  /** `Update`: one epoll_ctl call with the channel's current events. ADD needs the fd absent, MOD and DEL present. */
  function EpollCtl<T>(p: Poller<T>, op: CtlOp, c: T): Poller<T>
    requires c in p.chans
  {
    var fd, events := p.chans[c].fd, p.chans[c].events;
    if op.Add? == (fd in p.interest) then p.(refused := p.refused + 1)
    else if op.Del? then p.(interest := p.interest - {fd})
    else p.(interest := p.interest[fd := (c, events)])
  }

  /** The kernel takes an ADD of an absent fd and a MOD or DEL of a present one, and refuses the rest unchanged. */
  lemma EpollCtlExact<T>(p: Poller<T>, op: CtlOp, c: T)
    requires c in p.chans
    ensures var r, fd := EpollCtl(p, op, c), p.chans[c].fd;
      && (r.refused == p.refused <==> (op.Add? <==> fd !in p.interest))
      && (r.refused != p.refused ==> r.refused == p.refused + 1 && r.interest == p.interest)
      && (r.refused == p.refused ==> (fd in r.interest <==> !op.Del?))
      && (r.refused == p.refused && !op.Del? ==> r.interest[fd] == (c, p.chans[c].events))
  {
  }

  function SetIndex<T>(p: Poller<T>, c: T, index: int): Poller<T>
    requires c in p.chans
  {
    p.(chans := p.chans[c := p.chans[c].(index := index)])
  }

  function UpdateChannel<T>(p: Poller<T>, c: T): (r: Poller<T>)
    requires c in p.chans
    ensures r.chans.Keys == p.chans.Keys
  {
    var ch := p.chans[c];
    if ch.index == NEW || ch.index == DELETED then
      var q := if ch.index == NEW then p.(channels := p.channels[ch.fd := c]) else p;
      EpollCtl(SetIndex(q, c, ADDED), Add, c)
    else if ch.events == NONE_EVENT then
      SetIndex(EpollCtl(p, Del, c), c, DELETED)
    else
      EpollCtl(p, Mod, c)
  }

  function RemoveChannel<T>(p: Poller<T>, c: T): (r: Poller<T>)
    requires c in p.chans
    ensures r.chans.Keys == p.chans.Keys
  {
    var q := p.(channels := p.channels - {p.chans[c].fd});
    SetIndex(if p.chans[c].index == ADDED then EpollCtl(q, Del, c) else q, c, NEW)
  }

  function WithEvents<T>(p: Poller<T>, c: T, m: Mask): Poller<T>
    requires c in p.chans
  {
    p.(chans := p.chans[c := p.chans[c].(events := m)])
  }

  /** One call on a channel: the mask changes, then the poller is told. */
  function Step<T>(p: Poller<T>, c: T, op: ChannelOp): (r: Poller<T>)
    requires c in p.chans
    ensures r.chans.Keys == p.chans.Keys
  {
    if op.Remove? then RemoveChannel(p, c)
    else UpdateChannel(WithEvents(p, c, NewMask(op, p.chans[c].events)), c)
  }

  ghost predicate OnKnown<T>(p: Poller<T>, ops: seq<(T, ChannelOp)>) {
    forall i :: 0 <= i < |ops| ==> ops[i].0 in p.chans
  }

  function Run<T>(p: Poller<T>, ops: seq<(T, ChannelOp)>): (r: Poller<T>)
    requires OnKnown(p, ops)
    decreases |ops|
  {
    if ops == [] then p
    else
      assert OnKnown(Step(p, ops[0].0, ops[0].1), ops[1..]);
      Run(Step(p, ops[0].0, ops[0].1), ops[1..])
  }

  predicate HasChannel<T(==)>(p: Poller<T>, c: T)
    requires c in p.chans
  {
    p.chans[c].fd in p.channels && p.channels[p.chans[c].fd] == c
  }

  ghost predicate DistinctFds<T>(p: Poller<T>) {
    forall c, d :: c in p.chans && d in p.chans && c != d ==> p.chans[c].fd != p.chans[d].fd
  }

  /** The poller knows no other channel with the fd of `c`: whoever used it before has been removed. */
  ghost predicate NobodyElse<T>(p: Poller<T>, c: T)
    requires c in p.chans
  {
    forall d :: d in p.chans && d != c && p.chans[d].fd == p.chans[c].fd ==> p.chans[d].index == NEW
  }

  /** Fds are used one after the other: every call finds its fd free of other channels. */
  ghost predicate OneByOne<T>(p: Poller<T>, ops: seq<(T, ChannelOp)>)
    requires OnKnown(p, ops)
    decreases |ops|
  {
    ops == [] ||
    (NobodyElse(p, ops[0].0) &&
     assert OnKnown(Step(p, ops[0].0, ops[0].1), ops[1..]);
     OneByOne(Step(p, ops[0].0, ops[0].1), ops[1..]))
  }

  /** No channel has been shown to the poller yet. */
  ghost predicate Untouched<T>(p: Poller<T>) {
    && (forall c :: c in p.chans ==> p.chans[c].index == NEW && p.chans[c].events == NONE_EVENT)
    && p.channels == map[] && p.interest == map[] && p.refused == 0
  }

  /** What the poller knows of one channel is what the kernel knows of it. */
  ghost predicate AgreesOn<T>(p: Poller<T>, c: T)
    requires c in p.chans
  {
    var ch := p.chans[c];
    && (ch.index == NEW || ch.index == ADDED || ch.index == DELETED)
    && (ch.index == ADDED ==> ch.fd in p.interest && p.interest[ch.fd] == (c, ch.events))
    && (ch.index != ADDED ==> ch.fd in p.interest ==> p.interest[ch.fd].0 != c)
    && (HasChannel(p, c) <==> ch.index != NEW)
  }

  /** The interest set is exactly the ADDED channels, each with its current mask. */
  ghost predicate Agrees<T>(p: Poller<T>) {
    && (forall c :: c in p.chans ==> AgreesOn(p, c))
    && (forall fd :: fd in p.interest ==> p.interest[fd].0 in p.chans && p.chans[p.interest[fd].0].fd == fd)
    && (forall fd :: fd in p.channels ==> p.channels[fd] in p.chans && p.chans[p.channels[fd]].fd == fd)
  }

  /** `r` differs from `p` at most in channel `c` and in the entries under its fd, which are its own. */
  ghost predicate OnlyAt<T>(p: Poller<T>, r: Poller<T>, c: T)
    requires c in p.chans
  {
    var fd := p.chans[c].fd;
    && c in r.chans && r.chans == p.chans[c := r.chans[c]] && r.chans[c].fd == fd
    && r.interest - {fd} == p.interest - {fd}
    && r.channels - {fd} == p.channels - {fd}
    && (fd in r.interest ==> r.interest[fd].0 == c)
    && (fd in r.channels ==> r.channels[fd] == c)
  }

  lemma SameElsewhere<V>(m: map<int, V>, n: map<int, V>, at: int, k: int)
    requires m - {at} == n - {at}
    ensures k != at ==> (k in m <==> k in n) && (k in m ==> m[k] == n[k])
  {
    if k != at {
      assert k in m <==> k in m - {at};
      assert k in n <==> k in n - {at};
    }
  }

  lemma OtherAgrees<T>(p: Poller<T>, r: Poller<T>, c: T, d: T)
    requires c in p.chans && d in p.chans && d != c && NobodyElse(p, c) && AgreesOn(p, d) && OnlyAt(p, r, c)
    ensures AgreesOn(r, d)
  {
    SameElsewhere(p.interest, r.interest, p.chans[c].fd, p.chans[d].fd);
    SameElsewhere(p.channels, r.channels, p.chans[c].fd, p.chans[d].fd);
  }

  /** Only `c` and the entries under its fd changed, and `c` agrees: then all channels still do. */
  lemma OthersAgree<T>(p: Poller<T>, r: Poller<T>, c: T)
    requires c in p.chans && NobodyElse(p, c) && Agrees(p)
    requires OnlyAt(p, r, c) && AgreesOn(r, c)
    ensures Agrees(r)
  {
    var fd := p.chans[c].fd;
    forall d | d in r.chans && d != c ensures AgreesOn(r, d) {
      OtherAgrees(p, r, c, d);
    }
    forall f | f in r.interest ensures r.interest[f].0 in r.chans && r.chans[r.interest[f].0].fd == f {
      SameElsewhere(p.interest, r.interest, fd, f);
    }
    forall f | f in r.channels ensures r.channels[f] in r.chans && r.chans[r.channels[f]].fd == f {
      SameElsewhere(p.channels, r.channels, fd, f);
    }
  }

  /** The entries under the fd of `c`, if any, are its own. */
  ghost predicate OwnsFd<T>(p: Poller<T>, c: T)
    requires c in p.chans
  {
    var fd := p.chans[c].fd;
    (fd in p.interest ==> p.interest[fd].0 == c) && (fd in p.channels ==> p.channels[fd] == c)
  }

  lemma NobodyElseOwns<T>(p: Poller<T>, c: T)
    requires c in p.chans && NobodyElse(p, c) && Agrees(p)
    ensures OwnsFd(p, c)
  {
    var fd := p.chans[c].fd;
    if fd in p.interest {
      assert AgreesOn(p, p.interest[fd].0);
    }
    if fd in p.channels {
      assert AgreesOn(p, p.channels[fd]);
    }
  }

  /** The poller is told of a new mask. */
  lemma UpdateOn<T>(p: Poller<T>, c: T, m: Mask)
    requires c in p.chans && AgreesOn(p, c) && OwnsFd(p, c)
    ensures var r := UpdateChannel(WithEvents(p, c, m), c);
      AgreesOn(r, c) && OnlyAt(p, r, c) && r.refused == p.refused
  {
    var ch := p.chans[c];
    var r := UpdateChannel(WithEvents(p, c, m), c);
    if ch.index == ADDED && m == NONE_EVENT {
      assert r == Poller(p.chans[c := Chan(ch.fd, m, DELETED)], p.channels, p.interest - {ch.fd}, p.refused);
    } else {
      assert r.chans == p.chans[c := Chan(ch.fd, m, ADDED)];
      assert r.interest == p.interest[ch.fd := (c, m)];
    }
  }

  lemma RemoveOn<T>(p: Poller<T>, c: T)
    requires c in p.chans && AgreesOn(p, c) && OwnsFd(p, c)
    ensures var r := RemoveChannel(p, c);
      AgreesOn(r, c) && OnlyAt(p, r, c) && r.refused == p.refused
  {
  }

  /** A call that finds its fd free of other channels keeps the agreement, touches no other channel and is legal. */
  lemma StepAgrees<T>(p: Poller<T>, c: T, op: ChannelOp)
    requires c in p.chans && NobodyElse(p, c) && Agrees(p)
    ensures var r := Step(p, c, op); Agrees(r) && r.refused == p.refused
    ensures Step(p, c, op).chans == p.chans[c := Step(p, c, op).chans[c]]
    ensures Step(p, c, op).chans[c].fd == p.chans[c].fd
  {
    NobodyElseOwns(p, c);
    if op.Remove? {
      RemoveOn(p, c);
    } else {
      UpdateOn(p, c, NewMask(op, p.chans[c].events));
    }
    OthersAgree(p, Step(p, c, op), c);
  }

  /** A call on a channel while the poller knows another with the same fd makes that one disagree, whatever the call. */
  lemma SharedFdDisagrees<T>(p: Poller<T>, c: T, d: T, op: ChannelOp)
    requires c in p.chans && d in p.chans && d != c && p.chans[d].fd == p.chans[c].fd
    requires AgreesOn(p, c) && AgreesOn(p, d) && p.chans[d].index != NEW
    ensures !AgreesOn(Step(p, c, op), d)
  {
    var fd, r := p.chans[c].fd, Step(p, c, op);
    assert p.channels[fd] == d;
    assert p.chans[c].index == NEW;
    assert r.chans[d] == p.chans[d];
    assert fd in r.channels ==> r.channels[fd] == c;
  }

  /** Agreement outlives a call exactly when the poller knows no other channel with its fd. */
  lemma StepAgreesExactly<T>(p: Poller<T>, c: T, op: ChannelOp)
    requires c in p.chans && Agrees(p)
    ensures Agrees(Step(p, c, op)) <==> NobodyElse(p, c)
    ensures NobodyElse(p, c) ==> Step(p, c, op).refused == p.refused
  {
    if NobodyElse(p, c) {
      StepAgrees(p, c, op);
    } else {
      var d :| d in p.chans && d != c && p.chans[d].fd == p.chans[c].fd && p.chans[d].index != NEW;
      SharedFdDisagrees(p, c, d, op);
    }
  }

  /**
   * Over every sequence of mask changes and removals that uses its fds one after the other the poller agrees with the
   * kernel and no call is refused.
   */
  lemma {:induction false} RunAgrees<T>(p: Poller<T>, ops: seq<(T, ChannelOp)>)
    requires OnKnown(p, ops) && OneByOne(p, ops) && Agrees(p)
    ensures Agrees(Run(p, ops)) && Run(p, ops).refused == p.refused
    decreases |ops|
  {
    if ops != [] {
      StepAgrees(p, ops[0].0, ops[0].1);
      assert OnKnown(Step(p, ops[0].0, ops[0].1), ops[1..]);
      RunAgrees(Step(p, ops[0].0, ops[0].1), ops[1..]);
    }
  }

  lemma UpdateKeepsFd<T>(p: Poller<T>, c: T)
    requires c in p.chans
    ensures var r := UpdateChannel(p, c); r.chans == p.chans[c := r.chans[c]] && r.chans[c].fd == p.chans[c].fd
  {
  }

  lemma StepKeepsFds<T>(p: Poller<T>, c: T, op: ChannelOp)
    requires c in p.chans && DistinctFds(p)
    ensures DistinctFds(Step(p, c, op))
  {
    var r := Step(p, c, op);
    if !op.Remove? {
      UpdateKeepsFd(WithEvents(p, c, NewMask(op, p.chans[c].events)), c);
    }
    assert r.chans == p.chans[c := r.chans[c]];
  }

  /** Channels that never share an fd use them one after the other in every order of calls. */
  lemma {:induction false} DistinctAreOneByOne<T>(p: Poller<T>, ops: seq<(T, ChannelOp)>)
    requires OnKnown(p, ops) && DistinctFds(p)
    ensures OneByOne(p, ops)
    decreases |ops|
  {
    if ops != [] {
      StepKeepsFds(p, ops[0].0, ops[0].1);
      assert OnKnown(Step(p, ops[0].0, ops[0].1), ops[1..]);
      DistinctAreOneByOne(Step(p, ops[0].0, ops[0].1), ops[1..]);
    }
  }

  /** With a shared fd two EnableReading calls clash. */
  lemma SharedFdClashes<T>(p: Poller<T>, c: T, d: T) returns (ops: seq<(T, ChannelOp)>)
    requires Untouched(p) && c in p.chans && d in p.chans && c != d && p.chans[c].fd == p.chans[d].fd
    ensures OnKnown(p, ops) && Run(p, ops).refused == 1
  {
    ops := [(c, EnableReading), (d, EnableReading)];
    var one := Step(p, c, EnableReading);
    assert one.chans[c].fd in one.interest;
    var two := Step(one, d, EnableReading);
    assert two.refused == 1;
    assert ops[1..] == [(d, EnableReading)];
    assert Run(p, ops) == Run(one, ops[1..]) == two;
  }

  /** Distinct fds are exactly what makes every sequence of calls legal, whatever its order. */
  lemma LegalIffDistinct<T(!new)>(p: Poller<T>)
    requires Untouched(p)
    ensures DistinctFds(p) <==> (forall ops | OnKnown(p, ops) :: Run(p, ops).refused == 0)
  {
    if DistinctFds(p) {
      forall ops | OnKnown(p, ops) ensures Run(p, ops).refused == 0 {
        DistinctAreOneByOne(p, ops);
        RunAgrees(p, ops);
      }
    } else {
      var c, d :| c in p.chans && d in p.chans && c != d && p.chans[c].fd == p.chans[d].fd;
      var ops := SharedFdClashes(p, c, d);
    }
  }
}
