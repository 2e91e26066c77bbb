/**
 * Channel (channel.h) and EpollPoller (epollpoller.cpp), updated in place, with the kernel's interest set beside
 * them.
 */
module Pollers {
  import opened PollerSpec

  class Channel {
    const fd: int
    const poller: EpollPoller     // loop_->poller_
    var events: Mask
    var revents: Mask
    var index: int

    /** The new channel joins the channels its poller may be asked about. */
    constructor (poller: EpollPoller, fd: int)
      modifies poller`known
      ensures this.poller == poller && this.fd == fd
      ensures events == NONE_EVENT && index == NEW
      ensures poller.known == old(poller.known) + {this}
    {
      this.poller, this.fd := poller, fd;
      events, revents, index := NONE_EVENT, 0, NEW;
      new;
      poller.known := poller.known + {this};
    }

    predicate IsNoneEvent()
      reads this
    {
      events == NONE_EVENT
    }

    predicate IsWriting()
      reads this
    {
      events & WRITE_EVENT != 0
    }

    method EnableReading()
      requires this in poller.known
      modifies this`events, this`index, poller
      ensures poller.known == old(poller.known)
      ensures poller.View() == Step(old(poller.View()), this, PollerSpec.EnableReading)
    {
      SetAndUpdate(events | READ_EVENT);
    }

    method DisableReading()
      requires this in poller.known
      modifies this`events, this`index, poller
      ensures poller.known == old(poller.known)
      ensures poller.View() == Step(old(poller.View()), this, PollerSpec.DisableReading)
    {
      SetAndUpdate(events & !READ_EVENT);
    }

    method EnableWriting()
      requires this in poller.known
      modifies this`events, this`index, poller
      ensures poller.known == old(poller.known)
      ensures poller.View() == Step(old(poller.View()), this, PollerSpec.EnableWriting)
    {
      SetAndUpdate(events | WRITE_EVENT);
    }

    method DisableWriting()
      requires this in poller.known
      modifies this`events, this`index, poller
      ensures poller.known == old(poller.known)
      ensures poller.View() == Step(old(poller.View()), this, PollerSpec.DisableWriting)
    {
      SetAndUpdate(events & !WRITE_EVENT);
    }

    method DisableAll()
      requires this in poller.known
      modifies this`events, this`index, poller
      ensures poller.known == old(poller.known)
      ensures poller.View() == Step(old(poller.View()), this, PollerSpec.DisableAll)
    {
      SetAndUpdate(NONE_EVENT);
    }

    method Remove()
      requires this in poller.known
      modifies this`index, poller
      ensures poller.known == old(poller.known)
      ensures poller.View() == Step(old(poller.View()), this, PollerSpec.Remove)
    {
      poller.RemoveChannel(this);
    }

    /** Every mask change ends in `Update`. */
    method SetAndUpdate(mask: Mask)
      requires this in poller.known
      modifies this`events, this`index, poller
      ensures poller.known == old(poller.known)
      ensures poller.View() == PollerSpec.UpdateChannel(WithEvents(old(poller.View()), this, mask), this)
    {
      ghost var was := poller.View();
      events := mask;
      assert poller.View() == WithEvents(was, this, mask);
      poller.UpdateChannel(this);
    }
  }

  class EpollPoller {
    ghost var known: set<Channel>
    var channels: map<int, Channel>
    var interest: map<int, (Channel, Mask)>   // the kernel's side
    var refused: nat

    ghost function View(): Poller<Channel>
      reads this, known
    {
      Poller(Chans(), channels, interest, refused)
    }

    ghost function Chans(): map<Channel, Chan>
      reads this`known, known`events, known`index
    {
      map c | c in known :: Chan(c.fd, c.events, c.index)
    }

    constructor ()
      ensures known == {} && Untouched(View())
    {
      known, channels, interest, refused := {}, map[], map[], 0;
    }

    method UpdateChannel(channel: Channel)
      requires channel in known
      modifies this, channel`index
      ensures known == old(known)
      ensures View() == PollerSpec.UpdateChannel(old(View()), channel)
    {
      if channel.index == NEW || channel.index == DELETED {
        if channel.index == NEW {
          channels := channels[channel.fd := channel];
        }
        SetIndex(channel, ADDED);
        Update(Add, channel);
      } else if channel.IsNoneEvent() {
        Update(Del, channel);
        SetIndex(channel, DELETED);
      } else {
        Update(Mod, channel);
      }
    }

    method SetIndex(channel: Channel, index: int)
      requires channel in known
      modifies channel`index
      ensures View() == PollerSpec.SetIndex(old(View()), channel, index)
    {
      channel.index := index;
    }

    method RemoveChannel(channel: Channel)
      requires channel in known
      modifies this, channel`index
      ensures known == old(known)
      ensures View() == PollerSpec.RemoveChannel(old(View()), channel)
    {
      channels := channels - {channel.fd};
      if channel.index == ADDED {
        Update(Del, channel);
      }
      SetIndex(channel, NEW);
    }

    method Update(op: CtlOp, channel: Channel)
      requires channel in known
      modifies this`interest, this`refused
      ensures View() == EpollCtl(old(View()), op, channel)
    {
      var fd := channel.fd;
      if op.Add? == (fd in interest) {
        refused := refused + 1;
      } else if op.Del? {
        interest := interest - {fd};
      } else {
        interest := interest[fd := (channel, channel.events)];
      }
    }

    method HasChannel(channel: Channel) returns (has: bool)
      requires channel in known
      ensures has == PollerSpec.HasChannel(View(), channel)
    {
      has := channel.fd in channels && channels[channel.fd] == channel;
    }

    /** One entry per ready channel: its `revents` set, in the order epoll_wait reported them. */
    method FillActiveChannels(ready: seq<(Channel, Mask)>) returns (active: seq<Channel>)
      requires forall i, j :: 0 <= i < j < |ready| ==> ready[i].0 != ready[j].0
      modifies (set r | r in ready :: r.0)`revents
      ensures |active| == |ready|
      ensures forall i :: 0 <= i < |ready| ==> active[i] == ready[i].0 && active[i].revents == ready[i].1
    {
      active := [];
      for i := 0 to |ready|
        invariant |active| == i
        invariant forall j :: 0 <= j < i ==> active[j] == ready[j].0 && active[j].revents == ready[j].1
      {
        var channel := ready[i].0;
        assert ready[i] in ready;
        channel.revents := ready[i].1;
        active := active + [channel];
      }
    }
  }
}
