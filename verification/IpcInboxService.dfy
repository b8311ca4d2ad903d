/** The inbox as fields updated in place; each method performs the action of the same name in `IpcInbox`. */
module IpcInboxService {
  import opened Wrappers
  import opened Sequences
  import opened SizeT
  import opened IpcMessage
  import opened IpcDecoders
  import opened IpcInbox

  /** Ancillary data of a datagram; only SCM_RIGHTS carries descriptors. */
  datatype ControlMessage = ControlMessage(isRights: bool, fds: seq<Fd>)

  /** What recvmsg comes back with. */
  datatype Received =
    | Failed(wouldBlock: bool)
    | Message(members: nat, buf: Bytes, nread: nat, truncated: bool, control: seq<ControlMessage>)

  /** The descriptors of one control message that are there at all. */
  function Present(fds: seq<Fd>): (r: seq<Fd>)
    ensures -1 !in r
    ensures forall fd :: fd in r <==> fd in fds && fd != -1
  {
    if fds == [] then []
    else (if fds[0] == -1 then [] else [fds[0]]) + Present(fds[1..])
  }

  function Rights(control: seq<ControlMessage>): (r: seq<Fd>)
    ensures -1 !in r
  {
    if control == [] then []
    else (if control[0].isRights then Present(control[0].fds) else []) + Rights(control[1..])
  }

  function AsWait(failed: bool, r: Received): Wait {
    if failed then WaitFailed
    else match r
      case Failed(wouldBlock) => if wouldBlock then WouldBlock else ReceiveFailed
      case Message(n, buf, nread, truncated, control) => Datagram(n, buf, nread, truncated, Rights(control))
  }

  /** The value that a wait hands to the queue or to the receiver. */
  function Handed(s: Inbox, w: Wait): Option<Value>
    requires WaitOk(w)
  {
    if !s.open || !w.Datagram? || w.nread < 16 || w.truncated then None
    else
      var m := Parse(w.buf, w.members, w.nread, w.fds);
      if m.None? then None
      else Some(if s.receiver.None? then QueueValue(m.value) else FiberValue(m.value))
  }

  lemma {:induction false} PresentAppend(fds: seq<Fd>, fd: Fd)
    ensures Present(fds + [fd]) == Present(fds) + if fd == -1 then [] else [fd]
  {
    if fds == [] {
      assert [fd][1..] == [];
    } else {
      PresentAppend(fds[1..], fd);
      assert (fds + [fd])[1..] == fds[1..] + [fd];
    }
  }

  lemma {:induction false} RightsAppend(control: seq<ControlMessage>, c: ControlMessage)
    ensures Rights(control + [c]) == Rights(control) + if c.isRights then Present(c.fds) else []
  {
    if control == [] {
      assert [c][1..] == [];
    } else {
      RightsAppend(control[1..], c);
      assert (control + [c])[1..] == control[1..] + [c];
    }
  }

  lemma {:induction false} RightsConcat(a: seq<ControlMessage>, b: seq<ControlMessage>)
    ensures Rights(a + b) == Rights(a) + Rights(b)
    decreases |a|
  {
    if a == [] {
      assert a + b == b;
    } else {
      RightsConcat(a[1..], b);
      ConcatRest(a, b);
      ConcatAssociative(if a[0].isRights then Present(a[0].fds) else [], Rights(a[1..]), Rights(b));
    }
  }

  lemma {:induction false} PresentConcat(a: seq<Fd>, b: seq<Fd>)
    ensures Present(a + b) == Present(a) + Present(b)
    decreases |a|
  {
    if a == [] {
      assert a + b == b;
    } else {
      PresentConcat(a[1..], b);
      ConcatRest(a, b);
      ConcatAssociative(if a[0] == -1 then [] else [a[0]], Present(a[1..]), Present(b));
    }
  }

  lemma {:induction false} AllPresent(fds: seq<Fd>)
    requires -1 !in fds
    ensures Present(fds) == fds
  {
    if fds != [] {
      AllPresent(fds[1..]);
    }
  }

  lemma RightsOfOne(c: ControlMessage)
    ensures Rights([c]) == if c.isRights then Present(c.fds) else []
  {
    assert [c][1..] == [];
  }

  lemma PresentMiddle(fds: seq<Fd>, more: seq<Fd>)
    requires -1 !in fds
    ensures Present(fds + [-1] + more) == fds + Present(more)
  {
    PresentConcat(fds + [-1], more);
    PresentAppend(fds, -1);
    AllPresent(fds);
  }

  /** Descriptors are collected message by message and one after another: those of rights messages that are there. */
  lemma RightsInOrder(a: seq<ControlMessage>, b: seq<ControlMessage>, fds: seq<Fd>, more: seq<Fd>)
    requires -1 !in fds
    ensures Rights(a + b) == Rights(a) + Rights(b)
    ensures Rights([ControlMessage(true, fds)]) == fds && Rights([ControlMessage(false, fds)]) == []
    ensures Rights([ControlMessage(true, fds + [-1] + more)]) == fds + Rights([ControlMessage(true, more)])
  {
    RightsConcat(a, b);
    AllPresent(fds);
    PresentMiddle(fds, more);
    RightsOfOne(ControlMessage(true, fds));
    RightsOfOne(ControlMessage(false, fds));
    RightsOfOne(ControlMessage(true, more));
    RightsOfOne(ControlMessage(true, fds + [-1] + more));
  }

  /** Which of the outcomes of a wait this is. */
  lemma WaitOutcome(failed: bool, r: Received)
    ensures var w := AsWait(failed, r);
            && (w.WaitFailed? <==> failed)
            && (w.WouldBlock? <==> !failed && r == Failed(true))
            && (w.ReceiveFailed? <==> !failed && r == Failed(false))
            && (w.Datagram? ==>
                  r == Message(w.members, w.buf, w.nread, w.truncated, r.control) && w.fds == Rights(r.control))
  {}

  /** The inner loop over the descriptors of one control message. */
  method AppendPresent(before: seq<Fd>, fds: seq<Fd>) returns (r: seq<Fd>)
    ensures r == before + Present(fds)
  {
    r := before;
    var i := 0;
    while i < |fds|
      invariant i <= |fds| && r == before + Present(fds[..i])
    {
      assert fds[..i + 1] == fds[..i] + [fds[i]];
      PresentAppend(fds[..i], fds[i]);
      if fds[i] != -1 {
        r := r + [fds[i]];
      }
      i := i + 1;
    }
    assert fds[..i] == fds;
  }

  /** Walks the control messages of a datagram. */
  method CollectFds(control: seq<ControlMessage>) returns (fds: seq<Fd>)
    ensures fds == Rights(control)
  {
    fds := [];
    var c := 0;
    while c < |control|
      invariant c <= |control| && fds == Rights(control[..c])
    {
      assert control[..c + 1] == control[..c] + [control[c]];
      RightsAppend(control[..c], control[c]);
      if control[c].isRights {
        fds := AppendPresent(fds, control[c].fds);
      }
      c := c + 1;
    }
    assert control[..c] == control;
  }

  class VmInbox {
    var open: bool
    var nsenders: nat
    var services: map<ServiceId, bool>
    var nextService: ServiceId
    var addresses: nat
    var incoming: seq<Queued>
    var receiver: Option<Fiber>
    var guarded: bool
    var interrupters: set<Fiber>
    var waiting: set<Fiber>
    var posted: seq<Closure>
    var resumed: seq<Resumed>
    var nullResumes: nat
    var nullWakes: nat
    var nextTicket: nat
    var sending: set<Letter>
    var sendInterrupters: map<Sender, Letter>
    var toSenders: seq<Notice>
    var told: seq<Notice>

    ghost function View(): Inbox
      reads this
    {
      Inbox(open, nsenders, services, nextService, addresses, incoming, receiver, guarded, interrupters, waiting,
            posted, resumed, nullResumes, nullWakes, nextTicket, sending, sendInterrupters, toSenders, told)
    }

    constructor ()
      ensures View() == Init()
    {
      open, nsenders, services, nextService, addresses := true, 0, map[], 0, 0;
      incoming, receiver, guarded, interrupters, waiting := [], None, false, {}, {};
      posted, resumed, nullResumes, nullWakes := [], [], 0, 0;
      nextTicket, sending, sendInterrupters, toSenders, told := 0, {}, map[], [], [];
    }

    method RemoveService(id: ServiceId)
      modifies this`services, this`nsenders
      ensures View() == IpcInbox.RemoveService(old(View()), id)
    {
      services := services - {id};
      nsenders := Decrement(nsenders);
    }

    method ReleaseReceiver()
      modifies this`receiver, this`guarded
      ensures View() == IpcInbox.ReleaseReceiver(old(View()))
    {
      receiver := None;
      guarded := false;
    }

    method Wake(f: Fiber, args: Args)
      modifies this`resumed, this`waiting, this`interrupters
      ensures View() == IpcInbox.Wake(old(View()), f, args)
    {
      resumed := resumed + [Resumed(f, args)];
      waiting := waiting - {f};
      interrupters := interrupters - {f};
    }

    method GiveUp(id: ServiceId)
      modifies this
      ensures View() == IpcInbox.GiveUp(old(View()), id)
    {
      var f := receiver;
      RemoveService(id);
      if nsenders == 0 && f.Some? {
        ReleaseReceiver();
        Wake(f.value, NoSenders);
      }
    }

    /** A message arrived while nobody was receiving. */
    method Enqueue(id: ServiceId, n: nat, buf: Bytes, nread: nat, fds: seq<Fd>) returns (closed: multiset<Fd>)
      requires receiver.None? && IsBuffer(buf, n) && 16 <= nread <= |buf| && -1 !in fds
      modifies this
      ensures var m := Parse(buf, n, nread, fds);
              && View() == IpcInbox.Deliver(old(View()), id, m)
              && multiset(fds) == closed + OwnedBy(if m.None? then None else Some(QueueValue(m.value)))
    {
      var r;
      r, closed := DecodeForQueue(buf, n, nread, fds);
      if r.None? {
        RemoveService(id);
      } else {
        incoming := incoming + [FromProcess(r.value)];
      }
    }

    /** A message arrived for the fiber that was receiving. */
    method HandOver(id: ServiceId, f: Fiber, n: nat, buf: Bytes, nread: nat, fds: seq<Fd>)
      returns (closed: multiset<Fd>)
      requires receiver == Some(f) && IsBuffer(buf, n) && 16 <= nread <= |buf| && -1 !in fds
      modifies this
      ensures var m := Parse(buf, n, nread, fds);
              && View() == IpcInbox.Deliver(old(View()), id, m)
              && multiset(fds) == closed + OwnedBy(if m.None? then None else Some(FiberValue(m.value)))
    {
      ReleaseReceiver();
      var r;
      r, closed := DecodeForFiber(buf, n, nread, fds);
      if r.Some? {
        Wake(f, Delivered(FromProcess(r.value)));
      } else {
        RemoveService(id);
        if nsenders == 0 {
          Wake(f, NoSenders);
        } else {
          receiver := Some(f);
          guarded := true;
        }
      }
    }

    /**
      `ipc_actor_inbox_op::on_wait`. Every descriptor that came with a message is afterwards owned by the
      value handed on, or closed: never both, never neither.
     */
    method OnWait(id: ServiceId, failed: bool, r: Received) returns (closed: multiset<Fd>)
      requires id in services && services[id] && WaitOk(AsWait(failed, r))
      modifies this
      ensures View() == DoOnWait(old(View()), id, AsWait(failed, r))
      ensures var w := AsWait(failed, r);
              if old(open) && w.Datagram? then multiset(w.fds) == closed + OwnedBy(Handed(old(View()), w))
              else closed == multiset{}
    {
      closed := multiset{};
      if !open {
        RemoveService(id);
        return;
      }
      if failed {
        GiveUp(id);
        return;
      }
      match r
      case Failed(wouldBlock) =>
        if !wouldBlock {
          GiveUp(id);
        }
      case Message(n, buf, nread, truncated, control) =>
        var fds := CollectFds(control);
        if nread < 16 || truncated {
          closed := CloseRest(fds, fds, 0);
          assert fds[0..] == fds;
          GiveUp(id);
          return;
        }
        services := services[id := false];
        if receiver.None? {
          closed := Enqueue(id, n, buf, nread, fds);
        } else {
          closed := HandOver(id, receiver.value, n, buf, nread, fds);
        }
    }

    method Notify(l: Letter, fate: Fate)
      modifies this`toSenders
      ensures View() == IpcInbox.Notify(old(View()), l, fate)
    {
      toSenders := toSenders + [Notice(l, fate)];
    }

    method Receive(f: Fiber, gate: Gate) returns (r: Reply)
      modifies this
      ensures (View(), r) == DoReceive(old(View()), f, gate)
    {
      if gate.MayNotSuspend? {
        return RaiseMayNotSuspend;
      }
      if !open {
        return RaiseChannelClosed;
      }
      if receiver.Some? {
        return RaiseBusy;
      }
      if |incoming| != 0 {
        r := TakeFront();
        return;
      }
      if nsenders == 0 {
        return RaiseNoSenders;
      }
      Register(f, gate.interruptible);
      r := Suspended;
    }

    /** Takes the oldest message; its sender learns that it was taken. */
    method TakeFront() returns (r: Reply)
      requires |incoming| > 0
      modifies this`incoming, this`toSenders
      ensures r == Got(old(incoming)[0])
      ensures var s1 := old(View()).(incoming := old(incoming)[1..]);
              View() == match r.what
                        case FromProcess(_) => s1
                        case FromActor(l) => IpcInbox.Notify(s1, l, Sent)
    {
      var sender := incoming[0];
      incoming := incoming[1..];
      if sender.FromActor? {
        Notify(sender.letter, Sent);
      }
      r := Got(sender);
    }

    /** The fiber is to wait, and so is every socket. */
    method Register(f: Fiber, interruptible: bool)
      modifies this`interrupters, this`services, this`receiver, this`guarded, this`waiting
      ensures View() == old(View()).(services := AllWaitedFor(old(services)), receiver := Some(f), guarded := true,
                                     interrupters := if interruptible then old(interrupters) + {f} else old(interrupters),
                                     waiting := old(waiting) + {f})
    {
      if interruptible {
        interrupters := interrupters + {f};
      }
      services := AllWaitedFor(services);
      receiver := Some(f);
      guarded := true;
      waiting := waiting + {f};
    }

    method Interrupt(f: Fiber)
      modifies this
      ensures View() == DoInterrupt(old(View()), f)
    {
      if f in interrupters {
        var taken := receiver;
        ReleaseReceiver();
        posted := posted + [PostedResume(taken, Interrupted)];
        interrupters := interrupters - {f};
      }
    }

    method Close()
      modifies this
      ensures View() == DoClose(old(View()))
    {
      if !open {
        return;
      }
      if receiver.Some? {
        posted := posted + [PostedResume(receiver, ChannelClosed)];
        ReleaseReceiver();
      }
      open := false;
      ClearQueue();
    }

    /** The destructors of the queued messages, in order. */
    method ClearQueue()
      modifies this`incoming, this`toSenders, this`nullWakes
      ensures View() == old(View()).(incoming := [], toSenders := old(toSenders) + Notices(old(incoming)),
                                     nullWakes := old(nullWakes) + Foreign(old(incoming)))
    {
      while |incoming| > 0
        invariant View() == old(View()).(incoming := incoming, toSenders := toSenders, nullWakes := nullWakes)
        invariant toSenders + Notices(incoming) == old(toSenders) + Notices(old(incoming))
        invariant nullWakes + Foreign(incoming) == old(nullWakes) + Foreign(old(incoming))
        decreases |incoming|
      {
        var m := incoming[0];
        match m {
          case FromProcess(_) => nullWakes := nullWakes + 1;
          case FromActor(l) => Notify(l, SendClosed);
        }
        incoming := incoming[1..];
      }
    }

    method Send(q: Sender, msg: nat, gate: Gate) returns (r: Reply)
      requires forall l :: l in sending ==> l.sender != q
      modifies this
      ensures (View(), r) == DoSend(old(View()), q, msg, gate)
    {
      if gate.MayNotSuspend? {
        return RaiseMayNotSuspend;
      }
      var l := Letter(q, nextTicket, msg);
      nextTicket := nextTicket + 1;
      if gate.interruptible {
        sendInterrupters := sendInterrupters[q := l];
      }
      posted := posted + [DeliverLetter(l)];
      sending := sending + {l};
      r := Suspended;
    }

    method InterruptSend(q: Sender)
      modifies this
      ensures View() == DoInterruptSend(old(View()), q)
    {
      if q in sendInterrupters {
        posted := posted + [EraseLetter(sendInterrupters[q])];
        sendInterrupters := sendInterrupters - {q};
      }
    }

    method RunSender(at: nat)
      requires at < |toSenders|
      modifies this
      ensures View() == DoRunSender(old(View()), at)
    {
      var n := toSenders[at];
      toSenders := Omit(toSenders, at);
      told := told + [n];
      sending := sending - {n.letter};
      sendInterrupters := sendInterrupters - {n.letter.sender};
    }

    /** The closure that send posts: to the receiver, or to the queue; a closed inbox takes nothing. */
    method Deliver(l: Letter)
      modifies this
      ensures View() == DoDeliver(old(View()), l)
    {
      if !open {
        Notify(l, SendClosed);
      } else if receiver.None? {
        incoming := incoming + [FromActor(l)];
      } else {
        var f := receiver.value;
        ReleaseReceiver();
        Wake(f, Delivered(FromActor(l)));
        Notify(l, Sent);
      }
    }

    /** The closure that the interrupter of send posts: `std::find`, then `erase`. */
    method Erase(q: Sender)
      modifies this
      ensures View() == DoErase(old(View()), q)
    {
      var i := 0;
      while i < |incoming| && !(incoming[i].FromActor? && incoming[i].letter.sender == q)
        invariant i <= |incoming|
        invariant forall k :: 0 <= k < i ==> !(incoming[k].FromActor? && incoming[k].letter.sender == q)
      {
        i := i + 1;
      }
      if i < |incoming| {
        var l := incoming[i].letter;
        incoming := Omit(incoming, i);
        Notify(l, SendInterrupted);
      }
    }

    method NewAddress()
      modifies this
      ensures View() == Next(old(View()), IpcInbox.NewAddress)
    {
      addresses := addresses + 1;
      nsenders := nsenders + 1;
    }

    /** The address goes to another process; the service for it is added later, on the strand. */
    method SendAddress()
      modifies this
      ensures View() == Next(old(View()), IpcInbox.SendAddress)
    {
      nsenders := nsenders + 1;
      posted := posted + [AddService];
    }

    /** A fiber of this VM sends its own inbox: the service is added at once, and nothing waits on it yet. */
    method SendOwnInbox()
      modifies this
      ensures View() == Next(old(View()), IpcInbox.SendOwnInbox)
    {
      nsenders := nsenders + 1;
      services := services[nextService := false];
      nextService := nextService + 1;
    }

    method DropAddress()
      requires addresses > 0
      modifies this
      ensures View() == DoDropAddress(old(View()))
    {
      addresses := addresses - 1;
      nsenders := Decrement(nsenders);
      if nsenders == 0 {
        posted := posted + [CheckSenders];
      }
    }

    method RunNext()
      requires |posted| > 0
      modifies this
      ensures View() == DoRunNext(old(View()))
    {
      var next := posted[0];
      posted := posted[1..];
      match next
      case PostedResume(None, _) => nullResumes := nullResumes + 1;
      case PostedResume(Some(f), args) => Wake(f, args);
      case CheckSenders =>
        if nsenders == 0 && receiver.Some? {
          var f := receiver.value;
          ReleaseReceiver();
          Wake(f, NoSenders);
        }
      case AddService =>
        services := services[nextService := receiver.Some?];
        nextService := nextService + 1;
      case DeliverLetter(l) => Deliver(l);
      case EraseLetter(l) => Erase(l.sender);
    }
  }
}
