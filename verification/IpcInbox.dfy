/**
  The inbox of an actor as a step machine: who may still send (`nsenders`), the
  sockets it reads from, the queue of messages, the fiber that waits in receive,
  and the fibers, of any VM of the process, that wait in send. Sockets become
  readable, senders come and go, and fibers send, receive, are interrupted, or
  close the inbox, in any order.
 */
module IpcInbox {
  import opened Wrappers
  import opened Sequences
  import opened SizeT
  import opened IpcMessage
  import opened IpcDecoders

  type Fiber = nat
  type ServiceId = nat
  type Sender = nat   // a fiber, of any VM of the process, that sends

  /** One call of send from within the process; the ticket tells the calls of a sender apart. */
  datatype Letter = Letter(sender: Sender, ticket: nat, msg: nat)

  /** `sender_state`: a message of the queue. Those from other processes have no sender to wake. */
  datatype Queued = FromProcess(value: Value) | FromActor(letter: Letter)

  datatype Args = NoSenders | ChannelClosed | Interrupted | Delivered(what: Queued)

  datatype Resumed = Resumed(fiber: Fiber, args: Args)

  /** How a send ended. */
  datatype Fate = Sent | SendInterrupted | SendClosed

  /** A resume of a sender, posted to the strand of its VM. */
  datatype Notice = Notice(letter: Letter, fate: Fate)

  /** A closure posted to the strand. The fiber of a resume may be the null pointer. */
  datatype Closure =
    | PostedResume(fiber: Option<Fiber>, args: Args)
    | CheckSenders
    | AddService
    | DeliverLetter(letter: Letter)
    | EraseLetter(letter: Letter)   // an interrupted send; the code knows the sender only

  datatype Reply =
    | Done | Suspended | Got(what: Queued)
    | RaiseChannelClosed | RaiseBusy | RaiseNoSenders | RaiseMayNotSuspend
    | NotEnabled

  /** What the suspension check of the caller says. */
  datatype Gate = MaySuspend(interruptible: bool) | MayNotSuspend

  /** What a wait for readability, and the recvmsg that follows it, come back with. */
  datatype Wait =
    | WaitFailed
    | ReceiveFailed
    | WouldBlock
    | Datagram(members: nat, buf: Bytes, nread: nat, truncated: bool, fds: seq<Fd>)

  datatype Inbox = Inbox(
    open: bool,
    nsenders: nat,
    services: map<ServiceId, bool>,   // the flag is `running`: a wait for readability is under way
    nextService: ServiceId,
    addresses: nat,                   // live addresses of this inbox in this process
    incoming: seq<Queued>,
    receiver: Option<Fiber>,
    guarded: bool,                    // `work_guard` is held
    interrupters: set<Fiber>,         // fibers whose INTERRUPTER slot holds receive's closure
    waiting: set<Fiber>,              // fibers suspended in receive
    posted: seq<Closure>,
    resumed: seq<Resumed>,            // every fiber_resume of a waiting fiber so far
    nullResumes: nat,                 // calls of fiber_resume with a null fiber
    nullWakes: nat,                   // wake-ups through the null VM of a message from another process
    nextTicket: nat,
    sending: set<Letter>,             // the sends that are suspended
    sendInterrupters: map<Sender, Letter>,   // senders whose INTERRUPTER slot holds send's closure
    toSenders: seq<Notice>,           // resumes of senders posted and not run yet, on whatever strand
    told: seq<Notice>)                // those that have been run

  datatype Action =
    | NewAddress | DropAddress
    | SendAddress                     // an address goes to another process: a service will follow
    | SendOwnInbox                    // a fiber sends its own inbox to another process
    | Send(sender: Sender, msg: nat, gate: Gate)
    | InterruptSend(sender: Sender)
    | RunSender(at: nat)              // the strand of some sender runs a resume
    | Receive(fiber: Fiber, gate: Gate)
    | Interrupt(fiber: Fiber)
    | Close
    | RunNext
    | OnWait(service: ServiceId, wait: Wait)

  function Init(): Inbox {
    Inbox(true, 0, map[], 0, 0, [], None, false, {}, {}, [], [], 0, 0, 0, {}, map[], [], [])
  }

  // ---------------------------------------------------------------- on_wait

  function RemoveService(s: Inbox, id: ServiceId): Inbox {
    s.(services := s.services - {id}, nsenders := Decrement(s.nsenders))
  }

  function ReleaseReceiver(s: Inbox): Inbox {
    s.(receiver := None, guarded := false)
  }

  /** `fiber_resume` of a waiting fiber. */
  function Wake(s: Inbox, f: Fiber, args: Args): Inbox {
    s.(resumed := s.resumed + [Resumed(f, args)], waiting := s.waiting - {f}, interrupters := s.interrupters - {f})
  }

  /** The socket is of no use any more; with the last sender gone the receiver learns it. */
  function GiveUp(s: Inbox, id: ServiceId): Inbox {
    var s1 := RemoveService(s, id);
    if s1.nsenders == 0 && s1.receiver.Some? then Wake(ReleaseReceiver(s1), s1.receiver.value, NoSenders) else s1
  }

  predicate WaitOk(w: Wait) {
    w.Datagram? ==> IsBuffer(w.buf, w.members) && w.nread <= |w.buf| && -1 !in w.fds
  }

  /** A datagram too short to hold a message, or cut short by the kernel. */
  predicate Unusable(w: Wait)
    requires w.Datagram?
  {
    w.nread < 16 || w.truncated
  }

  function Deliver(s: Inbox, id: ServiceId, m: Option<Message>): Inbox {
    match s.receiver
    case None =>
      if m.None? then RemoveService(s, id) else s.(incoming := s.incoming + [FromProcess(QueueValue(m.value))])
    case Some(f) =>
      var s1 := ReleaseReceiver(s);
      if m.Some? then Wake(s1, f, Delivered(FromProcess(FiberValue(m.value))))
      else
        var s2 := RemoveService(s1, id);
        if s2.nsenders == 0 then Wake(s2, f, NoSenders) else s2.(receiver := Some(f), guarded := true)
  }

  function DoOnWait(s: Inbox, id: ServiceId, w: Wait): Inbox
    requires WaitOk(w)
  {
    if !s.open then RemoveService(s, id)
    else match w
      case WaitFailed => GiveUp(s, id)
      case ReceiveFailed => GiveUp(s, id)
      case WouldBlock => s
      case Datagram(n, buf, nread, _, fds) =>
        if Unusable(w) then GiveUp(s, id)
        else Deliver(s.(services := s.services[id := false]), id, Parse(buf, n, nread, fds))
  }

  /** All that a wait can come to, whatever the message says. */
  ghost predicate Waited(s: Inbox, id: ServiceId, s': Inbox) {
    || s' == s || s' == RemoveService(s, id) || s' == GiveUp(s, id)
    || exists m :: Takes(s, id, m, s')
  }

  ghost predicate Takes(s: Inbox, id: ServiceId, m: Option<Message>, s': Inbox) {
    s' == Deliver(s.(services := s.services[id := false]), id, m)
  }

  lemma OnWaitOutcome(s: Inbox, id: ServiceId, w: Wait)
    requires WaitOk(w)
    ensures Waited(s, id, DoOnWait(s, id, w))
  {
    if s.open && w.Datagram? && !Unusable(w) {
      var m := Parse(w.buf, w.members, w.nread, w.fds);
      assert Takes(s, id, m, DoOnWait(s, id, w));
    }
  }

  // ---------------------------------------------------------------- receive and the rest

  function Post(s: Inbox, p: Closure): Inbox {
    s.(posted := s.posted + [p])
  }

  /** The sender of a message that leaves the queue learns how its send ended. */
  function Notify(s: Inbox, l: Letter, fate: Fate): Inbox {
    s.(toSenders := s.toSenders + [Notice(l, fate)])
  }

  function AllWaitedFor(services: map<ServiceId, bool>): map<ServiceId, bool> {
    map id | id in services :: true
  }

  function DoReceive(s: Inbox, f: Fiber, gate: Gate): (Inbox, Reply) {
    if gate.MayNotSuspend? then (s, RaiseMayNotSuspend)
    else if !s.open then (s, RaiseChannelClosed)
    else if s.receiver.Some? then (s, RaiseBusy)
    else if s.incoming != [] then
      var s1 := s.(incoming := s.incoming[1..]);
      (match s.incoming[0]
       case FromProcess(_) => s1
       case FromActor(l) => Notify(s1, l, Sent),
       Got(s.incoming[0]))
    else if s.nsenders == 0 then (s, RaiseNoSenders)
    else
      (s.(services := AllWaitedFor(s.services), receiver := Some(f), guarded := true,
          interrupters := if gate.interruptible then s.interrupters + {f} else s.interrupters,
          waiting := s.waiting + {f}), Suspended)
  }

  /** The closure that receive leaves in the INTERRUPTER slot does not look for its own fiber. */
  function DoInterrupt(s: Inbox, f: Fiber): Inbox {
    if f !in s.interrupters then s
    else Post(ReleaseReceiver(s), PostedResume(s.receiver, Interrupted)).(interrupters := s.interrupters - {f})
  }

  /** What the destructors of queued messages post when the queue is cleared. */
  function Notices(incoming: seq<Queued>): seq<Notice> {
    if incoming == [] then []
    else
      (match incoming[0]
       case FromProcess(_) => []
       case FromActor(l) => [Notice(l, SendClosed)]) + Notices(incoming[1..])
  }

  /** Those that have no VM to post to: a null pointer is followed. */
  function Foreign(incoming: seq<Queued>): nat {
    if incoming == [] then 0 else (if incoming[0].FromProcess? then 1 else 0) + Foreign(incoming[1..])
  }

  function DoClose(s: Inbox): Inbox {
    if !s.open then s
    else
      var s1 := if s.receiver.None? then s else Post(ReleaseReceiver(s), PostedResume(s.receiver, ChannelClosed));
      s1.(open := false, incoming := [], toSenders := s1.toSenders + Notices(s1.incoming),
          nullWakes := s1.nullWakes + Foreign(s1.incoming))
  }

  // ---------------------------------------------------------------- send

  function DoSend(s: Inbox, q: Sender, msg: nat, gate: Gate): (Inbox, Reply) {
    if gate.MayNotSuspend? then (s, RaiseMayNotSuspend)
    else
      var l := Letter(q, s.nextTicket, msg);
      (Post(s, DeliverLetter(l)).(nextTicket := s.nextTicket + 1, sending := s.sending + {l},
         sendInterrupters := if gate.interruptible then s.sendInterrupters[q := l] else s.sendInterrupters), Suspended)
  }

  /** The interrupter of send asks the strand of the inbox to take the message back. */
  function DoInterruptSend(s: Inbox, q: Sender): Inbox {
    if q !in s.sendInterrupters then s
    else Post(s, EraseLetter(s.sendInterrupters[q])).(sendInterrupters := s.sendInterrupters - {q})
  }

  function DoDeliver(s: Inbox, l: Letter): Inbox {
    if !s.open then Notify(s, l, SendClosed)
    else match s.receiver
      case None => s.(incoming := s.incoming + [FromActor(l)])
      case Some(f) => Notify(Wake(ReleaseReceiver(s), f, Delivered(FromActor(l))), l, Sent)
  }

  /** The first message of `q` in the queue, if there is one. */
  function FindSender(incoming: seq<Queued>, q: Sender): (i: nat)
    ensures i <= |incoming|
    ensures i < |incoming| ==> incoming[i].FromActor? && incoming[i].letter.sender == q
    ensures forall k :: 0 <= k < i ==> !(incoming[k].FromActor? && incoming[k].letter.sender == q)
  {
    if incoming == [] then 0
    else if incoming[0].FromActor? && incoming[0].letter.sender == q then 0
    else 1 + FindSender(incoming[1..], q)
  }

  function DoErase(s: Inbox, q: Sender): Inbox {
    var i := FindSender(s.incoming, q);
    if i == |s.incoming| then s
    else Notify(s.(incoming := Omit(s.incoming, i)), s.incoming[i].letter, SendInterrupted)
  }

  /** `fiber_resume` of a sender. */
  function DoRunSender(s: Inbox, at: nat): Inbox
    requires at < |s.toSenders|
  {
    var n := s.toSenders[at];
    s.(toSenders := Omit(s.toSenders, at), told := s.told + [n],
       sending := s.sending - {n.letter}, sendInterrupters := s.sendInterrupters - {n.letter.sender})
  }

  // ---------------------------------------------------------------- addresses, and the strand

  /** The destructor of an address. */
  function DoDropAddress(s: Inbox): Inbox
    requires s.addresses > 0
  {
    var s1 := s.(addresses := s.addresses - 1, nsenders := Decrement(s.nsenders));
    if s1.nsenders != 0 then s1 else Post(s1, CheckSenders)
  }

  function DoRunNext(s: Inbox): Inbox
    requires s.posted != []
  {
    var s1 := s.(posted := s.posted[1..]);
    match s.posted[0]
    case PostedResume(None, _) => s1.(nullResumes := s1.nullResumes + 1)
    case PostedResume(Some(f), args) => Wake(s1, f, args)
    case CheckSenders =>
      if s1.nsenders != 0 || s1.receiver.None? then s1 else Wake(ReleaseReceiver(s1), s1.receiver.value, NoSenders)
    case AddService =>
      // waits for readability at once when a fiber is receiving
      s1.(services := s1.services[s1.nextService := s1.receiver.Some?], nextService := s1.nextService + 1)
    case DeliverLetter(l) => DoDeliver(s1, l)
    case EraseLetter(l) => DoErase(s1, l.sender)
  }

  predicate Enabled(s: Inbox, a: Action) {
    match a
    case DropAddress => s.addresses > 0
    case Receive(f, _) => f !in s.waiting   // a suspended fiber makes no calls
    case Send(q, _, _) => forall l :: l in s.sending ==> l.sender != q
    case RunSender(at) => at < |s.toSenders|
    case RunNext => s.posted != []
    case OnWait(id, w) => id in s.services && s.services[id] && WaitOk(w)
    case _ => true
  }

  function Perform(s: Inbox, a: Action): (Inbox, Reply)
    requires Enabled(s, a)
  {
    match a
    case NewAddress => (s.(addresses := s.addresses + 1, nsenders := s.nsenders + 1), Done)
    case DropAddress => (DoDropAddress(s), Done)
    case SendAddress => (Post(s, AddService).(nsenders := s.nsenders + 1), Done)
    case SendOwnInbox =>
      (s.(services := s.services[s.nextService := false], nextService := s.nextService + 1,
          nsenders := s.nsenders + 1), Done)
    case Send(q, m, g) => DoSend(s, q, m, g)
    case InterruptSend(q) => (DoInterruptSend(s, q), Done)
    case RunSender(at) => (DoRunSender(s, at), Done)
    case Receive(f, g) => DoReceive(s, f, g)
    case Interrupt(f) => (DoInterrupt(s, f), Done)
    case Close => (DoClose(s), Done)
    case RunNext => (DoRunNext(s), Done)
    case OnWait(id, w) => (DoOnWait(s, id, w), Done)
  }

  function Next(s: Inbox, a: Action): Inbox {
    if Enabled(s, a) then Perform(s, a).0 else s
  }

  function Exec(s: Inbox, run: seq<Action>): Inbox
    decreases |run|
  {
    if run == [] then s else Exec(Next(s, run[0]), run[1..])
  }

  // ---------------------------------------------------------------- the invariant

  function Arriving(posted: seq<Closure>): nat {
    if posted == [] then 0 else (if posted[0].AddService? then 1 else 0) + Arriving(posted[1..])
  }

  function ResumesOf(posted: seq<Closure>, f: Fiber): nat {
    if posted == [] then 0
    else (if posted[0].PostedResume? && posted[0].fiber == Some(f) then 1 else 0) + ResumesOf(posted[1..], f)
  }

  /** Each sender is an address, a service, or a service about to be added. */
  ghost predicate SendersOk(s: Inbox) {
    && s.nsenders == s.addresses + |s.services| + Arriving(s.posted)
    && (forall id :: id in s.services ==> id < s.nextService)
  }

  /** A registered receiver can count on a sender, or on the check that will tell it there is none. */
  ghost predicate ReceiverOk(s: Inbox) {
    && (s.receiver.Some? ==> s.open && (s.nsenders > 0 || CheckSenders in s.posted))
    && s.guarded == s.receiver.Some?
    && (s.open || s.incoming == [])
  }

  /** A waiting fiber is registered, or named by exactly one posted resume; other fibers are neither. */
  ghost predicate WaitingOk(s: Inbox) {
    forall f: Fiber :: ResumesOf(s.posted, f) + (if s.receiver == Some(f) then 1 else 0) == if f in s.waiting then 1 else 0
  }

  /** While the inbox is open, only the registered receiver can be interrupted out of receive. */
  ghost predicate InterruptersOk(s: Inbox) {
    s.interrupters <= s.waiting && (s.open ==> forall f :: f in s.interrupters ==> s.receiver == Some(f))
  }

  ghost predicate Inv(s: Inbox) {
    SendersOk(s) && ReceiverOk(s) && WaitingOk(s) && InterruptersOk(s)
  }

  // ---------------------------------------------------------------- lemmas about the parts

  lemma {:induction false} ArrivingAppend(posted: seq<Closure>, p: Closure)
    ensures Arriving(posted + [p]) == Arriving(posted) + if p.AddService? then 1 else 0
  {
    if posted == [] {
      assert [p][1..] == [];
    } else {
      ArrivingAppend(posted[1..], p);
      assert (posted + [p])[1..] == posted[1..] + [p];
    }
  }

  lemma {:induction false} ResumesAppend(posted: seq<Closure>, p: Closure, f: Fiber)
    ensures ResumesOf(posted + [p], f) == ResumesOf(posted, f) + if p.PostedResume? && p.fiber == Some(f) then 1 else 0
  {
    if posted == [] {
      assert [p][1..] == [];
    } else {
      ResumesAppend(posted[1..], p, f);
      assert (posted + [p])[1..] == posted[1..] + [p];
    }
  }

  lemma Posted(s: Inbox, p: Closure)
    ensures Arriving(Post(s, p).posted) == Arriving(s.posted) + if p.AddService? then 1 else 0
    ensures forall f: Fiber :: ResumesOf(Post(s, p).posted, f)
                               == ResumesOf(s.posted, f) + if p.PostedResume? && p.fiber == Some(f) then 1 else 0
    ensures forall q :: q in s.posted ==> q in Post(s, p).posted
  {
    ArrivingAppend(s.posted, p);
    forall f: Fiber
      ensures ResumesOf(Post(s, p).posted, f)
              == ResumesOf(s.posted, f) + if p.PostedResume? && p.fiber == Some(f) then 1 else 0
    {
      ResumesAppend(s.posted, p, f);
    }
  }

  lemma ServicesLess(services: map<ServiceId, bool>, id: ServiceId)
    requires id in services
    ensures |services - {id}| == |services| - 1
  {
    assert (services - {id}).Keys == services.Keys - {id};
  }

  // ---------------------------------------------------------------- every action keeps the invariant

  /** What on_wait relies on and hands back when it removes a service. */
  lemma RemoveKeeps(s: Inbox, id: ServiceId)
    requires SendersOk(s) && id in s.services
    ensures SendersOk(RemoveService(s, id)) && RemoveService(s, id).nsenders == s.nsenders - 1
  {
    ServicesLess(s.services, id);
  }

  lemma WakeReceiverKeeps(s: Inbox, f: Fiber, args: Args)
    requires WaitingOk(s) && InterruptersOk(s) && s.receiver == Some(f)
    ensures WaitingOk(Wake(ReleaseReceiver(s), f, args)) && InterruptersOk(Wake(ReleaseReceiver(s), f, args))
  {}

  lemma GiveUpKeeps(s: Inbox, id: ServiceId)
    requires Inv(s) && id in s.services && s.open
    ensures Inv(GiveUp(s, id))
  {
    RemoveKeeps(s, id);
    var s1 := RemoveService(s, id);
    assert WaitingOk(s1) && InterruptersOk(s1);
    if s1.nsenders == 0 && s1.receiver.Some? {
      WakeReceiverKeeps(s1, s1.receiver.value, NoSenders);
    }
  }

  lemma DeliverKeeps(s: Inbox, id: ServiceId, m: Option<Message>)
    requires Inv(s) && id in s.services && s.open
    ensures Inv(Deliver(s, id, m))
  {
    RemoveKeeps(s, id);
    match s.receiver
    case None =>
      if m.None? {
        assert WaitingOk(RemoveService(s, id)) && InterruptersOk(RemoveService(s, id));
      } else {
        var s' := Deliver(s, id, m);
        assert WaitingOk(s') && InterruptersOk(s');
      }
    case Some(f) =>
      if m.Some? {
        WakeReceiverKeeps(s, f, Delivered(FromProcess(FiberValue(m.value))));
      } else {
        var s2 := RemoveService(s, id);
        assert WaitingOk(s2) && InterruptersOk(s2);
        WakeReceiverKeeps(s2, f, NoSenders);
        assert ReleaseReceiver(s2) == RemoveService(ReleaseReceiver(s), id);
        if s2.nsenders != 0 {
          assert Deliver(s, id, m) == s2;
        }
      }
  }

  lemma OnWaitKeeps(s: Inbox, id: ServiceId, w: Wait)
    requires Inv(s) && id in s.services && WaitOk(w)
    ensures Inv(DoOnWait(s, id, w))
  {
    if !s.open {
      RemoveKeeps(s, id);
      var s' := RemoveService(s, id);
      assert WaitingOk(s') && InterruptersOk(s');
    } else {
      GiveUpKeeps(s, id);
      if w.Datagram? && !Unusable(w) {
        var s1 := s.(services := s.services[id := false]);
        assert SendersOk(s1) && WaitingOk(s1) && InterruptersOk(s1);
        DeliverKeeps(s1, id, Parse(w.buf, w.members, w.nread, w.fds));
      }
    }
  }

  lemma AddressesKeep(s: Inbox, a: Action)
    requires Inv(s) && Enabled(s, a) && (a.NewAddress? || a.DropAddress? || a.SendAddress? || a.SendOwnInbox?)
    ensures Inv(Next(s, a))
  {
    var s' := Next(s, a);
    Posted(s, CheckSenders);
    Posted(s, AddService);
    assert SendersOk(s');
    assert ReceiverOk(s') by {
      assert CheckSenders in (s.posted + [CheckSenders]);
    }
    assert WaitingOk(s') && InterruptersOk(s');
  }

  lemma ReceiveKeeps(s: Inbox, f: Fiber, gate: Gate)
    requires Inv(s) && f !in s.waiting
    ensures Inv(DoReceive(s, f, gate).0)
  {
    var s' := DoReceive(s, f, gate).0;
    if s'.receiver != s.receiver {
      assert s'.services.Keys == s.services.Keys;
      assert |s'.services| == |s.services|;
      assert SendersOk(s');
    }
    assert WaitingOk(s');
  }

  lemma InterruptKeeps(s: Inbox, f: Fiber)
    requires Inv(s)
    ensures Inv(DoInterrupt(s, f))
  {
    Posted(s, PostedResume(s.receiver, Interrupted));
    var s' := DoInterrupt(s, f);
    assert SendersOk(s') && ReceiverOk(s') && WaitingOk(s') && InterruptersOk(s');
  }

  lemma CloseKeeps(s: Inbox)
    requires Inv(s)
    ensures Inv(DoClose(s))
  {
    Posted(s, PostedResume(s.receiver, ChannelClosed));
    var s' := DoClose(s);
    assert SendersOk(s') && ReceiverOk(s') && WaitingOk(s') && InterruptersOk(s');
  }

  /** The front of the strand gone: what its closure stood for has to be made good. */
  lemma Popped(s: Inbox)
    requires s.posted != []
    ensures var p, rest := s.posted[0], s.posted[1..];
            && Arriving(s.posted) == Arriving(rest) + (if p.AddService? then 1 else 0)
            && (forall f: Fiber :: ResumesOf(s.posted, f)
                                   == ResumesOf(rest, f) + if p.PostedResume? && p.fiber == Some(f) then 1 else 0)
            && (p != CheckSenders && CheckSenders in s.posted ==> CheckSenders in rest)
  {
    assert s.posted == [s.posted[0]] + s.posted[1..];
  }

  lemma RanResume(s: Inbox)
    requires Inv(s) && s.posted != [] && s.posted[0].PostedResume?
    ensures Inv(DoRunNext(s))
  {
    Popped(s);
    var s' := DoRunNext(s);
    assert SendersOk(s') && ReceiverOk(s') && WaitingOk(s') && InterruptersOk(s');
  }

  lemma RanCheck(s: Inbox)
    requires Inv(s) && s.posted != [] && s.posted[0].CheckSenders?
    ensures Inv(DoRunNext(s))
  {
    Popped(s);
    var s' := DoRunNext(s);
    assert SendersOk(s') && ReceiverOk(s') && WaitingOk(s') && InterruptersOk(s');
  }

  lemma RanAddService(s: Inbox)
    requires Inv(s) && s.posted != [] && s.posted[0].AddService?
    ensures Inv(DoRunNext(s))
  {
    Popped(s);
    var s' := DoRunNext(s);
    assert SendersOk(s') && ReceiverOk(s') && WaitingOk(s') && InterruptersOk(s');
  }

  lemma RanLetter(s: Inbox)
    requires Inv(s) && s.posted != [] && (s.posted[0].DeliverLetter? || s.posted[0].EraseLetter?)
    ensures Inv(DoRunNext(s))
  {
    Popped(s);
    var s1, s' := s.(posted := s.posted[1..]), DoRunNext(s);
    assert SendersOk(s1) && ReceiverOk(s1) && WaitingOk(s1) && InterruptersOk(s1);
    if s.posted[0].DeliverLetter? && s.open && s.receiver.Some? {
      WakeReceiverKeeps(s1, s.receiver.value, Delivered(FromActor(s.posted[0].letter)));
    }
    assert SendersOk(s') && ReceiverOk(s') && WaitingOk(s') && InterruptersOk(s');
  }

  lemma RunNextKeeps(s: Inbox)
    requires Inv(s) && s.posted != []
    ensures Inv(DoRunNext(s))
  {
    match s.posted[0]
    case PostedResume(_, _) => RanResume(s);
    case CheckSenders => RanCheck(s);
    case AddService => RanAddService(s);
    case _ => RanLetter(s);
  }

  /** What send and its interrupter post concerns no receiver and no address. */
  lemma LetterPosted(s: Inbox, s': Inbox, p: Closure)
    requires Inv(s) && (p.DeliverLetter? || p.EraseLetter?)
    requires s' == Post(s, p).(nextTicket := s'.nextTicket, sending := s'.sending, sendInterrupters := s'.sendInterrupters)
    ensures Inv(s')
  {
    Posted(s, p);
    assert SendersOk(s') && ReceiverOk(s') && WaitingOk(s') && InterruptersOk(s');
  }

  lemma SendKeeps(s: Inbox, a: Action)
    requires Inv(s) && Enabled(s, a) && (a.Send? || a.InterruptSend? || a.RunSender?)
    ensures Inv(Next(s, a))
  {
    var s' := Next(s, a);
    match a
    case Send(q, m, _) =>
      if s' != s {
        LetterPosted(s, s', DeliverLetter(Letter(q, s.nextTicket, m)));
      }
    case InterruptSend(q) =>
      if s' != s {
        LetterPosted(s, s', EraseLetter(s.sendInterrupters[q]));
      }
    case RunSender(at) => assert SendersOk(s') && ReceiverOk(s') && WaitingOk(s') && InterruptersOk(s');
  }

  lemma StepKeeps(s: Inbox, a: Action)
    requires Inv(s)
    ensures Inv(Next(s, a))
  {
    if Enabled(s, a) {
      match a
      case Receive(f, g) => ReceiveKeeps(s, f, g);
      case Interrupt(f) => InterruptKeeps(s, f);
      case Close => CloseKeeps(s);
      case RunNext => RunNextKeeps(s);
      case OnWait(id, w) => OnWaitKeeps(s, id, w);
      case NewAddress => AddressesKeep(s, a);
      case DropAddress => AddressesKeep(s, a);
      case SendAddress => AddressesKeep(s, a);
      case SendOwnInbox => AddressesKeep(s, a);
      case _ => SendKeeps(s, a);
    }
  }

  lemma {:induction false} RunKeeps(s: Inbox, run: seq<Action>)
    requires Inv(s)
    ensures Inv(Exec(s, run))
    decreases |run|
  {
    if run != [] {
      StepKeeps(s, run[0]);
      RunKeeps(Next(s, run[0]), run[1..]);
    }
  }

  /** The invariant holds after every run of a new inbox. */
  lemma ReachableInv(run: seq<Action>)
    ensures Inv(Exec(Init(), run))
  {
    RunKeeps(Init(), run);
  }
}
