/**
  In which order messages are read, which send an interruption takes back, and
  the message that closing the inbox cannot cope with.
 */
module IpcInboxOrder {
  import opened Wrappers
  import opened Sequences
  import opened IpcMessage
  import opened IpcDecoders
  import opened IpcSender
  import opened IpcInbox
  import opened IpcInboxMail

  // ---------------------------------------------------------------- the order of messages

  /** The message of a datagram, as it reaches the queue or the receiver. */
  function Arriving(s: Inbox, w: Wait): seq<Queued>
    requires WaitOk(w)
  {
    if !s.open || !w.Datagram? || w.nread < 16 || w.truncated then []
    else
      var m := Parse(w.buf, w.members, w.nread, w.fds);
      if m.None? then []
      else [FromProcess(if s.receiver.None? then QueueValue(m.value) else FiberValue(m.value))]
  }

  /** The message that reaches the open inbox in this step. */
  function ArrivedBy(s: Inbox, a: Action): seq<Queued> {
    if !Enabled(s, a) then []
    else match a
      case OnWait(_, w) => Arriving(s, w)
      case RunNext => if s.posted[0].DeliverLetter? && s.open then [FromActor(s.posted[0].letter)] else []
      case _ => []
  }

  function ArrivedIn(s: Inbox, run: seq<Action>): seq<Queued>
    decreases |run|
  {
    if run == [] then [] else ArrivedBy(s, run[0]) + ArrivedIn(Next(s, run[0]), run[1..])
  }

  /** What was queued and what arrives is what is handed over and what stays queued, in this order. */
  ghost predicate InOrder(incoming: seq<Queued>, arrived: seq<Queued>, handed: seq<Queued>, incoming': seq<Queued>) {
    incoming + arrived == handed + incoming'
  }

  lemma MessageInOrder(s: Inbox, id: ServiceId, m: Option<Message>)
    requires s.receiver.Some? ==> s.incoming == []
    ensures var arrived := if m.None? then []
              else [FromProcess(if s.receiver.None? then QueueValue(m.value) else FiberValue(m.value))];
            InOrder(s.incoming, arrived, Brought(s.resumed, Deliver(s, id, m).resumed), Deliver(s, id, m).incoming)
  {
    var s' := Deliver(s, id, m);
    if m.Some? {
      MessageBrings(s, id, m);
    } else {
      assert Brought(s.resumed, s'.resumed) == [];
    }
  }

  lemma WaitInOrder(s: Inbox, id: ServiceId, w: Wait)
    requires WaitOk(w) && (s.receiver.Some? ==> s.incoming == [])
    ensures var s' := DoOnWait(s, id, w);
            InOrder(s.incoming, Arriving(s, w), Brought(s.resumed, s'.resumed), s'.incoming)
  {
    if s.open && w.Datagram? && !Unusable(w) {
      var s1, m := s.(services := s.services[id := false]), Parse(w.buf, w.members, w.nread, w.fds);
      MessageInOrder(s1, id, m);
      assert DoOnWait(s, id, w) == Deliver(s1, id, m);
    } else {
      OtherWaitInOrder(s, id, w);
    }
  }

  lemma OtherWaitInOrder(s: Inbox, id: ServiceId, w: Wait)
    requires WaitOk(w) && !(s.open && w.Datagram? && !Unusable(w))
    ensures Brought(s.resumed, DoOnWait(s, id, w).resumed) == [] && DoOnWait(s, id, w).incoming == s.incoming
  {}

  lemma DeliverInOrder(s: Inbox, l: Letter)
    requires s.receiver.Some? ==> s.incoming == []
    ensures var s' := DoDeliver(s, l);
            InOrder(s.incoming, if s.open then [FromActor(l)] else [], Brought(s.resumed, s'.resumed), s'.incoming)
  {}

  lemma ReceiveInOrder(s: Inbox, f: Fiber, gate: Gate)
    ensures var (s', r) := DoReceive(s, f, gate);
            InOrder(s.incoming, [], if r.Got? then [r.what] else [], s'.incoming) && s'.resumed == s.resumed
  {
    if s.incoming != [] {
      assert s.incoming == [s.incoming[0]] + s.incoming[1..];
    }
  }

  lemma OthersInOrder(s: Inbox, a: Action)
    requires Enabled(s, a) && !a.Receive? && !a.Close? && !a.RunNext? && !a.OnWait?
    ensures Next(s, a).resumed == s.resumed && Next(s, a).incoming == s.incoming
  {}

  /** A message that nobody will read leaves the queue. */
  lemma EraseDrops(s: Inbox, q: Sender)
    ensures DoErase(s, q).resumed == s.resumed && Subsequence(DoErase(s, q).incoming, s.incoming)
  {
    var i := FindSender(s.incoming, q);
    if i < |s.incoming| {
      OmitSubsequence(s.incoming, i);
    } else {
      SubsequenceSelf(s.incoming);
    }
  }

  lemma InOrderIsOrdered(incoming: seq<Queued>, arrived: seq<Queued>, handed: seq<Queued>, incoming': seq<Queued>)
    requires InOrder(incoming, arrived, handed, incoming')
    ensures Subsequence(handed + incoming', incoming + arrived)
  {
    SubsequenceSelf(incoming + arrived);
  }

  lemma OnlyDropped(incoming: seq<Queued>, incoming': seq<Queued>)
    requires Subsequence(incoming', incoming)
    ensures Subsequence([] + incoming', incoming + [])
  {
    assert [] + incoming' == incoming' && incoming + [] == incoming;
  }

  lemma RunNextOrdered(s: Inbox)
    requires MailInv(s) && s.posted != []
    ensures var s' := DoRunNext(s);
            Subsequence(Brought(s.resumed, s'.resumed) + s'.incoming, s.incoming + ArrivedBy(s, RunNext))
  {
    var s1, s' := s.(posted := s.posted[1..]), DoRunNext(s);
    match s.posted[0]
    case DeliverLetter(l) =>
      DeliverInOrder(s1, l);
      InOrderIsOrdered(s.incoming, ArrivedBy(s, RunNext), Brought(s.resumed, s'.resumed), s'.incoming);
    case EraseLetter(l) =>
      EraseDrops(s1, l.sender);
      OnlyDropped(s.incoming, s'.incoming);
    case _ =>
      ClosureSucceeds(s);
      RanElsewhere(s);
      SubsequenceSelf(s.incoming);
      OnlyDropped(s.incoming, s'.incoming);
  }

  lemma CloseOrdered(s: Inbox)
    ensures DoClose(s).resumed == s.resumed && Subsequence(DoClose(s).incoming, s.incoming)
  {
    SubsequenceSelf(s.incoming);
  }

  /** Handed over and queued, or dropped from the queue, but never overtaken. */
  lemma StepOrdered(s: Inbox, a: Action)
    requires MailInv(s)
    ensures Subsequence(HandedBy(s, a) + Next(s, a).incoming, s.incoming + ArrivedBy(s, a))
  {
    if !Enabled(s, a) {
      SubsequenceSelf(s.incoming);
      OnlyDropped(s.incoming, s.incoming);
    } else if a.Receive? {
      ReceiveInOrder(s, a.fiber, a.gate);
      InOrderIsOrdered(s.incoming, [], HandedBy(s, a), Next(s, a).incoming);
    } else {
      HandedByResume(s, a);
      ResumingStepOrdered(s, a);
    }
  }

  lemma ResumingStepOrdered(s: Inbox, a: Action)
    requires MailInv(s) && Enabled(s, a) && !a.Receive?
    ensures Subsequence(Brought(s.resumed, Next(s, a).resumed) + Next(s, a).incoming, s.incoming + ArrivedBy(s, a))
  {
    match a
    case RunNext => RunNextOrdered(s);
    case OnWait(id, w) =>
      WaitInOrder(s, id, w);
      InOrderIsOrdered(s.incoming, Arriving(s, w), Brought(s.resumed, DoOnWait(s, id, w).resumed), DoOnWait(s, id, w).incoming);
    case Close =>
      CloseOrdered(s);
      OnlyDropped(s.incoming, DoClose(s).incoming);
    case _ =>
      OthersInOrder(s, a);
      SubsequenceSelf(s.incoming);
      OnlyDropped(s.incoming, s.incoming);
  }

  /**
    Over any run, the messages handed to fibers that receive, and then those still queued, are those that were
    queued and those that arrived, in the order of their arrival, less those taken back or dropped by close.
   */
  lemma {:induction false} MessagesInOrder(s: Inbox, run: seq<Action>)
    requires Inv(s) && MailInv(s)
    ensures Subsequence(HandedIn(s, run) + Exec(s, run).incoming, s.incoming + ArrivedIn(s, run))
    decreases |run|
  {
    if run == [] {
      SubsequenceSelf(s.incoming);
      assert [] + s.incoming == s.incoming + [];
      assert s.incoming + [] == s.incoming;
    } else {
      var s1 := Next(s, run[0]);
      StepKeeps(s, run[0]);
      StepKeepsMail(s, run[0]);
      StepOrdered(s, run[0]);
      MessagesInOrder(s1, run[1..]);
      SubsequenceChain(s.incoming, ArrivedBy(s, run[0]), HandedBy(s, run[0]), s1.incoming,
                       ArrivedIn(s1, run[1..]), HandedIn(s1, run[1..]), Exec(s1, run[1..]).incoming);
    }
  }

  // ---------------------------------------------------------------- which send is taken back

  /**
    The erasure that an interrupted send has posted looks for the sender only, but what it finds, if anything, is
    that very send, never a later one of the same sender.
   */
  lemma InterruptTakesItsSend(run: seq<Action>, l: Letter)
    requires Exec(Init(), run).posted != [] && Exec(Init(), run).posted[0] == EraseLetter(l)
    ensures var s := Exec(Init(), run);
            var s' := Next(s, RunNext);
            if FromActor(l) in s.incoming
            then s'.toSenders == s.toSenders + [Notice(l, SendInterrupted)]
                 && exists i: nat :: i < |s.incoming| && s.incoming[i] == FromActor(l) && s'.incoming == Omit(s.incoming, i)
            else s' == s.(posted := s.posted[1..])
  {
    ReachableMail(run);
    var s := Exec(Init(), run);
    var i := FindSender(s.incoming, l.sender);
    if i < |s.incoming| {
      assert s.incoming[i] in s.incoming && s.posted[0] in s.posted;
      assert SameSend(s.incoming[i].letter, l);
      assert s.incoming[i] == FromActor(l);
    }
  }

  // ---------------------------------------------------------------- a queue that cannot be closed

  lemma {:induction false} ForeignIff(incoming: seq<Queued>)
    ensures Foreign(incoming) > 0 <==> exists m :: m in incoming && m.FromProcess?
    decreases |incoming|
  {
    if incoming != [] {
      ForeignIff(incoming[1..]);
    }
  }

  lemma OnWaitFollows(s: Inbox, id: ServiceId, w: Wait)
    requires WaitOk(w)
    ensures DoOnWait(s, id, w).nullWakes == s.nullWakes
  {
    OnWaitOutcome(s, id, w);
    WaitedFollows(s, id, DoOnWait(s, id, w));
  }

  lemma WaitedFollows(s: Inbox, id: ServiceId, s': Inbox)
    requires Waited(s, id, s')
    ensures s'.nullWakes == s.nullWakes
  {}

  lemma RunNextFollows(s: Inbox)
    requires s.posted != []
    ensures DoRunNext(s).nullWakes == s.nullWakes
  {}

  lemma OthersFollow(s: Inbox, a: Action)
    requires Enabled(s, a) && !a.Close? && !a.OnWait? && !a.RunNext?
    ensures Next(s, a).nullWakes == s.nullWakes
  {}

  /** A null pointer is followed exactly by closing an inbox while a message from another process is queued. */
  lemma NullWakeIff(s: Inbox, a: Action)
    ensures Next(s, a).nullWakes > s.nullWakes <==>
              a.Close? && s.open && exists m :: m in s.incoming && m.FromProcess?
    ensures Next(s, a).nullWakes >= s.nullWakes
  {
    if Enabled(s, a) {
      match a
      case Close => ForeignIff(s.incoming);
      case OnWait(id, w) => OnWaitFollows(s, id, w);
      case RunNext => RunNextFollows(s);
      case _ => OthersFollow(s, a);
    }
  }

  /** A datagram that holds `true`, in a buffer for three members. */
  function SomeMessage(): Wait {
    var wire := EncodeFlat(Boolean(true), 3);
    Datagram(3, wire.bytes + Repeat(0, 1560 - |wire.bytes|), |wire.bytes|, false, [])
  }

  lemma SomeMessageArrives(s: Inbox, id: ServiceId)
    requires s.open && s.receiver.None?
    ensures WaitOk(SomeMessage())
    ensures DoOnWait(s, id, SomeMessage()) ==
              s.(services := s.services[id := false], incoming := s.incoming + [FromProcess(Leaf(Boolean(true)))])
  {
    var w, wire := SomeMessage(), EncodeFlat(Boolean(true), 3);
    assert wire.bytes <= w.buf;
    FlatRoundTrip(Boolean(true), 3, w.buf);
    assert Parse(w.buf, 3, w.nread, w.fds) == Some(Flat(Boolean(true)));
  }

  /** It happens: the receiver is interrupted, a message arrives for nobody, and the inbox is closed. */
  lemma NullWakeHappens()
    ensures var run := [SendAddress, RunNext, Receive(0, MaySuspend(true)), Interrupt(0), OnWait(0, SomeMessage()), Close];
            Exec(Init(), run).nullWakes == 1
  {
    var receive := Receive(0, MaySuspend(true));
    var s1 := Next(Init(), SendAddress);
    var s2 := Next(s1, RunNext);
    assert s2.services == map[0 := false];
    ExecFirst(Init(), SendAddress, [RunNext, receive, Interrupt(0), OnWait(0, SomeMessage()), Close]);
    ExecFirst(s1, RunNext, [receive, Interrupt(0), OnWait(0, SomeMessage()), Close]);
    AbandonedThenClosed(s2);
  }

  lemma AbandonedThenClosed(s: Inbox)
    requires s.open && s.receiver.None? && s.incoming == [] && s.nsenders == 1 && 0 !in s.waiting && 0 in s.services
    ensures Exec(s, [Receive(0, MaySuspend(true)), Interrupt(0), OnWait(0, SomeMessage()), Close]).nullWakes
            == s.nullWakes + 1
  {
    var receive := Receive(0, MaySuspend(true));
    var s1 := Next(s, receive);
    assert s1.services[0] && s1.receiver == Some(0) && 0 in s1.interrupters;
    var s2 := Next(s1, Interrupt(0));
    assert s2.services[0] && s2.receiver == None && s2.open && s2.incoming == [] && s2.nullWakes == s.nullWakes;
    ExecFirst(s, receive, [Interrupt(0), OnWait(0, SomeMessage()), Close]);
    ExecFirst(s1, Interrupt(0), [OnWait(0, SomeMessage()), Close]);
    QueuedThenClosed(s2);
  }

  lemma QueuedThenClosed(s: Inbox)
    requires s.open && s.receiver.None? && s.incoming == [] && 0 in s.services && s.services[0]
    ensures Exec(s, [OnWait(0, SomeMessage()), Close]).nullWakes == s.nullWakes + 1
  {
    SomeMessageArrives(s, 0);
    ExecTwo(s, OnWait(0, SomeMessage()), Close);
    ClosedOverOne(Next(s, OnWait(0, SomeMessage())), Leaf(Boolean(true)));
  }

  lemma ClosedOverOne(s: Inbox, v: Value)
    requires s.open && s.incoming == [FromProcess(v)]
    ensures Next(s, Close).nullWakes == s.nullWakes + 1
  {
    assert s.incoming[1..] == [];
    assert Foreign(s.incoming) == 1 + Foreign([]);
  }

  lemma ExecTwo(s: Inbox, a: Action, b: Action)
    ensures Exec(s, [a, b]) == Next(Next(s, a), b)
  {
    assert [a] + [b] == [a, b] && [b] + [] == [b];
    ExecFirst(s, a, [b]);
    ExecFirst(Next(s, a), b, []);
  }

  lemma ExecFirst(s: Inbox, a: Action, rest: seq<Action>)
    ensures Exec(s, [a] + rest) == Exec(Next(s, a), rest)
  {
    assert ([a] + rest)[0] == a && ([a] + rest)[1..] == rest;
  }
}
