/** What senders and receivers of an inbox can rely on, and two situations in which they cannot. */
module IpcInboxGuarantees {
  import opened Wrappers
  import opened IpcMessage
  import opened IpcDecoders
  import opened IpcInbox

  // ---------------------------------------------------------------- accounting

  /** on_wait takes one off `nsenders` exactly when it removes its service, and never wraps around. */
  lemma OneSenderPerService(s: Inbox, id: ServiceId, w: Wait)
    requires Inv(s) && Enabled(s, OnWait(id, w))
    ensures var s' := DoOnWait(s, id, w);
            if id in s'.services then s'.nsenders == s.nsenders && s'.services.Keys == s.services.Keys
            else s'.nsenders == s.nsenders - 1 && s'.services == s.services - {id}
  {
    OnWaitOutcome(s, id, w);
    WaitedSenders(s, id, DoOnWait(s, id, w));
  }

  lemma WaitedSenders(s: Inbox, id: ServiceId, s': Inbox)
    requires SendersOk(s) && id in s.services && Waited(s, id, s')
    ensures if id in s'.services then s'.nsenders == s.nsenders && s'.services.Keys == s.services.Keys
            else s'.nsenders == s.nsenders - 1 && s'.services == s.services - {id}
  {
    ServicesLess(s.services, id);
    if m :| Takes(s, id, m, s') {
      TakenSenders(s, id, m);
    }
  }

  lemma TakenSenders(s: Inbox, id: ServiceId, m: Option<Message>)
    requires SendersOk(s) && id in s.services
    ensures var s' := Deliver(s.(services := s.services[id := false]), id, m);
            if id in s'.services then s'.nsenders == s.nsenders && s'.services.Keys == s.services.Keys
            else s'.nsenders == s.nsenders - 1 && s'.services == s.services - {id}
  {
    ServicesLess(s.services, id);
    assert s.services[id := false] - {id} == s.services - {id};
    assert s.services[id := false].Keys == s.services.Keys;
  }

  /** What becomes of a message that is long enough and complete. */
  lemma MessageOutcome(s: Inbox, id: ServiceId, w: Wait)
    requires Inv(s) && Enabled(s, OnWait(id, w)) && s.open && w.Datagram? && w.nread >= 16 && !w.truncated
    ensures var s', m := DoOnWait(s, id, w), Parse(w.buf, w.members, w.nread, w.fds);
            && (id in s'.services <==> m.Some?) && (m.Some? ==> s'.services == s.services[id := false])
            && (m.None? ==> s'.incoming == s.incoming)
            && (m.None? && (s.receiver.None? || s'.nsenders > 0) ==> s'.receiver == s.receiver && s'.resumed == s.resumed)
            && (m.None? && s.receiver.Some? && s'.nsenders == 0 ==>
                  s'.receiver.None? && s'.resumed == s.resumed + [Resumed(s.receiver.value, NoSenders)])
            && (m.Some? && s.receiver.None? ==>
                  s'.incoming == s.incoming + [FromProcess(QueueValue(m.value))] && s'.resumed == s.resumed)
            && (m.Some? && s.receiver.Some? ==>
                  && s'.incoming == s.incoming && s'.receiver.None?
                  && s'.resumed == s.resumed + [Resumed(s.receiver.value, Delivered(FromProcess(FiberValue(m.value))))])
  {
    OneSenderPerService(s, id, w);
  }

  /** What comes of a wait that failed, and of a datagram too short for a message or cut short by the kernel. */
  ghost predicate NothingToRead(w: Wait) {
    w.WaitFailed? || w.ReceiveFailed? || (w.Datagram? && (w.nread < 16 || w.truncated))
  }

  /**
    Without a message to read the service is given up and nothing is queued. A receiver stays, unless it has lost
    its last sender and is told so. A wait that came too early changes nothing, and a closed inbox only gives up
    the service.
   */
  lemma RefusedUnread(s: Inbox, id: ServiceId, w: Wait)
    requires Inv(s) && Enabled(s, OnWait(id, w))
    ensures var s' := DoOnWait(s, id, w);
            && (s.open && w.WouldBlock? ==> s' == s)
            && (!s.open || NothingToRead(w) ==>
                  && s'.services == s.services - {id} && s'.nsenders == s.nsenders - 1
                  && s'.incoming == s.incoming && s'.posted == s.posted && s'.open == s.open
                  && if s.receiver.Some? && s'.nsenders == 0
                     then s'.receiver.None? && !s'.guarded && s'.resumed == s.resumed + [Resumed(s.receiver.value, NoSenders)]
                     else s'.receiver == s.receiver && s'.guarded == s.guarded && s'.resumed == s.resumed)
  {
    OneSenderPerService(s, id, w);
  }

  /** on_wait loses the receiver only by resuming it, with a message or with the news that no sender is left. */
  lemma ReceiverResumedOnce(s: Inbox, id: ServiceId, w: Wait)
    requires Inv(s) && Enabled(s, OnWait(id, w)) && s.receiver.Some?
    ensures var s' := DoOnWait(s, id, w);
            || (s'.receiver == s.receiver && s'.resumed == s.resumed && s'.nsenders > 0)
            || (s'.receiver == s.receiver && s'.resumed == s.resumed && CheckSenders in s'.posted)
            || (s'.receiver.None? && exists args ::
                  && s'.resumed == s.resumed + [Resumed(s.receiver.value, args)]
                  && (args.Delivered? || (args == NoSenders && s'.nsenders == 0)))
  {
    OnWaitKeeps(s, id, w);
    var s' := DoOnWait(s, id, w);
    var f := s.receiver.value;
    if s'.receiver.None? {
      if s'.resumed == s.resumed + [Resumed(f, NoSenders)] {
      } else {
        var m := Parse(w.buf, w.members, w.nread, w.fds);
        assert s'.resumed == s.resumed + [Resumed(f, Delivered(FromProcess(FiberValue(m.value))))];
      }
    }
  }

  // ---------------------------------------------------------------- every suspended receive ends once

  /** How often fiber `f` suspends in receive during a run. */
  function Suspensions(s: Inbox, run: seq<Action>, f: Fiber): nat
    decreases |run|
  {
    if run == [] then 0
    else
      (if run[0].Receive? && run[0].fiber == f && Enabled(s, run[0]) && Perform(s, run[0]).1 == Suspended then 1 else 0)
      + Suspensions(Next(s, run[0]), run[1..], f)
  }

  function ResumptionsOf(resumed: seq<Resumed>, f: Fiber): nat
    decreases |resumed|
  {
    if resumed == [] then 0
    else
      var last := resumed[|resumed| - 1];
      ResumptionsOf(resumed[..|resumed| - 1], f) + if last.fiber == f then 1 else 0
  }

  lemma ResumedAppend(resumed: seq<Resumed>, r: Resumed, f: Fiber)
    ensures ResumptionsOf(resumed + [r], f) == ResumptionsOf(resumed, f) + if r.fiber == f then 1 else 0
  {
    assert (resumed + [r])[..|resumed|] == resumed;
  }

  function IsWaiting(s: Inbox, f: Fiber): nat {
    if f in s.waiting then 1 else 0
  }

  /** Nobody was resumed, or one waiting fiber was. */
  ghost predicate ResumedAtMostOne(s: Inbox, s': Inbox) {
    || (s'.resumed == s.resumed && s'.waiting == s.waiting)
    || exists f, args :: f in s.waiting && s'.waiting == s.waiting - {f} && s'.resumed == s.resumed + [Resumed(f, args)]
  }

  lemma OnWaitResumes(s: Inbox, id: ServiceId, w: Wait)
    requires Inv(s) && WaitOk(w)
    ensures ResumedAtMostOne(s, DoOnWait(s, id, w))
  {
    OnWaitOutcome(s, id, w);
    assert s.receiver.Some? ==> s.receiver.value in s.waiting;
    WaitedResumes(s, id, DoOnWait(s, id, w));
  }

  lemma WaitedResumes(s: Inbox, id: ServiceId, s': Inbox)
    requires Waited(s, id, s') && (s.receiver.Some? ==> s.receiver.value in s.waiting)
    ensures ResumedAtMostOne(s, s')
  {}

  lemma RunNextResumes(s: Inbox)
    requires Inv(s) && s.posted != []
    ensures ResumedAtMostOne(s, DoRunNext(s))
  {
    assert s.receiver.Some? ==> s.receiver.value in s.waiting;
    var p := s.posted[0];
    if p.PostedResume? && p.fiber.Some? {
      assert ResumesOf(s.posted, p.fiber.value) > 0;
    }
  }

  lemma OneCounts(s: Inbox, s': Inbox, f: Fiber)
    requires ResumedAtMostOne(s, s')
    ensures ResumptionsOf(s'.resumed, f) + IsWaiting(s', f) == ResumptionsOf(s.resumed, f) + IsWaiting(s, f)
  {
    if s'.resumed != s.resumed || s'.waiting != s.waiting {
      var g, args :| g in s.waiting && s'.waiting == s.waiting - {g} && s'.resumed == s.resumed + [Resumed(g, args)];
      ResumedAppend(s.resumed, Resumed(g, args), f);
    }
  }

  /** Other actions resume nobody; receive may add its caller to those who wait. */
  lemma OthersCount(s: Inbox, a: Action, f: Fiber)
    requires Enabled(s, a) && !a.OnWait? && !a.RunNext?
    ensures Next(s, a).resumed == s.resumed
    ensures IsWaiting(Next(s, a), f) == IsWaiting(s, f) +
              if a.Receive? && a.fiber == f && Perform(s, a).1 == Suspended then 1 else 0
  {}

  lemma StepCounts(s: Inbox, a: Action, f: Fiber)
    requires Inv(s)
    ensures var s' := Next(s, a);
            ResumptionsOf(s'.resumed, f) + IsWaiting(s', f)
            == ResumptionsOf(s.resumed, f) + IsWaiting(s, f) + Suspensions(s, [a], f)
  {
    assert Suspensions(Next(s, a), [], f) == 0;
    if Enabled(s, a) {
      if a.OnWait? {
        OnWaitResumes(s, a.service, a.wait);
        OneCounts(s, Next(s, a), f);
      } else if a.RunNext? {
        RunNextResumes(s);
        OneCounts(s, Next(s, a), f);
      } else {
        OthersCount(s, a, f);
      }
    }
  }

  lemma {:induction false} RunCounts(s: Inbox, run: seq<Action>, f: Fiber)
    requires Inv(s)
    ensures var s' := Exec(s, run);
            ResumptionsOf(s'.resumed, f) + IsWaiting(s', f)
            == ResumptionsOf(s.resumed, f) + IsWaiting(s, f) + Suspensions(s, run, f)
    decreases |run|
  {
    if run != [] {
      StepKeeps(s, run[0]);
      StepCounts(s, run[0], f);
      RunCounts(Next(s, run[0]), run[1..], f);
    }
  }

  /**
    Over any run, each time a fiber suspended in receive it was resumed exactly once, except that it
    may still be waiting for the last of them.
   */
  lemma SuspendedOnceResumedOnce(run: seq<Action>, f: Fiber)
    ensures var s := Exec(Init(), run);
            Suspensions(Init(), run, f) == ResumptionsOf(s.resumed, f) + IsWaiting(s, f)
  {
    RunCounts(Init(), run, f);
  }

  // ---------------------------------------------------------------- the interrupter after close

  ghost predicate NoNullResume(s: Inbox) {
    s.nullResumes == 0 && forall p :: p in s.posted && p.PostedResume? ==> p.fiber.Some?
  }

  lemma OnWaitPostsNothing(s: Inbox, id: ServiceId, w: Wait)
    requires WaitOk(w)
    ensures DoOnWait(s, id, w).posted == s.posted && DoOnWait(s, id, w).nullResumes == s.nullResumes
  {
    OnWaitOutcome(s, id, w);
    WaitedPostsNothing(s, id, DoOnWait(s, id, w));
  }

  lemma WaitedPostsNothing(s: Inbox, id: ServiceId, s': Inbox)
    requires Waited(s, id, s')
    ensures s'.posted == s.posted && s'.nullResumes == s.nullResumes
  {}

  lemma RunNextPostsNothing(s: Inbox)
    requires NoNullResume(s) && s.posted != []
    ensures NoNullResume(DoRunNext(s))
  {
    assert s.posted[0] in s.posted;
    assert DoRunNext(s).posted == s.posted[1..];
    assert forall p :: p in s.posted[1..] ==> p in s.posted;
  }

  lemma InterruptPosts(s: Inbox, f: Fiber)
    requires Inv(s) && NoNullResume(s)
    ensures NoNullResume(DoInterrupt(s, f)) <==> !(f in s.interrupters && !s.open)
  {
    if f in s.interrupters {
      assert PostedResume(s.receiver, Interrupted) in DoInterrupt(s, f).posted;
    }
  }

  lemma ClosePosts(s: Inbox)
    requires NoNullResume(s)
    ensures NoNullResume(DoClose(s))
  {}

  /** What the other actions post resumes nobody. */
  lemma OthersPost(s: Inbox, a: Action)
    requires NoNullResume(s) && Enabled(s, a) && !a.RunNext? && !a.Interrupt? && !a.Close? && !a.OnWait?
    ensures NoNullResume(Next(s, a))
  {
    var s' := Next(s, a);
    assert s'.nullResumes == s.nullResumes;
    if s'.posted != s.posted {
      var c := s'.posted[|s'.posted| - 1];
      assert s'.posted == s.posted + [c] && !c.PostedResume?;
    }
  }

  /** An action makes the strand resume a null fiber exactly if it interrupts a receiver that close has taken away. */
  lemma NullResumeIff(s: Inbox, a: Action)
    requires Inv(s) && NoNullResume(s)
    ensures NoNullResume(Next(s, a)) <==> !(a.Interrupt? && a.fiber in s.interrupters && !s.open)
  {
    if Enabled(s, a) {
      match a
      case RunNext => RunNextPostsNothing(s);
      case Interrupt(f) => InterruptPosts(s, f);
      case Close => ClosePosts(s);
      case OnWait(id, w) => OnWaitPostsNothing(s, id, w);
      case _ => OthersPost(s, a);
    }
  }

  /** Such a run exists: a fiber receives, another one closes the inbox and then interrupts the first. */
  lemma NullResumeHappens()
    ensures Exec(Init(), [NewAddress, Receive(0, MaySuspend(true)), Close, Interrupt(0), RunNext, RunNext]).nullResumes == 1
  {
    var s1 := Next(Init(), NewAddress);
    var s2 := Next(s1, Receive(0, MaySuspend(true)));
    Unroll(Init(), [NewAddress, Receive(0, MaySuspend(true)), Close, Interrupt(0), RunNext, RunNext]);
    Unroll(s1, [Receive(0, MaySuspend(true)), Close, Interrupt(0), RunNext, RunNext]);
    ClosedThenInterrupted(s2, 0);
  }

  lemma ClosedThenInterrupted(s: Inbox, f: Fiber)
    requires s.open && s.receiver == Some(f) && f in s.interrupters && s.posted == []
    ensures Exec(s, [Close, Interrupt(f), RunNext, RunNext]).nullResumes == s.nullResumes + 1
  {
    var s1 := Next(s, Close);
    assert s1.posted == [PostedResume(Some(f), ChannelClosed)];
    var s2 := Next(s1, Interrupt(f));
    assert s2.posted == [PostedResume(Some(f), ChannelClosed), PostedResume(None, Interrupted)];
    var s3 := Next(s2, RunNext);
    assert s3.posted == [PostedResume(None, Interrupted)];
    Unroll(s, [Close, Interrupt(f), RunNext, RunNext]);
    Unroll(s1, [Interrupt(f), RunNext, RunNext]);
    Unroll(s2, [RunNext, RunNext]);
    Unroll(s3, [RunNext]);
  }

  lemma Unroll(s: Inbox, run: seq<Action>)
    requires run != []
    ensures Exec(s, run) == Exec(Next(s, run[0]), run[1..])
  {}

  // ---------------------------------------------------------------- a receiver listens to every socket, or does it

  /** While a fiber is receiving, every socket of the inbox is being waited for. */
  ghost predicate Listening(s: Inbox) {
    s.receiver.Some? ==> forall id :: id in s.services ==> s.services[id]
  }

  lemma OnWaitListens(s: Inbox, id: ServiceId, w: Wait)
    requires Inv(s) && Listening(s) && Enabled(s, OnWait(id, w))
    ensures Listening(DoOnWait(s, id, w))
  {
    var s' := DoOnWait(s, id, w);
    if s'.receiver.Some? {
      if s.open && w.Datagram? && !Unusable(w) {
        MessageOutcome(s, id, w);
      }
    }
  }

  lemma OthersListen(s: Inbox, a: Action)
    requires Inv(s) && Listening(s) && Enabled(s, a) && !a.OnWait? && !(a.SendOwnInbox? && s.receiver.Some?)
    ensures Listening(Next(s, a))
  {}

  /** Every action keeps this but one: sending one's own inbox away while another fiber is receiving from it. */
  lemma ListeningIff(s: Inbox, a: Action)
    requires Inv(s) && Listening(s)
    ensures Listening(Next(s, a)) <==> !(a.SendOwnInbox? && s.receiver.Some?)
  {
    if a.SendOwnInbox? && s.receiver.Some? {
      assert s.nextService in Next(s, a).services;
    } else if a.OnWait? && Enabled(s, a) {
      OnWaitListens(s, a.service, a.wait);
    } else if Enabled(s, a) {
      OthersListen(s, a);
    }
  }

  /** After that the receiver can be deaf to its only sender: nothing is posted and no socket is waited for. */
  lemma DeafReceiver()
    ensures var s := Exec(Init(), [NewAddress, Receive(0, MaySuspend(true)), SendOwnInbox, DropAddress]);
            && s.receiver == Some(0) && s.nsenders == 1 && |s.services| == 1 && s.posted == []
            && forall id, w :: !Enabled(s, OnWait(id, w))
  {
    var s1 := Next(Init(), NewAddress);
    var s2 := Next(s1, Receive(0, MaySuspend(true)));
    var s3 := Next(s2, SendOwnInbox);
    var s4 := Next(s3, DropAddress);
    assert s4.services == map[0 := false];
    Unroll(Init(), [NewAddress, Receive(0, MaySuspend(true)), SendOwnInbox, DropAddress]);
    Unroll(s1, [Receive(0, MaySuspend(true)), SendOwnInbox, DropAddress]);
    Unroll(s2, [SendOwnInbox, DropAddress]);
    Unroll(s3, [DropAddress]);
  }
}
