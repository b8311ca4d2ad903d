/**
  Why a receive or a send ended, told from the actions of the run: every resume
  of a receiver and every notice to a sender goes back to one of them.
 */
module IpcInboxReasons {
  import opened Wrappers
  import opened Sequences
  import opened IpcMessage
  import opened IpcDecoders
  import opened IpcInbox
  import opened IpcInboxGuarantees
  import opened IpcInboxMail
  import opened IpcInboxOrder

  // ---------------------------------------------------------------- the causes

  /** The registered receiver of the open inbox is to be resumed with these arguments because of this action. */
  ghost predicate EndsReceive(s: Inbox, a: Action, r: Resumed) {
    && Enabled(s, a) && s.open && s.receiver == Some(r.fiber)
    && match r.args
       case NoSenders => (a.OnWait? || a.RunNext?) && Next(s, a).nsenders == 0
       case ChannelClosed => a.Close?
       case Interrupted => a == Interrupt(r.fiber)
       case Delivered(what) => ArrivedBy(s, a) == [what]
  }

  /** The send is over because of this action, and ended like this. */
  ghost predicate EndsSend(s: Inbox, a: Action, n: Notice) {
    && Enabled(s, a)
    && match n.fate
       case Sent => HandedBy(s, a) == [FromActor(n.letter)]
       case SendInterrupted => a.RunNext? && s.posted[0] == EraseLetter(n.letter) && FromActor(n.letter) in s.incoming
       case SendClosed =>
         || (a.Close? && s.open && FromActor(n.letter) in s.incoming)
         || (a.RunNext? && !s.open && s.posted[0] == DeliverLetter(n.letter))
  }

  // ---------------------------------------------------------------- what one step resumes, posts and tells

  /** A resume that is new is caused by this step, or was posted. */
  ghost predicate NewResumes(s: Inbox, a: Action, s': Inbox) {
    forall r :: r in s'.resumed && r !in s.resumed ==>
      EndsReceive(s, a, r) || (a.RunNext? && s.posted != [] && s.posted[0] == PostedResume(Some(r.fiber), r.args))
  }

  lemma OneResumed(s: Inbox, a: Action, s': Inbox, r: Resumed)
    requires s'.resumed == s.resumed + [r] && EndsReceive(s, a, r)
    ensures NewResumes(s, a, s')
  {}

  lemma UnreadResumes(s: Inbox, id: ServiceId, w: Wait)
    requires Inv(s) && Enabled(s, OnWait(id, w)) && (!s.open || NothingToRead(w))
    ensures NewResumes(s, OnWait(id, w), Next(s, OnWait(id, w)))
  {
    var s', a := Next(s, OnWait(id, w)), OnWait(id, w);
    RefusedUnread(s, id, w);
    if s'.resumed != s.resumed {
      OneResumed(s, a, s', Resumed(s.receiver.value, NoSenders));
    }
  }

  lemma MessageResumes(s: Inbox, id: ServiceId, w: Wait)
    requires Inv(s) && Enabled(s, OnWait(id, w)) && s.open && w.Datagram? && w.nread >= 16 && !w.truncated
    ensures NewResumes(s, OnWait(id, w), Next(s, OnWait(id, w)))
  {
    var s', a := Next(s, OnWait(id, w)), OnWait(id, w);
    var m := Parse(w.buf, w.members, w.nread, w.fds);
    MessageOutcome(s, id, w);
    if s.receiver.Some? && m.Some? {
      OneResumed(s, a, s', Resumed(s.receiver.value, Delivered(FromProcess(FiberValue(m.value)))));
    } else if s'.resumed != s.resumed {
      OneResumed(s, a, s', Resumed(s.receiver.value, NoSenders));
    }
  }

  lemma OnWaitResumes(s: Inbox, id: ServiceId, w: Wait)
    requires Inv(s) && Enabled(s, OnWait(id, w))
    ensures NewResumes(s, OnWait(id, w), Next(s, OnWait(id, w)))
  {
    if !s.open || NothingToRead(w) {
      UnreadResumes(s, id, w);
    } else if w.WouldBlock? {
      RefusedUnread(s, id, w);
    } else {
      MessageResumes(s, id, w);
    }
  }

  lemma DeliverResumes(s: Inbox, l: Letter)
    requires s.posted != [] && s.posted[0] == DeliverLetter(l) && (s.receiver.Some? ==> s.open)
    ensures NewResumes(s, RunNext, DoRunNext(s))
  {
    var s1, s' := s.(posted := s.posted[1..]), DoRunNext(s);
    assert s' == DoDeliver(s1, l);
    if s.receiver.Some? {
      assert s'.resumed == s.resumed + [Resumed(s.receiver.value, Delivered(FromActor(l)))];
    }
  }

  lemma OtherClosureResumes(s: Inbox)
    requires Inv(s) && s.posted != [] && !s.posted[0].DeliverLetter?
    ensures NewResumes(s, RunNext, DoRunNext(s))
  {
    var s' := DoRunNext(s);
    assert Next(s, RunNext) == s';
    if s'.resumed != s.resumed {
      assert s'.resumed == s.resumed + [s'.resumed[|s.resumed|]];
    }
  }

  lemma OthersResumeNobody(s: Inbox, a: Action)
    requires Enabled(s, a) && !a.OnWait? && !a.RunNext?
    ensures Next(s, a).resumed == s.resumed
  {}

  lemma StepResumes(s: Inbox, a: Action)
    requires Inv(s) && MailInv(s)
    ensures NewResumes(s, a, Next(s, a))
  {
    if Enabled(s, a) {
      if a.OnWait? {
        OnWaitResumes(s, a.service, a.wait);
      } else if !a.RunNext? {
        OthersResumeNobody(s, a);
      } else if s.posted[0].DeliverLetter? {
        DeliverResumes(s, s.posted[0].letter);
      } else {
        OtherClosureResumes(s);
      }
    }
  }

  /** A resume that is posted in this step is caused by it. */
  ghost predicate NewPosts(s: Inbox, a: Action, s': Inbox) {
    forall c :: c in s'.posted && c !in s.posted && c.PostedResume? && c.fiber.Some? ==>
      EndsReceive(s, a, Resumed(c.fiber.value, c.args))
  }

  lemma InterruptPostsResume(s: Inbox, f: Fiber)
    requires Inv(s)
    ensures NewPosts(s, Interrupt(f), DoInterrupt(s, f))
  {}

  lemma ClosePostsResume(s: Inbox)
    requires Inv(s)
    ensures NewPosts(s, Close, DoClose(s))
  {}

  lemma RunNextPosts(s: Inbox)
    requires s.posted != []
    ensures NewPosts(s, RunNext, DoRunNext(s))
  {
    RunNextLeaves(s);
    assert forall c :: c in s.posted[1..] ==> c in s.posted;
  }

  lemma RunNextLeaves(s: Inbox)
    requires s.posted != []
    ensures DoRunNext(s).posted == s.posted[1..]
  {}

  lemma WaitPosts(s: Inbox, id: ServiceId, w: Wait)
    requires WaitOk(w)
    ensures DoOnWait(s, id, w).posted == s.posted
  {
    OnWaitOutcome(s, id, w);
    WaitedPosts(s, id, DoOnWait(s, id, w));
  }

  lemma WaitedPosts(s: Inbox, id: ServiceId, s': Inbox)
    requires Waited(s, id, s')
    ensures s'.posted == s.posted
  {}

  lemma OthersPostNoResume(s: Inbox, a: Action)
    requires Enabled(s, a) && !a.RunNext? && !a.Interrupt? && !a.Close? && !a.OnWait?
    ensures NewPosts(s, a, Next(s, a))
  {}

  lemma StepPosts(s: Inbox, a: Action)
    requires Inv(s)
    ensures NewPosts(s, a, Next(s, a))
  {
    if Enabled(s, a) {
      match a
      case RunNext => RunNextPosts(s);
      case Interrupt(f) => InterruptPostsResume(s, f);
      case Close => ClosePostsResume(s);
      case OnWait(id, w) => WaitPosts(s, id, w);
      case _ => OthersPostNoResume(s, a);
    }
  }

  ghost predicate Told(s: Inbox, n: Notice) {
    n in s.toSenders || n in s.told
  }

  /** A notice that is new is caused by this step. */
  ghost predicate NewNotices(s: Inbox, a: Action, s': Inbox) {
    forall n :: Told(s', n) && !Told(s, n) ==> EndsSend(s, a, n)
  }

  /** The same for a step that tells `more` senders. */
  lemma NoticesAdded(s: Inbox, a: Action, s': Inbox, more: seq<Notice>)
    requires s'.told == s.told && s'.toSenders == s.toSenders + more
    requires forall n :: n in more ==> EndsSend(s, a, n)
    ensures NewNotices(s, a, s')
  {}

  lemma ReceiveTells(s: Inbox, f: Fiber, gate: Gate)
    requires Enabled(s, Receive(f, gate))
    ensures NewNotices(s, Receive(f, gate), DoReceive(s, f, gate).0)
  {
    var (s', r) := DoReceive(s, f, gate);
    var a := Receive(f, gate);
    if r.Got? && r.what.FromActor? {
      assert HandedBy(s, a) == [r.what];
      NoticesAdded(s, a, s', [Notice(r.what.letter, Sent)]);
    }
  }

  lemma {:induction false} NoticeOfQueued(incoming: seq<Queued>, n: Notice)
    requires n in Notices(incoming)
    ensures n.fate == SendClosed && FromActor(n.letter) in incoming
    decreases |incoming|
  {
    if incoming[0].FromActor? && n == Notice(incoming[0].letter, SendClosed) {
    } else {
      NoticeOfQueued(incoming[1..], n);
    }
  }

  lemma CloseTellsQueued(s: Inbox)
    ensures NewNotices(s, Close, DoClose(s))
  {
    if s.open {
      CloseTells(s);
      forall n | n in Notices(s.incoming)
        ensures EndsSend(s, Close, n)
      {
        NoticeOfQueued(s.incoming, n);
      }
      NoticesAdded(s, Close, DoClose(s), Notices(s.incoming));
    }
  }

  lemma DeliverTells(s: Inbox, l: Letter)
    requires s.posted != [] && s.posted[0] == DeliverLetter(l)
    ensures NewNotices(s, RunNext, DoRunNext(s))
  {
    var s', a: Action := DoRunNext(s), RunNext;
    assert Perform(s, a).0 == s';
    if !s.open {
      NoticesAdded(s, a, s', [Notice(l, SendClosed)]);
    } else if s.receiver.Some? {
      assert s'.resumed == s.resumed + [Resumed(s.receiver.value, Delivered(FromActor(l)))];
      assert HandedBy(s, a) == [FromActor(l)];
      NoticesAdded(s, a, s', [Notice(l, Sent)]);
    }
  }

  lemma EraseTells(s: Inbox, l: Letter)
    requires MailInv(s) && s.posted != [] && s.posted[0] == EraseLetter(l)
    ensures NewNotices(s, RunNext, DoRunNext(s))
  {
    var i := FindSender(s.incoming, l.sender);
    if i < |s.incoming| {
      assert s.incoming[i] in s.incoming && s.posted[0] in s.posted;
      assert SameSend(s.incoming[i].letter, l);
      assert s.incoming[i] == FromActor(l);
      NoticesAdded(s, RunNext, DoRunNext(s), [Notice(l, SendInterrupted)]);
    }
  }

  lemma OtherClosureTells(s: Inbox)
    requires s.posted != [] && !s.posted[0].DeliverLetter? && !s.posted[0].EraseLetter?
    ensures NewNotices(s, RunNext, DoRunNext(s))
  {}

  lemma WaitTells(s: Inbox, id: ServiceId, w: Wait)
    requires WaitOk(w)
    ensures DoOnWait(s, id, w).told == s.told && DoOnWait(s, id, w).toSenders == s.toSenders
  {
    OnWaitOutcome(s, id, w);
    WaitedTells(s, id, DoOnWait(s, id, w));
  }

  lemma WaitedTells(s: Inbox, id: ServiceId, s': Inbox)
    requires Waited(s, id, s')
    ensures s'.told == s.told && s'.toSenders == s.toSenders
  {}

  lemma SenderRuns(s: Inbox, at: nat)
    requires at < |s.toSenders|
    ensures NewNotices(s, RunSender(at), DoRunSender(s, at))
  {
    assert forall n :: n in Omit(s.toSenders, at) ==> n in s.toSenders;
  }

  lemma OthersTellNobody(s: Inbox, a: Action)
    requires Enabled(s, a) && !a.RunNext? && !a.Receive? && !a.Close? && !a.OnWait? && !a.RunSender?
    ensures Next(s, a).told == s.told && Next(s, a).toSenders == s.toSenders
  {}

  lemma StepTells(s: Inbox, a: Action)
    requires Inv(s) && MailInv(s)
    ensures NewNotices(s, a, Next(s, a))
  {
    if Enabled(s, a) {
      match a
      case RunNext =>
        if s.posted[0].DeliverLetter? {
          DeliverTells(s, s.posted[0].letter);
        } else if s.posted[0].EraseLetter? {
          EraseTells(s, s.posted[0].letter);
        } else {
          OtherClosureTells(s);
        }
      case Receive(f, gate) => ReceiveTells(s, f, gate);
      case Close => CloseTellsQueued(s);
      case OnWait(id, w) => WaitTells(s, id, w);
      case RunSender(at) => SenderRuns(s, at);
      case _ => OthersTellNobody(s, a);
    }
  }

  // ---------------------------------------------------------------- over a run

  ghost function At(run: seq<Action>, j: nat): Inbox
    requires j <= |run|
  {
    Exec(Init(), run[..j])
  }

  ghost predicate ReceiveCaused(run: seq<Action>, r: Resumed) {
    exists j: nat :: j < |run| && EndsReceive(At(run, j), run[j], r)
  }

  ghost predicate SendCaused(run: seq<Action>, n: Notice) {
    exists j: nat :: j < |run| && EndsSend(At(run, j), run[j], n)
  }

  lemma {:induction false} ExecLast(s: Inbox, run: seq<Action>, a: Action)
    ensures Exec(s, run + [a]) == Next(Exec(s, run), a)
    decreases |run|
  {
    if run == [] {
      assert [] + [a] == [a];
    } else {
      ExecLast(Next(s, run[0]), run[1..], a);
      ConcatRest(run, [a]);
    }
  }

  lemma AtFront(run: seq<Action>, a: Action, j: nat)
    requires j <= |run|
    ensures At(run + [a], j) == At(run, j)
  {
    assert (run + [a])[..j] == run[..j];
  }

  lemma CausedBefore(run: seq<Action>, a: Action)
    ensures forall r :: ReceiveCaused(run, r) ==> ReceiveCaused(run + [a], r)
    ensures forall n :: SendCaused(run, n) ==> SendCaused(run + [a], n)
  {
    forall r | ReceiveCaused(run, r)
      ensures ReceiveCaused(run + [a], r)
    {
      var j: nat :| j < |run| && EndsReceive(At(run, j), run[j], r);
      AtFront(run, a, j);
      assert EndsReceive(At(run + [a], j), (run + [a])[j], r);
    }
    forall n | SendCaused(run, n)
      ensures SendCaused(run + [a], n)
    {
      var j: nat :| j < |run| && EndsSend(At(run, j), run[j], n);
      AtFront(run, a, j);
      assert EndsSend(At(run + [a], j), (run + [a])[j], n);
    }
  }

  lemma CausedLast(run: seq<Action>, a: Action)
    ensures forall r :: EndsReceive(Exec(Init(), run), a, r) ==> ReceiveCaused(run + [a], r)
    ensures forall n :: EndsSend(Exec(Init(), run), a, n) ==> SendCaused(run + [a], n)
  {
    AtFront(run, a, |run|);
    assert run[..|run|] == run;
    assert (run + [a])[|run|] == a;
  }

  /** Everything that was resumed or told, and every resume that is still posted. */
  ghost predicate AllCaused(run: seq<Action>, s: Inbox) {
    && (forall r :: r in s.resumed ==> ReceiveCaused(run, r))
    && (forall c :: c in s.posted && c.PostedResume? && c.fiber.Some? ==> ReceiveCaused(run, Resumed(c.fiber.value, c.args)))
    && (forall n :: Told(s, n) ==> SendCaused(run, n))
  }

  lemma CausedStep(run: seq<Action>, a: Action)
    requires AllCaused(run, Exec(Init(), run))
    ensures AllCaused(run + [a], Next(Exec(Init(), run), a))
  {
    var s := Exec(Init(), run);
    ReachableMail(run);
    StepResumes(s, a);
    StepPosts(s, a);
    StepTells(s, a);
    CausedBefore(run, a);
    CausedLast(run, a);
  }

  lemma {:induction false} AllCausedOverRun(run: seq<Action>)
    ensures AllCaused(run, Exec(Init(), run))
    decreases |run|
  {
    if run != [] {
      var front, a := run[..|run| - 1], run[|run| - 1];
      assert run == front + [a];
      AllCausedOverRun(front);
      CausedStep(front, a);
      ExecLast(Init(), front, a);
    }
  }

  /**
    Over any run, a receive that ended was ended by an action on the open inbox in which its fiber was registered:
    by the loss of the last sender, by close, by its own interruption, or by the message that arrived. A send that
    ended was handed over, found the inbox closed or was in its queue when it was closed, or was taken back.
   */
  lemma EveryEndHasCause(run: seq<Action>)
    ensures var s := Exec(Init(), run);
            && (forall r :: r in s.resumed ==> ReceiveCaused(run, r))
            && (forall n :: n in s.told || n in s.toSenders ==> SendCaused(run, n))
  {
    AllCausedOverRun(run);
    assert forall n :: n in Exec(Init(), run).told || n in Exec(Init(), run).toSenders ==> Told(Exec(Init(), run), n);
  }

  // ---------------------------------------------------------------- what the calls answer

  /** What receive answers. */
  lemma ReceiveAnswers(s: Inbox, f: Fiber, gate: Gate)
    requires Inv(s) && MailInv(s) && f !in s.waiting
    ensures var r := DoReceive(s, f, gate).1;
            && (r.RaiseMayNotSuspend? <==> gate.MayNotSuspend?)
            && (r.RaiseChannelClosed? <==> gate.MaySuspend? && !s.open)
            && (r.RaiseBusy? <==> gate.MaySuspend? && s.receiver.Some?)
            && (r.Got? <==> gate.MaySuspend? && s.incoming != [])
            && (r.RaiseNoSenders? <==> gate.MaySuspend? && s.open && s.receiver.None? && s.incoming == [] && s.nsenders == 0)
            && (r.Suspended? <==> gate.MaySuspend? && s.open && s.receiver.None? && s.incoming == [] && s.nsenders > 0)
            && !r.Done? && !r.NotEnabled?
  {}

  /** Only a message or a suspension changes the inbox; a suspended receiver listens to every socket. */
  lemma ReceiveLeaves(s: Inbox, f: Fiber, gate: Gate)
    requires Inv(s) && f !in s.waiting
    ensures var (s', r) := DoReceive(s, f, gate);
            && (r.Got? ==> s.incoming == [r.what] + s'.incoming && s'.posted == s.posted && s'.resumed == s.resumed)
            && (r.Suspended? ==>
                  && s'.receiver == Some(f) && f in s'.waiting && s'.posted == s.posted && s'.nsenders == s.nsenders
                  && (f in s'.interrupters <==> gate.interruptible)
                  && s'.services.Keys == s.services.Keys && forall id :: id in s'.services ==> s'.services[id])
            && (!r.Got? && !r.Suspended? ==> s' == s)
  {}

  /** An interruption of the fiber that is receiving takes it out of the inbox and posts its resume. */
  lemma InterruptReaches(s: Inbox, f: Fiber)
    requires Inv(s) && s.open && f in s.interrupters
    ensures var s' := DoInterrupt(s, f);
            && s.receiver == Some(f) && s'.receiver.None? && f in s'.waiting && s'.incoming == s.incoming
            && s'.posted == s.posted + [PostedResume(Some(f), Interrupted)]
  {}

  /** Interrupting again, while neither has run, does nothing. */
  lemma InterruptedOnce(s: Inbox, f: Fiber, q: Sender)
    ensures DoInterrupt(DoInterrupt(s, f), f) == DoInterrupt(s, f)
    ensures DoInterruptSend(DoInterruptSend(s, q), q) == DoInterruptSend(s, q)
  {}

  /** A new socket is waited for at once exactly if a fiber is receiving; nothing else changes. */
  lemma ServiceAdded(s: Inbox)
    requires Inv(s) && s.posted != [] && s.posted[0] == AddService
    ensures var s' := DoRunNext(s);
            && s.nextService !in s.services && s'.services == s.services[s.nextService := s.receiver.Some?]
            && s'.nsenders == s.nsenders && s'.receiver == s.receiver && s'.resumed == s.resumed
  {}

  /** Send only asks the strand of the inbox, and an interruption only asks for the message back. */
  lemma SendAnswers(s: Inbox, q: Sender, msg: nat, gate: Gate)
    requires MailInv(s) && Enabled(s, Send(q, msg, gate))
    ensures var (s', r) := DoSend(s, q, msg, gate);
            if gate.MayNotSuspend? then s' == s && r == RaiseMayNotSuspend
            else
              var l := Letter(q, s.nextTicket, msg);
              && r == Suspended && l in s'.sending && s'.posted == s.posted + [DeliverLetter(l)]
              && (q in s'.sendInterrupters <==> gate.interruptible)
              && DoInterruptSend(s', q).posted == s'.posted + if gate.interruptible then [EraseLetter(l)] else []
  {}
}
