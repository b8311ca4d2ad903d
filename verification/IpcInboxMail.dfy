/**
  Messages from actors of the same process: what becomes of each send, whom an
  interruption takes back, in which order messages are read, and the message
  that closing the inbox cannot cope with.
 */
module IpcInboxMail {
  import opened Wrappers
  import opened Sequences
  import opened IpcMessage
  import opened IpcDecoders
  import opened IpcInbox

  // ---------------------------------------------------------------- where a letter is

  function LetterOf(c: Closure): multiset<Letter> {
    if c.DeliverLetter? then multiset{c.letter} else multiset{}
  }

  function LetterIn(m: Queued): multiset<Letter> {
    if m.FromActor? then multiset{m.letter} else multiset{}
  }

  function PostedLetters(posted: seq<Closure>): multiset<Letter> {
    if posted == [] then multiset{} else LetterOf(posted[0]) + PostedLetters(posted[1..])
  }

  function QueuedLetters(incoming: seq<Queued>): multiset<Letter> {
    if incoming == [] then multiset{} else LetterIn(incoming[0]) + QueuedLetters(incoming[1..])
  }

  function NoticeLetters(notices: seq<Notice>): multiset<Letter> {
    if notices == [] then multiset{} else multiset{notices[0].letter} + NoticeLetters(notices[1..])
  }

  lemma Regroup(a: multiset<Letter>, b: multiset<Letter>, c: multiset<Letter>)
    ensures a + (b + c) == (a + b) + c
  {}

  lemma {:induction false} PostedAppend(posted: seq<Closure>, c: Closure)
    ensures PostedLetters(posted + [c]) == PostedLetters(posted) + LetterOf(c)
    decreases |posted|
  {
    if posted == [] {
      assert [c][1..] == [];
    } else {
      PostedAppend(posted[1..], c);
      ConcatRest(posted, [c]);
      Regroup(LetterOf(posted[0]), PostedLetters(posted[1..]), LetterOf(c));
    }
  }

  lemma {:induction false} QueuedConcat(a: seq<Queued>, b: seq<Queued>)
    ensures QueuedLetters(a + b) == QueuedLetters(a) + QueuedLetters(b)
    decreases |a|
  {
    if a == [] {
      assert a + b == b;
    } else {
      QueuedConcat(a[1..], b);
      ConcatRest(a, b);
      Regroup(LetterIn(a[0]), QueuedLetters(a[1..]), QueuedLetters(b));
    }
  }

  lemma QueuedAppend(incoming: seq<Queued>, m: Queued)
    ensures QueuedLetters(incoming + [m]) == QueuedLetters(incoming) + LetterIn(m)
  {
    QueuedConcat(incoming, [m]);
    assert [m][1..] == [];
  }

  lemma {:induction false} NoticeConcat(a: seq<Notice>, b: seq<Notice>)
    ensures NoticeLetters(a + b) == NoticeLetters(a) + NoticeLetters(b)
    decreases |a|
  {
    if a == [] {
      assert a + b == b;
    } else {
      NoticeConcat(a[1..], b);
      ConcatRest(a, b);
      Regroup(multiset{a[0].letter}, NoticeLetters(a[1..]), NoticeLetters(b));
    }
  }

  lemma NoticeAppend(notices: seq<Notice>, n: Notice)
    ensures NoticeLetters(notices + [n]) == NoticeLetters(notices) + multiset{n.letter}
  {
    NoticeConcat(notices, [n]);
    assert [n][1..] == [];
  }

  /** The letters on their way: to be delivered, in the queue, or with their sender to be told. */
  ghost function UnderWay(posted: seq<Closure>, incoming: seq<Queued>, toSenders: seq<Notice>): multiset<Letter> {
    PostedLetters(posted) + QueuedLetters(incoming) + NoticeLetters(toSenders)
  }

  lemma {:induction false} PostedMember(posted: seq<Closure>, c: Closure)
    requires c in posted && c.DeliverLetter?
    ensures c.letter in PostedLetters(posted)
  {
    if posted[0] != c {
      PostedMember(posted[1..], c);
    }
  }

  lemma {:induction false} QueuedMember(incoming: seq<Queued>, m: Queued)
    requires m in incoming && m.FromActor?
    ensures m.letter in QueuedLetters(incoming)
  {
    if incoming[0] != m {
      QueuedMember(incoming[1..], m);
    }
  }

  // ---------------------------------------------------------------- the invariant

  /** Letters of one sender are the same letter. */
  ghost predicate SameSend(a: Letter, b: Letter) {
    a.sender == b.sender ==> a == b
  }

  /** An erasure behind the delivery of the same sender was posted for that very send. */
  ghost predicate PostedInOrder(posted: seq<Closure>) {
    forall i, j :: 0 <= i < j < |posted| && posted[i].DeliverLetter? && posted[j].EraseLetter? ==>
      SameSend(posted[i].letter, posted[j].letter)
  }

  /** So was an erasure that comes when a letter of the same sender is queued. */
  ghost predicate QueuedInOrder(incoming: seq<Queued>, posted: seq<Closure>) {
    forall m, c :: m in incoming && c in posted && m.FromActor? && c.EraseLetter? ==> SameSend(m.letter, c.letter)
  }

  /** Messages are handed over on the spot, never by a posted resume. */
  ghost predicate BringNoMessage(posted: seq<Closure>) {
    forall c :: c in posted && c.PostedResume? ==> !c.args.Delivered?
  }

  ghost predicate SendersDistinct(sending: set<Letter>) {
    forall a, b :: a in sending && b in sending && a.sender == b.sender ==> a == b
  }

  ghost predicate SlotsOk(slots: map<Sender, Letter>, sending: set<Letter>) {
    forall q :: q in slots ==> slots[q] in sending && slots[q].sender == q
  }

  ghost predicate Mail(posted: seq<Closure>, incoming: seq<Queued>, toSenders: seq<Notice>, sending: set<Letter>,
                       slots: map<Sender, Letter>, receiving: bool) {
    && UnderWay(posted, incoming, toSenders) == multiset(sending)
    && SendersDistinct(sending) && SlotsOk(slots, sending)
    && PostedInOrder(posted) && QueuedInOrder(incoming, posted) && BringNoMessage(posted)
    && (receiving ==> incoming == [])
  }

  /** Every suspended send is in one place, and nobody waits for a message while there is one. */
  ghost predicate MailInv(s: Inbox) {
    Mail(s.posted, s.incoming, s.toSenders, s.sending, s.sendInterrupters, s.receiver.Some?)
  }

  lemma PostedUnderway(s: Inbox, c: Closure)
    requires MailInv(s) && c in s.posted && c.DeliverLetter?
    ensures c.letter in s.sending
  {
    PostedMember(s.posted, c);
    assert UnderWay(s.posted, s.incoming, s.toSenders)[c.letter] > 0;
  }

  lemma QueuedUnderway(s: Inbox, m: Queued)
    requires MailInv(s) && m in s.incoming && m.FromActor?
    ensures m.letter in s.sending
  {
    QueuedMember(s.incoming, m);
    assert UnderWay(s.posted, s.incoming, s.toSenders)[m.letter] > 0;
  }

  // ---------------------------------------------------------------- every action keeps it

  /** Closures about anything else may be posted at will, and nobody need be receiving. */
  lemma OtherPosted(s: Inbox, c: Closure, receiving: bool)
    requires MailInv(s) && !c.DeliverLetter? && !c.EraseLetter? && (receiving ==> s.receiver.Some?)
    requires c.PostedResume? ==> !c.args.Delivered?
    ensures Mail(s.posted + [c], s.incoming, s.toSenders, s.sending, s.sendInterrupters, receiving)
  {
    PostedAppend(s.posted, c);
    assert PostedLetters(s.posted + [c]) == PostedLetters(s.posted);
    assert forall x :: x in s.posted + [c] <==> x in s.posted || x == c;
  }

  /** A delivery at the end of the strand has no erasure behind it. */
  lemma DeliveryBehind(posted: seq<Closure>, incoming: seq<Queued>, l: Letter)
    requires PostedInOrder(posted) && QueuedInOrder(incoming, posted) && BringNoMessage(posted)
    ensures var posted' := posted + [DeliverLetter(l)];
            PostedInOrder(posted') && QueuedInOrder(incoming, posted') && BringNoMessage(posted')
  {
    assert forall x :: x in posted + [DeliverLetter(l)] <==> x in posted || x == DeliverLetter(l);
  }

  lemma NewSend(s: Inbox, l: Letter, slots: map<Sender, Letter>)
    requires MailInv(s) && forall x :: x in s.sending ==> x.sender != l.sender
    requires slots == s.sendInterrupters || slots == s.sendInterrupters[l.sender := l]
    ensures Mail(s.posted + [DeliverLetter(l)], s.incoming, s.toSenders, s.sending + {l}, slots, s.receiver.Some?)
  {
    var c := DeliverLetter(l);
    PostedAppend(s.posted, c);
    assert l !in s.sending;
    assert multiset(s.sending + {l}) == multiset(s.sending) + multiset{l};
    assert UnderWay(s.posted + [c], s.incoming, s.toSenders) == UnderWay(s.posted, s.incoming, s.toSenders) + multiset{l};
    DeliveryBehind(s.posted, s.incoming, l);
  }

  /** An interrupted send is asked back: all there is of its sender is that send. */
  lemma NewErasure(s: Inbox, q: Sender)
    requires MailInv(s) && q in s.sendInterrupters
    ensures Mail(s.posted + [EraseLetter(s.sendInterrupters[q])], s.incoming, s.toSenders, s.sending,
                 s.sendInterrupters - {q}, s.receiver.Some?)
  {
    var l, c := s.sendInterrupters[q], EraseLetter(s.sendInterrupters[q]);
    PostedAppend(s.posted, c);
    assert PostedLetters(s.posted + [c]) == PostedLetters(s.posted);
    forall i | 0 <= i < |s.posted| && s.posted[i].DeliverLetter?
      ensures SameSend(s.posted[i].letter, l)
    {
      PostedUnderway(s, s.posted[i]);
    }
    assert PostedInOrder(s.posted + [c]);
    forall m | m in s.incoming && m.FromActor?
      ensures SameSend(m.letter, l)
    {
      QueuedUnderway(s, m);
    }
    assert forall x :: x in s.posted + [c] <==> x in s.posted || x == c;
  }

  lemma {:induction false} NoticeTaken(notices: seq<Notice>, at: nat)
    requires at < |notices|
    ensures NoticeLetters(notices) == NoticeLetters(Omit(notices, at)) + multiset{notices[at].letter}
    decreases |notices|
  {
    OmitRest(notices, at);
    if at > 0 {
      NoticeTaken(notices[1..], at - 1);
      Regroup(multiset{notices[0].letter}, NoticeLetters(Omit(notices[1..], at - 1)), multiset{notices[at].letter});
    }
  }

  lemma TakeAway(all: multiset<Letter>, rest: multiset<Letter>, sending: set<Letter>, l: Letter)
    requires all == multiset(sending) && all == rest + multiset{l}
    ensures l in sending && rest == multiset(sending - {l})
  {
    assert all[l] > 0;
    assert multiset(sending) == multiset(sending - {l}) + multiset{l};
    forall x ensures rest[x] == multiset(sending - {l})[x] {
      assert all[x] == multiset(sending)[x];
    }
  }

  lemma SenderTold(s: Inbox, at: nat)
    requires MailInv(s) && at < |s.toSenders|
    ensures s.toSenders[at].letter in s.sending
    ensures Mail(s.posted, s.incoming, Omit(s.toSenders, at), s.sending - {s.toSenders[at].letter},
                 s.sendInterrupters - {s.toSenders[at].letter.sender}, s.receiver.Some?)
  {
    var l, rest := s.toSenders[at].letter, Omit(s.toSenders, at);
    NoticeTaken(s.toSenders, at);
    Regroup(PostedLetters(s.posted) + QueuedLetters(s.incoming), NoticeLetters(rest), multiset{l});
    TakeAway(UnderWay(s.posted, s.incoming, s.toSenders), UnderWay(s.posted, s.incoming, rest), s.sending, l);
  }

  /** A message leaves the front of the queue; its sender, if any, is to be told. */
  lemma FrontTaken(s: Inbox)
    requires MailInv(s) && s.incoming != []
    ensures var told := match s.incoming[0]
                        case FromProcess(_) => s.toSenders
                        case FromActor(l) => s.toSenders + [Notice(l, Sent)];
            Mail(s.posted, s.incoming[1..], told, s.sending, s.sendInterrupters, false)
  {
    var m, rest := s.incoming[0], s.incoming[1..];
    assert QueuedLetters(s.incoming) == LetterIn(m) + QueuedLetters(rest);
    if m.FromActor? {
      NoticeAppend(s.toSenders, Notice(m.letter, Sent));
      assert UnderWay(s.posted, rest, s.toSenders + [Notice(m.letter, Sent)]) == UnderWay(s.posted, s.incoming, s.toSenders);
    } else {
      assert QueuedLetters(s.incoming) == QueuedLetters(rest);
    }
    assert forall x :: x in rest ==> x in s.incoming;
  }

  lemma {:induction false} NoticesOfAll(incoming: seq<Queued>)
    ensures NoticeLetters(Notices(incoming)) == QueuedLetters(incoming)
    decreases |incoming|
  {
    if incoming != [] {
      NoticesOfAll(incoming[1..]);
      match incoming[0]
      case FromProcess(_) => assert [] + Notices(incoming[1..]) == Notices(incoming[1..]);
      case FromActor(l) =>
        NoticeConcat([Notice(l, SendClosed)], Notices(incoming[1..]));
        NoticeAppend([], Notice(l, SendClosed));
        assert [] + [Notice(l, SendClosed)] == [Notice(l, SendClosed)];
    }
  }

  lemma QueueCleared(s: Inbox, posted: seq<Closure>)
    requires Mail(posted, s.incoming, s.toSenders, s.sending, s.sendInterrupters, false)
    ensures Mail(posted, [], s.toSenders + Notices(s.incoming), s.sending, s.sendInterrupters, false)
  {
    NoticeConcat(s.toSenders, Notices(s.incoming));
    NoticesOfAll(s.incoming);
    assert UnderWay(posted, [], s.toSenders + Notices(s.incoming)) == UnderWay(posted, s.incoming, s.toSenders);
  }

  lemma CloseKeepsMail(s: Inbox)
    requires MailInv(s)
    ensures MailInv(DoClose(s))
  {
    OtherPosted(s, PostedResume(s.receiver, ChannelClosed), false);
    if s.receiver.None? {
      QueueCleared(s, s.posted);
    } else {
      QueueCleared(s, s.posted + [PostedResume(s.receiver, ChannelClosed)]);
    }
  }

  /** A message from another process joins the queue. */
  lemma ValueQueued(s: Inbox, v: Value)
    requires MailInv(s) && s.receiver.None?
    ensures Mail(s.posted, s.incoming + [FromProcess(v)], s.toSenders, s.sending, s.sendInterrupters, false)
  {
    QueuedAppend(s.incoming, FromProcess(v));
    assert QueuedLetters(s.incoming + [FromProcess(v)]) == QueuedLetters(s.incoming);
    assert forall m :: m in s.incoming + [FromProcess(v)] && m.FromActor? ==> m in s.incoming;
  }

  lemma ReceiverGone(s: Inbox)
    requires MailInv(s)
    ensures Mail(s.posted, s.incoming, s.toSenders, s.sending, s.sendInterrupters, false)
  {}

  lemma MessageKeepsMail(s: Inbox, id: ServiceId, m: Option<Message>)
    requires MailInv(s)
    ensures MailInv(Deliver(s, id, m))
  {
    ReceiverGone(s);
    if s.receiver.None? && m.Some? {
      ValueQueued(s, QueueValue(m.value));
    }
  }

  lemma WaitedKeepsMail(s: Inbox, id: ServiceId, s': Inbox)
    requires MailInv(s) && Waited(s, id, s')
    ensures MailInv(s')
  {
    GiveUpKeepsMail(s, id);
    if m :| Takes(s, id, m, s') {
      MessageKeepsMail(s.(services := s.services[id := false]), id, m);
    }
  }

  lemma OnWaitKeepsMail(s: Inbox, id: ServiceId, w: Wait)
    requires MailInv(s) && WaitOk(w)
    ensures MailInv(DoOnWait(s, id, w))
  {
    OnWaitOutcome(s, id, w);
    WaitedKeepsMail(s, id, DoOnWait(s, id, w));
  }

  lemma GiveUpKeepsMail(s: Inbox, id: ServiceId)
    requires MailInv(s)
    ensures MailInv(RemoveService(s, id)) && MailInv(GiveUp(s, id))
  {
    ReceiverGone(s);
  }

  /** The front of the strand is run, and was about something else. */
  lemma FrontRun(s: Inbox, receiving: bool)
    requires MailInv(s) && s.posted != [] && !s.posted[0].DeliverLetter? && (receiving ==> s.receiver.Some?)
    ensures Mail(s.posted[1..], s.incoming, s.toSenders, s.sending, s.sendInterrupters, receiving)
  {
    assert PostedLetters(s.posted) == PostedLetters(s.posted[1..]);
    assert forall c :: c in s.posted[1..] ==> c in s.posted;
  }

  /** Behind a delivery are only erasures of that very send. */
  lemma ErasuresBehind(posted: seq<Closure>, incoming: seq<Queued>, l: Letter)
    requires posted != [] && posted[0] == DeliverLetter(l)
    requires PostedInOrder(posted) && QueuedInOrder(incoming, posted)
    ensures PostedInOrder(posted[1..]) && QueuedInOrder(incoming + [FromActor(l)], posted[1..])
  {
    var rest := posted[1..];
    forall c | c in rest && c.EraseLetter?
      ensures SameSend(l, c.letter)
    {
      var j :| 0 <= j < |rest| && rest[j] == c;
      assert posted[j + 1] == c;
    }
    assert forall c :: c in rest ==> c in posted;
  }

  lemma LetterQueued(s: Inbox, l: Letter)
    requires MailInv(s) && s.posted != [] && s.posted[0] == DeliverLetter(l) && s.receiver.None?
    ensures Mail(s.posted[1..], s.incoming + [FromActor(l)], s.toSenders, s.sending, s.sendInterrupters, false)
  {
    var rest := s.posted[1..];
    QueuedAppend(s.incoming, FromActor(l));
    assert PostedLetters(s.posted) == multiset{l} + PostedLetters(rest);
    assert UnderWay(rest, s.incoming + [FromActor(l)], s.toSenders) == UnderWay(s.posted, s.incoming, s.toSenders);
    ErasuresBehind(s.posted, s.incoming, l);
  }

  lemma Passed(l: multiset<Letter>, a: multiset<Letter>, b: multiset<Letter>, c: multiset<Letter>)
    ensures a + b + (c + l) == (l + a) + b + c
  {}

  /** A letter is handed over or refused. */
  lemma LetterTold(s: Inbox, l: Letter, fate: Fate)
    requires MailInv(s) && s.posted != [] && s.posted[0] == DeliverLetter(l)
    ensures Mail(s.posted[1..], s.incoming, s.toSenders + [Notice(l, fate)], s.sending, s.sendInterrupters, false)
  {
    var rest := s.posted[1..];
    NoticeAppend(s.toSenders, Notice(l, fate));
    assert PostedLetters(s.posted) == multiset{l} + PostedLetters(rest);
    Passed(multiset{l}, PostedLetters(rest), QueuedLetters(s.incoming), NoticeLetters(s.toSenders));
    assert forall c :: c in rest ==> c in s.posted;
  }

  lemma DeliverKeepsMail(s: Inbox, l: Letter)
    requires MailInv(s) && (s.receiver.Some? ==> s.open) && s.posted != [] && s.posted[0] == DeliverLetter(l)
    ensures MailInv(DoDeliver(s.(posted := s.posted[1..]), l))
  {
    if !s.open {
      LetterTold(s, l, SendClosed);
    } else if s.receiver.Some? {
      LetterTold(s, l, Sent);
    } else {
      LetterQueued(s, l);
    }
  }

  lemma {:induction false} QueuedTaken(incoming: seq<Queued>, at: nat)
    requires at < |incoming|
    ensures QueuedLetters(incoming) == QueuedLetters(Omit(incoming, at)) + LetterIn(incoming[at])
    decreases |incoming|
  {
    OmitRest(incoming, at);
    if at > 0 {
      QueuedTaken(incoming[1..], at - 1);
      Regroup(LetterIn(incoming[0]), QueuedLetters(Omit(incoming[1..], at - 1)), LetterIn(incoming[at]));
    }
  }

  lemma EraseKeepsMail(s: Inbox, q: Sender)
    requires MailInv(s)
    ensures MailInv(DoErase(s, q))
  {
    var i := FindSender(s.incoming, q);
    if i < |s.incoming| {
      var m, rest := s.incoming[i], Omit(s.incoming, i);
      var told := s.toSenders + [Notice(m.letter, SendInterrupted)];
      QueuedTaken(s.incoming, i);
      NoticeAppend(s.toSenders, Notice(m.letter, SendInterrupted));
      assert UnderWay(s.posted, rest, told) == UnderWay(s.posted, s.incoming, s.toSenders);
      assert forall x :: x in rest ==> x in s.incoming;
    }
  }

  lemma RunNextKeepsMail(s: Inbox)
    requires MailInv(s) && (s.receiver.Some? ==> s.open) && s.posted != []
    ensures MailInv(DoRunNext(s))
  {
    match s.posted[0]
    case DeliverLetter(l) => DeliverKeepsMail(s, l);
    case EraseLetter(l) =>
      FrontRun(s, s.receiver.Some?);
      EraseKeepsMail(s.(posted := s.posted[1..]), l.sender);
    case _ => RanNoLetter(s);
  }

  lemma RanNoLetter(s: Inbox)
    requires MailInv(s) && s.posted != [] && !s.posted[0].DeliverLetter? && !s.posted[0].EraseLetter?
    ensures MailInv(DoRunNext(s))
  {
    RanElsewhere(s);
    FrontRun(s, DoRunNext(s).receiver.Some?);
  }

  lemma RanElsewhere(s: Inbox)
    requires s.posted != [] && !s.posted[0].DeliverLetter? && !s.posted[0].EraseLetter?
    ensures var s' := DoRunNext(s);
            && s'.posted == s.posted[1..] && s'.incoming == s.incoming && s'.toSenders == s.toSenders
            && s'.sending == s.sending && s'.sendInterrupters == s.sendInterrupters && s'.told == s.told
            && (s'.receiver.Some? ==> s.receiver.Some?)
  {}

  lemma SenderKeepsMail(s: Inbox, a: Action)
    requires MailInv(s) && Enabled(s, a) && (a.Send? || a.InterruptSend? || a.RunSender?)
    ensures MailInv(Next(s, a))
  {
    match a
    case Send(q, m, g) => NewSend(s, Letter(q, s.nextTicket, m), DoSend(s, q, m, g).0.sendInterrupters);
    case InterruptSend(q) =>
      if q in s.sendInterrupters {
        NewErasure(s, q);
      }
    case RunSender(at) => SenderTold(s, at);
  }

  lemma ReceiveKeepsMail(s: Inbox, f: Fiber, gate: Gate)
    requires MailInv(s)
    ensures MailInv(DoReceive(s, f, gate).0)
  {
    if s.incoming != [] {
      FrontTaken(s);
    }
  }

  lemma StepKeepsMail(s: Inbox, a: Action)
    requires Inv(s) && MailInv(s)
    ensures MailInv(Next(s, a))
  {
    if Enabled(s, a) {
      match a
      case Receive(f, g) => ReceiveKeepsMail(s, f, g);
      case Close => CloseKeepsMail(s);
      case RunNext => RunNextKeepsMail(s);
      case OnWait(id, w) => OnWaitKeepsMail(s, id, w);
      case _ =>
        if a.Send? || a.InterruptSend? || a.RunSender? {
          SenderKeepsMail(s, a);
        } else {
          OtherKeepsMail(s, a);
        }
    }
  }

  /** At most one closure is posted, about no letter. */
  ghost predicate PostsOther(s: Inbox, s': Inbox) {
    && (s'.posted == s.posted || s'.posted == s.posted + [CheckSenders] || s'.posted == s.posted + [AddService]
        || s'.posted == s.posted + [PostedResume(s.receiver, Interrupted)])
    && s'.incoming == s.incoming && s'.toSenders == s.toSenders
    && s'.sending == s.sending && s'.sendInterrupters == s.sendInterrupters
    && (s'.receiver.Some? ==> s.receiver.Some?)
  }

  lemma PostsOtherKeepsMail(s: Inbox, s': Inbox)
    requires MailInv(s) && PostsOther(s, s')
    ensures MailInv(s')
  {
    var receiving := s'.receiver.Some?;
    OtherPosted(s, CheckSenders, receiving);
    OtherPosted(s, AddService, receiving);
    OtherPosted(s, PostedResume(s.receiver, Interrupted), receiving);
  }

  lemma OtherKeepsMail(s: Inbox, a: Action)
    requires MailInv(s) && Enabled(s, a)
    requires a.NewAddress? || a.DropAddress? || a.SendAddress? || a.SendOwnInbox? || a.Interrupt?
    ensures MailInv(Next(s, a))
  {
    if a.Interrupt? {
      InterruptPostsOther(s, a.fiber);
    } else {
      AddressPostsOther(s, a);
    }
    PostsOtherKeepsMail(s, Next(s, a));
  }

  lemma InterruptPostsOther(s: Inbox, f: Fiber)
    ensures PostsOther(s, DoInterrupt(s, f))
  {}

  lemma AddressPostsOther(s: Inbox, a: Action)
    requires Enabled(s, a) && (a.NewAddress? || a.DropAddress? || a.SendAddress? || a.SendOwnInbox?)
    ensures PostsOther(s, Next(s, a))
  {}

  lemma {:induction false} RunKeepsMail(s: Inbox, run: seq<Action>)
    requires Inv(s) && MailInv(s)
    ensures Inv(Exec(s, run)) && MailInv(Exec(s, run))
    decreases |run|
  {
    if run != [] {
      StepKeeps(s, run[0]);
      StepKeepsMail(s, run[0]);
      RunKeepsMail(Next(s, run[0]), run[1..]);
    }
  }

  /** After every run of a new inbox. */
  lemma ReachableMail(run: seq<Action>)
    ensures Inv(Exec(Init(), run)) && MailInv(Exec(Init(), run))
  {
    assert UnderWay([], [], []) == multiset{};
    RunKeepsMail(Init(), run);
  }

  // ---------------------------------------------------------------- what becomes of each send

  /** The send that suspends its caller in this step. */
  function SendsOf(s: Inbox, a: Action): multiset<Letter> {
    if a.Send? && Enabled(s, a) && Perform(s, a).1 == Suspended then multiset{Letter(a.sender, s.nextTicket, a.msg)}
    else multiset{}
  }

  function SendsIn(s: Inbox, run: seq<Action>): multiset<Letter>
    decreases |run|
  {
    if run == [] then multiset{} else SendsOf(s, run[0]) + SendsIn(Next(s, run[0]), run[1..])
  }

  /** What a step hands to a fiber that receives: at once, or by resuming it. */
  function HandedBy(s: Inbox, a: Action): seq<Queued> {
    if !Enabled(s, a) then []
    else
      var (s', r) := Perform(s, a);
      if r.Got? then [r.what] else Brought(s.resumed, s'.resumed)
  }

  /** The message that the latest resume brings, if there is a resume and it brings one. */
  function Brought(before: seq<Resumed>, after: seq<Resumed>): seq<Queued> {
    if |after| > |before| && after[|before|].args.Delivered? then [after[|before|].args.what] else []
  }

  function HandedIn(s: Inbox, run: seq<Action>): seq<Queued>
    decreases |run|
  {
    if run == [] then [] else HandedBy(s, run[0]) + HandedIn(Next(s, run[0]), run[1..])
  }

  /** The sends that ended, or are about to end, with `fate`. */
  function WithFate(notices: seq<Notice>, fate: Fate): multiset<Letter> {
    if notices == [] then multiset{}
    else (if notices[0].fate == fate then multiset{notices[0].letter} else multiset{}) + WithFate(notices[1..], fate)
  }

  function FateOf(n: Notice, fate: Fate): multiset<Letter> {
    if n.fate == fate then multiset{n.letter} else multiset{}
  }

  lemma {:induction false} FateConcat(a: seq<Notice>, b: seq<Notice>, fate: Fate)
    ensures WithFate(a + b, fate) == WithFate(a, fate) + WithFate(b, fate)
    decreases |a|
  {
    if a == [] {
      assert a + b == b;
    } else {
      FateConcat(a[1..], b, fate);
      ConcatRest(a, b);
      Regroup(FateOf(a[0], fate), WithFate(a[1..], fate), WithFate(b, fate));
    }
  }

  lemma FateAppend(notices: seq<Notice>, n: Notice, fate: Fate)
    ensures WithFate(notices + [n], fate) == WithFate(notices, fate) + FateOf(n, fate)
  {
    FateConcat(notices, [n], fate);
    assert [n][1..] == [];
  }

  lemma {:induction false} FateTaken(notices: seq<Notice>, at: nat, fate: Fate)
    requires at < |notices|
    ensures WithFate(notices, fate) == WithFate(Omit(notices, at), fate) + FateOf(notices[at], fate)
    decreases |notices|
  {
    OmitRest(notices, at);
    if at > 0 {
      FateTaken(notices[1..], at - 1, fate);
      Regroup(FateOf(notices[0], fate), WithFate(Omit(notices[1..], at - 1), fate), FateOf(notices[at], fate));
    }
  }

  lemma {:induction false} ClearedIsNotSent(incoming: seq<Queued>)
    ensures WithFate(Notices(incoming), Sent) == multiset{}
    decreases |incoming|
  {
    if incoming != [] {
      ClearedIsNotSent(incoming[1..]);
      match incoming[0]
      case FromProcess(_) => assert [] + Notices(incoming[1..]) == Notices(incoming[1..]);
      case FromActor(l) =>
        FateConcat([Notice(l, SendClosed)], Notices(incoming[1..]), Sent);
        assert [Notice(l, SendClosed)][1..] == [];
    }
  }

  /** The sends that have ended well, told to their senders or about to be. */
  function Successes(s: Inbox): multiset<Letter> {
    WithFate(s.told, Sent) + WithFate(s.toSenders, Sent)
  }

  lemma OneHanded(m: Queued)
    ensures QueuedLetters([m]) == LetterIn(m)
  {
    assert [m][1..] == [];
  }

  lemma RunSenderSucceeds(s: Inbox, at: nat)
    requires at < |s.toSenders|
    ensures Successes(DoRunSender(s, at)) == Successes(s)
  {
    FateTaken(s.toSenders, at, Sent);
    FateAppend(s.told, s.toSenders[at], Sent);
  }

  lemma ReceiveSucceeds(s: Inbox, f: Fiber, gate: Gate)
    ensures var (s', r) := DoReceive(s, f, gate);
            && s'.resumed == s.resumed
            && Successes(s') == Successes(s) + if r.Got? then LetterIn(r.what) else multiset{}
  {
    if s.incoming != [] && s.incoming[0].FromActor? {
      FateAppend(s.toSenders, Notice(s.incoming[0].letter, Sent), Sent);
    }
  }

  lemma ClearedSucceeds(toSenders: seq<Notice>, incoming: seq<Queued>)
    ensures WithFate(toSenders + Notices(incoming), Sent) == WithFate(toSenders, Sent)
  {
    FateConcat(toSenders, Notices(incoming), Sent);
    ClearedIsNotSent(incoming);
  }

  lemma CloseTells(s: Inbox)
    ensures DoClose(s).toSenders == if s.open then s.toSenders + Notices(s.incoming) else s.toSenders
    ensures DoClose(s).told == s.told && DoClose(s).resumed == s.resumed
  {}

  lemma CloseSucceeds(s: Inbox)
    ensures Successes(DoClose(s)) == Successes(s) && DoClose(s).resumed == s.resumed
  {
    CloseTells(s);
    ClearedSucceeds(s.toSenders, s.incoming);
  }

  lemma DeliverSucceeds(s: Inbox, l: Letter)
    ensures Successes(DoDeliver(s, l)) == Successes(s) + QueuedLetters(Brought(s.resumed, DoDeliver(s, l).resumed))
  {
    FateAppend(s.toSenders, Notice(l, Sent), Sent);
    FateAppend(s.toSenders, Notice(l, SendClosed), Sent);
    OneHanded(FromActor(l));
    assert Brought(s.resumed, DoDeliver(s, l).resumed) == if s.open && s.receiver.Some? then [FromActor(l)] else [];
  }

  lemma EraseSucceeds(s: Inbox, q: Sender)
    ensures Successes(DoErase(s, q)) == Successes(s) && DoErase(s, q).resumed == s.resumed
  {
    var i := FindSender(s.incoming, q);
    if i < |s.incoming| {
      FateAppend(s.toSenders, Notice(s.incoming[i].letter, SendInterrupted), Sent);
    }
  }

  /** What running a closure hands over is a letter, and its sender is told; nothing else succeeds. */
  lemma RunNextSucceeds(s: Inbox)
    requires MailInv(s) && s.posted != []
    ensures Successes(DoRunNext(s)) == Successes(s) + QueuedLetters(Brought(s.resumed, DoRunNext(s).resumed))
  {
    var s1 := s.(posted := s.posted[1..]);
    match s.posted[0]
    case DeliverLetter(l) => DeliverSucceeds(s1, l);
    case EraseLetter(l) => EraseSucceeds(s1, l.sender);
    case _ => ClosureSucceeds(s);
  }

  lemma ClosureSucceeds(s: Inbox)
    requires MailInv(s) && s.posted != [] && !s.posted[0].DeliverLetter? && !s.posted[0].EraseLetter?
    ensures Successes(DoRunNext(s)) == Successes(s) && Brought(s.resumed, DoRunNext(s).resumed) == []
  {
    RanElsewhere(s);
    assert s.posted[0] in s.posted;
    ClosureBrings(s);
  }

  lemma ClosureBrings(s: Inbox)
    requires s.posted != [] && !s.posted[0].DeliverLetter? && !s.posted[0].EraseLetter?
    requires s.posted[0].PostedResume? ==> !s.posted[0].args.Delivered?
    ensures Brought(s.resumed, DoRunNext(s).resumed) == []
  {}

  /** A wait hands over values of other processes. */
  lemma WaitedSucceeds(s: Inbox, id: ServiceId, s': Inbox)
    requires Waited(s, id, s')
    ensures Successes(s') == Successes(s) && QueuedLetters(Brought(s.resumed, s'.resumed)) == multiset{}
  {
    GiveUpSucceeds(s, id);
    if m :| Takes(s, id, m, s') {
      MessageSucceeds(s.(services := s.services[id := false]), id, m);
    }
  }

  lemma GiveUpSucceeds(s: Inbox, id: ServiceId)
    ensures Successes(GiveUp(s, id)) == Successes(s) && Brought(s.resumed, GiveUp(s, id).resumed) == []
    ensures Successes(RemoveService(s, id)) == Successes(s) && RemoveService(s, id).resumed == s.resumed
  {}

  lemma MessageSucceeds(s: Inbox, id: ServiceId, m: Option<Message>)
    ensures Successes(Deliver(s, id, m)) == Successes(s)
    ensures QueuedLetters(Brought(s.resumed, Deliver(s, id, m).resumed)) == multiset{}
  {
    var s' := Deliver(s, id, m);
    assert s'.toSenders == s.toSenders && s'.told == s.told;
    if m.Some? {
      MessageBrings(s, id, m);
      OneHanded(FromProcess(FiberValue(m.value)));
    } else {
      assert Brought(s.resumed, s'.resumed) == [];
    }
  }

  lemma MessageBrings(s: Inbox, id: ServiceId, m: Option<Message>)
    requires m.Some?
    ensures Brought(s.resumed, Deliver(s, id, m).resumed)
            == if s.receiver.None? then [] else [FromProcess(FiberValue(m.value))]
  {}

  lemma OnWaitSucceeds(s: Inbox, id: ServiceId, w: Wait)
    requires WaitOk(w)
    ensures Successes(DoOnWait(s, id, w)) == Successes(s)
    ensures QueuedLetters(Brought(s.resumed, DoOnWait(s, id, w).resumed)) == multiset{}
  {
    OnWaitOutcome(s, id, w);
    WaitedSucceeds(s, id, DoOnWait(s, id, w));
  }

  lemma OthersSucceed(s: Inbox, a: Action)
    requires Enabled(s, a) && !a.RunSender? && !a.Receive? && !a.Close? && !a.RunNext? && !a.OnWait?
    ensures Successes(Next(s, a)) == Successes(s) && Next(s, a).resumed == s.resumed
  {}

  lemma HandedByResume(s: Inbox, a: Action)
    requires Enabled(s, a) && !a.Receive?
    ensures HandedBy(s, a) == Brought(s.resumed, Next(s, a).resumed)
  {}

  lemma NothingBrought(s: Inbox, s': Inbox)
    requires s'.resumed == s.resumed && Successes(s') == Successes(s)
    ensures Successes(s') == Successes(s) + QueuedLetters(Brought(s.resumed, s'.resumed))
  {}

  lemma ReceiveStepSucceeds(s: Inbox, f: Fiber, gate: Gate)
    requires Enabled(s, Receive(f, gate))
    ensures Successes(DoReceive(s, f, gate).0) == Successes(s) + QueuedLetters(HandedBy(s, Receive(f, gate)))
  {
    ReceiveSucceeds(s, f, gate);
    var (s', r) := DoReceive(s, f, gate);
    if r.Got? {
      OneHanded(r.what);
    } else {
      assert HandedBy(s, Receive(f, gate)) == [];
    }
  }

  /** A send ends well exactly when its message is handed to a fiber that receives. */
  lemma StepSucceeds(s: Inbox, a: Action)
    requires MailInv(s)
    ensures Successes(Next(s, a)) == Successes(s) + QueuedLetters(HandedBy(s, a))
  {
    if Enabled(s, a) {
      if a.Receive? {
        ReceiveStepSucceeds(s, a.fiber, a.gate);
      } else {
        ResumingStepSucceeds(s, a);
        HandedByResume(s, a);
      }
    }
  }

  lemma ResumingStepSucceeds(s: Inbox, a: Action)
    requires MailInv(s) && Enabled(s, a) && !a.Receive?
    ensures Successes(Next(s, a)) == Successes(s) + QueuedLetters(Brought(s.resumed, Next(s, a).resumed))
  {
    match a
    case RunNext => RunNextSucceeds(s);
    case OnWait(id, w) => OnWaitSucceeds(s, id, w);
    case RunSender(at) =>
      RunSenderSucceeds(s, at);
      NothingBrought(s, DoRunSender(s, at));
    case Close =>
      CloseSucceeds(s);
      NothingBrought(s, DoClose(s));
    case _ =>
      OthersSucceed(s, a);
      NothingBrought(s, Next(s, a));
  }

  /** A step ends no send but the one it tells, and starts none but the one that suspends. */
  lemma StepEnds(s: Inbox, a: Action)
    requires MailInv(s)
    ensures var s' := Next(s, a);
            NoticeLetters(s'.told) + multiset(s'.sending) == NoticeLetters(s.told) + multiset(s.sending) + SendsOf(s, a)
  {
    if Enabled(s, a) {
      match a
      case RunSender(at) => RunSenderEnds(s, at);
      case Send(q, m, g) => SendStarts(s, q, m, g);
      case _ => OthersEnd(s, a);
    }
  }

  lemma RunSenderEnds(s: Inbox, at: nat)
    requires MailInv(s) && at < |s.toSenders|
    ensures var s' := DoRunSender(s, at);
            NoticeLetters(s'.told) + multiset(s'.sending) == NoticeLetters(s.told) + multiset(s.sending)
  {
    var n := s.toSenders[at];
    SenderTold(s, at);
    NoticeAppend(s.told, n);
    assert multiset(s.sending) == multiset{n.letter} + multiset(s.sending - {n.letter});
    Regroup(NoticeLetters(s.told), multiset{n.letter}, multiset(s.sending - {n.letter}));
  }

  lemma SendStarts(s: Inbox, q: Sender, msg: nat, gate: Gate)
    requires forall l :: l in s.sending ==> l.sender != q
    ensures var (s', r) := DoSend(s, q, msg, gate);
            && s'.told == s.told
            && multiset(s'.sending) == multiset(s.sending) +
                 if r == Suspended then multiset{Letter(q, s.nextTicket, msg)} else multiset{}
  {
    var l := Letter(q, s.nextTicket, msg);
    assert l !in s.sending;
    assert multiset(s.sending + {l}) == multiset(s.sending) + multiset{l};
  }

  lemma OthersEnd(s: Inbox, a: Action)
    requires Enabled(s, a) && !a.RunSender? && !a.Send?
    ensures Next(s, a).told == s.told && Next(s, a).sending == s.sending
  {
    if a.RunNext? {
      RanLetters(s);
    }
  }

  lemma RanLetters(s: Inbox)
    requires s.posted != []
    ensures DoRunNext(s).told == s.told && DoRunNext(s).sending == s.sending
  {}

  lemma TicketsGrow(s: Inbox, a: Action)
    ensures Next(s, a).nextTicket == s.nextTicket + |SendsOf(s, a)|
  {
    if Enabled(s, a) && a.RunNext? {
      RanTickets(s);
    }
  }

  lemma RanTickets(s: Inbox)
    requires s.posted != []
    ensures DoRunNext(s).nextTicket == s.nextTicket
  {}

  /** No two sends of a run are the same. */
  lemma {:induction false} SendsDiffer(s: Inbox, run: seq<Action>, l: Letter)
    ensures SendsIn(s, run)[l] <= if l.ticket < s.nextTicket then 0 else 1
    decreases |run|
  {
    if run != [] {
      TicketsGrow(s, run[0]);
      SendsDiffer(Next(s, run[0]), run[1..], l);
    }
  }

  lemma {:induction false} HandedConcat(s: Inbox, run: seq<Action>)
    requires run != []
    ensures QueuedLetters(HandedIn(s, run)) == QueuedLetters(HandedBy(s, run[0])) + QueuedLetters(HandedIn(Next(s, run[0]), run[1..]))
  {
    QueuedConcat(HandedBy(s, run[0]), HandedIn(Next(s, run[0]), run[1..]));
  }

  lemma {:induction false} RunEnds(s: Inbox, run: seq<Action>)
    requires Inv(s) && MailInv(s)
    ensures var e := Exec(s, run);
            && NoticeLetters(e.told) + multiset(e.sending) == NoticeLetters(s.told) + multiset(s.sending) + SendsIn(s, run)
            && Successes(e) == Successes(s) + QueuedLetters(HandedIn(s, run))
    decreases |run|
  {
    if run != [] {
      var s1 := Next(s, run[0]);
      StepKeeps(s, run[0]);
      StepKeepsMail(s, run[0]);
      StepEnds(s, run[0]);
      StepSucceeds(s, run[0]);
      RunEnds(s1, run[1..]);
      HandedConcat(s, run);
    }
  }

  /**
    Over any run, every send that suspended ended once, or has not ended; and the sends that ended well, whether
    their senders know it already or not, are those whose message was handed to a fiber that received.
   */
  lemma SendEndsOnce(run: seq<Action>)
    ensures var s, sent := Exec(Init(), run), SendsIn(Init(), run);
            && NoticeLetters(s.told) + multiset(s.sending) == sent
            && WithFate(s.told, Sent) + WithFate(s.toSenders, Sent) == QueuedLetters(HandedIn(Init(), run))
            && forall l :: sent[l] <= 1
  {
    ReachableMail([]);
    RunEnds(Init(), run);
    forall l
      ensures SendsIn(Init(), run)[l] <= 1
    {
      SendsDiffer(Init(), run, l);
    }
  }

}
