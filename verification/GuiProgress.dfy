/** What GUI control does get done: crates/rc-agent/src/media.rs and crates/rc-platform-windows/src/gui_session.rs. */
module GuiProgress {
  import opened Protocol
  import opened GuiSafety
  import opened GuiTheory
  import opened GuiTheorems

  // ---- Which inputs are accepted ----

  /** The sequence number remembered for the lease is one that was accepted under it, if any was. */
  predicate LastKnown(s: State) {
    s.lease.Some? && s.lastSeq > 0 ==> Input(s.lease.value, s.lastSeq) in s.accepted
  }

  /** The step leaves the lease and what was accepted under it alone, or gives the lease up. */
  predicate LeaseSame(s: State, t: State) {
    t.accepted == s.accepted && (t.lease.None? || (t.lease == s.lease && t.lastSeq == s.lastSeq))
  }

  lemma ThreadLease(s: State, ok: bool)
    ensures LeaseSame(s, ThreadStep(s, ok))
  {
    if !s.threadHalf && !Plain(s.thread) {
      match s.thread {
        case Idle => TakeLease(s);
        case ArmReply(grant, id) => ReplyLease(s, id, Some(grant));
        case ErrReply(id) => ReplyLease(s, id, None);
        case ActRevision(input) => CheckedLease(s, input, true);
        case ApplyingArmed(input) => CheckedLease(s, input, ok);
        case _ =>
      }
    }
  }

  lemma ReplyLease(s: State, id: nat, r: Option<Grant>)
    ensures LeaseSame(s, Replied(s, id, r))
  {
  }

  lemma CheckedLease(s: State, input: Input, ok: bool)
    ensures LeaseSame(s, Checked(s, input, ok))
  {
  }

  lemma TakeLease(s: State)
    ensures LeaseSame(s, TakeCommand(s))
  {
  }

  lemma MediaKnown(s: State, ok: bool)
    requires LastKnown(s)
    ensures LastKnown(MediaStep(s, ok))
  {
  }

  lemma StepKnown(s: State, a: Action)
    requires LastKnown(s)
    ensures LastKnown(Step(s, a))
  {
    match a {
      case Thread(ok) => ThreadLease(s, ok);
      case MediaNext(ok) => MediaKnown(s, ok);
      case _ =>
    }
  }

  lemma {:induction false} RunKnown(acts: seq<Action>)
    ensures LastKnown(Run(acts))
  {
    if acts != [] {
      RunKnown(acts[..|acts| - 1]);
      StepKnown(Run(acts[..|acts| - 1]), acts[|acts| - 1]);
    }
  }

  /** The input is the newest under its grant. */
  predicate Newest(accepted: seq<Input>, g: Grant, seqno: nat) {
    seqno > 0 && forall x :: x in accepted && x.grant == g ==> x.seqno < seqno
  }

  /** When nobody is in the middle of changing them, an input is accepted exactly if every other check is met, it names
      the lease that is held, nothing was revoked since that was granted, and it is newer than every input accepted under
      it. Any other input costs the lease. */
  lemma ReceiveExactly(acts: seq<Action>, epoch: nat, seqno: nat, ready: bool)
    requires Settled(Run(acts)) && Free(Run(acts))
    ensures var s, t := Run(acts), Step(Run(acts), Receive(epoch, seqno, ready));
            if ready && s.lease.Some? && s.lease.value.epoch == epoch && s.bumps == s.lease.value.at
               && Newest(s.accepted, s.lease.value, seqno)
            then t.accepted == s.accepted + [Input(s.lease.value, seqno)] && t.media == SendArmed(Input(s.lease.value, seqno))
            else t == s.(media := Disarm(false)) && Step(t, MediaNext(true)).lease == None
  {
    var s := Run(acts);
    RunGood(acts);
    RunKnown(acts);
    ArmedExactly(acts);
    if s.lease.Some? {
      NewestExactly(s, seqno);
    }
  }

  lemma NewestExactly(s: State, seqno: nat)
    requires LeaseGood(s) && LastKnown(s) && s.lease.Some?
    ensures Newest(s.accepted, s.lease.value, seqno) <==> seqno > s.lastSeq
  {
    if s.lastSeq > 0 && Newest(s.accepted, s.lease.value, seqno) {
      assert Input(s.lease.value, s.lastSeq) in s.accepted;
    }
  }

  // ---- Undisturbed ----

  function Along(s: State, acts: seq<Action>): State
    decreases |acts|
  {
    if acts == [] then s else Step(Along(s, acts[..|acts| - 1]), acts[|acts| - 1])
  }

  lemma AlongOne(s: State, acts: seq<Action>, a: Action, t: State)
    requires Along(s, acts) == t
    ensures Along(s, acts + [a]) == Step(t, a)
  {
    assert (acts + [a])[..|acts|] == acts;
  }

  /** Both threads wait for something to do. */
  predicate Calm(s: State) { s.thread == Idle && !s.threadHalf && Free(s) && s.queue == [] && !s.closed && s.reply == None }

  const POSTING: seq<Action> := [Acquire] + [MediaNext(true)]
  const ASKED: seq<Action> := POSTING + [MediaNext(true)] + [Thread(true)]
  const READY: seq<Action> := ASKED + [Thread(true)] + [Thread(true)]
  const STORED: seq<Action> := READY + [Thread(true)] + [Thread(true)]
  const ANSWERED: seq<Action> := STORED + [Thread(true)] + [Thread(true)]
  const GRANTED: seq<Action> := ANSWERED + [MediaNext(true)]

  lemma AlongFirst(s: State, a: Action)
    ensures Along(s, [a]) == Step(s, a)
  {
    assert [a][..0] == [];
    assert Along(s, []) == s;
  }

  lemma ArmPosted(s: State, expected: nat)
    requires s.media == AcquirePost(expected) && !s.mediaHalf && s.queue == [] && !s.closed
    ensures MediaStep(s, true) == s.(media := AcquireWake(s.ids), ids := s.ids + 1, queue := [Arm(expected, s.ids)])
  {
  }

  lemma AcquirePosts(s: State)
    requires Calm(s)
    ensures Along(s, POSTING) == s.(media := AcquireWake(s.ids), ids := s.ids + 1, queue := [Arm(s.revision, s.ids)])
  {
    var t := s.(media := AcquirePost(s.revision));
    AlongFirst(s, Acquire);
    AlongOne(s, [Acquire], MediaNext(true), t);
    ArmPosted(t, s.revision);
  }

  lemma AcquireAsks(s: State)
    requires Calm(s)
    ensures Along(s, ASKED) == s.(media := AcquireWait(s.ids), ids := s.ids + 1, thread := ArmLoad(s.revision, s.ids))
  {
    AcquirePosts(s);
    var b := s.(media := AcquireWake(s.ids), ids := s.ids + 1, queue := [Arm(s.revision, s.ids)]);
    AlongOne(s, POSTING, MediaNext(true), b);
    AlongOne(s, POSTING + [MediaNext(true)], Thread(true), b.(media := AcquireWait(s.ids)));
  }

  lemma AcquirePrepares(s: State)
    requires Calm(s) && s.revision + 1 < MODULUS
    ensures Along(s, READY) == s.(media := AcquireWait(s.ids), ids := s.ids + 1, thread := ArmSwap(s.revision, s.ids))
  {
    AcquireAsks(s);
    var a := s.(media := AcquireWait(s.ids), ids := s.ids + 1, thread := ArmLoad(s.revision, s.ids));
    AlongOne(s, ASKED, Thread(true), a);
    AlongOne(s, ASKED + [Thread(true)], Thread(true), a.(thread := ArmBackend(s.revision, s.ids)));
  }

  /** The state in the middle of the arm, after the exchange. */
  function Exchanged(s: State): State {
    s.(media := AcquireWait(s.ids), ids := s.ids + 1, revision := s.revision + 1, bumps := s.bumps + 1,
       thread := ArmStore(Grant(s.revision + 1, s.bumps + 1), s.ids))
  }

  lemma AcquireExchanges(s: State)
    requires Calm(s) && s.revision + 1 < MODULUS
    ensures Along(s, READY + [Thread(true)]) == Exchanged(s)
  {
    AcquirePrepares(s);
    AlongOne(s, READY, Thread(true), s.(media := AcquireWait(s.ids), ids := s.ids + 1, thread := ArmSwap(s.revision, s.ids)));
  }

  lemma AcquireStores(s: State)
    requires Calm(s) && s.revision + 1 < MODULUS
    ensures Along(s, STORED) == Exchanged(s).(armed := true, thread := ArmReload(Grant(s.revision + 1, s.bumps + 1), s.ids))
  {
    AcquireExchanges(s);
    AlongOne(s, READY + [Thread(true)], Thread(true), Exchanged(s));
  }

  lemma AcquireAnswers(s: State)
    requires Calm(s) && s.revision + 1 < MODULUS
    ensures Along(s, ANSWERED)
         == Exchanged(s).(armed := true, thread := Idle, reply := Some(Some(Grant(s.revision + 1, s.bumps + 1))))
  {
    AcquireStores(s);
    var g := Grant(s.revision + 1, s.bumps + 1);
    var b := Exchanged(s).(armed := true, thread := ArmReload(g, s.ids));
    AlongOne(s, STORED, Thread(true), b);
    AlongOne(s, STORED + [Thread(true)], Thread(true), b.(thread := ArmReply(g, s.ids)));
  }

  /** An acquisition that nothing disturbs grants a lease of the next revision, and arms. */
  lemma UndisturbedAcquire(s: State)
    requires Calm(s) && s.revision + 1 < MODULUS
    ensures Along(s, GRANTED) == s.(ids := s.ids + 1, revision := s.revision + 1, bumps := s.bumps + 1, armed := true,
                                    lease := Some(Grant(s.revision + 1, s.bumps + 1)), lastSeq := 0)
  {
    AcquireAnswers(s);
    AlongOne(s, ANSWERED, MediaNext(true),
             Exchanged(s).(armed := true, thread := Idle, reply := Some(Some(Grant(s.revision + 1, s.bumps + 1)))));
  }

  function Posted(epoch: nat, seqno: nat): seq<Action> {
    [Receive(epoch, seqno, true)] + [MediaNext(true)] + [MediaNext(true)] + [MediaNext(true)] + [MediaNext(true)]
  }

  function Applied(epoch: nat, seqno: nat): seq<Action> {
    Posted(epoch, seqno) + [Thread(true)] + [Thread(true)] + [Thread(true)]
  }

  /** The lease is held and armed. */
  predicate Armed(s: State) { s.lease.Some? && s.armed && s.revision == s.lease.value.epoch }

  lemma InputChecked(s: State, seqno: nat)
    requires Calm(s) && Armed(s) && seqno > s.lastSeq
    ensures var x := Input(s.lease.value, seqno);
            Along(s, [Receive(x.grant.epoch, seqno, true)] + [MediaNext(true)])
            == s.(lastSeq := seqno, accepted := s.accepted + [x], media := SendRevision(x))
  {
    var x := Input(s.lease.value, seqno);
    var r := [Receive(x.grant.epoch, seqno, true)];
    assert Along(s, []) == s && [] + r == r;
    AlongOne(s, [], r[0], s);
    AlongOne(s, r, MediaNext(true), s.(lastSeq := seqno, accepted := s.accepted + [x], media := SendArmed(x)));
  }

  lemma InputPosted(s: State, seqno: nat)
    requires Calm(s) && Armed(s) && seqno > s.lastSeq
    ensures var x := Input(s.lease.value, seqno);
            Along(s, Posted(x.grant.epoch, seqno)) == s.(lastSeq := seqno, accepted := s.accepted + [x], queue := [Act(x)])
  {
    InputChecked(s, seqno);
    var x := Input(s.lease.value, seqno);
    var r := [Receive(x.grant.epoch, seqno, true)] + [MediaNext(true)];
    var b := s.(lastSeq := seqno, accepted := s.accepted + [x], media := SendRevision(x));
    AlongOne(s, r, MediaNext(true), b);
    AlongOne(s, r + [MediaNext(true)], MediaNext(true), b.(media := SendPost(x)));
    AlongOne(s, r + [MediaNext(true)] + [MediaNext(true)], MediaNext(true), b.(media := Wake, queue := [Act(x)]));
  }

  /** A newer input under an armed lease, with nothing to disturb it, passes the safety thread and is being applied. */
  lemma UndisturbedInput(s: State, seqno: nat)
    requires Calm(s) && Armed(s) && seqno > s.lastSeq
    ensures var x := Input(s.lease.value, seqno);
            Along(s, Applied(x.grant.epoch, seqno))
            == s.(lastSeq := seqno, accepted := s.accepted + [x], passed := s.passed + [Pass(x, s.bumps)], thread := Applying(x))
  {
    var x := Input(s.lease.value, seqno);
    var p := Posted(x.grant.epoch, seqno);
    var a := s.(lastSeq := seqno, accepted := s.accepted + [x], queue := [Act(x)]);
    InputPosted(s, seqno);
    AlongOne(s, p, Thread(true), a);
    AlongOne(s, p + [Thread(true)], Thread(true), a.(queue := [], thread := ActArmed(x)));
    AlongOne(s, p + [Thread(true)] + [Thread(true)], Thread(true), a.(queue := [], thread := ActRevision(x)));
  }

  // ---- Revocation ----

  lemma TwoMore(acts: seq<Action>, a: Action, b: Action)
    ensures Run(acts + [a, b]) == Step(Step(Run(acts), a), b)
  {
    assert acts + [a, b] == (acts + [a]) + [b];
    RunMore(acts, a);
    RunMore(acts + [a], b);
  }

  /** `t` is `s` once it was revoked. */
  predicate Revoked(s: State, t: State) {
    t == s.(armed := false, revision := (s.revision + 1) % MODULUS, bumps := s.bumps + 1)
  }

  lemma InterruptMoves(s: State, half: State, ok: bool)
    requires Pumps(s.thread) && !s.threadHalf && half == Step(s, Interrupt)
    ensures Revoked(s, ThreadStep(half, ok))
  {
  }

  /** The safety thread lets this through between `t` and `u`. */
  predicate NewPass(t: State, u: State, p: Pass) {
    (p in u.passed && p !in t.passed) || (p in u.continued && p !in t.continued)
  }

  lemma PassedAfter(acts: seq<Action>, after: seq<Action>, p: Pass)
    requires NewPass(Run(acts), Run(acts + after), p)
    ensures p.input.grant.at >= Run(acts).bumps || p.bumps - p.input.grant.at >= MODULUS
  {
    if p.input.grant.at < Run(acts).bumps {
      DeadForever(acts, after, p);
    }
  }

  /** Local input, wherever the safety thread can notice it, disarms and bumps the revision. */
  lemma LocalInputDisarms(acts: seq<Action>, ok: bool)
    requires Pumps(Run(acts).thread) && !Run(acts).threadHalf
    ensures Revoked(Run(acts), Run(acts + [Interrupt, Thread(ok)]))
  {
    TwoMore(acts, Interrupt, Thread(ok));
    InterruptMoves(Run(acts), Step(Run(acts), Interrupt), ok);
  }

  /** Whatever is let through after local input was granted after it, or 2^64 bumps later. */
  lemma LocalInputRevokes(acts: seq<Action>, ok: bool, after: seq<Action>, p: Pass)
    requires Pumps(Run(acts).thread) && !Run(acts).threadHalf
    requires NewPass(Run(acts + [Interrupt, Thread(ok)]), Run(acts + [Interrupt, Thread(ok)] + after), p)
    ensures p.input.grant.at > Run(acts).bumps || p.bumps - p.input.grant.at >= MODULUS
  {
    LocalInputDisarms(acts, ok);
    PassedAfter(acts + [Interrupt, Thread(ok)], after, p);
  }

  /** Giving the lease up disarms and bumps the revision too. */
  lemma DropRevokes(s: State, ok: bool)
    requires Free(s)
    ensures var dropping := s.(media := Disarm(false));
            var half := s.(armed := false, lease := None, media := DisarmPost(false), mediaHalf := true);
            && Step(s, DropLease) == dropping && Step(dropping, MediaNext(ok)) == half
            && Step(half, MediaNext(ok)) == Bumped(half).(mediaHalf := false)
  {
    DropMoves(s, ok);
  }

  lemma DropMoves(s: State, ok: bool)
    requires Free(s)
    ensures MediaStep(s.(media := Disarm(false)), ok)
         == s.(armed := false, lease := None, media := DisarmPost(false), mediaHalf := true)
  {
  }

  /** When the safety thread ends it has revoked, and closes, so that no command is taken from then on. */
  lemma QuitCloses(s: State, ok: bool)
    requires s.thread == Idle && !s.threadHalf
    ensures var half := s.(armed := false, thread := Closing, threadHalf := true);
            var bumped := Bumped(half).(threadHalf := false);
            && Step(s, Quit) == half && Step(half, Thread(ok)) == bumped
            && Step(bumped, Thread(ok)) == bumped.(closed := true, thread := Ended)
  {
    ClosingMoves(Bumped(s).(armed := false, thread := Closing), ok);
  }

  lemma ClosingMoves(s: State, ok: bool)
    requires s.thread == Closing && !s.threadHalf
    ensures ThreadStep(s, ok) == s.(closed := true, thread := Ended)
  {
  }

  /** Where something goes wrong on the safety thread: an arm fails, or the backend cannot apply an input. */
  predicate Failing(s: State, ok: bool) { s.thread.ArmFailed? || (s.thread.Applying? && !ok) }

  /** Whatever goes wrong revokes. */
  lemma FailureRevokes(s: State, ok: bool, then_: bool)
    requires Failing(s, ok) && !s.threadHalf
    ensures var t := Step(Step(s, Thread(ok)), Thread(then_));
            !t.armed && !t.threadHalf && t.bumps == s.bumps + 1 && t.revision == (s.revision + 1) % MODULUS
  {
  }

  /** So does a wake-up that fails, and the end of the stream. */
  lemma FailedWakeRevokes(s: State, then_: bool)
    requires (s.media.AcquireWake? || s.media.Wake? || s.media.DisarmWake? || s.media.Drop?) && !s.mediaHalf
    ensures var t := Step(Step(s, MediaNext(false)), MediaNext(then_));
            !t.armed && !t.mediaHalf && t.bumps == s.bumps + 1 && t.revision == (s.revision + 1) % MODULUS
  {
  }

  /** An arm fails if the revision has moved on, if the backend fails, or if the revision is the last one. */
  lemma ArmFails(s: State, ok: bool)
    requires !s.threadHalf && (s.thread.ArmLoad? || s.thread.ArmBackend? || s.thread.ArmSwap?)
    ensures var t := Step(s, Thread(ok)); var expected := s.thread.expected;
            && (t.thread == ArmFailed(s.thread.id) <==>
                  if s.thread.ArmBackend? then !ok || expected + 1 >= MODULUS else s.revision != expected)
            && t.armed == s.armed && t.queue == s.queue
  {
  }

  /** What the safety thread finds decides: an arm is answered with its lease only if nothing was revoked since its
      exchange (or a multiple of 2^64 times) and undone otherwise; an input goes on only while `armed` is set. */
  lemma ThreadDecides(acts: seq<Action>, ok: bool)
    requires !Run(acts).threadHalf
    ensures var s := Run(acts); var t := Step(s, Thread(ok));
            && (s.thread.ArmReload? ==> var g, id := s.thread.grant, s.thread.id;
                  t == s.(thread := if Unrevoked(g, s.bumps) then ArmReply(g, id) else ArmUndo(g, id)))
            && (s.thread.ArmUndo? ==> t == s.(armed := false, thread := ArmFailed(s.thread.id)))
            && (s.thread.ActArmed? ==> t == s.(thread := if s.armed then ActRevision(s.thread.input) else Idle))
            && (s.thread.Applying? && ok ==> t == s.(thread := if s.armed then ApplyingArmed(s.thread.input) else Idle))
  {
    RunGood(acts);
    var s := Run(acts);
    if s.thread.ArmReload? {
      SoundUnrevoked(s.thread.grant, s.bumps);
    }
    PlainMoves(s, ok);
  }

  lemma PlainMoves(s: State, ok: bool)
    requires !s.threadHalf
    ensures s.thread.ArmReload? || s.thread.ArmUndo? || s.thread.ActArmed? || (s.thread.Applying? && ok) ==>
              Step(s, Thread(ok)) == s.(armed := s.armed && !s.thread.ArmUndo?,
                                        thread := PlainNext(s.thread, s.armed, s.revision, ok))
  {
  }

  // ---- The check of `action` ----

  /** An accepted input is handed to the safety thread if and only if it finds `armed` set, its lease unrevoked (or revoked a
      multiple of 2^64 times), and room in the queue; otherwise the stream ends. */
  lemma ActionExactly(acts: seq<Action>, ok: bool)
    requires !Run(acts).mediaHalf
    ensures var s := Run(acts); var t := Step(s, MediaNext(ok));
            && (s.media.SendArmed? ==> t == s.(media := if s.armed then SendRevision(s.media.input) else Disarm(true)))
            && (s.media.SendRevision? ==> var x := s.media.input;
                  t == s.(media := if Unrevoked(x.grant, s.bumps) then SendPost(x) else Disarm(true)))
            && (s.media.SendPost? ==> var x := s.media.input; var room := !s.closed && |s.queue| < QUEUE;
                  t == s.(media := if room then Wake else Disarm(true), queue := if room then s.queue + [Act(x)] else s.queue))
  {
    RunGood(acts);
    if InMedia(Run(acts).media) != [] {
      SendMoves(Run(acts), ok);
    }
    if Run(acts).media.SendRevision? {
      assert Run(acts).media.input in InMedia(Run(acts).media);
      SoundUnrevoked(Run(acts).media.input.grant, Run(acts).bumps);
    }
  }

  lemma SendMoves(s: State, ok: bool)
    requires !s.mediaHalf && (s.media.SendArmed? || s.media.SendRevision? || s.media.SendPost?)
    ensures MediaStep(s, ok)
         == if Posts(s.media) && CanPost(s) then s.(queue := s.queue + [Act(s.media.input)], media := Wake)
            else s.(media := MediaGoes(s.media, s.armed, s.revision, ok))
  {
  }
}
