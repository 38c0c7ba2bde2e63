/** The invariant of the GUI control protocol, part by part. */
module GuiTheory {
  import opened Bytes
  import opened Protocol
  import opened GuiSafety

  // ---- Order ----

  predicate Before(a: Input, b: Input) {
    a.grant.at < b.grant.at || (a.grant.at == b.grant.at && a.seqno < b.seqno)
  }

  predicate Increasing(xs: seq<Input>) { forall i, j :: 0 <= i < j < |xs| ==> Before(xs[i], xs[j]) }

  function InputOf(c: Command): seq<Input> { if c.Act? then [c.input] else [] }

  function InputsOf(queue: seq<Command>): seq<Input> {
    if queue == [] then [] else InputOf(queue[0]) + InputsOf(queue[1..])
  }

  /** The inputs let through, without their moments. */
  function Passed(passed: seq<Pass>): seq<Input> { seq(|passed|, i requires 0 <= i < |passed| => passed[i].input) }

  /** The input the safety thread has yet to decide. */
  function InThread(t: ThreadPoint): seq<Input> { if t.ActArmed? || t.ActRevision? then [t.input] else [] }

  /** The accepted input the media loop has yet to post. */
  function InMedia(m: MediaPoint): seq<Input> { if m.SendArmed? || m.SendRevision? || m.SendPost? then [m.input] else [] }

  /** Every input on its way, oldest first. */
  function Chain(s: State): seq<Input> {
    Passed(s.passed) + InThread(s.thread) + InputsOf(s.queue) + InMedia(s.media)
  }

  // ---- The invariant ----

  predicate Sound(g: Grant, bumps: nat) { g.at <= bumps && g.epoch == g.at % MODULUS }

  predicate SoundPass(p: Pass, bumps: nat) {
    p.bumps <= bumps && Sound(p.input.grant, p.bumps) && p.bumps % MODULUS == p.input.grant.epoch
  }

  /** Between the exchange and the end of an arm. */
  predicate Window(t: ThreadPoint) { t.ArmStore? || t.ArmReload? || t.ArmUndo? || t.ArmReply? }

  predicate Arming(t: ThreadPoint) {
    Window(t) || t.ArmLoad? || t.ArmBackend? || t.ArmSwap? || t.ArmFailed? || t.ErrReply?
  }

  predicate HasInput(t: ThreadPoint) { t.ActArmed? || t.ActRevision? || t.Applying? || t.ApplyingArmed? }

  predicate ThreadGood(t: ThreadPoint, bumps: nat) {
    && (t.ArmSwap? ==> t.expected + 1 < MODULUS)
    && (Window(t) ==> Sound(t.grant, bumps))
    && (HasInput(t) ==> Sound(t.input.grant, bumps))
  }

  predicate SoundReply(r: Option<Option<Grant>>, bumps: nat) { r.Some? && r.value.Some? ==> Sound(r.value.value, bumps) }

  /** The revision counts bumps, and every grant records the bump that made it. */
  predicate CountsGood(s: State) {
    && s.revision == s.bumps % MODULUS
    && ThreadGood(s.thread, s.bumps)
    && (s.lease.Some? ==> Sound(s.lease.value, s.bumps))
    && SoundReply(s.reply, s.bumps)
    && (forall x :: x in s.accepted ==> Sound(x.grant, s.bumps))
    && (forall x :: x in InMedia(s.media) ==> Sound(x.grant, s.bumps))
    && (forall c :: c in s.queue && c.Act? ==> Sound(c.input.grant, s.bumps))
    && (forall p :: p in s.passed ==> SoundPass(p, s.bumps))
    && (forall p :: p in s.continued ==> SoundPass(p, s.bumps))
  }

  /** A grant newer than everything accepted. */
  predicate Newer(g: Grant, accepted: seq<Input>) { forall x :: x in accepted ==> x.grant.at < g.at }

  predicate Receiving(m: MediaPoint) { m.AcquireWake? || m.AcquireWait? || m.AcquireGiveUp? }

  /** Inputs are accepted in order, and a lease on its way is newer than all of them. */
  predicate LeaseGood(s: State) {
    && Increasing(s.accepted)
    && (s.lease.Some? ==> forall x :: x in s.accepted ==>
          x.grant.at < s.lease.value.at || (x.grant.at == s.lease.value.at && x.seqno <= s.lastSeq))
    && (s.reply.Some? ==> Receiving(s.media) && (s.reply.value.Some? ==> Newer(s.reply.value.value, s.accepted)))
    && (Window(s.thread) && Awaited(s.media, s.thread.id) ==> Newer(s.thread.grant, s.accepted))
    && IdsGood(s)
  }

  /** No command carries an id that was not given out yet. */
  predicate IdsGood(s: State) {
    && (forall c :: c in s.queue && c.Arm? ==> c.id < s.ids)
    && (Receiving(s.media) ==> s.media.id < s.ids)
    && (Arming(s.thread) ==> s.thread.id < s.ids)
  }

  predicate ChainGood(s: State) {
    Increasing(Chain(s)) && forall x :: x in Chain(s) ==> x in s.accepted
  }

  // ---- Counting ----

  lemma BumpCounts(n: nat)
    ensures (n % MODULUS + 1) % MODULUS == (n + 1) % MODULUS
    ensures n % MODULUS + 1 < MODULUS ==> n % MODULUS + 1 == (n + 1) % MODULUS
  {
  }

  lemma CountsBump(s: State)
    requires CountsGood(s)
    ensures CountsGood(Bumped(s))
  {
    BumpCounts(s.bumps);
  }

  /** What neither the counts nor the queues and histories depend on. */
  predicate OnlyFlags(s: State, t: State) {
    t == s.(armed := t.armed, closed := t.closed, thread := t.thread, threadHalf := t.threadHalf, mediaHalf := t.mediaHalf)
  }

  lemma CountsFlags(s: State, t: State)
    requires CountsGood(s) && OnlyFlags(s, t) && ThreadGood(t.thread, s.bumps)
    ensures CountsGood(t)
  {
  }

  // ---- What a step can change ----

  /** The media loop moves on, within the same acquisition or outside any, giving up what it had or keeping it. */
  predicate MediaMoves(s: State, t: State) {
    && t == s.(armed := t.armed, mediaHalf := t.mediaHalf, media := t.media, lease := t.lease, reply := t.reply)
    && (InMedia(t.media) == [] || InMedia(t.media) == InMedia(s.media))
    && (t.lease == None || t.lease == s.lease)
    && (t.reply == None || (t.reply == s.reply && Receiving(t.media)))
    && (Receiving(t.media) ==> Receiving(s.media) && t.media.id == s.media.id)
  }

  lemma GoesShape(m: MediaPoint, armed: bool, revision: nat, ok: bool)
    ensures var n := MediaGoes(m, armed, revision, ok);
            && (InMedia(n) == [] || InMedia(n) == InMedia(m))
            && (Receiving(n) ==> Receiving(m) && n.id == m.id)
            && (Receiving(m) && !m.AcquireGiveUp? && !(m.AcquireWait? && ok) ==> Receiving(n))
  {
  }

  lemma MediaShape(s: State, ok: bool)
    requires !(s.media.AcquireWait? && ok) && (s.reply.Some? ==> Receiving(s.media))
    ensures MediaMoves(s, MediaPlain(s, ok))
  {
    GoesShape(s.media, s.armed, s.revision, ok);
  }

  predicate PostMoves(s: State, t: State)
    requires Posts(s.media)
  {
    var c := Posted(s.media, s.ids);
    && t == s.(queue := s.queue + [c], media := t.media, ids := t.ids)
    && InMedia(t.media) == [] && InMedia(s.media) == InputOf(c) && !Receiving(s.media) && (c.Arm? ==> c.id == s.ids)
    && if c.Arm? then t.media == AcquireWake(s.ids) && t.ids == s.ids + 1 else !Receiving(t.media) && t.ids == s.ids
  }

  lemma PostShape(s: State)
    requires Posts(s.media)
    ensures PostMoves(s, Post(s))
  {
  }

  /** The safety thread moves on, keeping a grant it has or losing it. */
  predicate ThreadMoves(s: State, t: State) {
    && OnlyFlags(s, t)
    && (ThreadGood(s.thread, s.bumps) ==> ThreadGood(t.thread, s.bumps))
    && (Arming(t.thread) ==> Arming(s.thread) && t.thread.id == s.thread.id)
    && (Window(t.thread) ==> Window(s.thread) && t.thread.grant == s.thread.grant)
    && (InThread(t.thread) == [] || InThread(t.thread) == InThread(s.thread))
  }

  lemma NextShape(t: ThreadPoint, armed: bool, revision: nat, ok: bool, bumps: nat)
    requires Plain(t)
    ensures var n := PlainNext(t, armed, revision, ok);
            && (ThreadGood(t, bumps) ==> ThreadGood(n, bumps))
            && (Arming(n) ==> Arming(t) && n.id == t.id)
            && (Window(n) ==> Window(t) && n.grant == t.grant)
            && (InThread(n) == [] || InThread(n) == InThread(t))
  {
  }

  lemma ThreadShape(s: State, ok: bool)
    requires Plain(s.thread)
    ensures ThreadMoves(s, PlainStep(s, ok))
  {
    NextShape(s.thread, s.armed, s.revision, ok, s.bumps);
  }

  lemma OtherShape(s: State, a: Action, t: State)
    requires !a.Thread? && !a.MediaNext? && !a.Receive? && (s.reply.Some? ==> Receiving(s.media)) && t == Step(s, a)
    ensures if a.Interrupt? || a.Quit? then ThreadMoves(s, t) && t.media == s.media else MediaMoves(s, t)
  {
    if a.Interrupt? || a.Quit? {
      RevokeShape(s, a, t);
    } else {
      FreeShape(s, a, t);
    }
  }

  lemma RevokeShape(s: State, a: Action, t: State)
    requires (a.Interrupt? || a.Quit?) && t == Step(s, a)
    ensures ThreadMoves(s, t) && t.media == s.media
  {
  }

  lemma FreeShape(s: State, a: Action, t: State)
    requires (a.Acquire? || a.Frame? || a.DropLease? || a.StopMedia?) && (s.reply.Some? ==> Receiving(s.media)) && t == Step(s, a)
    ensures MediaMoves(s, t)
  {
  }

  lemma CountsStep(s: State, a: Action, t: State)
    requires CountsGood(s) && (s.reply.Some? ==> Receiving(s.media)) && t == Step(s, a)
    ensures CountsGood(t)
  {
    match a {
      case Thread(ok) => CountsThread(s, ok, t);
      case MediaNext(ok) => CountsMedia(s, ok, t);
      case Receive(epoch, seqno, ready) => CountsReceive(s, epoch, seqno, ready, t);
      case _ =>
        OtherShape(s, a, t);
        if a.Interrupt? || a.Quit? { CountsFlags(s, t); } else { CountsMoves(s, t); }
    }
  }

  lemma CountsThread(s: State, ok: bool, t: State)
    requires CountsGood(s) && t == ThreadStep(s, ok)
    ensures CountsGood(t)
  {
    if s.threadHalf {
      CountsBump(s);
      CountsFlags(Bumped(s), t);
    } else if Plain(s.thread) {
      ThreadShape(s, ok);
      CountsFlags(s, t);
    } else {
      CountsSpecial(s, ok, t);
    }
  }

  lemma CountsSpecial(s: State, ok: bool, t: State)
    requires CountsGood(s) && !s.threadHalf && !Plain(s.thread) && t == ThreadStep(s, ok)
    ensures CountsGood(t)
  {
    match s.thread {
      case Idle => CountsTake(s, t);
      case ArmSwap(expected, id) => CountsSwap(s, expected, id, t);
      case ArmReply(grant, id) => CountsReply(s, id, Some(grant), t);
      case ErrReply(id) => CountsReply(s, id, None, t);
      case ActRevision(input) => CountsChecked(s, true, input, t);
      case ApplyingArmed(input) => CountsChecked(s, ok, input, t);
    }
  }

  lemma CountsTake(s: State, t: State)
    requires CountsGood(s) && t == TakeCommand(s)
    ensures CountsGood(t)
  {
    if !s.closed && s.queue != [] {
      assert s.queue[0] in s.queue;
      CountsTaken(s, t);
    }
  }

  lemma CountsTaken(s: State, t: State)
    requires CountsGood(s) && s.queue != [] && ThreadGood(t.thread, s.bumps)
    requires t == s.(queue := s.queue[1..], thread := t.thread)
    ensures CountsGood(t)
  {
    assert forall c :: c in s.queue[1..] ==> c in s.queue;
  }

  lemma CountsSwap(s: State, expected: nat, id: nat, t: State)
    requires CountsGood(s) && expected + 1 < MODULUS && t == Swap(s, expected, id)
    ensures CountsGood(t)
  {
    BumpCounts(s.bumps);
  }

  lemma CountsReply(s: State, id: nat, r: Option<Grant>, t: State)
    requires CountsGood(s) && (r.Some? ==> Sound(r.value, s.bumps)) && t == Replied(s, id, r)
    ensures CountsGood(t)
  {
    if !Awaited(s.media, id) {
      CountsFlags(s, t);
    }
  }

  lemma CountsChecked(s: State, ok: bool, input: Input, t: State)
    requires CountsGood(s) && (s.thread == ActRevision(input) || s.thread == ApplyingArmed(input)) && t == Checked(s, input, ok)
    ensures CountsGood(t)
  {
    if s.revision == input.grant.epoch && ok {
      CountsPass(s, input, t);
    } else {
      CountsFlags(s, t);
    }
  }

  lemma CountsPass(s: State, input: Input, t: State)
    requires CountsGood(s) && Sound(input.grant, s.bumps) && s.revision == input.grant.epoch
    requires t == s.(thread := Applying(input), passed := t.passed, continued := t.continued)
    requires forall p :: p in t.passed ==> p in s.passed || p == Pass(input, s.bumps)
    requires forall p :: p in t.continued ==> p in s.continued || p == Pass(input, s.bumps)
    ensures CountsGood(t)
  {
  }

  lemma CountsMedia(s: State, ok: bool, t: State)
    requires CountsGood(s) && (s.reply.Some? ==> Receiving(s.media)) && t == MediaStep(s, ok)
    ensures CountsGood(t)
  {
    if s.mediaHalf {
      CountsBump(s);
      CountsFlags(Bumped(s), t);
    } else if Posts(s.media) && CanPost(s) {
      PostShape(s);
      CountsPost(s, t);
    } else if s.media.AcquireWait? && ok {
      CountsAnswer(s, s.media.id, t);
    } else {
      MediaShape(s, ok);
      CountsMoves(s, t);
    }
  }

  lemma CountsPost(s: State, t: State)
    requires CountsGood(s) && Posts(s.media) && PostMoves(s, t)
    ensures CountsGood(t)
  {
    var c := Posted(s.media, s.ids);
    if c.Act? {
      assert c.input in InMedia(s.media);
    }
  }

  lemma CountsAnswer(s: State, id: nat, t: State)
    requires CountsGood(s) && s.media == AcquireWait(id) && t == Answered(s, id)
    ensures CountsGood(t)
  {
    if s.reply.Some? && s.reply.value.Some? {
      CountsGranted(s, t);
    } else {
      CountsMoves(s, t.(lease := s.lease));
    }
  }

  lemma CountsGranted(s: State, t: State)
    requires CountsGood(s) && s.reply.Some? && s.reply.value.Some?
    requires t == s.(lease := s.reply.value, lastSeq := 0, media := Listening, reply := None)
    ensures CountsGood(t)
  {
  }

  lemma CountsMoves(s: State, t: State)
    requires CountsGood(s) && MediaMoves(s, t)
    ensures CountsGood(t)
  {
  }

  lemma CountsReceive(s: State, epoch: nat, seqno: nat, ready: bool, t: State)
    requires CountsGood(s) && (s.reply.Some? ==> Receiving(s.media)) && t == ReceiveStep(s, epoch, seqno, ready)
    ensures CountsGood(t)
  {
    if t.accepted == s.accepted {
      CountsMoves(s, t);
    }
  }

  // ---- Leases ----

  lemma LeaseStep(s: State, a: Action, t: State)
    requires CountsGood(s) && LeaseGood(s) && t == Step(s, a)
    ensures LeaseGood(t)
  {
    match a {
      case Thread(ok) => LeaseThread(s, ok, t);
      case MediaNext(ok) => LeaseMedia(s, ok, t);
      case Receive(epoch, seqno, ready) => LeaseReceive(s, epoch, seqno, ready, t);
      case _ =>
        OtherShape(s, a, t);
        if a.Interrupt? || a.Quit? { LeaseFlags(s, t); } else { LeaseMoves(s, t); }
    }
  }

  lemma LeaseFlags(s: State, t: State)
    requires LeaseGood(s) && OnlyFlags(s, t) && (Arming(t.thread) ==> t.thread.id < s.ids)
    requires Window(t.thread) ==> Window(s.thread) && t.thread.grant == s.thread.grant && t.thread.id == s.thread.id
    ensures LeaseGood(t)
  {
  }

  lemma LeaseThread(s: State, ok: bool, t: State)
    requires CountsGood(s) && LeaseGood(s) && t == ThreadStep(s, ok)
    ensures LeaseGood(t)
  {
    if s.threadHalf {
      LeaseBump(s, Bumped(s));
      LeaseFlags(Bumped(s), t);
    } else if Plain(s.thread) {
      ThreadShape(s, ok);
      LeaseFlags(s, t);
    } else {
      LeaseSpecial(s, ok, t);
    }
  }

  lemma LeaseSpecial(s: State, ok: bool, t: State)
    requires CountsGood(s) && LeaseGood(s) && !s.threadHalf && !Plain(s.thread) && t == ThreadStep(s, ok)
    ensures LeaseGood(t)
  {
    match s.thread {
      case Idle => LeaseTake(s, t);
      case ArmSwap(expected, id) => LeaseSwap(s, expected, id, t);
      case ArmReply(grant, id) => LeaseReply(s, id, Some(grant), t);
      case ErrReply(id) => LeaseReply(s, id, None, t);
      case ActRevision(input) => LeaseChecked(s, input, true, t);
      case ApplyingArmed(input) => LeaseChecked(s, input, ok, t);
    }
  }

  lemma LeaseBump(s: State, t: State)
    requires LeaseGood(s) && t == Bumped(s)
    ensures LeaseGood(t)
  {
  }

  lemma LeaseTake(s: State, t: State)
    requires LeaseGood(s) && s.thread == Idle && t == TakeCommand(s)
    ensures LeaseGood(t)
  {
    if !s.closed && s.queue != [] {
      LeaseTaken(s, t);
    }
  }

  lemma LeaseTaken(s: State, t: State)
    requires LeaseGood(s) && s.queue != [] && t == s.(queue := s.queue[1..], thread := t.thread) && !Window(t.thread)
    requires Arming(t.thread) ==> s.queue[0].Arm? && t.thread.id == s.queue[0].id
    ensures LeaseGood(t)
  {
    assert s.queue[0] in s.queue;
    assert forall c :: c in s.queue[1..] ==> c in s.queue;
  }

  lemma LeaseSwap(s: State, expected: nat, id: nat, t: State)
    requires CountsGood(s) && LeaseGood(s) && s.thread == ArmSwap(expected, id) && t == Swap(s, expected, id)
    ensures LeaseGood(t)
  {
    if s.revision == expected {
      LeaseGranted(s, t);
    } else {
      LeaseFlags(s, t);
    }
  }

  lemma LeaseGranted(s: State, t: State)
    requires LeaseGood(s) && Arming(s.thread) && Window(t.thread) && t.thread.id == s.thread.id
    requires t == s.(revision := t.revision, bumps := t.bumps, thread := t.thread)
    requires forall x :: x in s.accepted ==> x.grant.at < t.thread.grant.at
    ensures LeaseGood(t)
  {
  }

  lemma LeaseReply(s: State, id: nat, r: Option<Grant>, t: State)
    requires LeaseGood(s) && (r.Some? && Awaited(s.media, id) ==> Newer(r.value, s.accepted)) && t == Replied(s, id, r)
    ensures LeaseGood(t)
  {
    if !Awaited(s.media, id) {
      LeaseFlags(s, t);
    }
  }

  lemma LeaseChecked(s: State, input: Input, ok: bool, t: State)
    requires LeaseGood(s) && !Arming(s.thread) && t == Checked(s, input, ok)
    ensures LeaseGood(t)
  {
    LeasePass(s, t);
  }

  lemma LeasePass(s: State, t: State)
    requires LeaseGood(s) && !Arming(t.thread)
    requires t == s.(thread := t.thread, passed := t.passed, continued := t.continued)
    ensures LeaseGood(t)
  {
  }

  lemma LeaseMedia(s: State, ok: bool, t: State)
    requires CountsGood(s) && LeaseGood(s) && t == MediaStep(s, ok)
    ensures LeaseGood(t)
  {
    if s.mediaHalf {
      LeaseBump(s, Bumped(s));
      LeaseFlags(Bumped(s), t);
    } else if Posts(s.media) && CanPost(s) {
      PostShape(s);
      LeasePost(s, t);
    } else if s.media.AcquireWait? && ok {
      LeaseAnswer(s, s.media.id, t);
    } else {
      MediaShape(s, ok);
      LeaseMoves(s, t);
    }
  }

  lemma LeasePost(s: State, t: State)
    requires LeaseGood(s) && Posts(s.media) && PostMoves(s, t)
    ensures LeaseGood(t)
  {
    assert forall d :: d in t.queue ==> d in s.queue || d == Posted(s.media, s.ids);
  }

  lemma LeaseAnswer(s: State, id: nat, t: State)
    requires LeaseGood(s) && s.media == AcquireWait(id) && t == Answered(s, id)
    ensures LeaseGood(t)
  {
    if s.reply.None? || s.reply.value.None? {
      LeaseMoves(s, t);
    }
  }

  lemma LeaseMoves(s: State, t: State)
    requires LeaseGood(s) && MediaMoves(s, t)
    ensures LeaseGood(t)
  {
  }

  lemma LeaseReceive(s: State, epoch: nat, seqno: nat, ready: bool, t: State)
    requires CountsGood(s) && LeaseGood(s) && t == ReceiveStep(s, epoch, seqno, ready)
    ensures LeaseGood(t)
  {
    if t.accepted == s.accepted {
      LeaseMoves(s, t);
    }
  }

  // ---- The pipeline ----

  lemma {:induction false} InputsMore(queue: seq<Command>, c: Command)
    ensures InputsOf(queue + [c]) == InputsOf(queue) + InputOf(c)
  {
    if queue == [] {
      assert queue + [c] == [c] && [c][1..] == [];
    } else {
      assert (queue + [c])[1..] == queue[1..] + [c];
      InputsMore(queue[1..], c);
    }
  }

  /** Leaving inputs out keeps the order. */
  lemma LeaveOut(a: seq<Input>, x: seq<Input>, b: seq<Input>, all: seq<Input>)
    requires Increasing(a + x + b) && forall y :: y in a + x + b ==> y in all
    ensures Increasing(a + b) && forall y :: y in a + b ==> y in all
  {
    forall i, j | 0 <= i < j < |a + b| ensures Before((a + b)[i], (a + b)[j]) {
      var k := if i < |a| then i else i + |x|;
      var l := if j < |a| then j else j + |x|;
      assert (a + x + b)[k] == (a + b)[i] && (a + x + b)[l] == (a + b)[j];
    }
    forall y | y in a + b ensures y in all {
      assert y in a + x + b;
    }
  }

  /** What the chain is made of stays, but for inputs given up by the thread or by the media loop. */
  lemma ChainKeeps(s: State, t: State)
    requires ChainGood(s) && t.passed == s.passed && t.queue == s.queue && t.accepted == s.accepted
    requires InThread(t.thread) == InThread(s.thread) || InThread(t.thread) == []
    requires InMedia(t.media) == InMedia(s.media) || InMedia(t.media) == []
    ensures ChainGood(t)
  {
    var a, b := Passed(s.passed), InputsOf(s.queue);
    var inT, inM := InThread(t.thread), InMedia(t.media);
    if inT != InThread(s.thread) {
      Associates(a + InThread(s.thread), b, InMedia(s.media));
      LeaveOut(a, InThread(s.thread), b + InMedia(s.media), s.accepted);
      Associates(a, b, InMedia(s.media));
      assert a + inT == a;
    }
    if inM != InMedia(s.media) {
      assert a + inT + b + InMedia(s.media) + [] == a + inT + b + InMedia(s.media);
      LeaveOut(a + inT + b, InMedia(s.media), [], s.accepted);
    }
  }

  lemma SameChain(s: State, t: State)
    requires ChainGood(s) && Chain(t) == Chain(s) && t.accepted == s.accepted
    ensures ChainGood(t)
  {
  }

  lemma TakeChain(s: State, t: State)
    requires ChainGood(s) && s.thread == Idle && t == TakeCommand(s)
    ensures ChainGood(t)
  {
    if !s.closed && s.queue != [] {
      Associates(Passed(s.passed), InThread(t.thread), InputsOf(t.queue));
      assert InThread(s.thread) + InputsOf(s.queue) == InThread(t.thread) + InputsOf(t.queue);
      Associates(Passed(s.passed), InThread(s.thread), InputsOf(s.queue));
      SameChain(s, t);
    }
  }

  lemma PassChain(s: State, input: Input, t: State)
    requires ChainGood(s) && s.thread == ActRevision(input)
    requires t == s.(thread := Applying(input), passed := s.passed + [Pass(input, s.bumps)])
    ensures ChainGood(t)
  {
    assert Passed(t.passed) == Passed(s.passed) + [input];
    assert Passed(t.passed) + InThread(t.thread) == Passed(s.passed) + InThread(s.thread);
    SameChain(s, t);
  }

  lemma CheckedChain(s: State, input: Input, ok: bool, t: State)
    requires ChainGood(s) && (s.thread == ActRevision(input) || s.thread == ApplyingArmed(input)) && t == Checked(s, input, ok)
    ensures ChainGood(t)
  {
    if t.passed != s.passed {
      PassChain(s, input, t);
    } else {
      ChainKeeps(s, t);
    }
  }

  lemma ReplyChain(s: State, id: nat, r: Option<Grant>, t: State)
    requires ChainGood(s) && t == Replied(s, id, r)
    ensures ChainGood(t)
  {
    ChainKeeps(s, t);
  }

  lemma ThreadChain(s: State, ok: bool, t: State)
    requires ChainGood(s) && t == ThreadStep(s, ok)
    ensures ChainGood(t)
  {
    if s.threadHalf {
      ChainKeeps(s, t);
    } else if Plain(s.thread) {
      ThreadShape(s, ok);
      ChainKeeps(s, t);
    } else {
      SpecialChain(s, ok, t);
    }
  }

  lemma SpecialChain(s: State, ok: bool, t: State)
    requires ChainGood(s) && !s.threadHalf && !Plain(s.thread) && t == ThreadStep(s, ok)
    ensures ChainGood(t)
  {
    match s.thread {
      case Idle => TakeChain(s, t);
      case ArmSwap(expected, id) => ChainKeeps(s, t);
      case ArmReply(grant, id) => ReplyChain(s, id, Some(grant), t);
      case ErrReply(id) => ReplyChain(s, id, None, t);
      case ActRevision(input) => CheckedChain(s, input, true, t);
      case ApplyingArmed(input) => CheckedChain(s, input, ok, t);
    }
  }

  lemma PostedChain(s: State, t: State)
    requires ChainGood(s) && Posts(s.media) && PostMoves(s, t)
    ensures ChainGood(t)
  {
    var c := Posted(s.media, s.ids);
    InputsMore(s.queue, c);
    Associates(Passed(s.passed) + InThread(s.thread), InputsOf(s.queue), InputOf(c));
    assert Chain(t) == Passed(s.passed) + InThread(s.thread) + InputsOf(t.queue);
    SameChain(s, t);
  }

  lemma MediaChain(s: State, ok: bool, t: State)
    requires ChainGood(s) && (s.reply.Some? ==> Receiving(s.media)) && t == MediaStep(s, ok)
    ensures ChainGood(t)
  {
    if s.mediaHalf {
      ChainKeeps(s, t);
    } else if Posts(s.media) && CanPost(s) {
      PostShape(s);
      PostedChain(s, t);
    } else if s.media.AcquireWait? && ok {
      ChainKeeps(s, t);
    } else {
      MediaShape(s, ok);
      ChainKeeps(s, t);
    }
  }

  lemma ReceiveChain(s: State, epoch: nat, seqno: nat, ready: bool, t: State)
    requires LeaseGood(s) && ChainGood(s) && t == ReceiveStep(s, epoch, seqno, ready)
    ensures ChainGood(t)
  {
    if t.accepted == s.accepted {
      ChainKeeps(s, t);
    } else {
      NewestInput(s, Input(s.lease.value, seqno), t);
    }
  }

  lemma NewestInput(s: State, input: Input, t: State)
    requires ChainGood(s) && s.media == Listening && forall x :: x in s.accepted ==> Before(x, input)
    requires t == s.(lastSeq := t.lastSeq, accepted := s.accepted + [input], media := SendArmed(input))
    ensures ChainGood(t)
  {
    assert Chain(s) + [] == Chain(s);
    assert Chain(t) == Chain(s) + [input];
  }

  lemma ChainStep(s: State, a: Action, t: State)
    requires LeaseGood(s) && ChainGood(s) && t == Step(s, a)
    ensures ChainGood(t)
  {
    match a {
      case Thread(ok) => ThreadChain(s, ok, t);
      case MediaNext(ok) => MediaChain(s, ok, t);
      case Receive(epoch, seqno, ready) => ReceiveChain(s, epoch, seqno, ready, t);
      case _ =>
        OtherShape(s, a, t);
        ChainKeeps(s, t);
    }
  }

  // ---- What `armed` means ----

  /** The media loop waits for an answer it can still use. */
  predicate Waiting(m: MediaPoint) { m.AcquireWake? || m.AcquireWait? }

  /** The media loop has not begun to give its lease up. */
  predicate Holding(m: MediaPoint) {
    Waiting(m) || m.Listening? || m.AcquirePost? || m.SendArmed? || m.SendRevision? || m.SendPost? || m.FramePost? || m.Wake?
  }

  /** The media loop has revoked and not acquired again. */
  predicate Given(s: State) {
    s.media.DisarmPost? || s.media.DisarmWake? || s.media.Drop? || s.media.Stopped? || (s.media.Listening? && s.mediaHalf)
  }

  predicate HalvesGood(s: State) {
    && (s.threadHalf ==> !s.armed && !Window(s.thread))
    && (s.mediaHalf ==> s.media.AcquireGiveUp? || s.media.Disarm? || Given(s))
    && (s.thread.ErrReply? ==> !s.armed)
    && (Given(s) ==> s.lease == None && (s.armed ==> Window(s.thread)))
  }

  /** During an arm its grant is the newest, and nothing revokes while the media loop waits for it. */
  predicate WindowGood(s: State) {
    Window(s.thread) ==>
      var g := s.thread.grant;
      && (s.lease.Some? ==> s.lease.value.at < g.at)
      && (s.reply.Some? && s.reply.value.Some? ==> s.reply.value.value.at < g.at)
      && (Waiting(s.media) && s.media.id == s.thread.id ==>
          s.bumps == g.at && !s.thread.ArmUndo? && (s.thread.ArmStore? || s.armed))
  }

  /** `armed` agrees with an answer not yet taken. */
  predicate ReplyGood(s: State) {
    Waiting(s.media) && s.reply.Some? ==>
      match s.reply.value
      case None => s.armed ==> Window(s.thread)
      case Some(g) => (s.armed && !Window(s.thread) ==> s.bumps == g.at) && (s.bumps == g.at && !s.threadHalf ==> s.armed)
  }

  /** `armed` agrees with the lease. */
  predicate HeldGood(s: State) {
    Holding(s.media) && !s.mediaHalf ==>
      && (s.armed && !Window(s.thread) && s.reply.None? ==> s.lease.Some? && s.bumps == s.lease.value.at)
      && (s.lease.Some? && s.bumps == s.lease.value.at && !s.threadHalf ==> s.armed)
  }

  predicate ArmedGood(s: State) { HalvesGood(s) && WindowGood(s) && ReplyGood(s) && HeldGood(s) }

  /** What is known of the other parts of the state where `armed` is concerned. */
  predicate Known(s: State) {
    && s.revision == s.bumps % MODULUS
    && (Window(s.thread) ==> Sound(s.thread.grant, s.bumps))
    && (s.lease.Some? ==> s.lease.value.at <= s.bumps)
    && (s.reply.Some? && s.reply.value.Some? ==> s.reply.value.value.at <= s.bumps)
    && (s.reply.Some? ==> Receiving(s.media))
    && (Arming(s.thread) ==> s.thread.id < s.ids)
  }

  lemma KnownHolds(s: State)
    requires CountsGood(s) && LeaseGood(s)
    ensures Known(s)
  {
  }

  /** Neither `armed` nor anything it depends on changes. */
  predicate Unarmed(s: State, t: State) {
    && t.armed == s.armed && t.bumps == s.bumps && t.threadHalf == s.threadHalf && t.mediaHalf == s.mediaHalf
    && t.lease == s.lease && t.reply == s.reply && t.media == s.media && !Window(s.thread) && !Window(t.thread)
    && !t.thread.ErrReply?
  }

  lemma ArmedSame(s: State, t: State)
    requires ArmedGood(s) && Unarmed(s, t)
    ensures ArmedGood(t)
  {
  }

  lemma ArmedThreadRevokes(s: State, t: State)
    requires Known(s) && ArmedGood(s) && !s.threadHalf && !Window(t.thread)
    requires t == s.(armed := false, threadHalf := true, thread := t.thread)
    ensures ArmedGood(t)
  {
  }

  lemma ArmedBump(s: State, t: State)
    requires Known(s) && ArmedGood(s) && (s.threadHalf || s.mediaHalf)
    requires t == Bumped(s).(threadHalf := t.threadHalf, mediaHalf := t.mediaHalf)
    requires if t.mediaHalf != s.mediaHalf then s.mediaHalf && t.threadHalf == s.threadHalf else s.threadHalf && !t.threadHalf
    ensures ArmedGood(t)
  {
  }

  lemma ArmedSwap(s: State, expected: nat, id: nat, t: State)
    requires Known(s) && ArmedGood(s) && !s.threadHalf && s.thread == ArmSwap(expected, id) && t == Swap(s, expected, id)
    ensures ArmedGood(t)
  {
    if s.revision != expected {
      ArmedSame(s, t);
    }
  }

  lemma ArmedPlain(s: State, ok: bool, t: State)
    requires Known(s) && ArmedGood(s) && !s.threadHalf && Plain(s.thread) && t == PlainStep(s, ok)
    ensures ArmedGood(t)
  {
    if RevokesAt(s.thread, ok) {
      ArmedThreadRevokes(s, t);
    } else if Window(s.thread) {
      ArmedWindow(s, ok, t);
    } else {
      ArmedSame(s, t);
    }
  }

  /** The steps of an arm after its exchange. */
  lemma ArmedWindow(s: State, ok: bool, t: State)
    requires Known(s) && ArmedGood(s) && !s.threadHalf && Plain(s.thread) && Window(s.thread) && t == PlainStep(s, ok)
    ensures ArmedGood(t)
  {
  }

  lemma ArmedReply(s: State, id: nat, r: Option<Grant>, t: State)
    requires Known(s) && ArmedGood(s) && !s.threadHalf && t == Replied(s, id, r)
    requires s.thread == if r.Some? then ArmReply(r.value, id) else ErrReply(id)
    ensures ArmedGood(t)
  {
    if !Awaited(s.media, id) {
      ArmedThreadRevokes(s, t);
    }
  }

  lemma ArmedTake(s: State, t: State)
    requires ArmedGood(s) && s.thread == Idle && t == TakeCommand(s)
    ensures ArmedGood(t)
  {
    ArmedSame(s, t);
  }

  lemma ArmedChecked(s: State, input: Input, ok: bool, t: State)
    requires ArmedGood(s) && (s.thread == ActRevision(input) || s.thread == ApplyingArmed(input)) && t == Checked(s, input, ok)
    ensures ArmedGood(t)
  {
    ArmedSame(s, t);
  }

  lemma ArmedSpecial(s: State, ok: bool, t: State)
    requires Known(s) && ArmedGood(s) && !s.threadHalf && !Plain(s.thread) && t == ThreadStep(s, ok)
    ensures ArmedGood(t)
  {
    match s.thread {
      case Idle => ArmedTake(s, t);
      case ArmSwap(expected, id) => ArmedSwap(s, expected, id, t);
      case ArmReply(grant, id) => ArmedReply(s, id, Some(grant), t);
      case ErrReply(id) => ArmedReply(s, id, None, t);
      case ActRevision(input) => ArmedChecked(s, input, true, t);
      case ApplyingArmed(input) => ArmedChecked(s, input, ok, t);
    }
  }

  lemma ArmedThread(s: State, ok: bool, t: State)
    requires Known(s) && ArmedGood(s) && t == ThreadStep(s, ok)
    ensures ArmedGood(t)
  {
    if s.threadHalf {
      ArmedBump(s, t);
    } else if Plain(s.thread) {
      ArmedPlain(s, ok, t);
    } else {
      ArmedSpecial(s, ok, t);
    }
  }

  /** The media loop goes on without revoking, while its lease stays in force. */
  lemma ArmedHolds(s: State, t: State)
    requires ArmedGood(s) && Holding(s.media) && Holding(t.media) && !s.mediaHalf
    requires t == s.(media := t.media, queue := t.queue, ids := t.ids, lastSeq := t.lastSeq, accepted := t.accepted)
    requires if Waiting(t.media) && Waiting(s.media) then t.media.id == s.media.id else s.reply.None?
    requires Waiting(t.media) && !Waiting(s.media) ==> (Arming(s.thread) ==> s.thread.id != t.media.id)
    ensures ArmedGood(t)
  {
  }

  /** The media loop stops relying on its lease, before it revokes. */
  lemma ArmedLeaves(s: State, t: State)
    requires ArmedGood(s) && !s.mediaHalf && !Given(s) && (t.media.Disarm? || t.media.AcquireGiveUp?)
    requires t == s.(media := t.media, reply := t.reply) && (t.reply == s.reply || t.reply == None)
    ensures ArmedGood(t)
  {
  }

  lemma ArmedMediaRevokes(s: State, t: State)
    requires ArmedGood(s) && !s.mediaHalf
    requires t == s.(armed := false, mediaHalf := true, media := t.media, lease := t.lease) && t.lease in {None, s.lease}
    requires t.media.AcquireGiveUp? || t.media.Disarm? || (Given(t) && t.lease == None)
    ensures ArmedGood(t)
  {
  }

  lemma ArmedGiven(s: State, t: State)
    requires ArmedGood(s) && Given(s) && !s.mediaHalf && (Given(t) || t.media.Listening?)
    requires t == s.(media := t.media, queue := t.queue)
    ensures ArmedGood(t)
  {
  }

  lemma ArmedAnswer(s: State, id: nat, t: State)
    requires Known(s) && ArmedGood(s) && !s.mediaHalf && s.media == AcquireWait(id) && t == Answered(s, id)
    ensures ArmedGood(t)
  {
    if s.reply.Some? && s.reply.value.Some? {
      ArmedGranted(s, t);
    } else if s.reply.Some? {
      ArmedLeaves(s, t);
    }
  }

  lemma ArmedGranted(s: State, t: State)
    requires Known(s) && ArmedGood(s) && !s.mediaHalf && Waiting(s.media) && s.reply.Some? && s.reply.value.Some?
    requires t == s.(lease := s.reply.value, lastSeq := 0, media := Listening, reply := None)
    ensures ArmedGood(t)
  {
  }

  lemma ArmedPost(s: State, t: State)
    requires Known(s) && ArmedGood(s) && !s.mediaHalf && Posts(s.media) && t == Post(s)
    ensures ArmedGood(t)
  {
    if s.media.DisarmPost? {
      ArmedGiven(s, t);
    } else {
      ArmedHolds(s, t);
    }
  }

  lemma ArmedMediaPlain(s: State, ok: bool, t: State)
    requires Known(s) && ArmedGood(s) && !s.mediaHalf && !(s.media.AcquireWait? && ok) && t == MediaPlain(s, ok)
    ensures ArmedGood(t)
  {
    if MediaRevokesAt(s.media, ok) {
      ArmedMediaRevokes(s, t);
    } else if Given(s) {
      ArmedGiven(s, t);
    } else if t.media.Disarm? || t.media.AcquireGiveUp? {
      ArmedLeaves(s, t);
    } else {
      ArmedHolds(s, t);
    }
  }

  lemma ArmedMedia(s: State, ok: bool, t: State)
    requires Known(s) && ArmedGood(s) && t == MediaStep(s, ok)
    ensures ArmedGood(t)
  {
    if s.mediaHalf {
      ArmedBump(s, t);
    } else if Posts(s.media) && CanPost(s) {
      ArmedPost(s, t);
    } else if s.media.AcquireWait? && ok {
      ArmedAnswer(s, s.media.id, t);
    } else {
      ArmedMediaPlain(s, ok, t);
    }
  }

  /** An action of the media loop while it is free. */
  lemma ArmedFree(s: State, t: State)
    requires Known(s) && ArmedGood(s) && Free(s) && (t.media.Disarm? || (Holding(t.media) && !Waiting(t.media)))
    requires t == s.(media := t.media, lastSeq := t.lastSeq, accepted := t.accepted)
    requires t.media.Disarm? ==> t == s.(media := t.media)
    ensures ArmedGood(t)
  {
    if t.media.Disarm? {
      ArmedLeaves(s, t);
    } else {
      ArmedHolds(s, t);
    }
  }

  lemma ArmedStep(s: State, a: Action, t: State)
    requires Known(s) && ArmedGood(s) && t == Step(s, a)
    ensures ArmedGood(t)
  {
    if t != s {
      match a {
        case Thread(ok) => ArmedThread(s, ok, t);
        case MediaNext(ok) => ArmedMedia(s, ok, t);
        case Interrupt => ArmedThreadRevokes(s, t);
        case Quit => ArmedThreadRevokes(s, t);
        case _ => ArmedOther(s, a, t);
      }
    }
  }

  lemma ArmedOther(s: State, a: Action, t: State)
    requires Known(s) && ArmedGood(s) && t == Step(s, a) && t != s
    requires a.Acquire? || a.Frame? || a.Receive? || a.DropLease? || a.StopMedia?
    ensures ArmedGood(t)
  {
    ArmedFree(s, t);
  }
}
