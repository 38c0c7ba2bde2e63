/** The GUI control protocol: crates/rc-platform-windows/src/gui_session.rs (revocation, arming and the safety thread)
    and the lease part of crates/rc-agent/src/media.rs. Two threads share the atomics: the safety thread, which also
    runs the input hooks and the timer, and the media loop, which waits while another thread runs `arm` for it. They
    interleave between any two accesses to the atomics; every action below touches at most one of them. */
module GuiSafety {
  import opened Protocol

  /** `revision` is a u64 and `fetch_add` wraps. */
  const MODULUS := 0x1_0000_0000_0000_0000

  const QUEUE := 64

  /** A granted lease: the revision `arm` returned, and the number of bumps so far when its exchange succeeded. */
  datatype Grant = Grant(epoch: nat, at: nat)

  /** An input the media loop accepted. */
  datatype Input = Input(grant: Grant, seqno: nat)

  /** `Quiet` is a command that touches none of the atomics: a frame or a disarm of the backend. */
  datatype Command = Arm(expected: nat, id: nat) | Act(input: Input) | Quiet

  /** Where the safety thread is in the command it took. */
  datatype ThreadPoint =
    | Idle
    | ArmLoad(expected: nat, id: nat)
    | ArmBackend(expected: nat, id: nat)
    | ArmSwap(expected: nat, id: nat)
    | ArmStore(grant: Grant, id: nat)
    | ArmReload(grant: Grant, id: nat)
    | ArmUndo(grant: Grant, id: nat)
    | ArmReply(grant: Grant, id: nat)
    | ArmFailed(id: nat)
    | ErrReply(id: nat)
    | ActArmed(input: Input)
    | ActRevision(input: Input)
    | Applying(input: Input)
    | ApplyingArmed(input: Input)
    | Closing
    | Ended

  /** Where the media loop is, or the thread that runs `arm` for it. `stop`: the stream ends afterwards. */
  datatype MediaPoint =
    | Listening
    | AcquirePost(expected: nat)
    | AcquireWake(id: nat)
    | AcquireWait(id: nat)
    | AcquireGiveUp(id: nat)
    | SendArmed(input: Input)
    | SendRevision(input: Input)
    | SendPost(input: Input)
    | FramePost
    | Wake
    | Disarm(stop: bool)
    | DisarmPost(stop: bool)
    | DisarmWake(stop: bool)
    | Drop
    | Stopped

  /** An input that passed the safety thread's check, and the number of bumps at that moment. */
  datatype Pass = Pass(input: Input, bumps: nat)

  /** `bumps` counts every change of the revision. `threadHalf` and `mediaHalf`: that thread is inside `revoke`, has
      cleared `armed` and bumps next. `accepted`, `passed` and `continued` are history: inputs accepted by the media
      loop, inputs let through by the safety thread, and the renewed checks while one is being applied. */
  datatype State = State(
    armed: bool, revision: nat, closed: bool, bumps: nat,
    thread: ThreadPoint, threadHalf: bool, queue: seq<Command>,
    media: MediaPoint, mediaHalf: bool, lease: Option<Grant>, lastSeq: nat, reply: Option<Option<Grant>>, ids: nat,
    accepted: seq<Input>, passed: seq<Pass>, continued: seq<Pass>)

  const START := State(false, 0, false, 0, Idle, false, [], Listening, false, None, 0, None, 0, [], [], [])

  datatype Action =
    | Interrupt                          // local input, or a failed live check, where the safety thread pumps messages
    | Quit                               // the safety thread leaves its loop
    | Thread(ok: bool)                   // the safety thread's next access; `ok` is the backend's answer
    | Acquire
    | Frame
    | MediaNext(ok: bool)                // the media loop's next access; not `ok`: a failed wake, or a time-out
    | Receive(epoch: nat, seqno: nat, ready: bool)   // an input message; `ready` is every check that is not ours
    | DropLease                          // release, tick, helper status
    | StopMedia

  function Bumped(s: State): State { s.(revision := (s.revision + 1) % MODULUS, bumps := s.bumps + 1) }

  // ---- The safety thread ----

  /** `revoke` on the safety thread, up to its bump. */
  function ThreadRevokes(s: State): State { s.(armed := false, threadHalf := true) }

  /** Hooks and timer run where messages are waited for or peeked at, or inside the backend's system calls. */
  predicate Pumps(t: ThreadPoint) { t.Idle? || t.ArmBackend? || t.Applying? }

  function TakeCommand(s: State): State {
    if s.closed || s.queue == [] then s else
    match s.queue[0]
    case Arm(expected, id) => s.(queue := s.queue[1..], thread := ArmLoad(expected, id))
    case Act(input) => s.(queue := s.queue[1..], thread := ActArmed(input))
    case Quiet => s.(queue := s.queue[1..])
  }

  /** The compare-exchange. */
  function Swap(s: State, expected: nat, id: nat): State {
    if s.revision == expected
    then s.(revision := expected + 1, bumps := s.bumps + 1, thread := ArmStore(Grant(expected + 1, s.bumps + 1), id))
    else s.(thread := ArmFailed(id))
  }

  /** The receiver of this reply still exists. */
  predicate Awaited(m: MediaPoint, id: nat) { m in {AcquireWake(id), AcquireWait(id), AcquireGiveUp(id)} }

  function Replied(s: State, id: nat, r: Option<Grant>): State {
    if Awaited(s.media, id) then s.(reply := Some(r), thread := Idle) else ThreadRevokes(s).(thread := Idle)
  }

  /** The points whose access only reads, or writes `armed` and `closed`. */
  predicate Plain(t: ThreadPoint) {
    !t.Idle? && !t.ArmSwap? && !t.ArmReply? && !t.ErrReply? && !t.ActRevision? && !t.ApplyingArmed?
  }

  /** Where a plain point leads. */
  function PlainNext(t: ThreadPoint, armed: bool, revision: nat, ok: bool): ThreadPoint
    requires Plain(t)
  {
    match t
    case ArmLoad(expected, id) => if revision == expected then ArmBackend(expected, id) else ArmFailed(id)
    case ArmBackend(expected, id) => if ok && expected + 1 < MODULUS then ArmSwap(expected, id) else ArmFailed(id)
    case ArmStore(grant, id) => ArmReload(grant, id)
    case ArmReload(grant, id) => if revision == grant.epoch then ArmReply(grant, id) else ArmUndo(grant, id)
    case ArmUndo(_, id) => ArmFailed(id)
    case ArmFailed(id) => ErrReply(id)
    case ActArmed(input) => if armed then ActRevision(input) else Idle
    case Applying(input) => if ok && armed then ApplyingArmed(input) else Idle
    case _ => Ended
  }

  /** The points that begin a revocation: a failed arm, and an input the backend could not apply. */
  predicate RevokesAt(t: ThreadPoint, ok: bool) { t.ArmFailed? || (t.Applying? && !ok) }

  function PlainStep(s: State, ok: bool): State
    requires Plain(s.thread)
  {
    s.(armed := s.thread.ArmStore? || (s.armed && !s.thread.ArmUndo? && !RevokesAt(s.thread, ok)),
       threadHalf := RevokesAt(s.thread, ok), closed := s.closed || s.thread.Closing?,
       thread := PlainNext(s.thread, s.armed, s.revision, ok))
  }

  /** The second half of the check before and while an input is applied. */
  function Checked(s: State, input: Input, ok: bool): State {
    if s.revision != input.grant.epoch || !ok then s.(thread := Idle)
    else if s.thread.ActRevision? then s.(thread := Applying(input), passed := s.passed + [Pass(input, s.bumps)])
    else s.(thread := Applying(input), continued := s.continued + [Pass(input, s.bumps)])
  }

  function ThreadStep(s: State, ok: bool): State {
    if s.threadHalf then Bumped(s).(threadHalf := false) else
    match s.thread
    case Idle => TakeCommand(s)
    case ArmSwap(expected, id) => Swap(s, expected, id)
    case ArmReply(grant, id) => Replied(s, id, Some(grant))
    case ErrReply(id) => Replied(s, id, None)
    case ActRevision(input) => Checked(s, input, true)
    case ApplyingArmed(input) => Checked(s, input, ok)
    case _ => PlainStep(s, ok)
  }

  // ---- The media loop ----

  /** `tx.try_send`. */
  predicate CanPost(s: State) { !s.closed && |s.queue| < QUEUE }

  function AfterDisarm(stop: bool): MediaPoint { if stop then Drop else Listening }

  function Answered(s: State, id: nat): State {
    if s.reply.None? then s
    else if s.reply.value.None? then s.(media := AcquireGiveUp(id))
    else s.(lease := s.reply.value, lastSeq := 0, media := Listening, reply := None)
  }

  predicate Posts(m: MediaPoint) { m.AcquirePost? || m.SendPost? || m.FramePost? || m.DisarmPost? }

  /** What is posted at this point, if the queue takes it. */
  function Posted(m: MediaPoint, id: nat): Command
    requires Posts(m)
  {
    match m
    case AcquirePost(expected) => Arm(expected, id)
    case SendPost(input) => Act(input)
    case _ => Quiet
  }

  function AfterPost(m: MediaPoint, id: nat): MediaPoint
    requires Posts(m)
  {
    match m
    case AcquirePost(_) => AcquireWake(id)
    case DisarmPost(stop) => DisarmWake(stop)
    case _ => Wake
  }

  function Post(s: State): State
    requires Posts(s.media)
  {
    s.(queue := s.queue + [Posted(s.media, s.ids)], media := AfterPost(s.media, s.ids),
       ids := if s.media.AcquirePost? then s.ids + 1 else s.ids)
  }

  /** Where the media loop goes when it neither posts nor gets an answer. */
  function MediaGoes(m: MediaPoint, armed: bool, revision: nat, ok: bool): MediaPoint {
    match m
    case AcquirePost(_) => Disarm(false)
    case AcquireWake(id) => if ok then AcquireWait(id) else AcquireGiveUp(id)
    case AcquireWait(id) => AcquireGiveUp(id)
    case AcquireGiveUp(_) => Disarm(false)
    case SendArmed(input) => if armed then SendRevision(input) else Disarm(true)
    case SendRevision(input) => if revision == input.grant.epoch then SendPost(input) else Disarm(true)
    case SendPost(_) => Disarm(true)
    case FramePost => Disarm(true)
    case Wake => if ok then Listening else Disarm(true)
    case Disarm(stop) => DisarmPost(stop)
    case DisarmPost(stop) => AfterDisarm(stop)
    case DisarmWake(stop) => AfterDisarm(stop)
    case Drop => Stopped
    case _ => m
  }

  /** The points that begin a revocation: a failed wake, a disarm and the drop of the session. */
  predicate MediaRevokesAt(m: MediaPoint, ok: bool) {
    m.Disarm? || m.Drop? || (!ok && (m.AcquireWake? || m.Wake? || m.DisarmWake?))
  }

  function MediaPlain(s: State, ok: bool): State {
    s.(armed := s.armed && !MediaRevokesAt(s.media, ok), mediaHalf := MediaRevokesAt(s.media, ok),
       lease := if s.media.Disarm? then None else s.lease, reply := if s.media.AcquireGiveUp? then None else s.reply,
       media := MediaGoes(s.media, s.armed, s.revision, ok))
  }

  function MediaStep(s: State, ok: bool): State {
    if s.mediaHalf then Bumped(s).(mediaHalf := false)
    else if Posts(s.media) && CanPost(s) then Post(s)
    else if s.media.AcquireWait? && ok then Answered(s, s.media.id)
    else MediaPlain(s, ok)
  }

  /** The loop is waiting for its next event. */
  predicate Free(s: State) { s.media == Listening && !s.mediaHalf }

  /** An input is accepted under the held lease, armed, and newer than the last; anything else costs the lease. */
  function ReceiveStep(s: State, epoch: nat, seqno: nat, ready: bool): State {
    if !Free(s) then s
    else if !ready || s.lease.None? || s.lease.value.epoch != epoch || !s.armed || seqno <= s.lastSeq
    then s.(media := Disarm(false))
    else
      var input := Input(s.lease.value, seqno);
      s.(lastSeq := seqno, accepted := s.accepted + [input], media := SendArmed(input))
  }

  function Step(s: State, a: Action): State {
    match a
    case Interrupt => if Pumps(s.thread) && !s.threadHalf then ThreadRevokes(s) else s
    case Quit => if s.thread == Idle && !s.threadHalf then ThreadRevokes(s).(thread := Closing) else s
    case Thread(ok) => ThreadStep(s, ok)
    case Acquire => if Free(s) then s.(media := AcquirePost(s.revision)) else s
    case Frame => if Free(s) then s.(media := FramePost) else s
    case MediaNext(ok) => MediaStep(s, ok)
    case Receive(epoch, seqno, ready) => ReceiveStep(s, epoch, seqno, ready)
    case DropLease => if Free(s) then s.(media := Disarm(false)) else s
    case StopMedia => if Free(s) then s.(media := Disarm(true)) else s
  }

  function Run(acts: seq<Action>): State {
    if acts == [] then START else Step(Run(acts[..|acts| - 1]), acts[|acts| - 1])
  }
}
