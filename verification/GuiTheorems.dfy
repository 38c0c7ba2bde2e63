/** Main results about every interleaving of the GUI control protocol. */
module GuiTheorems {
  import opened Protocol
  import opened GuiSafety
  import opened GuiTheory

  predicate Good(s: State) { CountsGood(s) && LeaseGood(s) && ChainGood(s) && ArmedGood(s) }

  lemma StepGood(s: State, a: Action, t: State)
    requires Good(s) && t == Step(s, a)
    ensures Good(t)
  {
    KnownHolds(s);
    CountsStep(s, a, t);
    LeaseStep(s, a, t);
    ChainStep(s, a, t);
    ArmedStep(s, a, t);
  }

  lemma {:induction false} RunGood(acts: seq<Action>)
    ensures Good(Run(acts))
  {
    if acts != [] {
      RunGood(acts[..|acts| - 1]);
      StepGood(Run(acts[..|acts| - 1]), acts[|acts| - 1], Run(acts));
    }
  }

  // ---- What the revision decides ----

  /** The revision was not bumped since the grant, or a multiple of 2^64 times. */
  predicate Unrevoked(g: Grant, bumps: nat) { g.at <= bumps && (bumps - g.at) % MODULUS == 0 }

  lemma SoundUnrevoked(g: Grant, bumps: nat)
    requires Sound(g, bumps)
    ensures bumps % MODULUS == g.epoch <==> Unrevoked(g, bumps)
    ensures bumps - g.at < MODULUS ==> (Unrevoked(g, bumps) <==> bumps == g.at)
  {
    var a, b := g.at, bumps;
    var q, r := b / MODULUS - a / MODULUS, b % MODULUS - a % MODULUS;
    assert b - a == q * MODULUS + r;
    if Unrevoked(g, bumps) {
      assert (b - a) % MODULUS == 0;
      SameResidue(a, b);
    }
  }

  lemma SameResidue(a: nat, b: nat)
    requires a <= b && (b - a) % MODULUS == 0
    ensures b % MODULUS == a % MODULUS
  {
    var k := (b - a) / MODULUS;
    assert b == a + k * MODULUS;
  }

  /** The check of the safety thread, exactly: the input it is about to decide passes if and only if the revision was
      not bumped since the compare-exchange that made its grant (or a multiple of 2^64 times), whatever `armed` says. */
  lemma CheckExactly(acts: seq<Action>, ok: bool)
    requires Run(acts).thread.ActRevision? && !Run(acts).threadHalf
    ensures var s := Run(acts); var g := s.thread.input.grant; var passes := |Step(s, Thread(ok)).passed| > |s.passed|;
            && (passes <==> Unrevoked(g, s.bumps))
            && (s.bumps - g.at < MODULUS ==> (passes <==> s.bumps == g.at))
  {
    RunGood(acts);
    var s := Run(acts);
    SoundUnrevoked(s.thread.input.grant, s.bumps);
    CheckedPasses(s, s.thread.input);
  }

  lemma CheckedPasses(s: State, input: Input)
    requires s.thread == ActRevision(input)
    ensures |Checked(s, input, true).passed| > |s.passed| <==> s.revision == input.grant.epoch
  {
  }

  /** The check of `action`, exactly: the epoch of the held lease is the current revision if and only if the lease was
      not revoked. */
  lemma LeaseExactly(acts: seq<Action>)
    requires Run(acts).lease.Some?
    ensures var s := Run(acts); var g := s.lease.value;
            && (s.revision == g.epoch <==> Unrevoked(g, s.bumps))
            && (s.bumps - g.at < MODULUS ==> (s.revision == g.epoch <==> s.bumps == g.at))
  {
    RunGood(acts);
    SoundUnrevoked(Run(acts).lease.value, Run(acts).bumps);
  }

  /** No arm is between its exchange and its answer, nobody is inside a revocation, and the media loop is not in the
      middle of acquiring or giving up its lease. */
  predicate Settled(s: State) {
    !Window(s.thread) && !s.threadHalf && !s.mediaHalf && Holding(s.media) && !Waiting(s.media)
  }

  /** Whenever nobody is in the middle of changing it, `armed` is true if and only if a lease is held and nothing was
      revoked since its grant. */
  lemma ArmedExactly(acts: seq<Action>)
    requires Settled(Run(acts))
    ensures var s := Run(acts); s.armed <==> s.lease.Some? && s.bumps == s.lease.value.at
  {
    RunGood(acts);
    var s := Run(acts);
    assert s.reply.None?;
  }

  // ---- Inputs ----

  /** An input passes the safety thread, at first or while it is being applied, only if the revision was not bumped
      since its grant, or a multiple of 2^64 times. */
  lemma PassesOnlyUnrevoked(acts: seq<Action>, p: Pass)
    requires p in Run(acts).passed || p in Run(acts).continued
    ensures Unrevoked(p.input.grant, p.bumps)
    ensures p.bumps - p.input.grant.at < MODULUS ==> p.bumps == p.input.grant.at
  {
    RunGood(acts);
    SoundUnrevoked(p.input.grant, p.bumps);
  }

  /** The passes of `t` that `s` did not have yet happened at or after `s`. */
  predicate LaterPasses(s: State, t: State) {
    && s.bumps <= t.bumps
    && (forall p :: p in t.passed && p !in s.passed ==> s.bumps <= p.bumps)
    && (forall p :: p in t.continued && p !in s.continued ==> s.bumps <= p.bumps)
  }

  lemma CheckedLater(s: State, input: Input, ok: bool, t: State)
    requires t == Checked(s, input, ok)
    ensures LaterPasses(s, t)
  {
  }

  predicate Silent(s: State, t: State) { t.passed == s.passed && t.continued == s.continued && s.bumps <= t.bumps }

  lemma NoPasses(s: State, t: State)
    requires Silent(s, t)
    ensures LaterPasses(s, t)
  {
  }

  lemma TakeSilent(s: State)
    ensures Silent(s, TakeCommand(s))
  {
  }

  lemma ReplySilent(s: State, id: nat, r: Option<Grant>)
    ensures Silent(s, Replied(s, id, r))
  {
  }

  lemma SpecialPasses(s: State, ok: bool, t: State)
    requires !s.threadHalf && !Plain(s.thread) && t == ThreadStep(s, ok)
    ensures LaterPasses(s, t)
  {
    match s.thread {
      case Idle => TakeSilent(s); NoPasses(s, t);
      case ArmSwap(expected, id) => NoPasses(s, t);
      case ArmReply(grant, id) => ReplySilent(s, id, Some(grant)); NoPasses(s, t);
      case ErrReply(id) => ReplySilent(s, id, None); NoPasses(s, t);
      case ActRevision(input) => CheckedLater(s, input, true, t);
      case ApplyingArmed(input) => CheckedLater(s, input, ok, t);
    }
  }

  lemma StepPasses(s: State, a: Action, t: State)
    requires t == Step(s, a)
    ensures LaterPasses(s, t)
  {
    if a.Thread? && !s.threadHalf && !Plain(s.thread) {
      SpecialPasses(s, a.ok, t);
    } else {
      NoPasses(s, t);
    }
  }

  lemma RunMore(acts: seq<Action>, a: Action)
    ensures Run(acts + [a]) == Step(Run(acts), a)
  {
    assert (acts + [a])[..|acts|] == acts;
  }

  lemma OneMorePasses(acts: seq<Action>, a: Action)
    ensures LaterPasses(Run(acts), Run(acts + [a]))
  {
    RunMore(acts, a);
    StepPasses(Run(acts), a, Run(acts + [a]));
  }

  lemma LaterChain(s: State, t: State, u: State)
    requires LaterPasses(s, t) && LaterPasses(t, u)
    ensures LaterPasses(s, u)
  {
  }

  lemma {:induction false} RunPasses(before: seq<Action>, after: seq<Action>)
    ensures LaterPasses(Run(before), Run(before + after))
  {
    if after == [] {
      assert before + after == before;
    } else {
      var front, a := after[..|after| - 1], after[|after| - 1];
      RunPasses(before, front);
      assert (before + front) + [a] == before + after;
      OneMorePasses(before + front, a);
      LaterChain(Run(before), Run(before + front), Run(before + after));
    }
  }

  /** Once the revision has moved past a grant, no later run lets any input of it through again before 2^64 bumps. */
  lemma DeadForever(before: seq<Action>, after: seq<Action>, p: Pass)
    requires (p in Run(before + after).passed && p !in Run(before).passed)
             || (p in Run(before + after).continued && p !in Run(before).continued)
    requires p.input.grant.at < Run(before).bumps
    ensures p.bumps - p.input.grant.at >= MODULUS
  {
    RunPasses(before, after);
    PassesOnlyUnrevoked(before + after, p);
  }

  /** Inputs are accepted, and reach the backend, in strictly increasing order of grant and sequence number; what
      reaches it was accepted, so nothing is applied twice or after a later input. */
  lemma InputsIncrease(acts: seq<Action>)
    ensures Increasing(Run(acts).accepted) && Increasing(Passed(Run(acts).passed))
    ensures forall p :: p in Run(acts).passed ==> p.input in Run(acts).accepted
    ensures forall x :: x in Run(acts).accepted ==> x.grant.epoch == x.grant.at % MODULUS
  {
    RunGood(acts);
    PassedOrder(Run(acts));
  }

  /** While fewer than 2^64 bumps happened, that order is the order of the epochs themselves. */
  lemma EpochsIncrease(acts: seq<Action>, i: nat, j: nat)
    requires i < j < |Run(acts).accepted| && Run(acts).bumps < MODULUS
    ensures var a, b := Run(acts).accepted[i], Run(acts).accepted[j];
            a.grant.epoch < b.grant.epoch || (a.grant.epoch == b.grant.epoch && a.seqno < b.seqno)
  {
    InputsIncrease(acts);
    RunGood(acts);
    EpochIsBump(Run(acts), i);
    EpochIsBump(Run(acts), j);
    assert Before(Run(acts).accepted[i], Run(acts).accepted[j]);
  }

  lemma EpochIsBump(s: State, i: nat)
    requires CountsGood(s) && i < |s.accepted| && s.bumps < MODULUS
    ensures s.accepted[i].grant.epoch == s.accepted[i].grant.at
  {
    assert s.accepted[i] in s.accepted;
  }

  lemma PassedOrder(s: State)
    requires ChainGood(s)
    ensures Increasing(Passed(s.passed)) && forall p :: p in s.passed ==> p.input in s.accepted
  {
    var rest := InThread(s.thread) + InputsOf(s.queue) + InMedia(s.media);
    assert Chain(s) == Passed(s.passed) + rest + [];
    LeaveOut(Passed(s.passed), rest, [], s.accepted);
    assert Passed(s.passed) + [] == Passed(s.passed);
    forall p | p in s.passed ensures p.input in s.accepted {
      var i :| 0 <= i < |s.passed| && s.passed[i] == p;
      assert Passed(s.passed)[i] == p.input;
    }
  }

  // ---- Why the revision is checked too ----

  /** An arm whose wake-up fails is revoked by its caller. The safety thread, awake for another reason, has taken the
      command and exchanges, stores and reloads between the two halves of that revocation. */
  const FAILED_WAKE: seq<Action> := [
    Acquire, MediaNext(true), Thread(true), Thread(true), Thread(true), MediaNext(false),
    Thread(true), Thread(true), Thread(true), MediaNext(true)]

  predicate FailedWake(acts: seq<Action>) {
    && |acts| == 10
    && acts[0] == Acquire && acts[1] == MediaNext(true) && acts[2] == Thread(true) && acts[3] == Thread(true)
    && acts[4] == Thread(true) && acts[5] == MediaNext(false) && acts[6] == Thread(true) && acts[7] == Thread(true)
    && acts[8] == Thread(true) && acts[9] == MediaNext(true)
  }

  /** The i-th action leads the run from `s` to `t`. */
  lemma RunNext(acts: seq<Action>, i: nat, s: State, t: State)
    requires i < |acts| && Run(acts[..i]) == s && t == Step(s, acts[i])
    ensures Run(acts[..i + 1]) == t
  {
    assert acts[..i + 1] == acts[..i] + [acts[i]];
    RunMore(acts[..i], acts[i]);
  }

  const POSTED := START.(ids := 1, media := AcquireWake(0), thread := ArmLoad(0, 0))
  const HALFWAY := POSTED.(media := AcquireGiveUp(0), mediaHalf := true, thread := ArmSwap(0, 0))
  const STORED := HALFWAY.(revision := 1, bumps := 1, armed := true, thread := ArmReply(Grant(1, 1), 0))

  const LAGGING := STORED.(revision := 2, bumps := 2, mediaHalf := false)

  lemma FailedWakePosted(acts: seq<Action>)
    requires FailedWake(acts)
    ensures Run(acts[..3]) == POSTED
  {
    var asked := START.(media := AcquirePost(0));
    var posted := START.(ids := 1, media := AcquireWake(0), queue := [Arm(0, 0)]);
    assert acts[..0] == [];
    RunNext(acts, 0, START, asked);
    RunNext(acts, 1, asked, posted);
    RunNext(acts, 2, posted, POSTED);
  }

  lemma FailedWakeHalfway(acts: seq<Action>)
    requires FailedWake(acts)
    ensures Run(acts[..6]) == HALFWAY
  {
    FailedWakePosted(acts);
    var loaded := POSTED.(thread := ArmBackend(0, 0));
    var prepared := POSTED.(thread := ArmSwap(0, 0));
    RunNext(acts, 3, POSTED, loaded);
    RunNext(acts, 4, loaded, prepared);
    RunNext(acts, 5, prepared, HALFWAY);
  }

  lemma FailedWakeStored(acts: seq<Action>)
    requires FailedWake(acts)
    ensures Run(acts[..9]) == STORED
  {
    FailedWakeHalfway(acts);
    var swapped := HALFWAY.(revision := 1, bumps := 1, thread := ArmStore(Grant(1, 1), 0));
    var stored := swapped.(armed := true, thread := ArmReload(Grant(1, 1), 0));
    RunNext(acts, 6, HALFWAY, swapped);
    RunNext(acts, 7, swapped, stored);
    RunNext(acts, 8, stored, STORED);
  }

  lemma StoredBumps()
    ensures Step(STORED, MediaNext(true)) == LAGGING
  {
    assert STORED.mediaHalf && 2 % MODULUS == 2;
  }

  lemma FailedWakeLags(acts: seq<Action>)
    requires FailedWake(acts)
    ensures Run(acts) == LAGGING
  {
    FailedWakeStored(acts);
    StoredBumps();
    RunNext(acts, 9, STORED, LAGGING);
    assert acts[..10] == acts;
  }

  /** For a moment `armed` is true although the revocation is complete and no lease is held. It does not outlast the
      failed acquisition, which disarms again: `ArmedExactly` holds as soon as the media loop is back. */
  lemma ArmedCanLag()
    ensures var s := Run(FAILED_WAKE);
            s.armed && !s.threadHalf && !s.mediaHalf && s.bumps == 2 && s.lease == None && s.media == AcquireGiveUp(0)
  {
    FailedWakeLags(FAILED_WAKE);
  }
}
