/** Crash consistency of the Tailscale Serve journal, over every run of commands, failures and crashes. */
module JournalTheorems {
  import opened Protocol
  import opened Journal

  // ---- Consistency ----

  function Ours(host: Host): Rule { Web(host, BACKEND, true) }

  /** Rule, receipt and origin are all there and name this machine. */
  predicate Agreed(w: World) {
    w.rule == Ours(w.host) && w.receipt == Some(OurReceipt(w.host)) && w.origin == Some(PublicOrigin(w.host))
  }

  /** What was there before: the rule on port 443, and the origin configured by hand. */
  datatype Found = Found(rule: Rule, origin: Option<string>)

  /** Nothing of ours is there, port 443 is as we found it and the origin as we found it or none. */
  predicate Untaken(w: World, found: Found) {
    w.receipt.None? && w.rule == found.rule && (w.origin == found.origin || w.origin == None)
  }

  /** Nothing of ours is there, or everything is there and agrees. */
  predicate Settled(w: World, found: Found) {
    Untaken(w, found) || (found.rule == Unused && Agreed(w))
  }

  /** The invariant. Without a journal the world is settled; with one, port 443 was ours to take, and the journal
      knows everything a recovery needs. */
  predicate Good(w: World, found: Found) {
    match w.pending
    case None => Settled(w, found)
    case Some(p) =>
      && found.rule == Unused && (w.rule == Unused || w.rule == Ours(w.host))
      && (w.receipt == None || w.receipt == Some(OurReceipt(w.host)))
      && if p.enabled then
           && p.expectedDnsName == Some(w.host) && p.expectedProxy == BACKEND
           && (p.receipt == None || p.receipt == Some(OurReceipt(w.host)))
           && (p.receipt.Some? ==> w.rule == Ours(w.host))
           && (w.rule == Unused ==> Untaken(w, found))
         else
           && (w.origin == None || w.origin == Some(PublicOrigin(w.host)))
           && (w.rule == Ours(w.host) ==> Agreed(w)) && (w.receipt.Some? ==> w.origin.Some?)
  }

  /** Wherever the plan stops, the invariant holds. */
  predicate Safe(w: World, plan: Plan, found: Found)
    decreases plan
  {
    && Good(w, found)
    && (plan.Then? ==>
        && Safe(Act(w, plan.effect), plan.rest, found)
        && (plan.effect.Serve? && plan.effect.unwind ==> Good(Act(w, RemovePending), found)))
  }

  lemma {:induction false} SafePerform(w: World, plan: Plan, script: seq<Outcome>, found: Found)
    requires Safe(w, plan, found)
    ensures Good(Perform(w, plan, script), found)
    decreases |script|
  {
    if plan.Then? && script != [] {
      match script[0] {
        case Done => SafePerform(Act(w, plan.effect), plan.rest, script[1..], found);
        case Fails =>
          if plan.effect.Serve? && plan.effect.unwind {
            var undo := Then(RemovePending, End);
            assert Safe(Act(w, RemovePending), End, found);
            SafePerform(w, undo, script[1..], found);
          }
        case Lost(_) =>
      }
    }
  }

  // ---- Every plan is safe ----

  lemma SafeEffect(w: World, e: Effect, rest: Plan, found: Found)
    requires Good(w, found) && Safe(Act(w, e), rest, found)
    requires e.Serve? && e.unwind ==> Good(Act(w, RemovePending), found)
    ensures Safe(w, Then(e, rest), found)
  {
  }

  lemma SafeForget(w: World, found: Found)
    requires Good(w, found) && w.rule == Unused && w.pending.Some? && !w.pending.value.enabled
    ensures Safe(w, FORGET, found)
  {
    var a := Act(w, RemoveReceipt);
    var b := Act(a, WriteOrigin(None));
    var c := Act(b, RemovePending);
    assert Safe(c, End, found);
    SafeEffect(b, RemovePending, End, found);
    SafeEffect(a, WriteOrigin(None), FORGET.rest.rest, found);
    SafeEffect(w, RemoveReceipt, FORGET.rest, found);
  }

  /** The end of enabling and of its recovery. */
  lemma SafeRecord(w: World, found: Found)
    requires Good(w, found) && w.rule == Ours(w.host) && w.pending.Some? && w.pending.value.enabled
    ensures var r := OurReceipt(w.host);
            Safe(w, Then(WriteReceipt(r), Then(WriteOrigin(Some(r.publicOrigin)), Then(RemovePending, End))), found)
  {
    var r := OurReceipt(w.host);
    var a := Act(w, WriteReceipt(r));
    var b := Act(a, WriteOrigin(Some(r.publicOrigin)));
    var c := Act(b, RemovePending);
    assert Safe(c, End, found);
    SafeEffect(b, RemovePending, End, found);
    SafeEffect(a, WriteOrigin(Some(r.publicOrigin)), Then(RemovePending, End), found);
    SafeEffect(w, WriteReceipt(r), Then(WriteOrigin(Some(r.publicOrigin)), Then(RemovePending, End)), found);
  }

  lemma SafeLooks(w: World, found: Found)
    requires Good(w, found)
    ensures Safe(w, End, found) && Safe(w, Then(Inspect, End), found) && Safe(w, Then(Inspect, Then(Inspect, End)), found)
  {
    SafeEffect(w, Inspect, End, found);
    SafeEffect(w, Inspect, Then(Inspect, End), found);
  }

  lemma SafeEnable(w: World, found: Found)
    requires Good(w, found)
    ensures Safe(w, EnablePlan(w), found)
  {
    SafeLooks(w, found);
    if w.pending.None? && w.rule == Unused {
      assert Untaken(w, found);
      var plan := EnablePlan(w).rest.rest;
      var a := Act(w, plan.effect);
      var b := Act(a, Serve(true, true));
      var later := plan.rest.rest.rest.rest;
      var c := Act(b, later.effect);
      SafeRecord(c, found);
      SafeEffect(b, later.effect, later.rest, found);
      SafeEffect(b, Inspect, later, found);
      SafeEffect(b, Inspect, Then(Inspect, later), found);
      SafeEffect(a, Serve(true, true), plan.rest.rest, found);
      SafeEffect(w, plan.effect, plan.rest, found);
      SafeEffect(w, Inspect, plan, found);
      SafeEffect(w, Inspect, Then(Inspect, plan), found);
    }
  }

  /** Journal, command, verify, forget. */
  lemma SafeRemoval(w: World, p: Pending, unwind: bool, found: Found)
    requires Good(w, found) && w.pending.None? && Agreed(w) && found.rule == Unused && !p.enabled
    ensures Safe(w, Then(Inspect, Then(WritePending(p), Then(Serve(false, unwind), Then(Inspect, FORGET)))), found)
  {
    var a := Act(w, WritePending(p));
    var b := Act(a, Serve(false, unwind));
    SafeForget(b, found);
    SafeEffect(b, Inspect, FORGET, found);
    SafeEffect(a, Serve(false, unwind), Then(Inspect, FORGET), found);
    SafeEffect(w, WritePending(p), Then(Serve(false, unwind), Then(Inspect, FORGET)), found);
    SafeEffect(w, Inspect, Then(WritePending(p), Then(Serve(false, unwind), Then(Inspect, FORGET))), found);
  }

  /** With no journal, a receipt is on file exactly when the rule on port 443 is ours. */
  lemma ReceiptMeansOwned(w: World, found: Found)
    requires Good(w, found) && w.pending.None?
    ensures w.receipt.Some? <==> InspectionFrom(w.rule, w.receipt).ownership == Owned
    ensures w.receipt.Some? ==> Agreed(w) && found.rule == Unused
  {
  }

  lemma SafeRecover(w: World, found: Found)
    requires Good(w, found)
    ensures Safe(w, RecoverPlan(w), found)
  {
    SafeLooks(w, found);
    if w.pending.Some? {
      var p := w.pending.value;
      if p.enabled && w.rule == Ours(w.host) {
        assert Candidate(w, p) == Some(OurReceipt(w.host));
        SafeRecord(w, found);
        SafeEffect(w, Inspect, RecoverPlan(w).rest.rest, found);
        SafeEffect(w, Inspect, RecoverPlan(w).rest, found);
      } else if !p.enabled && w.rule == Unused {
        SafeForget(w, found);
        SafeEffect(w, Inspect, FORGET, found);
      }
    }
  }

  lemma SafePlan(w: World, c: Command, abandoned: bool, found: Found)
    requires Good(w, found)
    ensures Safe(w, PlanOf(w, c, abandoned), found)
  {
    SafeLooks(w, found);
    match c {
      case Enable => SafeEnable(w, found);
      case Recover => SafeRecover(w, found);
      case _ =>
        if w.pending.None? {
          ReceiptMeansOwned(w, found);
          if w.receipt.Some? {
            SafeRemoval(w, DisablePlan(w).rest.effect.pending, true, found);
            SafeRemoval(w, UninstallPlan(w).rest.effect.pending, false, found);
          }
        }
    }
  }

  // ---- Runs ----

  function Start(host: Host, found: Found): World { World(host, found.rule, None, found.origin, None) }

  function RunFrom(w: World, acts: seq<Action>): World {
    if acts == [] then w else Step(RunFrom(w, acts[..|acts| - 1]), acts[|acts| - 1])
  }

  lemma {:induction false} RunGood(w: World, found: Found, acts: seq<Action>)
    requires Good(w, found)
    ensures Good(RunFrom(w, acts), found)
  {
    if acts != [] {
      var before, a := RunFrom(w, acts[..|acts| - 1]), acts[|acts| - 1];
      RunGood(w, found, acts[..|acts| - 1]);
      SafePlan(before, a.command, a.abandoned, found);
      SafePerform(before, PlanOf(before, a.command, a.abandoned), a.script, found);
    }
  }

  /** Crash consistency: after any commands, with failures and crashes at any effect, whenever there is no journal,
      either rule, receipt and origin agree, or there is no receipt, the rule is as it was found and the origin as it
      was found or none. */
  lemma CrashConsistency(host: Host, found: Found, acts: seq<Action>)
    ensures var w := RunFrom(Start(host, found), acts);
            w.pending.None? ==> Settled(w, found)
  {
    RunGood(Start(host, found), found, acts);
  }

  lemma ForeignBlocks(w: World, c: Command, abandoned: bool)
    requires w.rule != Unused && w.receipt.None? && w.pending.None?
    ensures Blocked(PlanOf(w, c, abandoned))
  {
  }

  /** A rule that was on port 443 before is never touched, and nothing is ever written beside it. */
  lemma {:induction false} ForeignRuleKept(host: Host, found: Found, acts: seq<Action>)
    requires found.rule != Unused
    ensures RunFrom(Start(host, found), acts) == Start(host, found)
  {
    if acts != [] {
      var w, a := Start(host, found), acts[|acts| - 1];
      ForeignRuleKept(host, found, acts[..|acts| - 1]);
      ForeignBlocks(w, a.command, a.abandoned);
      BlockedPerform(w, PlanOf(w, a.command, a.abandoned), a.script);
    }
  }

  // ---- Recovery ----

  /** The journal's command did what the journal says. */
  predicate TookEffect(w: World)
    requires w.pending.Some?
  {
    w.rule == if w.pending.value.enabled then Ours(w.host) else Unused
  }

  /** All effects of a plan. */
  function Finish(w: World, plan: Plan): World
    decreases plan
  {
    if plan.End? then w else Finish(Act(w, plan.effect), plan.rest)
  }

  function Length(plan: Plan): nat
    decreases plan
  {
    if plan.End? then 0 else 1 + Length(plan.rest)
  }

  predicate AllDone(script: seq<Outcome>) { forall i :: 0 <= i < |script| ==> script[i] == Done }

  lemma {:induction false} Uninterrupted(w: World, plan: Plan, script: seq<Outcome>)
    requires AllDone(script) && Length(plan) <= |script|
    ensures Perform(w, plan, script) == Finish(w, plan)
    decreases |script|
  {
    if plan.Then? {
      assert script[0] == Done;
      Uninterrupted(Act(w, plan.effect), plan.rest, script[1..]);
    }
  }

  predicate Blocked(plan: Plan) { plan in {End, Then(Inspect, End)} }

  lemma BlockedPerform(w: World, plan: Plan, script: seq<Outcome>)
    requires Blocked(plan)
    ensures Perform(w, plan, script) == w
  {
    if plan.Then? && script != [] {
      assert Perform(w, End, script[1..]) == w;
    }
  }

  lemma RecoverStuck(w: World, found: Found)
    requires Good(w, found) && w.pending.Some? && !TookEffect(w)
    ensures Blocked(RecoverPlan(w))
  {
  }

  lemma FinishForget(w: World)
    ensures Finish(w, FORGET) == w.(receipt := None, origin := None, pending := None)
    ensures Length(FORGET) == 3
  {
    assert FORGET.rest.rest.rest == End;
    assert Finish(Act(Act(w, RemoveReceipt), WriteOrigin(None)), FORGET.rest.rest) == w.(receipt := None, origin := None, pending := None);
  }

  lemma FinishRecord(w: World, r: Receipt, o: Option<string>)
    ensures var plan := Then(WriteReceipt(r), Then(WriteOrigin(o), Then(RemovePending, End)));
            Finish(w, plan) == w.(receipt := Some(r), origin := o, pending := None) && Length(plan) == 3
  {
    var plan := Then(WriteReceipt(r), Then(WriteOrigin(o), Then(RemovePending, End)));
    assert Finish(Act(Act(w, WriteReceipt(r)), WriteOrigin(o)), plan.rest.rest) == w.(receipt := Some(r), origin := o, pending := None);
    assert Length(plan.rest.rest) == 1;
  }

  lemma RecoverShape(w: World, found: Found)
    requires Good(w, found) && w.pending.Some? && TookEffect(w)
    ensures Length(RecoverPlan(w)) <= 5
    ensures Finish(w, RecoverPlan(w))
         == if w.pending.value.enabled
            then w.(receipt := Some(OurReceipt(w.host)), origin := Some(PublicOrigin(w.host)), pending := None)
            else w.(receipt := None, origin := None, pending := None)
  {
    if w.pending.value.enabled {
      assert Candidate(w, w.pending.value) == Some(OurReceipt(w.host));
      FinishRecord(w, OurReceipt(w.host), Some(PublicOrigin(w.host)));
      var plan := RecoverPlan(w);
      assert Finish(w, plan.rest) == Finish(w, plan.rest.rest);
      assert Length(plan.rest) == 4;
    } else {
      FinishForget(w);
    }
  }

  /** One uninterrupted recovery restores the settled state exactly when the journal's command took effect, and
      otherwise changes nothing. */
  lemma RecoveryExactly(host: Host, found: Found, acts: seq<Action>, abandoned: bool, script: seq<Outcome>)
    requires AllDone(script) && |script| >= 5
    requires RunFrom(Start(host, found), acts).pending.Some?
    ensures var w := RunFrom(Start(host, found), acts); var v := Step(w, Action(Recover, abandoned, script));
            && (v.pending.None? <==> TookEffect(w))
            && (!TookEffect(w) ==> v == w)
            && (TookEffect(w) && w.pending.value.enabled ==> Agreed(v))
            && (TookEffect(w) && !w.pending.value.enabled ==> v.receipt.None? && v.origin.None? && v.rule == Unused)
  {
    RunGood(Start(host, found), found, acts);
    var w := RunFrom(Start(host, found), acts);
    if TookEffect(w) {
      RecoverShape(w, found);
      Uninterrupted(w, RecoverPlan(w), script);
    } else {
      RecoverStuck(w, found);
      BlockedPerform(w, RecoverPlan(w), script);
    }
  }

  // ---- A journal whose command never ran ----

  lemma {:induction false} StuckStays(w: World, found: Found, acts: seq<Action>)
    requires Good(w, found) && w.pending.Some? && !TookEffect(w)
    ensures RunFrom(w, acts) == w
  {
    if acts != [] {
      var a := acts[|acts| - 1];
      StuckStays(w, found, acts[..|acts| - 1]);
      RecoverStuck(w, found);
      BlockedPerform(w, PlanOf(w, a.command, a.abandoned), a.script);
    }
  }

  lemma RunOne(w: World, a: Action)
    ensures RunFrom(w, [a]) == Step(w, a)
  {
    assert [a][..0] == [];
  }

  /** A journal can be cleared, by any commands whatever, exactly when its command took effect: one whose command
      never ran blocks every later change for good. */
  lemma ClearableExactly(host: Host, found: Found, acts: seq<Action>)
    requires RunFrom(Start(host, found), acts).pending.Some?
    ensures var w := RunFrom(Start(host, found), acts);
            TookEffect(w) <==> exists more :: RunFrom(w, more).pending.None?
  {
    RunGood(Start(host, found), found, acts);
    var w := RunFrom(Start(host, found), acts);
    if TookEffect(w) {
      var a := Action(Recover, false, [Done, Done, Done, Done, Done]);
      RecoveryExactly(host, found, acts, false, a.script);
      RunOne(w, a);
      assert RunFrom(w, [a]).pending.None?;
    }
    if more :| RunFrom(w, more).pending.None? {
      if !TookEffect(w) {
        StuckStays(w, found, more);
      }
    }
  }

  /** Such a journal is reached: enabling writes it, and dies before it runs the command. */
  lemma StuckReachable(host: Host, origin: Option<string>, acts: seq<Action>)
    ensures var s := Start(host, Found(Unused, origin)); var w := Step(s, Action(Enable, false, [Done, Done, Done]));
            && w == s.(pending := Some(Pending(true, None, Some(host), BACKEND)))
            && RunFrom(w, acts) == w
  {
    var s := Start(host, Found(Unused, origin));
    var plan := EnablePlan(s);
    var w := s.(pending := Some(Pending(true, None, Some(host), BACKEND)));
    assert [Done] + ([Done] + ([Done] + [])) == [Done, Done, Done];
    PerformDone(s, Inspect, plan.rest, [Done] + ([Done] + []));
    PerformDone(s, Inspect, plan.rest.rest, [Done] + []);
    PerformDone(s, plan.rest.rest.effect, plan.rest.rest.rest, []);
    StuckStays(w, Found(Unused, origin), acts);
  }

  /** So is it by a refused uninstall, which leaves its journal behind. */
  lemma RefusedUninstallSticks(w: World, found: Found, acts: seq<Action>)
    requires Good(w, found) && w.pending.None? && w.receipt.Some?
    ensures var v := Step(w, Action(Uninstall, false, [Done] + ([Done] + [Fails, Done])));
            && v == w.(pending := Some(Pending(false, w.receipt, Some(w.host), BACKEND)))
            && RunFrom(v, acts) == v
  {
    ReceiptMeansOwned(w, found);
    var plan := UninstallPlan(w);
    var p := plan.rest.effect.pending;
    PerformDone(w, Inspect, plan.rest, [Done] + [Fails, Done]);
    PerformDone(w, WritePending(p), plan.rest.rest, [Fails, Done]);
    StuckStays(w.(pending := Some(p)), found, acts);
  }

  // ---- Commands that are not interrupted ----

  lemma FinishEnable(w: World)
    requires w.pending.None? && w.rule == Unused
    ensures Length(EnablePlan(w)) == 10
    ensures Finish(w, EnablePlan(w))
         == w.(rule := Ours(w.host), receipt := Some(OurReceipt(w.host)), origin := Some(PublicOrigin(w.host)))
  {
    var plan := EnablePlan(w);
    var journal := plan.rest.rest;
    var verify := journal.rest.rest;
    var record := verify.rest.rest.rest;
    var b := Act(Act(w, journal.effect), Serve(true, true));
    var c := Act(b, verify.rest.rest.effect);
    FinishRecord(c, OurReceipt(w.host), Some(PublicOrigin(w.host)));
    assert Length(verify.rest.rest) == 4 && Length(verify) == 6 && Length(journal) == 8;
    assert Finish(b, verify.rest.rest) == Finish(c, record);
    assert Finish(b, verify) == Finish(b, verify.rest.rest);
    assert Finish(w, journal) == Finish(b, verify);
    assert Finish(w, plan) == Finish(w, journal);
  }

  lemma FinishDisable(w: World)
    requires w.pending.None? && Agreed(w)
    ensures Length(DisablePlan(w)) == 7
    ensures Finish(w, DisablePlan(w)) == w.(rule := Unused, receipt := None, origin := None)
  {
    var plan := DisablePlan(w);
    var b := Act(Act(w, plan.rest.effect), Serve(false, true));
    FinishForget(b);
    var verify := plan.rest.rest.rest;
    assert Length(verify) == 4 && Length(plan.rest) == 6;
    assert Finish(w, plan.rest) == Finish(b, verify);
  }

  /** Turning Serve on and off again restores the world but for the origin, which ends as none: so it restores the
      world if and only if no origin was configured before. */
  lemma OnAndOff(host: Host, origin: Option<string>, on: seq<Outcome>, off: seq<Outcome>)
    requires AllDone(on) && AllDone(off) && |on| >= 10 && |off| >= 7
    ensures var w := Start(host, Found(Unused, origin)); var v := Step(w, Action(Enable, false, on));
            var u := Step(v, Action(Disable, false, off));
            v.pending.None? && Agreed(v) && u == w.(origin := None) && (u == w <==> origin.None?)
  {
    var w := Start(host, Found(Unused, origin));
    FinishEnable(w);
    Uninterrupted(w, EnablePlan(w), on);
    var v := Step(w, Action(Enable, false, on));
    FinishDisable(v);
    Uninterrupted(v, DisablePlan(v), off);
  }

  lemma PerformDone(w: World, e: Effect, rest: Plan, script: seq<Outcome>)
    ensures Perform(w, Then(e, rest), [Done] + script) == Perform(Act(w, e), rest, script)
  {
    assert ([Done] + script)[1..] == script;
  }

  /** The journal is written and the command refuses. */
  lemma RefusedPerform(w: World, p: Pending, on: bool, rest: Plan)
    requires w.pending.None?
    ensures Perform(w, Then(WritePending(p), Then(Serve(on, true), rest)), [Done] + [Fails, Done]) == w
  {
    var a := Act(w, WritePending(p));
    PerformDone(w, WritePending(p), Then(Serve(on, true), rest), [Fails, Done]);
    assert [Fails, Done][1..] == [Done] + [];
    PerformDone(a, RemovePending, End, []);
  }

  /** How a change goes whose command refuses and which is not interrupted otherwise. */
  function Refused(c: Command): seq<Outcome> {
    if c.Enable? then [Done] + ([Done] + ([Done] + [Fails, Done])) else [Done] + ([Done] + [Fails, Done])
  }

  lemma RefusedEnable(w: World)
    requires w.pending.None?
    ensures Perform(w, EnablePlan(w), Refused(Enable)) == w
  {
    var plan := EnablePlan(w);
    if Blocked(plan) {
      BlockedPerform(w, plan, Refused(Enable));
    } else {
      PerformDone(w, Inspect, plan.rest, [Done] + ([Done] + [Fails, Done]));
      PerformDone(w, Inspect, plan.rest.rest, [Done] + [Fails, Done]);
      RefusedPerform(w, plan.rest.rest.effect.pending, true, plan.rest.rest.rest.rest);
    }
  }

  lemma RefusedDisable(w: World)
    requires w.pending.None?
    ensures Perform(w, DisablePlan(w), Refused(Disable)) == w
  {
    var plan := DisablePlan(w);
    if Blocked(plan) {
      BlockedPerform(w, plan, Refused(Disable));
    } else {
      PerformDone(w, Inspect, plan.rest, [Done] + [Fails, Done]);
      RefusedPerform(w, plan.rest.effect.pending, false, plan.rest.rest.rest);
    }
  }

  /** A change whose command refuses leaves no trace, except by the uninstaller where there is something to uninstall:
      in any world a run leads to, it leaves the world as it was if and only if it is not an uninstall, or there is no
      receipt on file, or it never starts. */
  lemma RefusedLeavesNoTrace(host: Host, found: Found, acts: seq<Action>, c: Command, abandoned: bool)
    requires RunFrom(Start(host, found), acts).pending.None? && !c.Recover?
    ensures var w := RunFrom(Start(host, found), acts);
            Step(w, Action(c, abandoned, Refused(c))) == w <==> !c.Uninstall? || w.receipt.None? || abandoned
  {
    var w := RunFrom(Start(host, found), acts);
    RunGood(Start(host, found), found, acts);
    if abandoned {
      BlockedPerform(w, End, Refused(c));
    } else {
      match c {
        case Enable => RefusedEnable(w);
        case Disable => RefusedDisable(w);
        case Uninstall =>
          if w.receipt.Some? {
            RefusedUninstallSticks(w, found, []);
          } else {
            BlockedPerform(w, UninstallPlan(w), Refused(c));
          }
      }
    }
  }

  // ---- What success means ----

  lemma {:induction false} CompletesFinishes(w: World, plan: Plan, script: seq<Outcome>)
    requires Completes(plan, script)
    ensures Perform(w, plan, script) == Finish(w, plan)
    decreases |script|
  {
    if plan.Then? {
      CompletesFinishes(Act(w, plan.effect), plan.rest, script[1..]);
    }
  }

  lemma {:induction false} EnoughCompletes(plan: Plan, script: seq<Outcome>)
    requires AllDone(script) && Length(plan) <= |script|
    ensures Completes(plan, script)
    decreases |script|
  {
    if plan.Then? {
      EnoughCompletes(plan.rest, script[1..]);
    }
  }

  lemma FinishUninstall(w: World)
    requires w.pending.None? && Agreed(w)
    ensures Length(UninstallPlan(w)) == 7
    ensures Finish(w, UninstallPlan(w)) == w.(rule := Unused, receipt := None, origin := None)
  {
    var plan := UninstallPlan(w);
    var b := Act(Act(w, plan.rest.effect), Serve(false, false));
    FinishForget(b);
    var verify := plan.rest.rest.rest;
    assert Length(verify) == 4 && Length(plan.rest) == 6;
    assert Finish(w, plan.rest) == Finish(b, verify);
  }

  /** What a command is for: enabling a free port, or removing what was enabled. */
  predicate Wanted(w: World, c: Command) {
    match c
    case Enable => w.rule == Unused
    case Disable => w.receipt.Some?
    case Uninstall => w.receipt.Some?
    case Recover => false
  }

  /** The world as it should be after the command. */
  function Changed(w: World, c: Command): World {
    if !Wanted(w, c) then w
    else if c.Enable? then
      w.(rule := Ours(w.host), receipt := Some(OurReceipt(w.host)), origin := Some(PublicOrigin(w.host)))
    else w.(rule := Unused, receipt := None, origin := None)
  }

  lemma WantedPlan(w: World, found: Found, c: Command)
    requires Good(w, found) && w.pending.None?
    ensures var plan := PlanOf(w, c, false);
            if Wanted(w, c) then Finish(w, plan) == Changed(w, c) && 7 <= Length(plan) <= 10 else plan == Then(Inspect, End)
  {
    ReceiptMeansOwned(w, found);
    if Wanted(w, c) {
      match c {
        case Enable => FinishEnable(w);
        case Disable => FinishDisable(w);
        case Uninstall => FinishUninstall(w);
      }
    }
  }

  lemma NoLength()
    ensures Length(Then(Inspect, End)) == 1
  {
    assert Length(End) == 0;
  }

  /** In every world a run leads to that has no journal: a command that reports success has changed the world as it
      should, whatever the outcomes on the way; one that is not interrupted does so; and then it reports success unless
      there was nothing to turn on or off, which only the uninstaller and the recovery do not mind. */
  lemma SuccessExactly(host: Host, found: Found, acts: seq<Action>, a: Action)
    requires RunFrom(Start(host, found), acts).pending.None? && !a.abandoned
    ensures var w := RunFrom(Start(host, found), acts); var v := Step(w, a);
            && (Succeeds(w, a) ==> v == Changed(w, a.command))
            && (AllDone(a.script) && |a.script| >= 10 ==>
                  && v == Changed(w, a.command)
                  && (Succeeds(w, a) <==> Wanted(w, a.command) || a.command.Recover? || a.command.Uninstall?))
  {
    var w := RunFrom(Start(host, found), acts);
    RunGood(Start(host, found), found, acts);
    WantedPlan(w, found, a.command);
    ReceiptMeansOwned(w, found);
    SuccessFrom(w, a, PlanOf(w, a.command, false));
  }

  lemma SuccessFrom(w: World, a: Action, plan: Plan)
    requires !a.abandoned && plan == PlanOf(w, a.command, false)
    requires if Wanted(w, a.command) then Finish(w, plan) == Changed(w, a.command) && 7 <= Length(plan) <= 10
             else plan == Then(Inspect, End)
    ensures Succeeds(w, a) ==> Step(w, a) == Changed(w, a.command)
    ensures AllDone(a.script) && |a.script| >= 10 ==> Step(w, a) == Changed(w, a.command)
    ensures AllDone(a.script) && |a.script| >= 10 ==>
              (Succeeds(w, a) <==> Wanted(w, a.command) || a.command.Recover? || (a.command.Uninstall? && w.receipt.None?))
  {
    NoLength();
    if !Wanted(w, a.command) {
      BlockedPerform(w, plan, a.script);
    }
    if Completes(plan, a.script) {
      CompletesFinishes(w, plan, a.script);
    }
    if AllDone(a.script) && |a.script| >= 10 {
      EnoughCompletes(plan, a.script);
    }
  }

  /** Beside a journal, or after a holder of the lock died without one, no change is made or reported. */
  lemma RefusedBeside(w: World, a: Action)
    requires !a.command.Recover? && (w.pending.Some? || a.abandoned)
    ensures Step(w, a) == w && !Succeeds(w, a)
  {
    BlockedPerform(w, PlanOf(w, a.command, a.abandoned), a.script);
  }

  // ---- Whatever was on port 443 ----

  /** The plan runs no command, or only commands that turn the rule on, or off. */
  predicate Serves(plan: Plan, on: bool)
    decreases plan
  {
    plan.End? || ((plan.effect.Serve? ==> plan.effect.on == on) && Serves(plan.rest, on))
  }

  predicate ServesNothing(plan: Plan)
    decreases plan
  {
    plan.End? || (!plan.effect.Serve? && ServesNothing(plan.rest))
  }

  lemma {:induction false} RuleAfter(w: World, plan: Plan, script: seq<Outcome>, on: bool)
    requires Serves(plan, on)
    ensures Perform(w, plan, script).rule in {w.rule, if on then Ours(w.host) else Unused}
    ensures Perform(w, plan, script).host == w.host
    decreases |script|
  {
    if plan.Then? && script != [] {
      match script[0] {
        case Done => RuleAfter(Act(w, plan.effect), plan.rest, script[1..], on);
        case Fails =>
          if plan.effect.Serve? && plan.effect.unwind {
            RuleAfter(w, Then(RemovePending, End), script[1..], on);
          }
        case Lost(_) =>
      }
    }
  }

  lemma {:induction false} RuleStays(w: World, plan: Plan, script: seq<Outcome>)
    requires ServesNothing(plan)
    ensures Perform(w, plan, script).rule == w.rule
    decreases |script|
  {
    if plan.Then? && script != [] && script[0].Done? {
      RuleStays(Act(w, plan.effect), plan.rest, script[1..]);
    }
  }

  lemma ForgetServesNothing()
    ensures ServesNothing(FORGET) && ServesNothing(Then(Inspect, FORGET)) && ServesNothing(Then(Inspect, End))
    ensures Serves(FORGET, false) && Serves(Then(Inspect, FORGET), false)
  {
    assert ServesNothing(FORGET.rest.rest) && Serves(FORGET.rest.rest, false);
    assert ServesNothing(FORGET.rest) && Serves(FORGET.rest, false);
  }

  /** The receipt describes the rule. */
  predicate Describes(r: Receipt, rule: Rule) {
    rule.Web? && rule.exclusive && rule.proxy == BACKEND && r == Receipt(rule.dnsName, BACKEND, 443, PublicOrigin(rule.dnsName))
  }

  lemma RemovalServes(w: World, p: Pending, unwind: bool)
    ensures Serves(Then(Inspect, Then(WritePending(p), Then(Serve(false, unwind), Then(Inspect, FORGET)))), false)
  {
    ForgetServesNothing();
    assert Serves(Then(Serve(false, unwind), Then(Inspect, FORGET)), false);
  }

  lemma RecordServesNothing(r: Receipt, o: Option<string>)
    ensures var plan := Then(WriteReceipt(r), Then(WriteOrigin(o), Then(RemovePending, End)));
            ServesNothing(plan) && Serves(plan, true)
  {
    var plan := Then(WriteReceipt(r), Then(WriteOrigin(o), Then(RemovePending, End)));
    assert ServesNothing(plan.rest.rest) && Serves(plan.rest.rest, true);
  }

  lemma EnableServes(w: World)
    requires w.pending.None? && w.rule == Unused
    ensures Serves(EnablePlan(w), true)
  {
    var plan := EnablePlan(w);
    var verify := plan.rest.rest.rest.rest;
    RecordServesNothing(OurReceipt(w.host), Some(PublicOrigin(w.host)));
    assert Serves(verify.rest.rest, true);
    assert Serves(verify, true);
    assert Serves(plan.rest.rest, true);
  }

  lemma RecoverServesNothing(w: World)
    ensures ServesNothing(RecoverPlan(w))
  {
    ForgetServesNothing();
    if w.pending.Some? && w.pending.value.enabled {
      var c := Candidate(w, w.pending.value);
      if c.Some? {
        var verified := InspectionFrom(w.rule, c);
        RecordServesNothing(c.value, verified.publicOrigin);
        assert ServesNothing(Then(Inspect, Then(Inspect, End)));
      }
    }
  }

  /** In any world at all, whoever made it what it is: a command changes what is on port 443 only to set our rule where
      there was none, or to remove the very rule the receipt on file describes. */
  lemma OnlyOwnRule(w: World, a: Action)
    requires Step(w, a).rule != w.rule
    ensures if a.command.Enable? then w.rule == Unused && Step(w, a).rule == Ours(w.host)
            else !a.command.Recover? && w.receipt.Some? && Describes(w.receipt.value, w.rule) && Step(w, a).rule == Unused
  {
    var plan := PlanOf(w, a.command, a.abandoned);
    ForgetServesNothing();
    if ServesNothing(plan) {
      RuleStays(w, plan, a.script);
    } else {
      match a.command {
        case Enable =>
          EnableServes(w);
          RuleAfter(w, plan, a.script, true);
        case Disable =>
          RemovalServes(w, plan.rest.effect.pending, true);
          RuleAfter(w, plan, a.script, false);
        case Uninstall =>
          RemovalServes(w, plan.rest.effect.pending, false);
          RuleAfter(w, plan, a.script, false);
        case Recover => RecoverServesNothing(w);
      }
    }
  }

  /** The plan touches neither rule nor receipt. */
  predicate Leaves(plan: Plan)
    decreases plan
  {
    plan.End? || (!plan.effect.Serve? && !plan.effect.WriteReceipt? && !plan.effect.RemoveReceipt? && Leaves(plan.rest))
  }

  /** The plan writes only a receipt of the rule that is there, and removes one only when no rule is. */
  predicate Records(w: World, plan: Plan)
    decreases plan
  {
    plan.End? || match plan.effect
                 case WriteReceipt(r) => Describes(r, w.rule) && Leaves(plan.rest)
                 case RemoveReceipt => w.rule == Unused && Leaves(plan.rest)
                 case e => Records(Act(w, e), plan.rest)
  }

  lemma {:induction false} LeavesBoth(w: World, plan: Plan, script: seq<Outcome>)
    requires Leaves(plan)
    ensures Perform(w, plan, script).rule == w.rule && Perform(w, plan, script).receipt == w.receipt
    decreases |script|
  {
    if plan.Then? && script != [] && script[0].Done? {
      LeavesBoth(Act(w, plan.effect), plan.rest, script[1..]);
    }
  }

  lemma {:induction false} RecordsPerform(w: World, plan: Plan, script: seq<Outcome>)
    requires Records(w, plan)
    ensures var t := Perform(w, plan, script);
            t.receipt != w.receipt ==> if t.receipt.Some? then Describes(t.receipt.value, t.rule) else t.rule == Unused
    decreases |script|
  {
    if plan.Then? && script != [] {
      match script[0] {
        case Done =>
          var u := Act(w, plan.effect);
          if plan.effect.WriteReceipt? || plan.effect.RemoveReceipt? {
            LeavesBoth(u, plan.rest, script[1..]);
          } else {
            RecordsPerform(u, plan.rest, script[1..]);
          }
        case Fails =>
          if plan.effect.Serve? && plan.effect.unwind {
            assert Leaves(End);
            LeavesBoth(w, Then(RemovePending, End), script[1..]);
          }
        case Lost(_) =>
      }
    }
  }

  lemma ForgetRecords(w: World)
    requires w.rule == Unused
    ensures Records(w, FORGET) && Records(w, Then(Inspect, FORGET))
  {
    assert Leaves(FORGET.rest.rest);
    assert Leaves(FORGET.rest);
  }

  lemma RecordRecords(w: World, r: Receipt, o: Option<string>)
    requires Describes(r, w.rule)
    ensures Records(w, Then(WriteReceipt(r), Then(WriteOrigin(o), Then(RemovePending, End))))
  {
    assert Leaves(Then(RemovePending, End));
    assert Leaves(Then(WriteOrigin(o), Then(RemovePending, End)));
  }

  lemma EnableRecords(w: World)
    requires w.pending.None? && w.rule == Unused
    ensures Records(w, EnablePlan(w))
  {
    var journal := EnablePlan(w).rest.rest;
    var verify := journal.rest.rest;
    var b := Act(Act(w, journal.effect), Serve(true, true));
    var c := Act(b, verify.rest.rest.effect);
    RecordRecords(c, OurReceipt(w.host), Some(PublicOrigin(w.host)));
    assert Records(b, verify.rest.rest);
    assert Records(b, verify);
    assert Records(w, journal);
  }

  lemma RemovalRecords(w: World, p: Pending, unwind: bool)
    ensures Records(w, Then(Inspect, Then(WritePending(p), Then(Serve(false, unwind), Then(Inspect, FORGET)))))
  {
    var a := Act(w, WritePending(p));
    ForgetRecords(Act(a, Serve(false, unwind)));
    assert Records(a, Then(Serve(false, unwind), Then(Inspect, FORGET)));
  }

  lemma RecoverRecords(w: World)
    ensures Records(w, RecoverPlan(w))
  {
    if w.pending.Some? {
      var p := w.pending.value;
      if p.enabled {
        var c := Candidate(w, p);
        if c.Some? {
          var verified := InspectionFrom(w.rule, c);
          if verified.ownership == Owned {
            RecordRecords(w, c.value, verified.publicOrigin);
          }
          assert Records(w, Then(Inspect, Then(Inspect, End)));
        }
      } else if w.rule == Unused {
        ForgetRecords(w);
      }
    }
  }

  /** In any world at all: whatever a command records describes the rule that is there, and it forgets a receipt only once
      no rule is there. */
  lemma RecordsOnlyOwned(w: World, a: Action)
    requires Step(w, a).receipt != w.receipt
    ensures var t := Step(w, a); if t.receipt.Some? then Describes(t.receipt.value, t.rule) else t.rule == Unused
  {
    var plan := PlanOf(w, a.command, a.abandoned);
    PlanRecords(w, a.command, a.abandoned);
    RecordsPerform(w, plan, a.script);
  }

  lemma PlanRecords(w: World, c: Command, abandoned: bool)
    ensures Records(w, PlanOf(w, c, abandoned))
  {
    assert Records(w, End) && Records(w, Then(Inspect, End));
    match c {
      case Enable => if w.pending.None? && w.rule == Unused { EnableRecords(w); }
      case Disable =>
        if DisablePlan(w) != Then(Inspect, End) && DisablePlan(w) != End {
          RemovalRecords(w, DisablePlan(w).rest.effect.pending, true);
        }
      case Uninstall => UninstallRecords(w);
      case Recover => RecoverRecords(w);
    }
  }

  lemma UninstallRecords(w: World)
    ensures Records(w, UninstallPlan(w))
  {
    assert Records(w, End) && Records(w, Then(Inspect, End));
    if w.pending.None? && w.receipt.Some? {
      var i := InspectionFrom(w.rule, w.receipt);
      if i.ownership == Absent {
        ForgetRecords(w);
      } else if i.ownership == Owned {
        RemovalRecords(w, UninstallPlan(w).rest.effect.pending, false);
      }
    }
  }
}
