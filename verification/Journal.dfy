/** apps/desktop/src-tauri/src/tailscale.rs and main.rs: the write-ahead journal around the Tailscale Serve rule.
    Four things change: the external rule, the receipt file, the origin in the configuration, and the journal file.
    Every effect on them can fail, and the process can die before or after any of them. */
module Journal {
  import opened Protocol

  const BACKEND := "http://127.0.0.1:3847"

  /** A validated DNS name. */
  type Host = string

  function PublicOrigin(host: Host): string { "https://" + host }

  datatype Receipt = Receipt(dnsName: Host, proxy: string, httpsPort: nat, publicOrigin: string)

  datatype Pending = Pending(enabled: bool, receipt: Option<Receipt>, expectedDnsName: Option<Host>, expectedProxy: string)

  /** What `parse_status` makes of port 443: unused, occupied by something else, or a single root proxy;
      `exclusive` when neither funnel, TCP forwarding nor a foreground session is involved. */
  datatype Rule = Unused | Other | Web(dnsName: Host, proxy: string, exclusive: bool)

  datatype Ownership = Absent | Owned | Conflict

  datatype Inspection = Inspection(ownership: Ownership, dnsName: Option<Host>, proxy: Option<string>, publicOrigin: Option<string>)

  // ---- tailscale.rs ----

  /** `inspection_from`. */
  function InspectionFrom(rule: Rule, receipt: Option<Receipt>): Inspection {
    match rule
    case Unused => Inspection(Absent, None, None, None)
    case Other => Inspection(Conflict, None, None, None)
    case Web(dns, proxy, exclusive) =>
      var owned := exclusive && receipt.Some? && receipt.value.httpsPort == 443 && receipt.value.dnsName == dns
                   && receipt.value.proxy == proxy && receipt.value.proxy == BACKEND
                   && receipt.value.publicOrigin == PublicOrigin(dns);
      Inspection(if owned then Owned else Conflict, Some(dns), Some(proxy), Some(PublicOrigin(dns)))
  }

  /** `receipt_from`. */
  function ReceiptFrom(i: Inspection): Option<Receipt> {
    if i.dnsName.Some? && i.publicOrigin.Some?
    then Some(Receipt(i.dnsName.value, BACKEND, 443, i.publicOrigin.value)) else None
  }

  // ---- Effects ----

  /** `host` is this machine's name on the tailnet. */
  datatype World = World(host: Host, rule: Rule, receipt: Option<Receipt>, origin: Option<string>, pending: Option<Pending>)

  /** `Inspect` changes nothing but can fail. `Serve` runs the command that sets or clears the rule; with `unwind`, a
      refusal removes the journal. */
  datatype Effect =
    | Inspect
    | Serve(on: bool, unwind: bool)
    | WritePending(pending: Pending)
    | WriteReceipt(receipt: Receipt)
    | WriteOrigin(origin: Option<string>)
    | RemoveReceipt
    | RemovePending

  function Act(w: World, e: Effect): World {
    match e
    case Inspect => w
    case Serve(on, _) => w.(rule := if on then Web(w.host, BACKEND, true) else Unused)
    case WritePending(p) => w.(pending := Some(p))
    case WriteReceipt(r) => w.(receipt := Some(r))
    case WriteOrigin(o) => w.(origin := o)
    case RemoveReceipt => w.(receipt := None)
    case RemovePending => w.(pending := None)
  }

  /** How one effect goes: it is done; it fails and changes nothing (the command exits with an error); or its outcome
      is lost with the process or to a timeout, and the command may or may not have `taken` effect. */
  datatype Outcome = Done | Fails | Lost(taken: bool)

  /** The effects still to come. */
  datatype Plan = End | Then(effect: Effect, rest: Plan)

  /** Carries out a plan until an effect is not done. A script that ends early is a crash there. */
  function Perform(w: World, plan: Plan, script: seq<Outcome>): World
    decreases |script|
  {
    if plan.End? || script == [] then w else
    match script[0]
    case Done => Perform(Act(w, plan.effect), plan.rest, script[1..])
    case Fails => if plan.effect.Serve? && plan.effect.unwind then Perform(w, Then(RemovePending, End), script[1..]) else w
    case Lost(taken) => if plan.effect.Serve? && taken then Act(w, plan.effect) else w
  }

  /** The script carries the plan out to its end. */
  predicate Completes(plan: Plan, script: seq<Outcome>)
    decreases |script|
  {
    plan.End? || (script != [] && script[0].Done? && Completes(plan.rest, script[1..]))
  }

  // ---- main.rs, as plans ----

  function OurReceipt(host: Host): Receipt { Receipt(host, BACKEND, 443, PublicOrigin(host)) }

  function EnablePlan(w: World): Plan {
    if w.pending.Some? then End
    else if InspectionFrom(w.rule, w.receipt).ownership != Absent then Then(Inspect, End)
    else
      var r := OurReceipt(w.host);
      Then(Inspect, Then(Inspect,
      Then(WritePending(Pending(true, None, Some(w.host), BACKEND)),
      Then(Serve(true, true), Then(Inspect, Then(Inspect,
      Then(WritePending(Pending(true, Some(r), Some(w.host), BACKEND)),
      Then(WriteReceipt(r), Then(WriteOrigin(Some(r.publicOrigin)), Then(RemovePending, End))))))))))
  }

  /** The receipt, the origin and the journal go, in this order. */
  const FORGET := Then(RemoveReceipt, Then(WriteOrigin(None), Then(RemovePending, End)))

  function DisablePlan(w: World): Plan {
    if w.pending.Some? then End else
    var i := InspectionFrom(w.rule, w.receipt);
    if i.ownership != Owned || w.receipt.None? then Then(Inspect, End)
    else Then(Inspect, Then(WritePending(Pending(false, w.receipt, i.dnsName, BACKEND)),
         Then(Serve(false, true), Then(Inspect, FORGET))))
  }

  function UninstallPlan(w: World): Plan {
    if w.pending.Some? then End else
    var i := InspectionFrom(w.rule, w.receipt);
    if w.receipt.None? || i.ownership == Conflict then Then(Inspect, End)
    else if i.ownership == Absent then Then(Inspect, FORGET)
    else
      var r := w.receipt.value;
      Then(Inspect, Then(WritePending(Pending(false, Some(r), Some(r.dnsName), r.proxy)),
      Then(Serve(false, false), Then(Inspect, FORGET))))
  }

  /** The receipt a recovery would put back: the journal's, or one for the rule the journal expected. */
  function Candidate(w: World, p: Pending): Option<Receipt> {
    if p.receipt.Some? then p.receipt else
    var i := InspectionFrom(w.rule, w.receipt);
    if i.proxy == Some(p.expectedProxy) && i.dnsName == p.expectedDnsName then ReceiptFrom(i) else None
  }

  function RecoverPlan(w: World): Plan {
    if w.pending.None? then Then(Inspect, End) else
    var p := w.pending.value;
    if p.enabled then
      var c := Candidate(w, p);
      if c.None? then Then(Inspect, End)
      else
        var verified := InspectionFrom(w.rule, c);
        if verified.ownership != Owned then Then(Inspect, Then(Inspect, End))
        else Then(Inspect, Then(Inspect, Then(WriteReceipt(c.value),
             Then(WriteOrigin(verified.publicOrigin), Then(RemovePending, End)))))
    else if InspectionFrom(w.rule, w.receipt).ownership == Absent then Then(Inspect, FORGET)
    else Then(Inspect, End)
  }

  datatype Command = Enable | Disable | Uninstall | Recover

  /** `abandoned`: the previous holder of the transaction lock died with it. */
  function PlanOf(w: World, c: Command, abandoned: bool): Plan {
    if abandoned && w.pending.None? then End else
    match c
    case Enable => EnablePlan(w)
    case Disable => DisablePlan(w)
    case Uninstall => UninstallPlan(w)
    case Recover => RecoverPlan(w)
  }

  datatype Action = Action(command: Command, abandoned: bool, script: seq<Outcome>)

  /** The command reports success: it was carried out, and did not stop after looking because it may not go on. */
  predicate Succeeds(w: World, a: Action) {
    var plan := PlanOf(w, a.command, a.abandoned);
    && Completes(plan, a.script) && plan.Then?
    && (plan == Then(Inspect, End) ==> a.command.Recover? || (a.command.Uninstall? && w.receipt.None?))
  }

  function Step(w: World, a: Action): World { Perform(w, PlanOf(w, a.command, a.abandoned), a.script) }

  // ---- main.rs, as the statements of its commands ----

  /** The machine the commands run on; `script` holds the outcomes still to come. */
  class Machine {
    const host: Host
    var rule: Rule
    var receipt: Option<Receipt>
    var origin: Option<string>
    var pending: Option<Pending>
    var script: seq<Outcome>

    constructor (host: Host, rule: Rule, origin: Option<string>)
      ensures Value() == World(host, rule, None, origin, None) && script == []
    {
      this.host, this.rule, receipt, this.origin, pending, script := host, rule, None, origin, None, [];
    }

    function Value(): World
      reads this
    {
      World(host, rule, receipt, origin, pending)
    }

    method Next() returns (o: Outcome)
      modifies `script
      ensures o == if old(script) == [] then Lost(false) else old(script)[0]
      ensures script == if old(script) == [] then [] else old(script)[1..]
    {
      if script == [] {
        o := Lost(false);
      } else {
        o, script := script[0], script[1..];
      }
    }

    /** One effect other than the command. `plan` is what its caller has left to do. */
    method Do(e: Effect, ghost plan: Plan) returns (ok: bool)
      requires plan.Then? && plan.effect == e && !e.Serve?
      modifies this
      ensures Perform(old(Value()), plan, old(script)) == if ok then Perform(Value(), plan.rest, script) else Value()
      ensures Value() == if ok then Act(old(Value()), e) else old(Value())
      ensures Completes(plan, old(script)) <==> ok && Completes(plan.rest, script)
    {
      var o := Next();
      ok := o == Done;
      if ok {
        match e {
          case WritePending(p) => pending := Some(p);
          case WriteReceipt(r) => receipt := Some(r);
          case WriteOrigin(v) => origin := v;
          case RemoveReceipt => receipt := None;
          case RemovePending => pending := None;
          case _ =>
        }
      }
    }

    /** Runs the command. */
    method Run(on: bool, ghost plan: Plan) returns (o: Outcome)
      requires plan.Then? && plan.effect.Serve? && plan.effect.on == on
      modifies this
      ensures o == Done ==> Value() == Act(old(Value()), plan.effect)
      ensures o == Fails ==> Value() == old(Value())
      ensures Perform(old(Value()), plan, old(script))
           == match o
              case Done => Perform(Value(), plan.rest, script)
              case Fails => if plan.effect.unwind then Perform(Value(), Then(RemovePending, End), script) else Value()
              case Lost(_) => Value()
      ensures Completes(plan, old(script)) <==> o == Done && Completes(plan.rest, script)
    {
      o := Next();
      if o == Done || o == Lost(true) {
        rule := if on then Web(host, BACKEND, true) else Unused;
      }
    }

    /** `set_tailscale_serve`. */
    method SetServe(enabled: bool, abandoned: bool) returns (ok: bool)
      modifies this
      ensures Value() == Perform(old(Value()), PlanOf(old(Value()), if enabled then Enable else Disable, abandoned), old(script))
      ensures ok <==> Succeeds(old(Value()), Action(if enabled then Enable else Disable, abandoned, old(script)))
    {
      if abandoned && pending.None? {
        return false;
      }
      if pending.Some? {
        return false;
      }
      ghost var plan := if enabled then EnablePlan(Value()) else DisablePlan(Value());
      var seen := Do(Inspect, plan);
      if !seen {
        return false;
      }
      var current := InspectionFrom(rule, receipt);
      if enabled {
        if current.ownership != Absent {
          return false;
        }
        ok := TurnOn(plan.rest);
      } else {
        if current.ownership != Owned || receipt.None? {
          return false;
        }
        plan := plan.rest;
        var written := Do(WritePending(Pending(false, receipt, current.dnsName, BACKEND)), plan);
        if !written {
          return false;
        }
        plan := plan.rest;
        var o := Run(false, plan);
        if o == Fails {
          var undone := Do(RemovePending, Then(RemovePending, End));
          return false;
        }
        if o != Done {
          return false;
        }
        ok := Forget(plan.rest);
      }
    }

    /** The enabling half, after the checks. */
    method TurnOn(ghost plan: Plan) returns (ok: bool)
      requires pending.None? && rule == Unused && EnablePlan(Value()) == Then(Inspect, plan)
      modifies this
      ensures Value() == Perform(old(Value()), plan, old(script)) && (ok <==> Completes(plan, old(script)))
    {
      ghost var left := plan;
      ok := Do(Inspect, left);
      if !ok {
        return;
      }
      left := left.rest;
      ok := Do(WritePending(Pending(true, None, Some(host), BACKEND)), left);
      if !ok {
        return;
      }
      left := left.rest;
      var o := Run(true, left);
      if o == Fails {
        var undone := Do(RemovePending, Then(RemovePending, End));
        return false;
      }
      if o != Done {
        return false;
      }
      ok := Record(left.rest);
    }

    /** What enabling does once the command succeeded: verify the rule, then make it permanent. */
    method Record(ghost plan: Plan) returns (ok: bool)
      requires rule == Web(host, BACKEND, true)
      requires var r := OurReceipt(host);
               plan == Then(Inspect, Then(Inspect, Then(WritePending(Pending(true, Some(r), Some(host), BACKEND)),
                       Then(WriteReceipt(r), Then(WriteOrigin(Some(r.publicOrigin)), Then(RemovePending, End))))))
      modifies this
      ensures Value() == Perform(old(Value()), plan, old(script)) && (ok <==> Completes(plan, old(script)))
    {
      ghost var left := plan;
      ok := Do(Inspect, left);
      if !ok {
        return;
      }
      var candidate := ReceiptFrom(InspectionFrom(rule, None));
      if candidate.None? {
        return false;
      }
      left := left.rest;
      ok := Do(Inspect, left);
      if !ok {
        return;
      }
      var after := InspectionFrom(rule, candidate);
      var r := ReceiptFrom(after);
      if after.ownership != Owned || r.None? {
        return false;
      }
      left := left.rest;
      ok := Do(WritePending(Pending(true, Some(r.value), Some(host), BACKEND)), left);
      if !ok {
        return;
      }
      left := left.rest;
      ok := Do(WriteReceipt(r.value), left);
      if !ok {
        return;
      }
      left := left.rest;
      ok := Do(WriteOrigin(after.publicOrigin), left);
      if !ok {
        return;
      }
      ok := Do(RemovePending, left.rest);
    }

    /** What removing does once the command succeeded: verify the rule is gone, then forget it. */
    method Forget(ghost plan: Plan) returns (ok: bool)
      requires plan == Then(Inspect, FORGET) && rule == Unused
      modifies this
      ensures Value() == Perform(old(Value()), plan, old(script)) && (ok <==> Completes(plan, old(script)))
    {
      ok := Do(Inspect, plan);
      if !ok {
        return;
      }
      if InspectionFrom(rule, None).ownership != Absent {
        return false;
      }
      ok := Clear();
    }

    method Clear() returns (ok: bool)
      modifies this
      ensures Value() == Perform(old(Value()), FORGET, old(script)) && (ok <==> Completes(FORGET, old(script)))
    {
      ok := Do(RemoveReceipt, FORGET);
      if !ok {
        return;
      }
      ok := Do(WriteOrigin(None), FORGET.rest);
      if !ok {
        return;
      }
      ok := Do(RemovePending, FORGET.rest.rest);
    }

    /** `uninstall_cleanup`, its Serve part. */
    method UninstallCleanup(abandoned: bool) returns (ok: bool)
      modifies this
      ensures Value() == Perform(old(Value()), PlanOf(old(Value()), Uninstall, abandoned), old(script))
      ensures ok <==> Succeeds(old(Value()), Action(Uninstall, abandoned, old(script)))
    {
      if abandoned && pending.None? {
        return false;
      }
      if pending.Some? {
        return false;
      }
      ghost var plan := UninstallPlan(Value());
      ok := Do(Inspect, plan);
      if !ok {
        return;
      }
      var current := InspectionFrom(rule, receipt);
      if receipt.Some? {
        if current.ownership == Owned {
          var matching := receipt.value;
          plan := plan.rest;
          ok := Do(WritePending(Pending(false, Some(matching), Some(matching.dnsName), matching.proxy)), plan);
          if !ok {
            return;
          }
          plan := plan.rest;
          var o := Run(false, plan);
          if o != Done {
            return false;
          }
          ok := Forget(plan.rest);
        } else if current.ownership == Absent {
          ok := Clear();
        } else {
          return false;
        }
      }
    }

    /** `tailscale_status`, its recovery. */
    method Status(abandoned: bool) returns (ok: bool)
      modifies this
      ensures Value() == Perform(old(Value()), PlanOf(old(Value()), Recover, abandoned), old(script))
      ensures ok <==> Succeeds(old(Value()), Action(Recover, abandoned, old(script)))
    {
      if abandoned && pending.None? {
        return false;
      }
      ghost var plan := RecoverPlan(Value());
      ok := Do(Inspect, plan);
      if !ok || pending.None? {
        return;
      }
      var value := InspectionFrom(rule, receipt);
      var p := pending.value;
      if p.enabled {
        var candidate := p.receipt;
        if candidate.None? && value.proxy == Some(p.expectedProxy) && value.dnsName == p.expectedDnsName {
          candidate := ReceiptFrom(value);
        }
        if candidate.Some? {
          plan := plan.rest;
          ok := Do(Inspect, plan);
          if !ok {
            return;
          }
          var verified := InspectionFrom(rule, candidate);
          if verified.ownership == Owned {
            plan := plan.rest;
            ok := Do(WriteReceipt(candidate.value), plan);
            if !ok {
              return;
            }
            plan := plan.rest;
            ok := Do(WriteOrigin(verified.publicOrigin), plan);
            if !ok {
              return;
            }
            ok := Do(RemovePending, plan.rest);
          }
        }
      } else if value.ownership == Absent {
        ok := Clear();
      }
    }
  }
}
