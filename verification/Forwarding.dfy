/**
 The forwarding keeper of native/tun-service/forwarding.go: it switches IPv4 forwarding on for
 the TUN adapter and the LAN adapters while the gateway mode is wanted, and gives back what it
 took.

 The host is an object of its own. What it answers (the adapter listing and which calls fail) is
 an input (`Env`) of each operation, so adapters come and go between operations.
 */
module Forwarding {
  import opened Wrappers

  datatype Adapter = Adapter(name: string, luid: nat, up: bool, physical: bool, hasGateway: bool)

  datatype Role = Tun | Lan

  datatype Want = Want(name: string, role: Role)

  datatype Target = Target(name: string, role: Role, forwarding: bool, managed: bool)

  datatype Keeper = Keeper(
    desired: bool,
    lanProxy: bool,
    device: string,
    program: string,
    firewall: string,
    managed: map<nat, string>,
    targets: map<nat, Target>,
    tun: bool,
    failed: bool)

  /** Forwarding flags of the adapters present, the firewall rule, and the adapters written to. */
  datatype Host = Host(flags: map<nat, bool>, rule: string, touched: set<nat>)

  /** Adding the rule: a bad program path is refused at once, other failures come after the old rule went away. */
  datatype Rule = Added | Refused | AddFails

  datatype Env = Env(listing: Option<seq<Adapter>>, readFails: set<nat>, writeFails: set<nat>, rule: Rule)

  const NEW_KEEPER := Keeper(false, false, "", "", "", map[], map[], false, false)

  // ---------------------------------------------------------------------------
  // The host as an object
  // ---------------------------------------------------------------------------

  class ForwardingHost {
    var flags: map<nat, bool>
    var rule: string
    ghost var touched: set<nat>

    ghost function View(): Host
      reads this
    {
      Host(flags, rule, touched)
    }

    constructor (flags: map<nat, bool>)
      ensures View() == Host(flags, "", {})
    {
      this.flags, rule, touched := flags, "", {};
    }

    method Forwarding(luid: nat, env: Env) returns (r: Result<bool, string>)
      ensures r == ReadFlag(View(), luid, env)
    {
      if luid !in flags {
        return Err("adapter is gone");
      }
      if luid in env.readFails {
        return Err("read failed");
      }
      return Ok(flags[luid]);
    }

    method SetForwarding(luid: nat, enabled: bool, env: Env) returns (ok: bool)
      modifies this`flags, this`touched
      ensures ok == CanWrite(old(View()), luid, env)
      ensures flags == if ok then old(flags)[luid := enabled] else old(flags)
      ensures touched == old(touched) + {luid}
    {
      touched := touched + {luid};
      if luid !in flags || luid in env.writeFails {
        return false;
      }
      flags := flags[luid := enabled];
      return true;
    }

    /** The old rule goes away before the new one is added, but after the path was checked. */
    method AllowInbound(program: string, env: Env) returns (ok: bool)
      modifies this`rule
      ensures ok == (env.rule == Added) && rule == RuleAfter(old(rule), program, env)
    {
      if env.rule == Refused {
        return false;
      }
      rule := "";
      if env.rule == AddFails {
        return false;
      }
      rule := program;
      return true;
    }

    method RemoveInbound()
      modifies this`rule
      ensures rule == ""
    {
      rule := "";
    }
  }

  function RuleAfter(rule: string, program: string, env: Env): string {
    match env.rule
    case Added => program
    case Refused => rule
    case AddFails => ""
  }

  function ReadFlag(h: Host, luid: nat, env: Env): Result<bool, string> {
    if luid !in h.flags then Err("adapter is gone")
    else if luid in env.readFails then Err("read failed")
    else Ok(h.flags[luid])
  }

  predicate CanWrite(h: Host, luid: nat, env: Env) {
    luid in h.flags && luid !in env.writeFails
  }

  // ---------------------------------------------------------------------------
  // What the keeper wants
  // ---------------------------------------------------------------------------

  function Lower(c: char): char {
    if 'A' <= c <= 'Z' then (c - 'A') + 'a' else c
  }

  /** Case-insensitive equality; device names are ASCII. */
  predicate EqualFold(a: string, b: string) {
    |a| == |b| && forall i | 0 <= i < |a| :: Lower(a[i]) == Lower(b[i])
  }

  function FindTun(adapters: seq<Adapter>, device: string): Option<Adapter> {
    if adapters == [] then None
    else if adapters[0].up && EqualFold(adapters[0].name, device) then Some(adapters[0])
    else FindTun(adapters[1..], device)
  }

  predicate IsLan(a: Adapter, tun: Adapter) {
    a.luid != tun.luid && a.up && a.physical && a.hasGateway
  }

  /** The LAN adapters of a listing on top of `base`. */
  function WithLan(base: map<nat, Want>, adapters: seq<Adapter>, tun: Adapter): map<nat, Want>
    decreases |adapters|
  {
    if adapters == [] then base
    else
      WithLan(if IsLan(adapters[0], tun) then base[adapters[0].luid := Want(adapters[0].name, Lan)] else base,
              adapters[1..], tun)
  }

  function Wanted(k: Keeper, env: Env): map<nat, Want> {
    if !k.desired || k.device == "" || env.listing.None? then map[]
    else
      match FindTun(env.listing.value, k.device)
      case None => map[]
      case Some(tun) => WithLan(map[tun.luid := Want(tun.name, Tun)], env.listing.value, tun)
  }

  predicate TunPresent(k: Keeper, env: Env) {
    k.desired && k.device != "" && env.listing.Some? && FindTun(env.listing.value, k.device).Some?
  }

  // ---------------------------------------------------------------------------
  // The operations on values
  // ---------------------------------------------------------------------------

  function WantedProgram(k: Keeper): string {
    if k.desired || k.lanProxy then k.program else ""
  }

  function SyncedFirewall(k: Keeper, h: Host, env: Env): (Keeper, Host) {
    var want := WantedProgram(k);
    if want == k.firewall then (k, h)
    else if want == "" then (k.(firewall := want), h.(rule := ""))
    else if env.rule != Added then (k.(failed := true), h.(rule := RuleAfter(h.rule, want, env)))
    else (k.(firewall := want), h.(rule := want))
  }

  /** `flags` with the adapters of `luids` switched to `value` wherever the host lets it. */
  function Switched(flags: map<nat, bool>, luids: set<nat>, value: bool): map<nat, bool> {
    map l | l in flags :: if l in luids then value else flags[l]
  }

  function Unkept(k: Keeper, keep: set<nat>): set<nat> {
    k.managed.Keys - keep
  }

  /** Restoring the adapters `off`: each is switched off if the host lets it, and forgotten either way. */
  function RestoredBy(k: Keeper, h: Host, off: set<nat>, env: Env): (Keeper, Host) {
    (k.(managed := k.managed - off, failed := k.failed || off * h.flags.Keys * env.writeFails != {}),
     h.(flags := Switched(h.flags, off - env.writeFails, false), touched := h.touched + off))
  }

  function Restored(k: Keeper, h: Host, keep: set<nat>, env: Env): (Keeper, Host) {
    RestoredBy(k, h, Unkept(k, keep), env)
  }

  /** The wanted adapters the keeper finds off, and those of them it manages to switch on. */
  function FoundOff(h: Host, wanted: map<nat, Want>, env: Env): set<nat> {
    set l | l in wanted && ReadFlag(h, l, env) == Ok(false)
  }

  function TurnedOn(h: Host, wanted: map<nat, Want>, env: Env): set<nat> {
    FoundOff(h, wanted, env) - env.writeFails
  }

  predicate ReportedOn(h: Host, l: nat, env: Env) {
    ReadFlag(h, l, env).Ok? && (ReadFlag(h, l, env).value || l !in env.writeFails)
  }

  function NotOn(h: Host, wanted: map<nat, Want>, env: Env): set<nat> {
    set l | l in wanted && !ReportedOn(h, l, env)
  }

  function Names(wanted: map<nat, Want>, luids: set<nat>): map<nat, string> {
    map l | l in wanted && l in luids :: wanted[l].name
  }

  function TargetOf(k: Keeper, h: Host, wanted: map<nat, Want>, l: nat, env: Env): Target
    requires l in wanted
  {
    Target(wanted[l].name, wanted[l].role, ReportedOn(h, l, env), l in k.managed || l in TurnedOn(h, wanted, env))
  }

  /** Switching on the wanted adapters of `done`. */
  function EnabledBy(k: Keeper, h: Host, wanted: map<nat, Want>, done: set<nat>, env: Env): (Keeper, Host) {
    var on := TurnedOn(h, wanted, env) * done;
    (k.(managed := k.managed + Names(wanted, on),
        targets := map l | l in wanted && l in done :: TargetOf(k, h, wanted, l, env),
        failed := k.failed || NotOn(h, wanted, env) * done != {}),
     h.(flags := Switched(h.flags, on, true), touched := h.touched + FoundOff(h, wanted, env) * done))
  }

  function Enabled(k: Keeper, h: Host, wanted: map<nat, Want>, env: Env): (Keeper, Host) {
    EnabledBy(k, h, wanted, wanted.Keys, env)
  }

  /** `ensureLocked`. */
  function Ensured(k: Keeper, h: Host, env: Env): (Keeper, Host) {
    var (k1, h1) := SyncedFirewall(k.(failed := false, targets := map[], tun := false), h, env);
    if k.desired && k.device != "" && env.listing.None? then (k1.(failed := true), h1)
    else
      var wanted := Wanted(k1, env);
      var (k2, h2) := Restored(k1.(tun := TunPresent(k1, env)), h1, wanted.Keys, env);
      Enabled(k2, h2, wanted, env)
  }

  datatype Operation =
    | SetDevice(device: string, program: string)
    | SetDesired(desired: bool)
    | SetLANProxy(enabled: bool)
    | Status
    | Tick
    | ClearDevice

  function Perform(k: Keeper, h: Host, op: Operation, env: Env): (Keeper, Host) {
    match op
    case SetDevice(device, program) => Ensured(k.(device := device, program := program), h, env)
    case SetDesired(desired) => Ensured(k.(desired := desired), h, env)
    case SetLANProxy(enabled) => Ensured(k.(lanProxy := enabled), h, env)
    case Status => Ensured(k, h, env)
    case Tick => if !k.desired && k.managed == map[] then (k, h) else Ensured(k, h, env)
    case ClearDevice =>
      var (k1, h1) := Restored(k.(device := "", program := ""), h, {}, env);
      var (k2, h2) := SyncedFirewall(k1, h1, env);
      (k2.(targets := map[], tun := false), h2)
  }

  // ---------------------------------------------------------------------------
  // One adapter at a time
  // ---------------------------------------------------------------------------

  lemma SwitchOne(flags: map<nat, bool>, luids: set<nat>, l: nat, value: bool)
    ensures Switched(flags, luids + {l}, value) ==
            if l in flags then Switched(flags, luids, value)[l := value] else Switched(flags, luids, value)
  {
  }

  /** The loop body of `ensureLocked` for one wanted adapter. */
  function EnabledOne(k: Keeper, h: Host, l: nat, want: Want, env: Env): (Keeper, Host) {
    var read := ReadFlag(h, l, env);
    var off := read == Ok(false);
    var on := off && l !in env.writeFails;
    var managed := if on then k.managed[l := want.name] else k.managed;
    (k.(managed := managed,
        failed := k.failed || !ReportedOn(h, l, env),
        targets := k.targets[l := Target(want.name, want.role, ReportedOn(h, l, env), l in managed)]),
     h.(flags := if on then h.flags[l := true] else h.flags,
        touched := if off then h.touched + {l} else h.touched))
  }

  /** The adapters a loop over `all` has switched, with `rest` still to come and `keep` skipped. */
  function Done(all: set<nat>, rest: set<nat>, keep: set<nat>): set<nat> {
    all - rest - keep
  }

  lemma DoneOne(all: set<nat>, rest: set<nat>, keep: set<nat>, l: nat)
    requires l in all && l !in rest
    ensures Done(all, rest, keep) == if l in keep then Done(all, rest + {l}, keep) else Done(all, rest + {l}, keep) + {l}
  {
  }

  lemma SwitchNone(flags: map<nat, bool>, value: bool)
    ensures Switched(flags, {}, value) == flags
  {
  }

  lemma RestoreNone(k: Keeper, h: Host, env: Env)
    ensures RestoredBy(k, h, {}, env) == (k, h)
  {
    SwitchNone(h.flags, false);
    var off: set<nat> := {};
    assert k.managed - off == k.managed;
    assert off - env.writeFails == off;
    assert off * h.flags.Keys * env.writeFails == {};
    assert h.touched + off == h.touched;
  }

  /** The loop body of `restoreLocked` for one adapter that is not kept. */
  function RestoredOne(k: Keeper, h: Host, l: nat, env: Env): (Keeper, Host) {
    var ok := CanWrite(h, l, env);
    (k.(managed := k.managed - {l}, failed := k.failed || (!ok && l in h.flags)),
     h.(flags := if ok then h.flags[l := false] else h.flags, touched := h.touched + {l}))
  }

  lemma RestoreOne(k: Keeper, h: Host, off: set<nat>, l: nat, env: Env)
    requires l !in off
    ensures
      var (k1, h1) := RestoredBy(k, h, off, env);
      RestoredOne(k1, h1, l, env) == RestoredBy(k, h, off + {l}, env)
  {
    var (k1, h1) := RestoredBy(k, h, off, env);
    SwitchOne(h.flags, off - env.writeFails, l, false);
    assert k.managed - off - {l} == k.managed - (off + {l});
    assert h.touched + off + {l} == h.touched + (off + {l});
    if l in env.writeFails {
      assert (off + {l}) - env.writeFails == off - env.writeFails;
      if l in h.flags {
        assert l in (off + {l}) * h.flags.Keys * env.writeFails;
      } else {
        assert (off + {l}) * h.flags.Keys * env.writeFails == off * h.flags.Keys * env.writeFails;
      }
    } else {
      assert (off + {l}) - env.writeFails == off - env.writeFails + {l};
      assert (off + {l}) * h.flags.Keys * env.writeFails == off * h.flags.Keys * env.writeFails;
    }
  }

  lemma EnableNone(k: Keeper, h: Host, wanted: map<nat, Want>, env: Env)
    requires k.targets == map[]
    ensures EnabledBy(k, h, wanted, {}, env) == (k, h)
  {
    var none: set<nat> := {};
    SwitchNone(h.flags, true);
    assert TurnedOn(h, wanted, env) * none == none;
    assert FoundOff(h, wanted, env) * none == none;
    assert NotOn(h, wanted, env) * none == none;
    assert Names(wanted, none) == map[];
    assert k.managed + Names(wanted, none) == k.managed;
    assert h.touched + none == h.touched;
    assert EnabledBy(k, h, wanted, none, env).0.targets == map[];
  }

  lemma EnableOneOnHost(k: Keeper, h: Host, wanted: map<nat, Want>, done: set<nat>, l: nat, env: Env)
    requires l in wanted && l !in done
    ensures
      var (k1, h1) := EnabledBy(k, h, wanted, done, env);
      && ReadFlag(h1, l, env) == ReadFlag(h, l, env)
      && EnabledOne(k1, h1, l, wanted[l], env).1 == EnabledBy(k, h, wanted, done + {l}, env).1
  {
    var on, off := TurnedOn(h, wanted, env), FoundOff(h, wanted, env);
    SwitchOne(h.flags, on * done, l, true);
    assert on * (done + {l}) == if l in on then on * done + {l} else on * done;
    assert off * (done + {l}) == if l in off then off * done + {l} else off * done;
    assert h.touched + off * done + {l} == h.touched + (off * done + {l});
  }

  lemma EnableOneInKeeper(k: Keeper, h: Host, wanted: map<nat, Want>, done: set<nat>, l: nat, env: Env)
    requires l in wanted && l !in done
    ensures
      var (k1, h1) := EnabledBy(k, h, wanted, done, env);
      EnabledOne(k1, h1, l, wanted[l], env).0 == EnabledBy(k, h, wanted, done + {l}, env).0
  {
    EnableOneOnHost(k, h, wanted, done, l, env);
    var (k1, h1) := EnabledBy(k, h, wanted, done, env);
    var k2 := EnabledOne(k1, h1, l, wanted[l], env).0;
    var k3 := EnabledBy(k, h, wanted, done + {l}, env).0;
    var off := NotOn(h, wanted, env);
    EnableOneTarget(k, h, wanted, done, l, env);
    assert k2.failed == k3.failed by {
      assert off * (done + {l}) == if l in off then off * done + {l} else off * done;
    }
    EnableOneManaged(k, h, wanted, done, l, env);
  }

  lemma EnableOneManaged(k: Keeper, h: Host, wanted: map<nat, Want>, done: set<nat>, l: nat, env: Env)
    requires l in wanted && l !in done
    ensures
      var (k1, h1) := EnabledBy(k, h, wanted, done, env);
      EnabledOne(k1, h1, l, wanted[l], env).0.managed == EnabledBy(k, h, wanted, done + {l}, env).0.managed
  {
    EnableOneOnHost(k, h, wanted, done, l, env);
    var on := TurnedOn(h, wanted, env);
    if l in on {
      NamesOne(wanted, on * done, l);
      assert on * (done + {l}) == on * done + {l};
      MergeOne(k.managed, Names(wanted, on * done), l, wanted[l].name);
    } else {
      assert on * (done + {l}) == on * done;
    }
  }

  lemma NamesOne(wanted: map<nat, Want>, luids: set<nat>, l: nat)
    requires l in wanted
    ensures Names(wanted, luids + {l}) == Names(wanted, luids)[l := wanted[l].name]
  {
  }

  lemma MergeOne(a: map<nat, string>, b: map<nat, string>, l: nat, name: string)
    ensures (a + b)[l := name] == a + b[l := name]
  {
  }

  lemma EnableOneTarget(k: Keeper, h: Host, wanted: map<nat, Want>, done: set<nat>, l: nat, env: Env)
    requires l in wanted && l !in done
    ensures
      var (k1, h1) := EnabledBy(k, h, wanted, done, env);
      EnabledOne(k1, h1, l, wanted[l], env).0.targets == EnabledBy(k, h, wanted, done + {l}, env).0.targets
  {
    EnableOneOnHost(k, h, wanted, done, l, env);
    var (k1, h1) := EnabledBy(k, h, wanted, done, env);
    assert l in k1.managed <==> l in k.managed;
    assert EnabledOne(k1, h1, l, wanted[l], env).0.targets[l] == TargetOf(k, h, wanted, l, env);
  }

  // ---------------------------------------------------------------------------
  // The keeper as an object
  // ---------------------------------------------------------------------------

  class ForwardingKeeper {
    const host: ForwardingHost
    var desired: bool
    var lanProxy: bool
    var device: string
    var program: string
    var firewall: string
    var managed: map<nat, string>
    var targets: map<nat, Target>
    var tun: bool
    var failed: bool

    ghost function View(): Keeper
      reads this
    {
      Keeper(desired, lanProxy, device, program, firewall, managed, targets, tun, failed)
    }

    constructor (host: ForwardingHost)
      ensures View() == NEW_KEEPER && this.host == host
    {
      this.host := host;
      desired, lanProxy, device, program, firewall := false, false, "", "", "";
      managed, targets, tun, failed := map[], map[], false, false;
    }

    method ChangeDevice(device: string, program: string, env: Env)
      modifies this, host
      ensures (View(), host.View()) == Perform(old(View()), old(host.View()), SetDevice(device, program), env)
    {
      this.device := device;
      this.program := program;
      Ensure(env);
    }

    method ChangeDesired(desired: bool, env: Env)
      modifies this, host
      ensures (View(), host.View()) == Perform(old(View()), old(host.View()), SetDesired(desired), env)
    {
      this.desired := desired;
      Ensure(env);
    }

    method ChangeLANProxy(enabled: bool, env: Env)
      modifies this, host
      ensures (View(), host.View()) == Perform(old(View()), old(host.View()), SetLANProxy(enabled), env)
    {
      lanProxy := enabled;
      Ensure(env);
    }

    method Report(env: Env) returns (working: bool, all: map<nat, Target>)
      modifies this, host
      ensures (View(), host.View()) == Perform(old(View()), old(host.View()), Status, env)
      ensures working == !View().failed && all == View().targets
    {
      Ensure(env);
      working, all := !failed, targets;
    }

    method OnTick(env: Env)
      modifies this, host
      ensures (View(), host.View()) == Perform(old(View()), old(host.View()), Tick, env)
    {
      if !desired && managed == map[] {
        return;
      }
      Ensure(env);
    }

    method Clear(env: Env)
      modifies this, host
      ensures (View(), host.View()) == Perform(old(View()), old(host.View()), ClearDevice, env)
    {
      device := "";
      program := "";
      Restore({}, env);
      SyncFirewall(env);
      targets := map[];
      tun := false;
    }

    method SyncFirewall(env: Env)
      modifies this`firewall, this`failed, host`rule
      ensures (View(), host.View()) == SyncedFirewall(old(View()), old(host.View()), env)
    {
      var want := "";
      if desired || lanProxy {
        want := program;
      }
      if want == firewall {
        return;
      }
      if want == "" {
        host.RemoveInbound();
      } else {
        var ok := host.AllowInbound(want, env);
        if !ok {
          failed := true;
          return;
        }
      }
      firewall := want;
    }

    method Restore(keep: set<nat>, env: Env)
      modifies this`managed, this`failed, host`flags, host`touched
      ensures (View(), host.View()) == Restored(old(View()), old(host.View()), keep, env)
    {
      ghost var k, h := View(), host.View();
      ghost var off: set<nat> := {};
      var rest := managed.Keys;
      RestoreNone(k, h, env);
      while rest != {}
        invariant rest <= k.managed.Keys && off == Done(k.managed.Keys, rest, keep)
        invariant (View(), host.View()) == RestoredBy(k, h, off, env)
        decreases rest
      {
        var luid :| luid in rest;
        assert (rest - {luid}) + {luid} == rest;
        rest := rest - {luid};
        DoneOne(k.managed.Keys, rest, keep, luid);
        RestoreNext(k, h, off, luid, keep, env);
        off := Done(k.managed.Keys, rest, keep);
      }
      assert off == Unkept(k, keep);
    }

    method RestoreNext(ghost k: Keeper, ghost h: Host, ghost off: set<nat>, luid: nat, keep: set<nat>, env: Env)
      requires (View(), host.View()) == RestoredBy(k, h, off, env) && luid !in off
      modifies this`managed, this`failed, host`flags, host`touched
      ensures (View(), host.View()) == RestoredBy(k, h, if luid in keep then off else off + {luid}, env)
    {
      if luid !in keep {
        RestoreOne(k, h, off, luid, env);
        RestoreAdapter(luid, env);
      }
    }

    method RestoreAdapter(luid: nat, env: Env)
      modifies this`managed, this`failed, host`flags, host`touched
      ensures (View(), host.View()) == RestoredOne(old(View()), old(host.View()), luid, env)
    {
      var ok := host.SetForwarding(luid, false, env);
      if !ok && luid in host.flags {
        failed := true;
      }
      managed := managed - {luid};
    }

    method FindWanted(adapters: seq<Adapter>) returns (wanted: map<nat, Want>, present: bool)
      ensures
        match FindTun(adapters, device)
        case None => wanted == map[] && !present
        case Some(tun) => wanted == WithLan(map[tun.luid := Want(tun.name, Tun)], adapters, tun) && present
    {
      var index := 0;
      while index < |adapters| && !(adapters[index].up && EqualFold(adapters[index].name, device))
        invariant index <= |adapters|
        invariant FindTun(adapters, device) == FindTun(adapters[index..], device)
      {
        index := index + 1;
      }
      if index == |adapters| {
        return map[], false;
      }
      var tun := adapters[index];
      present := true;
      wanted := map[tun.luid := Want(tun.name, Tun)];
      for i := 0 to |adapters|
        invariant WithLan(map[tun.luid := Want(tun.name, Tun)], adapters, tun) == WithLan(wanted, adapters[i..], tun)
      {
        if IsLan(adapters[i], tun) {
          wanted := wanted[adapters[i].luid := Want(adapters[i].name, Lan)];
        }
      }
    }

    method Enable(wanted: map<nat, Want>, env: Env)
      requires targets == map[]
      modifies this`managed, this`failed, this`targets, host`flags, host`touched
      ensures (View(), host.View()) == Enabled(old(View()), old(host.View()), wanted, env)
    {
      ghost var k, h := View(), host.View();
      ghost var done := {};
      var rest := wanted.Keys;
      EnableNone(k, h, wanted, env);
      while rest != {}
        invariant rest <= wanted.Keys && done == wanted.Keys - rest
        invariant (View(), host.View()) == EnabledBy(k, h, wanted, done, env)
        decreases rest
      {
        var luid :| luid in rest;
        rest := rest - {luid};
        EnableNext(k, h, done, luid, wanted, env);
        done := done + {luid};
      }
      assert done == wanted.Keys;
    }

    method EnableNext(ghost k: Keeper, ghost h: Host, ghost done: set<nat>, luid: nat, wanted: map<nat, Want>, env: Env)
      requires (View(), host.View()) == EnabledBy(k, h, wanted, done, env) && luid in wanted && luid !in done
      modifies this`managed, this`failed, this`targets, host`flags, host`touched
      ensures (View(), host.View()) == EnabledBy(k, h, wanted, done + {luid}, env)
    {
      EnableOneOnHost(k, h, wanted, done, luid, env);
      EnableOneInKeeper(k, h, wanted, done, luid, env);
      EnableAdapter(luid, wanted[luid], env);
    }

    method EnableAdapter(luid: nat, want: Want, env: Env)
      modifies this`managed, this`failed, this`targets, host`flags, host`touched
      ensures (View(), host.View()) == EnabledOne(old(View()), old(host.View()), luid, want, env)
    {
      var read := host.Forwarding(luid, env);
      var enabled := read.Ok? && read.value;
      var good := read.Ok?;
      if read.Ok? && !enabled {
        good := host.SetForwarding(luid, true, env);
        if good {
          enabled := true;
          managed := managed[luid := want.name];
        }
      }
      if !good {
        failed := true;
      }
      targets := targets[luid := Target(want.name, want.role, enabled, luid in managed)];
    }

    method Ensure(env: Env)
      modifies this, host
      ensures (View(), host.View()) == Ensured(old(View()), old(host.View()), env)
    {
      failed := false;
      targets := map[];
      tun := false;
      SyncFirewall(env);
      var wanted: map<nat, Want> := map[];
      if desired && device != "" {
        if env.listing.None? {
          failed := true;
          return;
        }
        wanted, tun := FindWanted(env.listing.value);
      }
      Restore(wanted.Keys, env);
      Enable(wanted, env);
    }
  }

  // ---------------------------------------------------------------------------
  // Runs
  // ---------------------------------------------------------------------------

  /**
   `original` is what the flag of each adapter was when it appeared. `claimed` are the adapters
   that reappeared switched on by someone else while the keeper still had them on its list.
   */
  datatype World = World(keeper: Keeper, host: Host, original: map<nat, bool>, claimed: set<nat>)

  datatype Step =
    | Operate(op: Operation, env: Env)
    | Appears(luid: nat, flag: bool)
    | Vanishes(luid: nat)

  predicate Possible(w: World, step: Step) {
    step.Appears? ==> step.luid !in w.host.flags
  }

  function Take(w: World, step: Step): World {
    match step
    case Operate(op, env) =>
      var (k, h) := Perform(w.keeper, w.host, op, env);
      w.(keeper := k, host := h)
    case Appears(l, flag) =>
      w.(host := w.host.(flags := w.host.flags[l := flag]),
         original := w.original[l := flag],
         claimed := if flag && l in w.keeper.managed then w.claimed + {l} else w.claimed)
    case Vanishes(l) =>
      w.(host := w.host.(flags := w.host.flags - {l}), original := w.original - {l}, claimed := w.claimed - {l})
  }

  predicate Legal(w: World, steps: seq<Step>)
    decreases |steps|
  {
    steps == [] || (Possible(w, steps[0]) && Legal(Take(w, steps[0]), steps[1..]))
  }

  function Run(w: World, steps: seq<Step>): World
    decreases |steps|
  {
    if steps == [] then w else Run(Take(w, steps[0]), steps[1..])
  }

  /** What the keeper manages was off, and what was on is still on. */
  predicate TakesOnlyWhatWasOff(k: Keeper, h: Host, original: map<nat, bool>, claimed: set<nat>) {
    && original.Keys == h.flags.Keys
    && (forall l <- h.flags | l !in claimed :: (l in k.managed ==> !original[l]) && (original[l] ==> h.flags[l]))
  }

  /** Whatever is on was on, or the keeper manages it. */
  predicate LeavesNothingOn(k: Keeper, h: Host, original: map<nat, bool>, claimed: set<nat>)
    requires original.Keys == h.flags.Keys
  {
    forall l <- h.flags | l !in claimed :: h.flags[l] ==> original[l] || l in k.managed
  }

  /** Adapters that were on, are being given back, and stay on because the host refused. */
  predicate Refuses(h: Host, off: set<nat>, claimed: set<nat>, env: Env) {
    exists l <- off :: l in h.flags && l !in claimed && h.flags[l] && l in env.writeFails
  }

  lemma RestoreEffect(k: Keeper, h: Host, keep: set<nat>, env: Env, original: map<nat, bool>, claimed: set<nat>)
    requires TakesOnlyWhatWasOff(k, h, original, claimed)
    ensures
      var (k1, h1) := Restored(k, h, keep, env);
      && TakesOnlyWhatWasOff(k1, h1, original, claimed)
      && (LeavesNothingOn(k, h, original, claimed) ==>
            (LeavesNothingOn(k1, h1, original, claimed) <==> !Refuses(h, Unkept(k, keep), claimed, env)))
  {
    var (k1, h1) := Restored(k, h, keep, env);
    if Refuses(h, Unkept(k, keep), claimed, env) {
      var l :| l in Unkept(k, keep) && l in h.flags && l !in claimed && h.flags[l] && l in env.writeFails;
      assert l in h1.flags && h1.flags[l] && !original[l] && l !in k1.managed;
    }
  }

  lemma EnableEffect(k: Keeper, h: Host, wanted: map<nat, Want>, env: Env, original: map<nat, bool>, claimed: set<nat>)
    requires TakesOnlyWhatWasOff(k, h, original, claimed)
    ensures
      var (k1, h1) := Enabled(k, h, wanted, env);
      && TakesOnlyWhatWasOff(k1, h1, original, claimed)
      && (LeavesNothingOn(k1, h1, original, claimed) <==> LeavesNothingOn(k, h, original, claimed))
  {
    var (k1, h1) := Enabled(k, h, wanted, env);
    forall l <- h.flags ensures l in k1.managed <==> l in k.managed || l in TurnedOn(h, wanted, env) {
    }
  }

  /** What an operation gives back. */
  function GivesBack(k: Keeper, op: Operation, env: Env): set<nat> {
    match op
    case SetDevice(device, program) => GivenBackByEnsure(k.(device := device, program := program), env)
    case SetDesired(desired) => GivenBackByEnsure(k.(desired := desired), env)
    case SetLANProxy(enabled) => GivenBackByEnsure(k.(lanProxy := enabled), env)
    case Status => GivenBackByEnsure(k, env)
    case Tick => GivenBackByEnsure(k, env)
    case ClearDevice => k.managed.Keys
  }

  function GivenBackByEnsure(k: Keeper, env: Env): set<nat> {
    if k.desired && k.device != "" && env.listing.None? then {} else k.managed.Keys - Wanted(k, env).Keys
  }

  lemma ApplyEffect(k: Keeper, h: Host, wanted: map<nat, Want>, env: Env, original: map<nat, bool>, claimed: set<nat>)
    requires TakesOnlyWhatWasOff(k, h, original, claimed)
    ensures
      var (k1, h1) := Restored(k, h, wanted.Keys, env);
      var (k2, h2) := Enabled(k1, h1, wanted, env);
      && TakesOnlyWhatWasOff(k2, h2, original, claimed)
      && (LeavesNothingOn(k, h, original, claimed) ==>
            (LeavesNothingOn(k2, h2, original, claimed) <==> !Refuses(h, Unkept(k, wanted.Keys), claimed, env)))
  {
    RestoreEffect(k, h, wanted.Keys, env, original, claimed);
    var (k1, h1) := Restored(k, h, wanted.Keys, env);
    EnableEffect(k1, h1, wanted, env, original, claimed);
  }

  lemma EnsureEffect(k: Keeper, h: Host, env: Env, original: map<nat, bool>, claimed: set<nat>)
    requires TakesOnlyWhatWasOff(k, h, original, claimed)
    ensures
      var (k1, h1) := Ensured(k, h, env);
      && TakesOnlyWhatWasOff(k1, h1, original, claimed)
      && (LeavesNothingOn(k, h, original, claimed) ==>
            (LeavesNothingOn(k1, h1, original, claimed) <==> !Refuses(h, GivenBackByEnsure(k, env), claimed, env)))
  {
    var (k1, h1) := SyncedFirewall(k.(failed := false, targets := map[], tun := false), h, env);
    assert h1.flags == h.flags && k1.managed == k.managed;
    if !(k.desired && k.device != "" && env.listing.None?) {
      assert Wanted(k1, env) == Wanted(k, env);
      ApplyEffect(k1.(tun := TunPresent(k1, env)), h1, Wanted(k, env), env, original, claimed);
    }
  }

  lemma ClearEffect(k: Keeper, h: Host, env: Env, original: map<nat, bool>, claimed: set<nat>)
    requires TakesOnlyWhatWasOff(k, h, original, claimed)
    ensures
      var (k1, h1) := Perform(k, h, ClearDevice, env);
      && TakesOnlyWhatWasOff(k1, h1, original, claimed)
      && (LeavesNothingOn(k, h, original, claimed) ==>
            (LeavesNothingOn(k1, h1, original, claimed) <==> !Refuses(h, k.managed.Keys, claimed, env)))
  {
    var cleared := k.(device := "", program := "");
    RestoreEffect(cleared, h, {}, env, original, claimed);
    assert Unkept(cleared, {}) == k.managed.Keys;
    var (k1, h1) := Restored(cleared, h, {}, env);
    var (k2, h2) := SyncedFirewall(k1, h1, env);
    assert h2.flags == h1.flags && k2.managed == k1.managed;
  }

  lemma OperationEffect(k: Keeper, h: Host, op: Operation, env: Env, original: map<nat, bool>, claimed: set<nat>)
    requires TakesOnlyWhatWasOff(k, h, original, claimed)
    ensures
      var (k1, h1) := Perform(k, h, op, env);
      && TakesOnlyWhatWasOff(k1, h1, original, claimed)
      && (LeavesNothingOn(k, h, original, claimed) ==>
            (LeavesNothingOn(k1, h1, original, claimed) <==> !Refuses(h, GivesBack(k, op, env), claimed, env)))
  {
    match op
    case SetDevice(device, program) => EnsureEffect(k.(device := device, program := program), h, env, original, claimed);
    case SetDesired(desired) => EnsureEffect(k.(desired := desired), h, env, original, claimed);
    case SetLANProxy(enabled) => EnsureEffect(k.(lanProxy := enabled), h, env, original, claimed);
    case Status => EnsureEffect(k, h, env, original, claimed);
    case Tick => EnsureEffect(k, h, env, original, claimed);
    case ClearDevice => ClearEffect(k, h, env, original, claimed);
  }

  /**
   However the host fails, no run switches off an adapter that was on, or manages one that was on,
   unless it was claimed: back, switched on by someone else, while still on the keeper's list.
   */
  lemma {:induction false} NeverTakesWhatWasOn(w: World, steps: seq<Step>)
    requires TakesOnlyWhatWasOff(w.keeper, w.host, w.original, w.claimed) && Legal(w, steps)
    ensures
      var e := Run(w, steps);
      TakesOnlyWhatWasOff(e.keeper, e.host, e.original, e.claimed)
    decreases |steps|
  {
    if steps != [] {
      if steps[0].Operate? {
        OperationEffect(w.keeper, w.host, steps[0].op, steps[0].env, w.original, w.claimed);
      }
      NeverTakesWhatWasOn(Take(w, steps[0]), steps[1..]);
    }
  }

  /** An operation switches off exactly the adapters it gives back where the host does not refuse. */
  lemma RestoreSwitchesOff(k: Keeper, h: Host, keep: set<nat>, env: Env, l: nat)
    requires l in h.flags && h.flags[l]
    ensures l in Restored(k, h, keep, env).1.flags
    ensures !Restored(k, h, keep, env).1.flags[l] <==> l in Unkept(k, keep) && l !in env.writeFails
  {
  }

  lemma EnsureSwitchesOff(k: Keeper, h: Host, env: Env, l: nat)
    requires l in h.flags && h.flags[l]
    ensures l in Ensured(k, h, env).1.flags
    ensures !Ensured(k, h, env).1.flags[l] <==> l in GivenBackByEnsure(k, env) && l !in env.writeFails
  {
    var (k1, h1) := SyncedFirewall(k.(failed := false, targets := map[], tun := false), h, env);
    assert h1.flags == h.flags && k1.managed == k.managed;
    if !(k.desired && k.device != "" && env.listing.None?) {
      assert Wanted(k1, env) == Wanted(k, env);
      RestoreSwitchesOff(k1.(tun := TunPresent(k1, env)), h1, Wanted(k, env).Keys, env, l);
    }
  }

  lemma ClearSwitchesOff(k: Keeper, h: Host, env: Env, l: nat)
    requires l in h.flags && h.flags[l]
    ensures l in Perform(k, h, ClearDevice, env).1.flags
    ensures !Perform(k, h, ClearDevice, env).1.flags[l] <==> l in k.managed && l !in env.writeFails
  {
    var cleared := k.(device := "", program := "");
    RestoreSwitchesOff(cleared, h, {}, env, l);
    assert Unkept(cleared, {}) == k.managed.Keys;
  }

  lemma OperationSwitchesOff(k: Keeper, h: Host, op: Operation, env: Env, l: nat)
    requires l in h.flags && h.flags[l]
    ensures l in Perform(k, h, op, env).1.flags
    ensures !Perform(k, h, op, env).1.flags[l] <==> l in GivesBack(k, op, env) && l !in env.writeFails
  {
    match op
    case SetDevice(device, program) => EnsureSwitchesOff(k.(device := device, program := program), h, env, l);
    case SetDesired(desired) => EnsureSwitchesOff(k.(desired := desired), h, env, l);
    case SetLANProxy(enabled) => EnsureSwitchesOff(k.(lanProxy := enabled), h, env, l);
    case Status => EnsureSwitchesOff(k, h, env, l);
    case Tick => EnsureSwitchesOff(k, h, env, l);
    case ClearDevice => ClearSwitchesOff(k, h, env, l);
  }

  /** A world as it is before the keeper has done anything. */
  predicate Untaken(w: World) {
    w.keeper.managed == map[] && w.original == w.host.flags
  }

  predicate TurnsOff(w: World, op: Operation, env: Env, l: nat) {
    var flags := Perform(w.keeper, w.host, op, env).1.flags;
    l in w.host.flags && w.host.flags[l] && l in flags && !flags[l]
  }

  /**
   After any run, for an adapter that was on and is on: an operation switches it off only if it is
   claimed and still managed, and clearing the device on a host that does not refuse does exactly then.
   */
  lemma OnlyClaimedAreTaken(w: World, steps: seq<Step>, l: nat, op: Operation, env: Env)
    requires Untaken(w) && Legal(w, steps)
    requires
      var e := Run(w, steps);
      l in e.host.flags && l in e.original && e.original[l] && e.host.flags[l]
    ensures
      var e := Run(w, steps);
      && (TurnsOff(e, op, env, l) ==> l in e.claimed && l in e.keeper.managed)
      && (env.writeFails == {} ==> (TurnsOff(e, ClearDevice, env, l) <==> l in e.claimed && l in e.keeper.managed))
  {
    NeverTakesWhatWasOn(w, steps);
    var e := Run(w, steps);
    TakenIsManaged(e.keeper, e.host, op, env, l);
    ClearSwitchesOff(e.keeper, e.host, env, l);
  }

  lemma TakenIsManaged(k: Keeper, h: Host, op: Operation, env: Env, l: nat)
    requires l in h.flags && h.flags[l]
    ensures l in Perform(k, h, op, env).1.flags
    ensures !Perform(k, h, op, env).1.flags[l] ==> l in k.managed
  {
    OperationSwitchesOff(k, h, op, env, l);
    assert GivesBack(k, op, env) <= k.managed.Keys;
  }

  lemma Prepend(w: World, step: Step, steps: seq<Step>)
    requires Possible(w, step) && Legal(Take(w, step), steps)
    ensures Legal(w, [step] + steps) && Run(w, [step] + steps) == Run(Take(w, step), steps)
  {
    assert ([step] + steps)[1..] == steps;
  }

  /** An adapter that the keeper manages goes away, comes back switched on, and is switched off. */
  lemma ManagedIsSwitchedOff(w: World, env: Env)
    requires 1 in w.keeper.managed && w.host.flags.Keys == w.original.Keys == {1} && env.writeFails == {}
    ensures
      var steps := [Vanishes(1), Appears(1, true), Operate(ClearDevice, env)];
      && Legal(w, steps)
      && Run(w, steps).original == map[1 := true] && Run(w, steps).host.flags == map[1 := false]
  {
    var w1 := Take(w, Vanishes(1));
    assert w1.host.flags == map[] && w1.original == map[];
    var w2 := Take(w1, Appears(1, true));
    assert w2.host.flags == map[1 := true] && w2.original == map[1 := true] && 1 in w2.keeper.managed;
    var w3 := Take(w2, Operate(ClearDevice, env));
    ClearKeepsKeys(w2.keeper, w2.host, env);
    ClearSwitchesOff(w2.keeper, w2.host, env, 1);
    assert w3.host.flags == map[1 := false];
    assert Legal(w3, []) && Run(w3, []) == w3;
    Prepend(w2, Operate(ClearDevice, env), []);
    Prepend(w1, Appears(1, true), [Operate(ClearDevice, env)]);
    Prepend(w, Vanishes(1), [Appears(1, true), Operate(ClearDevice, env)]);
  }

  lemma ClearKeepsKeys(k: Keeper, h: Host, env: Env)
    ensures Perform(k, h, ClearDevice, env).1.flags.Keys == h.flags.Keys
  {
  }

  lemma NothingWanted(k: Keeper, h: Host, name: string, env: Env)
    requires k == NEW_KEEPER && h == Host(map[1 := false], "", {}) && env.rule == Added
    ensures
      var (k1, h1) := Perform(k, h, SetDevice(name, ""), env);
      k1 == NEW_KEEPER.(device := name) && h1 == h
  {
    var k0 := k.(device := name, program := "");
    assert Wanted(k0, env) == map[] && Unkept(k0, {}) == {};
    assert Switched(h.flags, {}, false) == h.flags && Switched(h.flags, {}, true) == h.flags;
  }

  lemma TunIsTaken(k: Keeper, h: Host, tun: Adapter, env: Env)
    requires tun.luid == 1 && tun.up && tun.name != "" && env == Env(Some([tun]), {}, {}, Added)
    requires k == NEW_KEEPER.(device := tun.name) && h == Host(map[1 := false], "", {})
    ensures
      var (k1, h1) := Perform(k, h, SetDesired(true), env);
      && 1 in k1.managed && h1.flags.Keys == {1}
  {
    var k0 := k.(desired := true);
    assert [tun][1..] == [];
    assert FindTun([tun], tun.name) == Some(tun);
    assert WithLan(map[1 := Want(tun.name, Tun)], [tun], tun) == map[1 := Want(tun.name, Tun)];
    assert Wanted(k0, env) == map[1 := Want(tun.name, Tun)];
    assert 1 in TurnedOn(h, Wanted(k0, env), env);
  }

  /** Such a run from the start: taken, gone, back and switched on by someone else, switched off. */
  lemma ClaimedIsSwitchedOff(tun: Adapter)
    requires tun.luid == 1 && tun.up && tun.name != ""
    ensures
      var env := Env(Some([tun]), {}, {}, Added);
      var w := World(NEW_KEEPER, Host(map[1 := false], "", {}), map[1 := false], {});
      var steps := [Operate(SetDevice(tun.name, ""), env), Operate(SetDesired(true), env), Vanishes(1),
                    Appears(1, true), Operate(ClearDevice, env)];
      && Untaken(w) && Legal(w, steps)
      && Run(w, steps).original == map[1 := true] && Run(w, steps).host.flags == map[1 := false]
  {
    var env := Env(Some([tun]), {}, {}, Added);
    var w := World(NEW_KEEPER, Host(map[1 := false], "", {}), map[1 := false], {});
    var first, second := Operate(SetDevice(tun.name, ""), env), Operate(SetDesired(true), env);
    NothingWanted(w.keeper, w.host, tun.name, env);
    var w1 := Take(w, first);
    assert w1 == w.(keeper := NEW_KEEPER.(device := tun.name));
    TunIsTaken(w1.keeper, w1.host, tun, env);
    var w2 := Take(w1, second);
    ManagedIsSwitchedOff(w2, env);
    var rest := [Vanishes(1), Appears(1, true), Operate(ClearDevice, env)];
    Prepend(w1, second, rest);
    Prepend(w, first, [second] + rest);
    assert [first] + ([second] + rest) == [first, second, Vanishes(1), Appears(1, true), Operate(ClearDevice, env)];
  }

  /** No operation of the run is refused while it gives an adapter back. */
  predicate NothingRefused(w: World, steps: seq<Step>)
    decreases |steps|
  {
    steps == [] ||
    (&& (steps[0].Operate? ==> !Refuses(w.host, GivesBack(w.keeper, steps[0].op, steps[0].env), w.claimed, steps[0].env))
     && NothingRefused(Take(w, steps[0]), steps[1..]))
  }

  /** Over every run in which no give-back is refused, whatever is on was on or is still managed. */
  lemma {:induction false} NothingIsLeftOn(w: World, steps: seq<Step>)
    requires TakesOnlyWhatWasOff(w.keeper, w.host, w.original, w.claimed) && Legal(w, steps)
    requires LeavesNothingOn(w.keeper, w.host, w.original, w.claimed) && NothingRefused(w, steps)
    ensures
      var e := Run(w, steps);
      && TakesOnlyWhatWasOff(e.keeper, e.host, e.original, e.claimed)
      && LeavesNothingOn(e.keeper, e.host, e.original, e.claimed)
    decreases |steps|
  {
    if steps != [] {
      if steps[0].Operate? {
        OperationEffect(w.keeper, w.host, steps[0].op, steps[0].env, w.original, w.claimed);
      }
      NothingIsLeftOn(Take(w, steps[0]), steps[1..]);
    }
  }

  predicate Cooperative(env: Env) {
    env.readFails == {} && env.writeFails == {} && env.rule == Added
  }

  /** After an ensure on a cooperative host each flag is exactly "was on, or managed". */
  lemma EnsureSettles(k: Keeper, h: Host, env: Env, original: map<nat, bool>, claimed: set<nat>)
    requires TakesOnlyWhatWasOff(k, h, original, claimed) && LeavesNothingOn(k, h, original, claimed)
    requires Cooperative(env) && env.listing.Some?
    ensures
      var (k1, h1) := Ensured(k, h, env);
      && h1.flags.Keys == original.Keys
      && forall l <- h1.flags | l !in claimed :: h1.flags[l] <==> original[l] || l in k1.managed
  {
    EnsureEffect(k, h, env, original, claimed);
  }

  /** Turning the mode off, or clearing the device, gives every adapter back. */
  lemma OffGivesBack(w: World, op: Operation, env: Env)
    requires TakesOnlyWhatWasOff(w.keeper, w.host, w.original, w.claimed)
    requires LeavesNothingOn(w.keeper, w.host, w.original, w.claimed)
    requires op == SetDesired(false) || op == ClearDevice
    requires env.writeFails == {}
    ensures
      var e := Take(w, Operate(op, env));
      && e.keeper.managed == map[]
      && e.host.flags.Keys == e.original.Keys
      && forall l <- e.host.flags | l !in e.claimed :: e.host.flags[l] == e.original[l]
  {
    OperationEffect(w.keeper, w.host, op, env, w.original, w.claimed);
    if op == SetDesired(false) {
      assert Wanted(w.keeper.(desired := false), env) == map[];
    }
  }

  lemma EnableTwice(k: Keeper, h: Host, wanted: map<nat, Want>, env: Env)
    requires Cooperative(env)
    ensures
      var (k1, h1) := Enabled(k, h, wanted, env);
      var quiet := h1.(touched := {});
      && k1.targets.Keys == wanted.Keys
      && Enabled(k1.(failed := k.failed, targets := map[]), quiet, wanted, env) == (k1, quiet)
  {
    var (k1, h1) := Enabled(k, h, wanted, env);
    var quiet := h1.(touched := {});
    var again := k1.(failed := k.failed, targets := map[]);
    SettledOn(h, wanted, env);
    SwitchNone(quiet.flags, true);
    assert Names(wanted, {}) == map[];
    assert again.managed + Names(wanted, {}) == again.managed;
    SameTargets(k, h, wanted, env);
    var (k2, h2) := Enabled(again, quiet, wanted, env);
    assert h2.flags == quiet.flags;
    assert h2.touched == {};
    assert k2.managed == k1.managed;
    assert k2.targets == k1.targets;
    assert k2.failed == k1.failed;
  }

  /** On a cooperative host nothing wanted is off after it has been switched on. */
  lemma SettledOn(h: Host, wanted: map<nat, Want>, env: Env)
    requires Cooperative(env)
    ensures
      var quiet := Host(Switched(h.flags, TurnedOn(h, wanted, env) * wanted.Keys, true), h.rule, {});
      && FoundOff(quiet, wanted, env) * wanted.Keys == {}
      && TurnedOn(quiet, wanted, env) * wanted.Keys == {}
      && NotOn(quiet, wanted, env) == NotOn(h, wanted, env)
      && (forall l <- wanted :: ReportedOn(quiet, l, env) == ReportedOn(h, l, env) && l !in TurnedOn(quiet, wanted, env))
  {
    var quiet := Host(Switched(h.flags, TurnedOn(h, wanted, env) * wanted.Keys, true), h.rule, {});
    forall l <- wanted
      ensures ReportedOn(quiet, l, env) == ReportedOn(h, l, env) && ReadFlag(quiet, l, env) != Ok(false)
    {
    }
  }

  lemma SameTargets(k: Keeper, h: Host, wanted: map<nat, Want>, env: Env)
    requires Cooperative(env)
    ensures
      var (k1, h1) := Enabled(k, h, wanted, env);
      && k1.targets.Keys == wanted.Keys
      && Enabled(k1.(failed := k.failed, targets := map[]), h1.(touched := {}), wanted, env).0.targets == k1.targets
  {
    SettledOn(h, wanted, env);
    var (k1, h1) := Enabled(k, h, wanted, env);
    var again, quiet := k1.(failed := k.failed, targets := map[]), h1.(touched := {});
    forall l | l in wanted ensures TargetOf(again, quiet, wanted, l, env) == TargetOf(k, h, wanted, l, env) {
      assert l in k1.managed <==> l in k.managed || l in TurnedOn(h, wanted, env);
    }
  }

  /** Restoring and enabling again changes nothing. */
  lemma ApplyTwice(k: Keeper, h: Host, wanted: map<nat, Want>, env: Env)
    requires Cooperative(env) && !k.failed
    ensures
      var (k2, h2) := Restored(k, h, wanted.Keys, env);
      var (k3, h3) := Enabled(k2, h2, wanted, env);
      var again, quiet := k3.(failed := false, targets := map[]), h3.(touched := {});
      Restored(again, quiet, wanted.Keys, env) == (again, quiet) && Enabled(again, quiet, wanted, env) == (k3, quiet)
  {
    var (k2, h2) := Restored(k, h, wanted.Keys, env);
    assert !k2.failed;
    EnableTwice(k2, h2, wanted, env);
    var (k3, h3) := Enabled(k2, h2, wanted, env);
    var again := k3.(failed := false, targets := map[]);
    assert Unkept(again, wanted.Keys) == {};
    RestoreNone(again, h3.(touched := {}), env);
  }

  /** Ensuring again in an unchanged world writes nothing and changes nothing. */
  lemma EnsureTwice(k: Keeper, h: Host, env: Env)
    requires Cooperative(env)
    ensures
      var (k1, h1) := Ensured(k, h, env);
      Ensured(k1, h1.(touched := {}), env) == (k1, h1.(touched := {}))
  {
    var (k1, h1) := SyncedFirewall(k.(failed := false, targets := map[], tun := false), h, env);
    assert k1.firewall == WantedProgram(k1) && !k1.failed;
    if !(k.desired && k.device != "" && env.listing.None?) {
      ApplyTwice(k1.(tun := TunPresent(k1, env)), h1, Wanted(k1, env), env);
    }
  }

  /** The rule stays what the keeper believes, unless the old one went away and the new one was not added. */
  lemma FirewallBelief(k: Keeper, h: Host, env: Env)
    requires k.firewall == h.rule
    ensures
      var (k1, h1) := SyncedFirewall(k, h, env);
      && (k1.firewall == h1.rule <==>
            !(WantedProgram(k) != k.firewall && WantedProgram(k) != "" && k.firewall != "" && env.rule == AddFails))
      && (env.rule == Added ==> h1.rule == WantedProgram(k))
  {
  }
}
