/**
 What the forwarding keeper of module Forwarding is for, said of the adapter listing, the settings and the
 host alone: which adapters forward, which rule is in force, and what a status may claim.
 */
module Gateway {
  import opened Wrappers
  import opened Forwarding

  // ---------------------------------------------------------------------------
  // Which adapters are to forward
  // ---------------------------------------------------------------------------

  /** The adapter at `i` is the running TUN: the first one up with the device's name. */
  predicate IsTunAt(adapters: seq<Adapter>, device: string, i: nat) {
    && i < |adapters| && adapters[i].up && EqualFold(adapters[i].name, device)
    && forall j | 0 <= j < i :: !(adapters[j].up && EqualFold(adapters[j].name, device))
  }

  ghost predicate HasTun(adapters: seq<Adapter>, device: string) {
    exists i: nat :: IsTunAt(adapters, device, i)
  }

  /** The role of an adapter: the TUN itself, or beside it a physical adapter that is up and has a gateway. */
  ghost predicate HasRole(adapters: seq<Adapter>, device: string, a: Adapter, role: Role) {
    exists i: nat ::
      IsTunAt(adapters, device, i) &&
      if a.luid == adapters[i].luid then role.Tun? else role.Lan? && a.up && a.physical && a.hasGateway
  }

  predicate DistinctLuids(adapters: seq<Adapter>) {
    forall i, j | 0 <= i < j < |adapters| :: adapters[i].luid != adapters[j].luid
  }

  lemma {:induction false} FindsTun(adapters: seq<Adapter>, device: string)
    ensures FindTun(adapters, device).Some? ==>
              exists i: nat :: IsTunAt(adapters, device, i) && adapters[i] == FindTun(adapters, device).value
    ensures FindTun(adapters, device).None? ==> !HasTun(adapters, device)
    decreases |adapters|
  {
    if adapters != [] {
      FindsTun(adapters[1..], device);
      if adapters[0].up && EqualFold(adapters[0].name, device) {
        assert IsTunAt(adapters, device, 0);
      } else {
        if FindTun(adapters, device).Some? {
          var i: nat :| IsTunAt(adapters[1..], device, i) && adapters[1..][i] == FindTun(adapters, device).value;
          assert IsTunAt(adapters, device, i + 1);
        }
        forall i: nat | IsTunAt(adapters, device, i) ensures i > 0 && IsTunAt(adapters[1..], device, i - 1) {
        }
      }
    }
  }

  lemma TunIsUnique(adapters: seq<Adapter>, device: string, i: nat, j: nat)
    requires IsTunAt(adapters, device, i) && IsTunAt(adapters, device, j)
    ensures i == j
  {
  }

  /** The adapter at `i` becomes a LAN target beside the TUN `tun`. */
  predicate JoinsLan(a: Adapter, tun: nat) {
    a.luid != tun && a.up && a.physical && a.hasGateway
  }

  lemma {:induction false} LanKeys(base: map<nat, Want>, adapters: seq<Adapter>, tun: Adapter, l: nat)
    ensures
      var wanted := WithLan(base, adapters, tun);
      && (l in wanted <==> l in base || exists a <- adapters :: a.luid == l && JoinsLan(a, tun.luid))
      && (l in wanted ==>
            || (l in base && wanted[l] == base[l] && !(exists a <- adapters :: a.luid == l && JoinsLan(a, tun.luid)))
            || exists a <- adapters :: a.luid == l && JoinsLan(a, tun.luid) && wanted[l] == Want(a.name, Lan))
    decreases |adapters|
  {
    if adapters != [] {
      var first := adapters[0];
      var next := if IsLan(first, tun) then base[first.luid := Want(first.name, Lan)] else base;
      LanKeys(next, adapters[1..], tun, l);
      assert adapters == [first] + adapters[1..];
    }
  }

  /** What is wanted, adapter by adapter. */
  lemma WantedExactly(k: Keeper, env: Env, a: Adapter)
    requires env.listing.Some? && DistinctLuids(env.listing.value) && a in env.listing.value
    ensures
      var wanted := Wanted(k, env);
      var active := k.desired && k.device != "";
      && (a.luid in wanted <==> active && exists role :: HasRole(env.listing.value, k.device, a, role))
      && (a.luid in wanted ==>
            wanted[a.luid].name == a.name && HasRole(env.listing.value, k.device, a, wanted[a.luid].role))
  {
    var adapters := env.listing.value;
    FindsTun(adapters, k.device);
    if k.desired && k.device != "" && FindTun(adapters, k.device).Some? {
      var tun := FindTun(adapters, k.device).value;
      var i: nat :| IsTunAt(adapters, k.device, i) && adapters[i] == tun;
      OnlyTun(adapters, k.device, a, i);
      LanKeys(map[tun.luid := Want(tun.name, Tun)], adapters, tun, a.luid);
      SameAdapter(adapters, a, tun);
      assert JoinsLan(a, tun.luid) <==> HasRole(adapters, k.device, a, Lan);
      assert a.luid == tun.luid <==> HasRole(adapters, k.device, a, Tun);
    }
  }

  lemma OnlyTun(adapters: seq<Adapter>, device: string, a: Adapter, i: nat)
    requires IsTunAt(adapters, device, i)
    ensures forall role ::
              HasRole(adapters, device, a, role) <==>
              if a.luid == adapters[i].luid then role.Tun? else role.Lan? && JoinsLan(a, adapters[i].luid)
  {
    forall j: nat | IsTunAt(adapters, device, j) ensures i == j {
      TunIsUnique(adapters, device, i, j);
    }
  }

  lemma SameAdapter(adapters: seq<Adapter>, a: Adapter, tun: Adapter)
    requires DistinctLuids(adapters) && a in adapters && tun in adapters
    ensures forall b <- adapters :: b.luid == a.luid ==> b == a
    ensures a.luid == tun.luid ==> a == tun
  {
  }

  lemma WantedIsListed(k: Keeper, env: Env, l: nat)
    requires env.listing.Some? && l in Wanted(k, env)
    ensures exists a <- env.listing.value :: a.luid == l
  {
    var adapters := env.listing.value;
    FindsTun(adapters, k.device);
    var tun := FindTun(adapters, k.device).value;
    assert tun in adapters;
    LanKeys(map[tun.luid := Want(tun.name, Tun)], adapters, tun, l);
  }

  // ---------------------------------------------------------------------------
  // An ensure on a host that does what it is told
  // ---------------------------------------------------------------------------

  /** What an ensure has done for the adapter `l`, if `wanted` says what is to forward. */
  predicate IsServed(k: Keeper, h: Host, k1: Keeper, h1: Host, wanted: map<nat, Want>, l: nat) {
    && (l in k1.targets <==> l in wanted)
    && (l in wanted ==>
          k1.targets[l] == Target(wanted[l].name, wanted[l].role, l in h.flags, l in k1.managed))
    && (l in h1.flags <==> l in h.flags)
    && (l in h.flags ==> (h1.flags[l] <==> l in wanted || (h.flags[l] && l !in k.managed)))
    && (l in k1.managed <==> l in wanted && (l in k.managed || (l in h.flags && !h.flags[l])))
  }

  lemma AppliedServes(k: Keeper, h: Host, wanted: map<nat, Want>, env: Env, l: nat)
    requires Cooperative(env)
    ensures
      var (k2, h2) := Restored(k, h, wanted.Keys, env);
      var (k3, h3) := Enabled(k2, h2, wanted, env);
      IsServed(k, h, k3, h3, wanted, l)
  {
    var (k2, h2) := Restored(k, h, wanted.Keys, env);
    assert Unkept(k, wanted.Keys) - env.writeFails == Unkept(k, wanted.Keys);
    assert l in wanted && l in h.flags ==> h2.flags[l] == h.flags[l];
    var (k3, h3) := Enabled(k2, h2, wanted, env);
    assert l in TurnedOn(h2, wanted, env) <==> l in wanted && l in h2.flags && !h2.flags[l];
  }

  lemma EnsureServes(k: Keeper, h: Host, env: Env, l: nat)
    requires Cooperative(env) && env.listing.Some?
    ensures IsServed(k, h, Ensured(k, h, env).0, Ensured(k, h, env).1, Wanted(k, env), l)
  {
    var (k1, h1) := SyncedFirewall(k.(failed := false, targets := map[], tun := false), h, env);
    assert h1.flags == h.flags && k1.managed == k.managed && Wanted(k1, env) == Wanted(k, env);
    AppliedServes(k1.(tun := TunPresent(k1, env)), h1, Wanted(k, env), env, l);
  }

  /**
   The gateway: after an ensure on a cooperative host a listed adapter is a target, and forwards if it is
   present, exactly if the mode is on and it is the running TUN, or the TUN runs and it is physical, up
   and has a gateway; every other adapter forwards only if it did and was not switched on by the keeper.
   */
  lemma GatewayForwards(k: Keeper, h: Host, env: Env, a: Adapter)
    requires Cooperative(env) && env.listing.Some? && DistinctLuids(env.listing.value) && a in env.listing.value
    ensures
      var (k1, h1) := Ensured(k, h, env);
      var adapters := env.listing.value;
      var active := k.desired && k.device != "";
      && (a.luid in k1.targets <==> active && exists role :: HasRole(adapters, k.device, a, role))
      && (a.luid in k1.targets ==>
            && HasRole(adapters, k.device, a, k1.targets[a.luid].role)
            && k1.targets[a.luid].name == a.name
            && k1.targets[a.luid].managed == (a.luid in k1.managed)
            && k1.targets[a.luid].forwarding == (a.luid in h.flags))
      && (a.luid in h.flags ==>
            && a.luid in h1.flags
            && (h1.flags[a.luid] <==> a.luid in k1.targets || (h.flags[a.luid] && a.luid !in k.managed)))
      && (a.luid in k1.managed <==> a.luid in k1.targets && (a.luid in k.managed || (a.luid in h.flags && !h.flags[a.luid])))
  {
    EnsureServes(k, h, env, a.luid);
    WantedExactly(k, env, a);
  }

  /** Without the mode, a device or a running TUN nothing is a target, and the keeper says so. */
  lemma NoTunNoTargets(k: Keeper, h: Host, env: Env)
    ensures
      var k1 := Ensured(k, h, env).0;
      && (k1.tun <==> k.desired && k.device != "" && env.listing.Some? && HasTun(env.listing.value, k.device))
      && (!k1.tun ==> k1.targets == map[])
      && (forall l <- k1.targets :: env.listing.Some? && exists a <- env.listing.value :: a.luid == l)
  {
    if env.listing.Some? {
      FindsTun(env.listing.value, k.device);
    }
    TargetsAreWanted(k, h, env);
    forall l <- Ensured(k, h, env).0.targets
      ensures env.listing.Some? && exists a <- env.listing.value :: a.luid == l
    {
      WantedIsListed(k, env, l);
    }
  }

  lemma TargetsAreWanted(k: Keeper, h: Host, env: Env)
    ensures Ensured(k, h, env).0.targets.Keys == Wanted(k, env).Keys
    ensures Ensured(k, h, env).0.tun == TunPresent(k, env)
  {
    var (k1, h1) := SyncedFirewall(k.(failed := false, targets := map[], tun := false), h, env);
    assert Wanted(k1, env) == Wanted(k, env) && TunPresent(k1, env) == TunPresent(k, env);
  }

  /**
   The tick skips the ensure when the mode is off and nothing is managed; that makes no difference to any
   adapter, to what is managed, or to a rule that is as it was wished last.
   */
  lemma TickIsAnEnsure(k: Keeper, h: Host, env: Env)
    ensures
      var (k1, h1) := Perform(k, h, Tick, env);
      var (k2, h2) := Ensured(k, h, env);
      && h1.flags == h2.flags && k1.managed == k2.managed
      && (k.firewall == (if k.desired || k.lanProxy then k.program else "") ==> h1.rule == h2.rule)
  {
    if !k.desired && k.managed == map[] {
      var (k1, h1) := SyncedFirewall(k.(failed := false, targets := map[], tun := false), h, env);
      assert Wanted(k1, env) == map[];
      RestoreNone(k1, h1, env);
      assert Unkept(k1, {}) == {};
      EnableNone(k1, h1, map[], env);
    }
  }

  /** Once the device is cleared nothing is reported and nothing is managed, whatever the host does. */
  lemma ClearedReportsNothing(k: Keeper, h: Host, env: Env)
    ensures
      var k1 := Perform(k, h, ClearDevice, env).0;
      k1.targets == map[] && !k1.tun && k1.managed == map[] && k1.device == ""
  {
  }

  // ---------------------------------------------------------------------------
  // What a status may claim, whatever the host does
  // ---------------------------------------------------------------------------

  lemma EnabledIsHonest(k: Keeper, h: Host, wanted: map<nat, Want>, env: Env, l: nat)
    ensures
      var (k1, h1) := Enabled(k, h, wanted, env);
      && (l in k1.targets && l in h1.flags && l !in env.readFails ==> k1.targets[l].forwarding == h1.flags[l])
      && (l in k1.targets ==> k1.targets[l].managed == (l in k1.managed))
      && (l in k1.targets && (l !in h1.flags || l in env.readFails) ==> !k1.targets[l].forwarding)
  {
  }

  lemma EnabledFails(k: Keeper, h: Host, wanted: map<nat, Want>, env: Env)
    ensures
      var k1 := Enabled(k, h, wanted, env).0;
      k1.failed <==> k.failed || exists l <- k1.targets :: !k1.targets[l].forwarding
  {
    var k1 := Enabled(k, h, wanted, env).0;
    if NotOn(h, wanted, env) * wanted.Keys != {} {
      var l :| l in NotOn(h, wanted, env) * wanted.Keys;
      assert l in k1.targets && !k1.targets[l].forwarding;
    }
    forall l <- k1.targets | !k1.targets[l].forwarding ensures l in NotOn(h, wanted, env) * wanted.Keys {
    }
  }

  /** The firewall rule of an ensure could not be brought in. */
  predicate RuleFails(k: Keeper, env: Env) {
    (k.desired || k.lanProxy) && k.program != "" && k.program != k.firewall && env.rule != Added
  }

  /** An adapter that the ensure gives back is there, and the host refuses. */
  predicate GiveBackFails(k: Keeper, h: Host, k1: Keeper, env: Env) {
    exists l <- k.managed :: l !in k1.targets && l in h.flags && l in env.writeFails
  }

  /**
   Whatever the host does, a status reports the flag of every adapter it could read, claims none that it
   could not read, and reports an error exactly if the rule, the listing, a give-back or a target failed.
   */
  lemma StatusIsHonest(k: Keeper, h: Host, env: Env, l: nat)
    ensures
      var (k1, h1) := Ensured(k, h, env);
      && (l in k1.targets && l in h1.flags && l !in env.readFails ==> k1.targets[l].forwarding == h1.flags[l])
      && (l in k1.targets && (l !in h1.flags || l in env.readFails) ==> !k1.targets[l].forwarding)
      && (l in k1.targets ==> k1.targets[l].managed == (l in k1.managed))
      && (k1.failed <==>
            || RuleFails(k, env)
            || (if k.desired && k.device != "" && env.listing.None? then true
                else GiveBackFails(k, h, k1, env) || exists t <- k1.targets :: !k1.targets[t].forwarding))
  {
    var (k1, h1) := SyncedFirewall(k.(failed := false, targets := map[], tun := false), h, env);
    assert k1.failed <==> RuleFails(k, env);
    if !(k.desired && k.device != "" && env.listing.None?) {
      var wanted := Wanted(k1, env);
      var (k2, h2) := Restored(k1.(tun := TunPresent(k1, env)), h1, wanted.Keys, env);
      EnabledIsHonest(k2, h2, wanted, env, l);
      EnabledFails(k2, h2, wanted, env);
      RestoreFails(k1.(tun := TunPresent(k1, env)), h1, wanted, env);
    }
  }

  lemma RestoreFails(k: Keeper, h: Host, wanted: map<nat, Want>, env: Env)
    ensures
      Restored(k, h, wanted.Keys, env).0.failed <==>
        k.failed || exists l <- k.managed :: l !in wanted && l in h.flags && l in env.writeFails
  {
    var off := Unkept(k, wanted.Keys);
    if off * h.flags.Keys * env.writeFails != {} {
      var l :| l in off * h.flags.Keys * env.writeFails;
    }
    forall l <- k.managed | l !in wanted && l in h.flags && l in env.writeFails
      ensures l in off * h.flags.Keys * env.writeFails
    {
    }
  }

  // ---------------------------------------------------------------------------
  // The firewall rule over whole runs
  // ---------------------------------------------------------------------------

  /** What the requests so far ask for. */
  datatype Wish = Wish(desired: bool, lanProxy: bool, device: string, program: string)

  function Wished(w: Wish, step: Step): Wish {
    if !step.Operate? then w
    else
      match step.op
      case SetDevice(device, program) => w.(device := device, program := program)
      case SetDesired(desired) => w.(desired := desired)
      case SetLANProxy(enabled) => w.(lanProxy := enabled)
      case ClearDevice => w.(device := "", program := "")
      case _ => w
  }

  function WishAfter(w: Wish, steps: seq<Step>): Wish
    decreases |steps|
  {
    if steps == [] then w else WishAfter(Wished(w, steps[0]), steps[1..])
  }

  function WishOf(k: Keeper): Wish {
    Wish(k.desired, k.lanProxy, k.device, k.program)
  }

  /** The rule that the wish calls for: the program while the gateway or the LAN proxy is wanted. */
  function RuleFor(w: Wish): string {
    if w.desired || w.lanProxy then w.program else ""
  }

  /** Adding a rule never fails in the run. */
  predicate RulesAreAdded(steps: seq<Step>) {
    forall step <- steps :: step.Operate? ==> step.env.rule.Added?
  }

  lemma SyncKeepsRule(k: Keeper, h: Host, env: Env)
    requires env.rule.Added? && k.firewall == h.rule
    ensures
      var (k1, h1) := SyncedFirewall(k, h, env);
      k1.firewall == h1.rule == RuleFor(WishOf(k))
  {
  }

  lemma EnsureKeepsRule(k: Keeper, h: Host, env: Env)
    ensures
      var (k1, h1) := Ensured(k, h, env);
      && WishOf(k1) == WishOf(k)
      && (env.rule.Added? && k.firewall == h.rule ==> k1.firewall == h1.rule == RuleFor(WishOf(k)))
  {
    if env.rule.Added? && k.firewall == h.rule {
      SyncKeepsRule(k.(failed := false, targets := map[], tun := false), h, env);
    }
  }

  lemma ClearKeepsRule(k: Keeper, h: Host, env: Env)
    ensures
      var (k1, h1) := Perform(k, h, ClearDevice, env);
      && WishOf(k1) == WishOf(k).(device := "", program := "")
      && (env.rule.Added? && k.firewall == h.rule ==> k1.firewall == h1.rule == RuleFor(WishOf(k1)))
  {
    var (k1, h1) := Restored(k.(device := "", program := ""), h, {}, env);
    if env.rule.Added? && k.firewall == h.rule {
      SyncKeepsRule(k1, h1, env);
    }
  }

  lemma OperationKeepsRule(k: Keeper, h: Host, op: Operation, env: Env)
    ensures WishOf(Perform(k, h, op, env).0) == Wished(WishOf(k), Operate(op, env))
    ensures env.rule.Added? && k.firewall == h.rule == RuleFor(WishOf(k)) ==>
              var (k1, h1) := Perform(k, h, op, env);
              k1.firewall == h1.rule == RuleFor(WishOf(k1))
  {
    match op
    case SetDevice(device, program) => EnsureKeepsRule(k.(device := device, program := program), h, env);
    case SetDesired(desired) => EnsureKeepsRule(k.(desired := desired), h, env);
    case SetLANProxy(enabled) => EnsureKeepsRule(k.(lanProxy := enabled), h, env);
    case Status => EnsureKeepsRule(k, h, env);
    case Tick => EnsureKeepsRule(k, h, env);
    case ClearDevice => ClearKeepsRule(k, h, env);
  }

  /**
   Over every run in which adding a rule does not fail, whatever else fails and whatever adapters do, the
   host has exactly the rule that the requests call for.
   */
  lemma {:induction false} RuleFollowsTheWish(w: World, steps: seq<Step>)
    requires w.keeper.firewall == w.host.rule == RuleFor(WishOf(w.keeper)) && RulesAreAdded(steps)
    ensures
      var e := Run(w, steps);
      && WishOf(e.keeper) == WishAfter(WishOf(w.keeper), steps)
      && e.keeper.firewall == e.host.rule == RuleFor(WishAfter(WishOf(w.keeper), steps))
    decreases |steps|
  {
    if steps != [] {
      var step := steps[0];
      assert step in steps;
      if step.Operate? {
        OperationKeepsRule(w.keeper, w.host, step.op, step.env);
      }
      RuleFollowsTheWish(Take(w, step), steps[1..]);
    }
  }
}
