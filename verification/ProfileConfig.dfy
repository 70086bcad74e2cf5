/**
 The profile-to-kernel transformation of src-tauri/src/inspection.rs, at the level of parsed
 documents: an object is a map, so key order and text are not part of it.

 The transformation is a method that changes the document step by step, a function that composes
 the same steps, and a table (`Expected`) that says what each key ends up with. The properties are
 proved from the table.
 */
module ProfileConfig {
  import opened Text
  import opened Wrappers

  /** The names the transformation knows, at any level of a document, and all the others. */
  datatype Key =
    // listeners and host mutation: port, socks-port, redir-port, tproxy-port, listeners, tun, ss-config,
    // vmess-config, tuic-server
    | Port | SocksPort | RedirPort | TproxyPort | Listeners | Tun | SsConfig | VmessConfig | TuicServer
    // external-ui, external-ui-url, external-ui-name
    | ExternalUi | ExternalUiUrl | ExternalUiName
    // external-controller-unix, -pipe, -tls, -routing-mark, external-doh-server
    | ControllerUnix | ControllerPipe | ControllerTls | ControllerMark | DohServer
    // mixed-port, external-controller, allow-lan, bind-address, secret, mode
    | MixedPort | ExternalController | AllowLan | BindAddress | Secret | Mode
    // log-level, ipv6, tcp-concurrent, unified-delay, profile, find-process-mode, interface-name
    | LogLevel | Ipv6 | TcpConcurrent | UnifiedDelay | Profile | FindProcessMode | InterfaceName
    // geodata-mode, geodata-loader, geo-auto-update, geo-update-interval, geox-url
    | GeodataMode | GeodataLoader | GeoAutoUpdate | GeoUpdateInterval | GeoxUrl
    // dns, sniffer, proxy-groups, rule-providers
    | Dns | Sniffer | ProxyGroups | RuleProviders
    // inside sections: listen, store-selected, store-fake-ip, type, name, proxy
    | Listen | StoreSelected | StoreFakeIp | Type | Name | Proxy
    | Other(name: string)

  datatype Json =
    | Null
    | Bool(flag: bool)
    | Number(number: int)
    | Float(digits: string)
    | Text(text: string)
    | List(items: seq<Json>)
    | Object(fields: Fields)

  type Fields = map<Key, Json>

  datatype Core = Core(
    logLevel: Json, ipv6: Json, tcpConcurrent: Json, unifiedDelay: Json, storeSelected: Json, storeFakeIp: Json,
    findProcessMode: Json, interfaceName: Json)

  datatype Geodata = Geodata(mode: Json, loader: Json, autoUpdate: Json, interval: Json, urls: Json)

  /** The options as read, a missing one having its default; `core` and `geodata` only if enabled. */
  datatype Options = Options(
    mixedPort: int, controllerPort: int, httpPort: int, socksPort: int, controllerHost: string,
    allowLan: bool, controllerPanel: bool, secret: string, core: Option<Core>, geodata: Option<Geodata>)

  datatype Problem =
    | BadMixedPort | BadControllerPort | SamePort | BadOptionalPort(which: string) | PortsMustDiffer
    | BadSecret | Unparsable

  function Lookup(c: Fields, k: Key): Option<Json> {
    if k in c then Some(c[k]) else None
  }

  // ---------------------------------------------------------------------------
  // The options
  // ---------------------------------------------------------------------------

  predicate PortInRange(p: int) {
    1024 <= p <= 65535
  }

  /** No two listeners share a port; a port of 0 is no listener. */
  predicate PortsDiffer(o: Options) {
    var ports := [o.mixedPort, o.controllerPort, o.httpPort, o.socksPort];
    forall i, j | 0 <= i < j < 4 && ports[i] != 0 :: ports[i] != ports[j]
  }

  predicate Acceptable(o: Options) {
    && PortInRange(o.mixedPort) && PortInRange(o.controllerPort)
    && (o.httpPort != 0 ==> PortInRange(o.httpPort))
    && (o.socksPort != 0 ==> PortInRange(o.socksPort))
    && PortsDiffer(o)
    && IsHex64(o.secret)
  }

  /** The first check that fails. */
  function FirstProblem(o: Options): Option<Problem> {
    if !PortInRange(o.mixedPort) then Some(BadMixedPort)
    else if !PortInRange(o.controllerPort) then Some(BadControllerPort)
    else if o.mixedPort == o.controllerPort then Some(SamePort)
    else if o.httpPort != 0 && !PortInRange(o.httpPort) then Some(BadOptionalPort("http"))
    else if o.socksPort != 0 && !PortInRange(o.socksPort) then Some(BadOptionalPort("socks"))
    else if !PortsDiffer(o) then Some(PortsMustDiffer)
    else if !IsHex64(o.secret) then Some(BadSecret)
    else None
  }

  lemma PortPairs(o: Options)
    requires o.mixedPort != 0 && o.controllerPort != 0
    ensures PortsDiffer(o) <==>
            && o.mixedPort != o.controllerPort
            && (o.httpPort != 0 ==> o.httpPort !in {o.mixedPort, o.controllerPort})
            && (o.socksPort != 0 ==> o.socksPort !in {o.mixedPort, o.controllerPort})
            && (o.httpPort != 0 && o.socksPort != 0 ==> o.httpPort != o.socksPort)
  {
    var ports := [o.mixedPort, o.controllerPort, o.httpPort, o.socksPort];
    if PortsDiffer(o) {
      assert ports[0] != ports[1] && ports[0] != ports[2] && ports[1] != ports[2] && ports[0] != ports[3] && ports[1] != ports[3];
      assert ports[2] != 0 ==> ports[2] != ports[3];
    }
  }

  /** A reported problem is one that the options have, and everything checked before it is in order. */
  lemma ProblemIsReal(o: Options)
    ensures
      match FirstProblem(o)
      case None => Acceptable(o)
      case Some(BadMixedPort) => !PortInRange(o.mixedPort)
      case Some(BadControllerPort) => PortInRange(o.mixedPort) && !PortInRange(o.controllerPort)
      case Some(SamePort) => o.mixedPort == o.controllerPort && PortInRange(o.mixedPort)
      case Some(BadOptionalPort(which)) =>
        && PortInRange(o.mixedPort) && PortInRange(o.controllerPort)
        && ((which == "http" && o.httpPort != 0 && !PortInRange(o.httpPort)) ||
            (which == "socks" && o.socksPort != 0 && !PortInRange(o.socksPort)))
      case Some(PortsMustDiffer) =>
        && PortInRange(o.mixedPort) && PortInRange(o.controllerPort) && o.mixedPort != o.controllerPort
        && ((o.httpPort != 0 && o.httpPort in {o.mixedPort, o.controllerPort}) ||
            (o.socksPort != 0 && o.socksPort in {o.mixedPort, o.controllerPort, o.httpPort}))
      case Some(BadSecret) => !IsHex64(o.secret) && PortsDiffer(o)
      case Some(Unparsable) => false
  {
    if o.mixedPort != 0 && o.controllerPort != 0 {
      PortPairs(o);
    }
  }

  method CheckOptions(o: Options) returns (problem: Option<Problem>)
    ensures problem == FirstProblem(o)
    ensures problem.None? <==> Acceptable(o)
  {
    if !PortInRange(o.mixedPort) {
      return Some(BadMixedPort);
    }
    if !PortInRange(o.controllerPort) {
      return Some(BadControllerPort);
    }
    PortPairs(o);
    if o.mixedPort == o.controllerPort {
      return Some(SamePort);
    }
    var optional := [("http", o.httpPort), ("socks", o.socksPort)];
    var active, unique := [o.mixedPort, o.controllerPort], {o.mixedPort, o.controllerPort};
    for i := 0 to 2
      invariant forall j | 0 <= j < i :: optional[j].1 != 0 ==> PortInRange(optional[j].1)
    {
      assert optional[i] == if i == 0 then ("http", o.httpPort) else ("socks", o.socksPort);
      assert i == 1 ==> optional[0].1 == o.httpPort;
      if optional[i].1 != 0 && !PortInRange(optional[i].1) {
        return Some(BadOptionalPort(optional[i].0));
      }
    }
    assert optional[0].1 == o.httpPort && optional[1].1 == o.socksPort;
    if o.httpPort != 0 {
      active, unique := active + [o.httpPort], unique + {o.httpPort};
    }
    if o.socksPort != 0 {
      active, unique := active + [o.socksPort], unique + {o.socksPort};
    }
    if |unique| != |active| {
      return Some(PortsMustDiffer);
    }
    if !IsHex64(o.secret) {
      return Some(BadSecret);
    }
    return None;
  }

  // ---------------------------------------------------------------------------
  // The steps
  // ---------------------------------------------------------------------------

  const HOST_KEYS: seq<Key> := [
    Port, SocksPort, RedirPort, TproxyPort, Listeners, Tun, SsConfig, VmessConfig, TuicServer]
  const UI_KEYS: seq<Key> := [ExternalUi, ExternalUiUrl, ExternalUiName]
  const CONTROLLER_KEYS: seq<Key> := [ControllerUnix, ControllerPipe, ControllerTls, ControllerMark, DohServer]

  const LOOPBACK := "127.0.0.1"
  const UI := "ui"
  const PANEL_NAME := "metacubexd"
  const PANEL_URL := "https://github.com/MetaCubeX/metacubexd/archive/refs/heads/gh-pages.zip"

  function Sub(c: Fields, k: Key): Fields {
    if k in c && c[k].Object? then c[k].fields else map[]
  }

  /** A section that is an object is replaced; anything else stays. */
  function WithSection(c: Fields, k: Key, fields: Fields): Fields {
    if k in c && c[k].Object? then c[k := Object(fields)] else c
  }

  function Without(c: Fields, keys: seq<Key>): Fields {
    map k | k in c && k !in keys :: c[k]
  }

  function Neutralized(c: Fields): Fields {
    var d := Without(Without(Without(c, HOST_KEYS), UI_KEYS), CONTROLLER_KEYS);
    WithSection(d, Dns, Sub(d, Dns) - {Listen})
  }

  function Controller(o: Options): Json
    requires Acceptable(o)
  {
    Text(o.controllerHost + ":" + Decimal(o.controllerPort))
  }

  function PutIf(c: Fields, condition: bool, k: Key, v: Json): Fields {
    if condition then c[k := v] else c
  }

  /** The listener ports, in the order they are written. */
  function WithPorts(c: Fields, o: Options): Fields {
    var d := c[MixedPort := Number(o.mixedPort)];
    PutIf(PutIf(d, o.httpPort != 0, Port, Number(o.httpPort)), o.socksPort != 0, SocksPort, Number(o.socksPort))
  }

  function WithAccess(c: Fields, o: Options): Fields
    requires Acceptable(o)
  {
    c[ExternalController := Controller(o)][AllowLan := Bool(o.allowLan)]
     [BindAddress := Text(if o.allowLan then "*" else LOOPBACK)][Secret := Text(o.secret)]
  }

  function WithPanel(c: Fields): Fields {
    c[ExternalUi := Text(UI)][ExternalUiName := Text(PANEL_NAME)][ExternalUiUrl := Text(PANEL_URL)]
  }

  function Forced(c: Fields, o: Options): Fields
    requires Acceptable(o)
  {
    var d := WithAccess(WithPorts(c, o), o);
    (if o.controllerPanel then WithPanel(d) else d)[Mode := Text("rule")]
  }

  function WithCoreKeys(c: Fields, core: Core): Fields {
    c[LogLevel := core.logLevel][Ipv6 := core.ipv6][TcpConcurrent := core.tcpConcurrent]
     [UnifiedDelay := core.unifiedDelay][FindProcessMode := core.findProcessMode]
  }

  predicate HasInterface(core: Core) {
    core.interfaceName.Text? && core.interfaceName.text != ""
  }

  function WithStored(profile: Fields, core: Core): Fields {
    profile[StoreSelected := core.storeSelected][StoreFakeIp := core.storeFakeIp]
  }

  function WithInterface(c: Fields, core: Core): Fields {
    if HasInterface(core) then c[InterfaceName := core.interfaceName] else c - {InterfaceName}
  }

  function WithCoreBlock(c: Fields, core: Core): Fields {
    var d := WithCoreKeys(c, core)[Profile := Object(WithStored(Sub(c, Profile), core))];
    WithInterface(d, core)
  }

  function WithCore(c: Fields, core: Core): Fields {
    var d := WithCoreBlock(c, core);
    WithSection(d, Dns, Sub(d, Dns)[Ipv6 := core.ipv6])
  }

  function WithGeodata(c: Fields, g: Geodata): Fields {
    c[GeodataMode := g.mode][GeodataLoader := g.loader][GeoAutoUpdate := g.autoUpdate]
     [GeoUpdateInterval := g.interval][GeoxUrl := g.urls]
  }

  // ---------------------------------------------------------------------------
  // Download proxies of rule providers
  // ---------------------------------------------------------------------------

  function Lower(s: string): string {
    seq(|s|, i requires 0 <= i < |s| => if 'A' <= s[i] <= 'Z' then s[i] - 'A' + 'a' else s[i])
  }

  /** Unicode White_Space. */
  predicate IsSpace(c: char) {
    var n := c as int;
    || 9 <= n <= 13 || n == 32 || n == 0x85 || n == 0xA0 || n == 0x1680 || 0x2000 <= n <= 0x200A
    || n == 0x2028 || n == 0x2029 || n == 0x202F || n == 0x205F || n == 0x3000
  }

  /** Text that trimming leaves something of. */
  predicate IsNamed(j: Option<Json>) {
    j.Some? && j.value.Text? && exists i | 0 <= i < |j.value.text| :: !IsSpace(j.value.text[i])
  }

  predicate IsKind(j: Option<Json>, kind: string) {
    j.Some? && j.value.Text? && Lower(j.value.text) == kind
  }

  predicate IsSelectGroup(j: Json) {
    j.Object? && IsKind(Lookup(j.fields, Type), "select") && IsNamed(Lookup(j.fields, Name))
  }

  /** The name of the first usable group. */
  function FirstGroup(groups: seq<Json>): Option<string> {
    if groups == [] then None
    else if IsSelectGroup(groups[0]) then Some(groups[0].fields[Name].text)
    else FirstGroup(groups[1..])
  }

  function GroupOf(c: Fields): Option<string> {
    if ProxyGroups in c && c[ProxyGroups].List? then FirstGroup(c[ProxyGroups].items) else None
  }

  /** An http provider that does not say how to download it. */
  predicate LacksProxy(p: Json) {
    p.Object? && IsKind(Lookup(p.fields, Type), "http") && !IsNamed(Lookup(p.fields, Proxy))
  }

  function WithProxy(p: Json, group: string): Json {
    if LacksProxy(p) then Object(p.fields[Proxy := Text(group)]) else p
  }

  function WithProxies(providers: Fields, group: string): Fields {
    map name | name in providers :: WithProxy(providers[name], group)
  }

  function WithDownloads(c: Fields): Fields {
    if GroupOf(c).Some? then WithSection(c, RuleProviders, WithProxies(Sub(c, RuleProviders), GroupOf(c).value)) else c
  }

  /** Everything but the download proxies. */
  function Controlled(c: Fields, o: Options): Fields
    requires Acceptable(o)
  {
    var d := Forced(Neutralized(c), o);
    var e := if o.core.Some? then WithCore(d, o.core.value) else d;
    if o.geodata.Some? then WithGeodata(e, o.geodata.value) else e
  }

  function Built(c: Fields, o: Options): Fields
    requires Acceptable(o)
  {
    WithDownloads(Controlled(c, o))
  }

  // ---------------------------------------------------------------------------
  // The table
  // ---------------------------------------------------------------------------

  function ExpectedDns(dns: Json, core: Option<Core>): Json {
    if !dns.Object? then dns
    else if core.Some? then Object((dns.fields - {Listen})[Ipv6 := core.value.ipv6])
    else Object(dns.fields - {Listen})
  }

  function ExpectedProviders(providers: Json, group: Option<string>): Json {
    if providers.Object? && group.Some? then Object(WithProxies(providers.fields, group.value)) else providers
  }

  function IfSet(port: int): Option<Json> {
    if port != 0 then Some(Number(port)) else None
  }

  function IfPanel(o: Options, text: string): Option<Json> {
    if o.controllerPanel then Some(Text(text)) else None
  }

  /** A key of the controlled core settings. */
  function CoreAt(core: Core, c: Fields, k: Key): Option<Json> {
    match k
    case LogLevel => Some(core.logLevel)
    case Ipv6 => Some(core.ipv6)
    case TcpConcurrent => Some(core.tcpConcurrent)
    case UnifiedDelay => Some(core.unifiedDelay)
    case FindProcessMode => Some(core.findProcessMode)
    case InterfaceName => if HasInterface(core) then Some(core.interfaceName) else None
    case Profile => Some(Object(WithStored(Sub(c, Profile), core)))
    case _ => Lookup(c, k)
  }

  function GeodataAt(g: Geodata, c: Fields, k: Key): Option<Json> {
    match k
    case GeodataMode => Some(g.mode)
    case GeodataLoader => Some(g.loader)
    case GeoAutoUpdate => Some(g.autoUpdate)
    case GeoUpdateInterval => Some(g.interval)
    case GeoxUrl => Some(g.urls)
    case _ => Lookup(c, k)
  }

  predicate IsCoreKey(k: Key) {
    || k.LogLevel? || k.Ipv6? || k.TcpConcurrent? || k.UnifiedDelay? || k.FindProcessMode? || k.InterfaceName?
    || k.Profile?
  }

  predicate IsGeodataKey(k: Key) {
    k.GeodataMode? || k.GeodataLoader? || k.GeoAutoUpdate? || k.GeoUpdateInterval? || k.GeoxUrl?
  }

  predicate IsHostKey(k: Key) {
    || k.Port? || k.SocksPort? || k.RedirPort? || k.TproxyPort? || k.Listeners? || k.Tun? || k.SsConfig?
    || k.VmessConfig? || k.TuicServer?
  }

  predicate IsUiKey(k: Key) {
    k.ExternalUi? || k.ExternalUiUrl? || k.ExternalUiName?
  }

  predicate IsControllerKey(k: Key) {
    k.ControllerUnix? || k.ControllerPipe? || k.ControllerTls? || k.ControllerMark? || k.DohServer?
  }

  predicate IsRemoved(k: Key) {
    IsHostKey(k) || IsUiKey(k) || IsControllerKey(k)
  }

  predicate IsForced(k: Key) {
    || IsRemoved(k) || k.MixedPort? || k.ExternalController? || k.AllowLan? || k.BindAddress? || k.Secret? || k.Mode?
  }

  /** What a listener or authentication key ends up with, whatever the document says. */
  function ForcedAt(o: Options, k: Key): Option<Json>
    requires Acceptable(o)
  {
    match k
    case MixedPort => Some(Number(o.mixedPort))
    case Port => IfSet(o.httpPort)
    case SocksPort => IfSet(o.socksPort)
    case ExternalController => Some(Controller(o))
    case AllowLan => Some(Bool(o.allowLan))
    case BindAddress => Some(Text(if o.allowLan then "*" else LOOPBACK))
    case Secret => Some(Text(o.secret))
    case Mode => Some(Text("rule"))
    case ExternalUi => IfPanel(o, UI)
    case ExternalUiName => IfPanel(o, PANEL_NAME)
    case ExternalUiUrl => IfPanel(o, PANEL_URL)
    case _ => None
  }

  /** What each key of the kernel configuration is. */
  function Expected(c: Fields, o: Options, k: Key): Option<Json>
    requires Acceptable(o)
  {
    if IsForced(k) then ForcedAt(o, k)
    else if IsCoreKey(k) then (if o.core.Some? then CoreAt(o.core.value, c, k) else Lookup(c, k))
    else if IsGeodataKey(k) then (if o.geodata.Some? then GeodataAt(o.geodata.value, c, k) else Lookup(c, k))
    else if k !in c then None
    else if k.Dns? then Some(ExpectedDns(c[Dns], o.core))
    else if k.RuleProviders? then Some(ExpectedProviders(c[RuleProviders], GroupOf(c)))
    else Some(c[k])
  }

  // ---------------------------------------------------------------------------
  // The methods
  // ---------------------------------------------------------------------------

  method RemoveKeys(c: Fields, keys: seq<Key>) returns (d: Fields)
    ensures d == Without(c, keys)
  {
    d := c;
    for i := 0 to |keys|
      invariant d == Without(c, keys[..i])
    {
      assert keys[..i + 1] == keys[..i] + [keys[i]];
      d := d - {keys[i]};
    }
    assert keys[..|keys|] == keys;
  }

  method FindGroup(groups: seq<Json>) returns (group: Option<string>)
    ensures group == FirstGroup(groups)
  {
    for i := 0 to |groups|
      invariant FirstGroup(groups) == FirstGroup(groups[i..])
    {
      if IsSelectGroup(groups[i]) {
        return Some(groups[i].fields[Name].text);
      }
      assert groups[i..][1..] == groups[i + 1..];
    }
    return None;
  }

  method AssignProxies(providers: Fields, group: string) returns (completed: Fields)
    ensures completed == WithProxies(providers, group)
  {
    completed := providers;
    var rest := providers.Keys;
    while rest != {}
      invariant rest <= providers.Keys == completed.Keys
      invariant forall name <- providers ::
        completed[name] == if name in rest then providers[name] else WithProxy(providers[name], group)
      decreases rest
    {
      var name :| name in rest;
      rest := rest - {name};
      var provider := completed[name];
      if LacksProxy(provider) {
        completed := completed[name := Object(provider.fields[Proxy := Text(group)])];
      }
    }
  }

  method AssignRuleProviderDownloadProxy(c: Fields) returns (d: Fields, group: Option<string>)
    ensures d == WithDownloads(c)
    ensures group == if RuleProviders in c && c[RuleProviders].Object? then GroupOf(c) else None
  {
    d, group := c, None;
    if ProxyGroups !in c || !c[ProxyGroups].List? {
      return;
    }
    var found := FindGroup(c[ProxyGroups].items);
    if found.None? || RuleProviders !in c || !c[RuleProviders].Object? {
      return;
    }
    var providers := AssignProxies(c[RuleProviders].fields, found.value);
    d, group := c[RuleProviders := Object(providers)], found;
  }

  method ApplyCore(c: Fields, core: Core) returns (d: Fields)
    ensures d == WithCore(c, core)
  {
    var profile := Sub(c, Profile);
    d := c[LogLevel := core.logLevel];
    d := d[Ipv6 := core.ipv6];
    d := d[TcpConcurrent := core.tcpConcurrent];
    d := d[UnifiedDelay := core.unifiedDelay];
    d := d[FindProcessMode := core.findProcessMode];
    profile := profile[StoreSelected := core.storeSelected];
    profile := profile[StoreFakeIp := core.storeFakeIp];
    d := d[Profile := Object(profile)];
    if HasInterface(core) {
      d := d[InterfaceName := core.interfaceName];
    } else {
      d := d - {InterfaceName};
    }
    if Dns in d && d[Dns].Object? {
      d := d[Dns := Object(d[Dns].fields[Ipv6 := core.ipv6])];
    }
  }

  method ForceListeners(c: Fields, o: Options) returns (d: Fields)
    requires Acceptable(o)
    ensures d == Forced(c, o)
  {
    d := c[MixedPort := Number(o.mixedPort)];
    if o.httpPort != 0 {
      d := d[Port := Number(o.httpPort)];
    }
    if o.socksPort != 0 {
      d := d[SocksPort := Number(o.socksPort)];
    }
    d := d[ExternalController := Controller(o)];
    d := d[AllowLan := Bool(o.allowLan)];
    d := d[BindAddress := Text(if o.allowLan then "*" else LOOPBACK)];
    d := d[Secret := Text(o.secret)];
    if o.controllerPanel {
      d := d[ExternalUi := Text(UI)];
      d := d[ExternalUiName := Text(PANEL_NAME)];
      d := d[ExternalUiUrl := Text(PANEL_URL)];
    }
    d := d[Mode := Text("rule")];
  }

  method BuildProfileKernelConfig(document: Option<Fields>, o: Options) returns (r: Result<Fields, Problem>)
    ensures !Acceptable(o) ==> r == Err(FirstProblem(o).value)
    ensures Acceptable(o) ==> r == if document.None? then Err(Unparsable) else Ok(Built(document.value, o))
  {
    var problem := CheckOptions(o);
    if problem.Some? {
      return Err(problem.value);
    }
    if document.None? {
      return Err(Unparsable);
    }
    var config := RemoveKeys(document.value, HOST_KEYS);
    config := RemoveKeys(config, UI_KEYS);
    config := RemoveKeys(config, CONTROLLER_KEYS);
    if Dns in config && config[Dns].Object? {
      config := config[Dns := Object(config[Dns].fields - {Listen})];
    }
    config := ForceListeners(config, o);
    if o.core.Some? {
      config := ApplyCore(config, o.core.value);
    }
    if o.geodata.Some? {
      var geodata := o.geodata.value;
      config := config[GeodataMode := geodata.mode];
      config := config[GeodataLoader := geodata.loader];
      config := config[GeoAutoUpdate := geodata.autoUpdate];
      config := config[GeoUpdateInterval := geodata.interval];
      config := config[GeoxUrl := geodata.urls];
    }
    var final, _ := AssignRuleProviderDownloadProxy(config);
    return Ok(final);
  }

  // ---------------------------------------------------------------------------
  // The steps against the table
  // ---------------------------------------------------------------------------

  lemma PortsStep(c: Fields, o: Options, k: Key)
    ensures Lookup(WithPorts(c, o), k) ==
            if k.MixedPort? then Some(Number(o.mixedPort))
            else if k.Port? && o.httpPort != 0 then Some(Number(o.httpPort))
            else if k.SocksPort? && o.socksPort != 0 then Some(Number(o.socksPort))
            else Lookup(c, k)
  {
  }

  lemma AccessStep(c: Fields, o: Options, k: Key)
    requires Acceptable(o)
    ensures Lookup(WithAccess(c, o), k) ==
            if k.ExternalController? || k.AllowLan? || k.BindAddress? || k.Secret? then ForcedAt(o, k) else Lookup(c, k)
  {
  }

  lemma PanelStep(c: Fields, k: Key)
    ensures Lookup(WithPanel(c), k) ==
            if k.ExternalUi? then Some(Text(UI))
            else if k.ExternalUiName? then Some(Text(PANEL_NAME))
            else if k.ExternalUiUrl? then Some(Text(PANEL_URL))
            else Lookup(c, k)
  {
  }

  lemma ForcedStep(c: Fields, o: Options, k: Key)
    requires Acceptable(o)
    ensures Lookup(Forced(c, o), k) ==
            if IsForced(k) && ForcedAt(o, k).Some? then ForcedAt(o, k) else Lookup(c, k)
  {
    PortsStep(c, o, k);
    AccessStep(WithPorts(c, o), o, k);
    PanelStep(WithAccess(WithPorts(c, o), o), k);
  }

  lemma HostKeys(k: Key)
    ensures k in HOST_KEYS <==> IsHostKey(k)
  {
  }

  lemma UiKeys(k: Key)
    ensures k in UI_KEYS <==> IsUiKey(k)
  {
  }

  lemma ControllerKeys(k: Key)
    ensures k in CONTROLLER_KEYS <==> IsControllerKey(k)
  {
  }

  lemma WithoutAll(c: Fields, k: Key)
    ensures Lookup(Without(Without(Without(c, HOST_KEYS), UI_KEYS), CONTROLLER_KEYS), k) ==
            if IsRemoved(k) then None else Lookup(c, k)
  {
    HostKeys(k);
    UiKeys(k);
    ControllerKeys(k);
  }

  lemma NeutralizedAt(c: Fields, k: Key)
    ensures Lookup(Neutralized(c), k) ==
            if IsRemoved(k) then None
            else if k.Dns? && k in c then Some(ExpectedDns(c[Dns], None)) else Lookup(c, k)
  {
    WithoutAll(c, k);
    WithoutAll(c, Dns);
  }

  lemma CoreKeysStep(c: Fields, core: Core, k: Key)
    ensures Lookup(WithCoreKeys(c, core), k) ==
            if IsCoreKey(k) && !k.InterfaceName? && !k.Profile? then CoreAt(core, c, k) else Lookup(c, k)
  {
  }

  lemma CoreBlockStep(c: Fields, core: Core, k: Key)
    ensures Lookup(WithCoreBlock(c, core), k) == CoreAt(core, c, k)
  {
    CoreKeysStep(c, core, k);
  }

  function CoreTable(c: Fields, core: Core, k: Key): Option<Json> {
    if k.Dns? && k in c && c[k].Object? then Some(Object(c[k].fields[Ipv6 := core.ipv6])) else CoreAt(core, c, k)
  }

  lemma Replaced(c: Fields, section: Key, fields: Fields, k: Key)
    ensures Lookup(WithSection(c, section, fields), k) ==
            if k == section && k in c && c[k].Object? then Some(Object(fields)) else Lookup(c, k)
  {
  }

  lemma CoreStep(c: Fields, core: Core, k: Key)
    ensures Lookup(WithCore(c, core), k) == CoreTable(c, core, k)
  {
    CoreBlockStep(c, core, k);
    CoreBlockStep(c, core, Dns);
    Replaced(WithCoreBlock(c, core), Dns, Sub(WithCoreBlock(c, core), Dns)[Ipv6 := core.ipv6], k);
  }

  lemma GeodataStep(c: Fields, g: Geodata, k: Key)
    ensures Lookup(WithGeodata(c, g), k) == GeodataAt(g, c, k)
  {
  }

  /** The table without the download proxies. */
  function ExpectedBefore(c: Fields, o: Options, k: Key): Option<Json>
    requires Acceptable(o)
  {
    if k.RuleProviders? then Lookup(c, k) else Expected(c, o, k)
  }

  lemma NeutralForced(c: Fields, o: Options, k: Key)
    requires Acceptable(o)
    ensures Lookup(Forced(Neutralized(c), o), k) ==
            if IsForced(k) then ForcedAt(o, k)
            else if k.Dns? && k in c then Some(ExpectedDns(c[Dns], None)) else Lookup(c, k)
  {
    NeutralizedAt(c, k);
    ForcedStep(Neutralized(c), o, k);
  }

  /** The steps as tables, for whatever documents `f`, `d` and `e` stand between them. */
  lemma Compose(c: Fields, f: Fields, d: Fields, e: Fields, o: Options, k: Key)
    requires Acceptable(o)
    requires Lookup(f, k) == if IsForced(k) then ForcedAt(o, k)
                             else if k.Dns? && k in c then Some(ExpectedDns(c[Dns], None)) else Lookup(c, k)
    requires Sub(f, Profile) == Sub(c, Profile)
    requires Lookup(d, k) == if o.core.Some? then CoreTable(f, o.core.value, k) else Lookup(f, k)
    requires Lookup(e, k) == if o.geodata.Some? then GeodataAt(o.geodata.value, d, k) else Lookup(d, k)
    ensures Lookup(e, k) == ExpectedBefore(c, o, k)
  {
  }

  lemma ControlledAt(c: Fields, o: Options, k: Key)
    requires Acceptable(o)
    ensures Lookup(Controlled(c, o), k) == ExpectedBefore(c, o, k)
  {
    var f := Forced(Neutralized(c), o);
    var d := if o.core.Some? then WithCore(f, o.core.value) else f;
    var e := if o.geodata.Some? then WithGeodata(d, o.geodata.value) else d;
    NeutralForced(c, o, k);
    SameProfile(c, o);
    if o.core.Some? {
      CoreStep(f, o.core.value, k);
    }
    if o.geodata.Some? {
      GeodataStep(d, o.geodata.value, k);
    }
    Compose(c, f, d, e, o, k);
  }

  lemma SameProfile(c: Fields, o: Options)
    requires Acceptable(o)
    ensures Sub(Forced(Neutralized(c), o), Profile) == Sub(c, Profile)
  {
    NeutralForced(c, o, Profile);
  }

  lemma GroupsStay(c: Fields, o: Options)
    requires Acceptable(o)
    ensures ExpectedBefore(c, o, ProxyGroups) == Expected(c, o, ProxyGroups) == Lookup(c, ProxyGroups)
  {
  }

  lemma SameGroup(c: Fields, d: Fields)
    requires Lookup(c, ProxyGroups) == Lookup(d, ProxyGroups)
    ensures GroupOf(c) == GroupOf(d)
  {
  }

  /** The composed steps give each key exactly what the table says. */
  lemma BuiltIsExpected(c: Fields, o: Options, k: Key)
    requires Acceptable(o)
    ensures Lookup(Built(c, o), k) == Expected(c, o, k)
  {
    ControlledAt(c, o, k);
    ControlledAt(c, o, RuleProviders);
    ControlledAt(c, o, ProxyGroups);
    GroupsStay(c, o);
    SameGroup(Controlled(c, o), c);
    DownloadsAt(c, Controlled(c, o), o, k);
  }

  lemma DownloadsAt(c: Fields, d: Fields, o: Options, k: Key)
    requires Acceptable(o) && GroupOf(d) == GroupOf(c)
    requires Lookup(d, k) == ExpectedBefore(c, o, k) && Lookup(d, RuleProviders) == Lookup(c, RuleProviders)
    ensures Lookup(WithDownloads(d), k) == Expected(c, o, k)
  {
  }

  /** `b` is what the table makes of `c`. */
  ghost predicate Meets(b: Fields, c: Fields, o: Options)
    requires Acceptable(o)
  {
    forall k :: Lookup(b, k) == Expected(c, o, k)
  }

  lemma BuiltMeets(c: Fields, o: Options)
    requires Acceptable(o)
    ensures Meets(Built(c, o), c, o)
  {
    forall k ensures Lookup(Built(c, o), k) == Expected(c, o, k) {
      BuiltIsExpected(c, o, k);
    }
  }

  lemma SameLookups(a: Fields, b: Fields)
    requires forall k :: Lookup(a, k) == Lookup(b, k)
    ensures a == b
  {
    forall k ensures k in a <==> k in b {
      assert Lookup(a, k) == Lookup(b, k);
    }
    forall k | k in a ensures a[k] == b[k] {
      assert Lookup(a, k) == Lookup(b, k);
    }
  }

  // ---------------------------------------------------------------------------
  // Properties
  // ---------------------------------------------------------------------------

  lemma {:induction false} FirstGroupIsNamed(groups: seq<Json>)
    ensures FirstGroup(groups).Some? ==> IsNamed(Some(Text(FirstGroup(groups).value)))
  {
    if groups != [] && !IsSelectGroup(groups[0]) {
      FirstGroupIsNamed(groups[1..]);
    }
  }

  lemma WithProxiesTwice(providers: Fields, group: string)
    requires IsNamed(Some(Text(group)))
    ensures WithProxies(WithProxies(providers, group), group) == WithProxies(providers, group)
  {
    forall name | name in providers
      ensures WithProxy(WithProxy(providers[name], group), group) == WithProxy(providers[name], group)
    {
    }
  }

  lemma DnsTwice(dns: Json, core: Option<Core>)
    ensures ExpectedDns(ExpectedDns(dns, core), core) == ExpectedDns(dns, core)
  {
    if dns.Object? {
      var fields := ExpectedDns(dns, core).fields;
      assert fields - {Listen} == fields;
      assert core.Some? ==> fields[Ipv6 := core.value.ipv6] == fields;
    }
  }

  lemma StoredTwice(profile: Fields, core: Core)
    ensures WithStored(WithStored(profile, core), core) == WithStored(profile, core)
  {
  }

  lemma ProvidersTwice(c: Fields, providers: Json)
    ensures ExpectedProviders(ExpectedProviders(providers, GroupOf(c)), GroupOf(c)) ==
            ExpectedProviders(providers, GroupOf(c))
  {
    if providers.Object? && GroupOf(c).Some? {
      FirstGroupIsNamed(c[ProxyGroups].items);
      WithProxiesTwice(providers.fields, GroupOf(c).value);
    }
  }

  lemma ExpectedTwice(c: Fields, b: Fields, o: Options, k: Key)
    requires Acceptable(o)
    requires Lookup(b, k) == Expected(c, o, k) && GroupOf(b) == GroupOf(c)
    requires o.core.Some? ==> Lookup(b, Profile) == Some(Object(WithStored(Sub(c, Profile), o.core.value)))
    ensures Expected(b, o, k) == Expected(c, o, k)
  {
    if k.Dns? && k in c {
      DnsTwice(c[k], o.core);
    } else if k.RuleProviders? && k in c {
      ProvidersTwice(c, c[k]);
    } else if k.Profile? && o.core.Some? {
      StoredTwice(Sub(c, Profile), o.core.value);
    }
  }

  lemma MeetsTwice(c: Fields, b: Fields, e: Fields, o: Options)
    requires Acceptable(o) && Meets(b, c, o) && Meets(e, b, o)
    ensures e == b
  {
    assert Lookup(b, ProxyGroups) == Expected(c, o, ProxyGroups);
    assert Lookup(b, Profile) == Expected(c, o, Profile);
    GroupsStay(c, o);
    SameGroup(b, c);
    forall k ensures Lookup(e, k) == Lookup(b, k) {
      assert Lookup(b, k) == Expected(c, o, k) && Lookup(e, k) == Expected(b, o, k);
      ExpectedTwice(c, b, o, k);
    }
    SameLookups(e, b);
  }

  /** Building from what was built changes nothing. */
  lemma BuildTwice(c: Fields, o: Options)
    requires Acceptable(o)
    ensures Built(Built(c, o), o) == Built(c, o)
  {
    BuiltMeets(c, o);
    BuiltMeets(Built(c, o), o);
    MeetsTwice(c, Built(c, o), Built(Built(c, o), o), o);
  }

  /** The listeners and credentials are those of the options, whatever the document says. */
  lemma ForcedKeysIgnoreTheDocument(c: Fields, d: Fields, o: Options, k: Key)
    requires Acceptable(o) && IsForced(k)
    ensures Lookup(Built(c, o), k) == Lookup(Built(d, o), k) == ForcedAt(o, k)
  {
    BuiltIsExpected(c, o, k);
    BuiltIsExpected(d, o, k);
  }

  /** Keys that the options decide. */
  predicate IsManaged(k: Key, o: Options) {
    IsForced(k) || (IsCoreKey(k) && o.core.Some?) || (IsGeodataKey(k) && o.geodata.Some?)
  }

  /** The fields of a section that may change. */
  function Touched(section: Key): set<Key> {
    if section.Dns? then {Listen, Ipv6} else if section.Profile? then {StoreSelected, StoreFakeIp} else {}
  }

  /** Outside the managed keys only the DNS section and the rule providers can differ from the document. */
  lemma OtherKeysStay(c: Fields, o: Options, k: Key)
    requires Acceptable(o) && !IsManaged(k, o) && !k.Dns? && !k.RuleProviders?
    ensures Lookup(Built(c, o), k) == Lookup(c, k)
  {
    BuiltIsExpected(c, o, k);
  }

  lemma FieldsStay(c: Fields, b: Fields, o: Options, section: Key, field: Key)
    requires Acceptable(o) && (section.Dns? || section.Profile?) && field !in Touched(section)
    requires Lookup(b, section) == Expected(c, o, section)
    ensures Lookup(Sub(b, section), field) == Lookup(Sub(c, section), field)
  {
  }

  /** Inside `dns` and `profile` only the named fields can differ. */
  lemma OtherFieldsStay(c: Fields, o: Options, section: Key, field: Key)
    requires Acceptable(o) && (section.Dns? || section.Profile?) && field !in Touched(section)
    ensures Lookup(Sub(Built(c, o), section), field) == Lookup(Sub(c, section), field)
  {
    BuiltIsExpected(c, o, section);
    FieldsStay(c, Built(c, o), o, section, field);
  }

  lemma ProvidersAre(c: Fields, b: Fields, o: Options)
    requires Acceptable(o) && Lookup(b, RuleProviders) == Expected(c, o, RuleProviders)
    ensures Sub(b, RuleProviders) ==
            if GroupOf(c).Some? then WithProxies(Sub(c, RuleProviders), GroupOf(c).value) else Sub(c, RuleProviders)
  {
  }

  lemma ProxyIsNew(p: Json, group: string)
    requires LacksProxy(p) && IsNamed(Some(Text(group)))
    ensures WithProxy(p, group) != p
  {
    assert Lookup(WithProxy(p, group).fields, Proxy) == Some(Text(group));
  }

  /**
   A rule provider changes exactly if there is a usable group and it is an http provider that names no
   proxy; then it differs in that field alone.
   */
  lemma ProvidersKeepTheirProxy(c: Fields, o: Options, name: Key)
    requires Acceptable(o) && name in Sub(c, RuleProviders)
    ensures
      var was := Sub(c, RuleProviders)[name];
      && name in Sub(Built(c, o), RuleProviders)
      && var now := Sub(Built(c, o), RuleProviders)[name];
      && (now != was <==> GroupOf(c).Some? && LacksProxy(was))
      && (now != was ==> now == Object(was.fields[Proxy := Text(GroupOf(c).value)]))
  {
    BuiltIsExpected(c, o, RuleProviders);
    ProvidersAre(c, Built(c, o), o);
    var was := Sub(c, RuleProviders)[name];
    if GroupOf(c).Some? && LacksProxy(was) {
      FirstGroupIsNamed(c[ProxyGroups].items);
      ProxyIsNew(was, GroupOf(c).value);
    }
  }

  // ---------------------------------------------------------------------------
  // What the built document says, key by key
  // ---------------------------------------------------------------------------

  /** Host, colon and the digits of the port. */
  predicate IsAddress(address: string, host: string, port: int) {
    && |address| > |host| && address[..|host|] == host && address[|host|] == ':'
    && AllDigits(address[|host| + 1..]) && Value(address[|host| + 1..]) == port
  }

  predicate SaysPort(b: Fields, k: Key, port: int) {
    Lookup(b, k) == if port == 0 then None else Some(Number(port))
  }

  ghost predicate SaysListeners(b: Fields, o: Options) {
    && SaysPort(b, MixedPort, o.mixedPort) && SaysPort(b, Port, o.httpPort) && SaysPort(b, SocksPort, o.socksPort)
    && (exists address ::
          Lookup(b, ExternalController) == Some(Text(address)) && IsAddress(address, o.controllerHost, o.controllerPort))
    && Lookup(b, AllowLan) == Some(Bool(o.allowLan))
    && Lookup(b, BindAddress) == Some(Text(if o.allowLan then "*" else "127.0.0.1"))
    && Lookup(b, Secret) == Some(Text(o.secret))
    && Lookup(b, Mode) == Some(Text("rule"))
  }

  lemma ControllerIsAddress(o: Options)
    requires Acceptable(o)
    ensures Controller(o).Text? && IsAddress(Controller(o).text, o.controllerHost, o.controllerPort)
  {
    var digits := Decimal(o.controllerPort);
    var address := o.controllerHost + ":" + digits;
    ValueOfDecimal(o.controllerPort);
    assert address[|o.controllerHost| + 1..] == digits && address[..|o.controllerHost|] == o.controllerHost;
  }

  lemma ListenersSaid(b: Fields, c: Fields, o: Options)
    requires Acceptable(o) && Meets(b, c, o)
    ensures SaysListeners(b, o)
  {
    assert Lookup(b, MixedPort) == Expected(c, o, MixedPort);
    assert Lookup(b, Port) == Expected(c, o, Port);
    assert Lookup(b, SocksPort) == Expected(c, o, SocksPort);
    assert Lookup(b, ExternalController) == Expected(c, o, ExternalController);
    assert Lookup(b, AllowLan) == Expected(c, o, AllowLan);
    assert Lookup(b, BindAddress) == Expected(c, o, BindAddress);
    assert Lookup(b, Secret) == Expected(c, o, Secret);
    assert Lookup(b, Mode) == Expected(c, o, Mode);
    ControllerIsAddress(o);
  }

  /** Nothing else listens, and the host is left alone. */
  predicate SaysNothingElse(b: Fields) {
    && (forall k <- [RedirPort, TproxyPort, Listeners, Tun, SsConfig, VmessConfig, TuicServer,
                     ControllerUnix, ControllerPipe, ControllerTls, ControllerMark, DohServer] :: k !in b)
    && (Dns in b && b[Dns].Object? ==> Listen !in b[Dns].fields)
  }

  predicate SaysPanel(b: Fields, panel: bool) {
    if panel then
      && Lookup(b, ExternalUi) == Some(Text("ui")) && Lookup(b, ExternalUiName) == Some(Text("metacubexd"))
      && Lookup(b, ExternalUiUrl) == Some(Text(PANEL_URL))
    else ExternalUi !in b && ExternalUiName !in b && ExternalUiUrl !in b
  }

  lemma RemovedIsGone(b: Fields, c: Fields, o: Options, k: Key)
    requires Acceptable(o) && Meets(b, c, o) && IsRemoved(k) && !IsUiKey(k) && !k.Port? && !k.SocksPort?
    ensures k !in b
  {
    assert Lookup(b, k) == Expected(c, o, k) == None;
  }

  lemma NoListenerInDns(b: Fields, c: Fields, o: Options)
    requires Acceptable(o) && Meets(b, c, o)
    ensures Dns in b && b[Dns].Object? ==> Listen !in b[Dns].fields
  {
    assert Lookup(b, Dns) == Expected(c, o, Dns);
  }

  lemma NothingElseSaid(b: Fields, c: Fields, o: Options)
    requires Acceptable(o) && Meets(b, c, o)
    ensures SaysNothingElse(b)
  {
    NoListenerInDns(b, c, o);
    forall k <- [RedirPort, TproxyPort, Listeners, Tun, SsConfig, VmessConfig, TuicServer,
                 ControllerUnix, ControllerPipe, ControllerTls, ControllerMark, DohServer] ensures k !in b
    {
      RemovedIsGone(b, c, o, k);
    }
  }

  lemma PanelSaid(b: Fields, c: Fields, o: Options)
    requires Acceptable(o) && Meets(b, c, o)
    ensures SaysPanel(b, o.controllerPanel)
  {
    assert Lookup(b, ExternalUi) == Expected(c, o, ExternalUi);
    assert Lookup(b, ExternalUiName) == Expected(c, o, ExternalUiName);
    assert Lookup(b, ExternalUiUrl) == Expected(c, o, ExternalUiUrl);
  }

  /** The controlled core settings, each in its own place. */
  predicate SaysCore(b: Fields, core: Core) {
    && Lookup(b, LogLevel) == Some(core.logLevel) && Lookup(b, Ipv6) == Some(core.ipv6)
    && Lookup(b, TcpConcurrent) == Some(core.tcpConcurrent) && Lookup(b, UnifiedDelay) == Some(core.unifiedDelay)
    && Lookup(b, FindProcessMode) == Some(core.findProcessMode)
    && Lookup(b, InterfaceName) ==
         (if core.interfaceName.Text? && core.interfaceName.text != "" then Some(core.interfaceName) else None)
    && Lookup(Sub(b, Profile), StoreSelected) == Some(core.storeSelected)
    && Lookup(Sub(b, Profile), StoreFakeIp) == Some(core.storeFakeIp)
  }

  /** ... and in the DNS section, if there is one. */
  predicate SaysDns(b: Fields, core: Core) {
    Dns in b && b[Dns].Object? ==> Lookup(b[Dns].fields, Ipv6) == Some(core.ipv6)
  }

  lemma PlainCoreSays(b: Fields, c: Fields, core: Core)
    requires forall k | IsCoreKey(k) :: Lookup(b, k) == CoreAt(core, c, k)
    ensures Lookup(b, LogLevel) == Some(core.logLevel) && Lookup(b, Ipv6) == Some(core.ipv6)
    ensures Lookup(b, TcpConcurrent) == Some(core.tcpConcurrent)
  {
  }

  lemma OtherCoreSays(b: Fields, c: Fields, core: Core)
    requires forall k | IsCoreKey(k) :: Lookup(b, k) == CoreAt(core, c, k)
    ensures Lookup(b, UnifiedDelay) == Some(core.unifiedDelay)
    ensures Lookup(b, FindProcessMode) == Some(core.findProcessMode)
    ensures Lookup(b, InterfaceName) == if HasInterface(core) then Some(core.interfaceName) else None
  {
  }

  lemma ProfileSays(b: Fields, c: Fields, core: Core)
    requires forall k | IsCoreKey(k) :: Lookup(b, k) == CoreAt(core, c, k)
    ensures Lookup(Sub(b, Profile), StoreSelected) == Some(core.storeSelected)
    ensures Lookup(Sub(b, Profile), StoreFakeIp) == Some(core.storeFakeIp)
  {
    assert Lookup(b, Profile) == CoreAt(core, c, Profile);
  }

  lemma CoreSaid(b: Fields, c: Fields, o: Options)
    requires Acceptable(o) && Meets(b, c, o) && o.core.Some?
    ensures SaysCore(b, o.core.value)
  {
    forall k | IsCoreKey(k) ensures Lookup(b, k) == CoreAt(o.core.value, c, k) {
    }
    PlainCoreSays(b, c, o.core.value);
    OtherCoreSays(b, c, o.core.value);
    ProfileSays(b, c, o.core.value);
  }

  lemma DnsSaid(b: Fields, c: Fields, o: Options)
    requires Acceptable(o) && Meets(b, c, o) && o.core.Some?
    ensures SaysDns(b, o.core.value)
  {
    assert Lookup(b, Dns) == Expected(c, o, Dns);
  }

  predicate SaysGeodata(b: Fields, g: Geodata) {
    && Lookup(b, GeodataMode) == Some(g.mode) && Lookup(b, GeodataLoader) == Some(g.loader)
    && Lookup(b, GeoAutoUpdate) == Some(g.autoUpdate) && Lookup(b, GeoUpdateInterval) == Some(g.interval)
    && Lookup(b, GeoxUrl) == Some(g.urls)
  }

  lemma GeodataFilesSay(b: Fields, c: Fields, g: Geodata)
    requires forall k | IsGeodataKey(k) :: Lookup(b, k) == GeodataAt(g, c, k)
    ensures Lookup(b, GeodataMode) == Some(g.mode) && Lookup(b, GeodataLoader) == Some(g.loader)
    ensures Lookup(b, GeoxUrl) == Some(g.urls)
  {
  }

  lemma GeodataUpdatesSay(b: Fields, c: Fields, g: Geodata)
    requires forall k | IsGeodataKey(k) :: Lookup(b, k) == GeodataAt(g, c, k)
    ensures Lookup(b, GeoAutoUpdate) == Some(g.autoUpdate) && Lookup(b, GeoUpdateInterval) == Some(g.interval)
  {
  }

  lemma GeodataSaid(b: Fields, c: Fields, o: Options)
    requires Acceptable(o) && Meets(b, c, o) && o.geodata.Some?
    ensures SaysGeodata(b, o.geodata.value)
  {
    forall k | IsGeodataKey(k) ensures Lookup(b, k) == GeodataAt(o.geodata.value, c, k) {
    }
    GeodataFilesSay(b, c, o.geodata.value);
    GeodataUpdatesSay(b, c, o.geodata.value);
  }

  /** Whatever the document is, what is built from it says exactly what the options say. */
  lemma BuiltSaysTheOptions(c: Fields, o: Options)
    requires Acceptable(o)
    ensures SaysListeners(Built(c, o), o) && SaysPanel(Built(c, o), o.controllerPanel) && SaysNothingElse(Built(c, o))
    ensures o.core.Some? ==> SaysCore(Built(c, o), o.core.value) && SaysDns(Built(c, o), o.core.value)
    ensures o.geodata.Some? ==> SaysGeodata(Built(c, o), o.geodata.value)
  {
    var b := Built(c, o);
    BuiltMeets(c, o);
    ListenersSaid(b, c, o);
    PanelSaid(b, c, o);
    NothingElseSaid(b, c, o);
    if o.core.Some? {
      CoreSaid(b, c, o);
      DnsSaid(b, c, o);
    }
    if o.geodata.Some? {
      GeodataSaid(b, c, o);
    }
  }

  /** The same letters, capital or not. */
  predicate SameIgnoringCase(a: string, b: string) {
    |a| == |b| && forall i | 0 <= i < |a| :: a[i] == b[i] || ('A' <= a[i] <= 'Z' && (a[i] - 'A') + 'a' == b[i])
  }

  /** The field is text with something other than spaces in it. */
  predicate SaysSomething(fields: Fields, k: Key) {
    k in fields && fields[k].Text? && exists c <- fields[k].text :: !IsSpace(c)
  }

  predicate SaysType(fields: Fields, kind: string) {
    Type in fields && fields[Type].Text? && SameIgnoringCase(fields[Type].text, kind)
  }

  lemma LowerIs(a: string, kind: string)
    requires forall i | 0 <= i < |kind| :: 'a' <= kind[i] <= 'z'
    ensures Lower(a) == kind <==> SameIgnoringCase(a, kind)
  {
    if Lower(a) == kind {
      forall i | 0 <= i < |a| ensures a[i] == kind[i] || ('A' <= a[i] <= 'Z' && (a[i] - 'A') + 'a' == kind[i]) {
        assert Lower(a)[i] == kind[i];
      }
    }
  }

  lemma NamedIs(fields: Fields, k: Key)
    ensures IsNamed(Lookup(fields, k)) <==> SaysSomething(fields, k)
  {
    if IsNamed(Lookup(fields, k)) {
      var i :| 0 <= i < |fields[k].text| && !IsSpace(fields[k].text[i]);
      assert fields[k].text[i] in fields[k].text;
    }
  }

  /** Which providers are given a proxy, and which groups can be it. */
  lemma WhoDownloadsExactly(j: Json)
    ensures LacksProxy(j) <==> j.Object? && SaysType(j.fields, "http") && !SaysSomething(j.fields, Proxy)
    ensures IsSelectGroup(j) <==> j.Object? && SaysType(j.fields, "select") && SaysSomething(j.fields, Name)
  {
    if j.Object? {
      NamedIs(j.fields, Proxy);
      NamedIs(j.fields, Name);
      if Type in j.fields && j.fields[Type].Text? {
        LowerIs(j.fields[Type].text, "http");
        LowerIs(j.fields[Type].text, "select");
      }
    }
  }

  /** `name` names the first usable group of the list. */
  predicate IsFirstGroup(groups: seq<Json>, name: string, i: nat) {
    && i < |groups| && IsSelectGroup(groups[i]) && Lookup(groups[i].fields, Name) == Some(Text(name))
    && forall j | 0 <= j < i :: !IsSelectGroup(groups[j])
  }

  lemma {:induction false} FirstGroupIsFirst(groups: seq<Json>)
    ensures FirstGroup(groups).Some? ==> exists i: nat :: IsFirstGroup(groups, FirstGroup(groups).value, i)
    ensures FirstGroup(groups).None? ==> forall g <- groups :: !IsSelectGroup(g)
    decreases |groups|
  {
    if groups != [] {
      if IsSelectGroup(groups[0]) {
        assert IsFirstGroup(groups, groups[0].fields[Name].text, 0);
      } else {
        FirstGroupIsFirst(groups[1..]);
        if FirstGroup(groups).Some? {
          var i: nat :| IsFirstGroup(groups[1..], FirstGroup(groups).value, i);
          assert IsFirstGroup(groups, FirstGroup(groups).value, i + 1);
        }
        assert groups == [groups[0]] + groups[1..];
      }
    }
  }

  /** Which proxy a provider of the built document downloads by: its own, or the first usable group. */
  lemma ProviderDownloadsBy(c: Fields, o: Options, name: Key)
    requires Acceptable(o) && name in Sub(c, RuleProviders) && LacksProxy(Sub(c, RuleProviders)[name])
    requires ProxyGroups in c && c[ProxyGroups].List?
    requires exists g <- c[ProxyGroups].items :: IsSelectGroup(g)
    ensures
      && name in Sub(Built(c, o), RuleProviders)
      && var now := Sub(Built(c, o), RuleProviders)[name];
      && now.Object?
      && exists group, i: nat ::
           Lookup(now.fields, Proxy) == Some(Text(group)) && IsFirstGroup(c[ProxyGroups].items, group, i)
  {
    FirstGroupIsFirst(c[ProxyGroups].items);
    ProvidersKeepTheirProxy(c, o, name);
  }

  // ---------------------------------------------------------------------------
  // The DNS and sniffer overlays
  // ---------------------------------------------------------------------------

  /** The block wins over the section, whose other fields stay. */
  function Overlaid(c: Fields, section: Key, block: Fields): Fields {
    c[section := Object(Sub(c, section) + block)]
  }

  /** An enhancement is skipped if it is off or the document cannot be parsed. */
  function Applied(document: Option<Fields>, enabled: bool, section: Key, block: Fields): Option<Fields> {
    if enabled && document.Some? then Some(Overlaid(document.value, section, block)) else document
  }

  method ApplyToDocument(document: Option<Fields>, enabled: bool, section: Key, block: Fields)
    returns (applied: Option<Fields>, warned: bool)
    ensures applied == Applied(document, enabled, section, block)
    ensures warned <==> enabled && document.None?
  {
    if !enabled {
      return document, false;
    }
    if document.None? {
      return document, true;
    }
    var existing := Sub(document.value, section);
    var merged, rest := existing, block.Keys;
    while rest != {}
      invariant rest <= block.Keys
      invariant merged == existing + (block - rest)
      decreases rest
    {
      var key :| key in rest;
      merged, rest := merged[key := block[key]], rest - {key};
    }
    assert block - rest == block;
    applied, warned := Some(document.value[section := Object(merged)]), false;
  }

  /** The two enhancements can be applied in either order, switched on or off. */
  lemma OverlaysCommute(document: Option<Fields>, dnsOn: bool, dns: Fields, snifferOn: bool, sniffer: Fields)
    ensures
      Applied(Applied(document, dnsOn, Dns, dns), snifferOn, Sniffer, sniffer) ==
      Applied(Applied(document, snifferOn, Sniffer, sniffer), dnsOn, Dns, dns)
  {
    if dnsOn && snifferOn && document.Some? {
      var c := document.value;
      assert Overlaid(Overlaid(c, Dns, dns), Sniffer, sniffer) == Overlaid(Overlaid(c, Sniffer, sniffer), Dns, dns);
    }
  }

  lemma OverlayAt(c: Fields, section: Key, block: Fields, k: Key)
    ensures Lookup(Overlaid(c, section, block), k) ==
            if k == section then Some(Object(Sub(c, section) + block)) else Lookup(c, k)
  {
  }

  lemma OverlayMeets(c: Fields, b: Fields, e: Fields, o: Options, block: Fields)
    requires Acceptable(o) && Meets(b, c, o) && Meets(e, Overlaid(c, Sniffer, block), o)
    ensures e == Overlaid(b, Sniffer, block)
  {
    assert Lookup(b, Sniffer) == Expected(c, o, Sniffer);
    SnifferStays(c, b, o);
    forall k ensures Lookup(e, k) == Lookup(Overlaid(b, Sniffer, block), k) {
      assert Lookup(e, k) == Expected(Overlaid(c, Sniffer, block), o, k) && Lookup(b, k) == Expected(c, o, k);
      OverlayAt(b, Sniffer, block, k);
      SnifferTable(c, o, block, k);
    }
    SameLookups(e, Overlaid(b, Sniffer, block));
  }

  lemma SnifferStays(c: Fields, b: Fields, o: Options)
    requires Acceptable(o) && Lookup(b, Sniffer) == Expected(c, o, Sniffer)
    ensures Sub(b, Sniffer) == Sub(c, Sniffer)
  {
  }

  /** The sniffer overlay and the kernel transformation do not meet. */
  lemma SnifferCommutesWithBuild(c: Fields, o: Options, block: Fields)
    requires Acceptable(o)
    ensures Built(Overlaid(c, Sniffer, block), o) == Overlaid(Built(c, o), Sniffer, block)
  {
    BuiltMeets(c, o);
    BuiltMeets(Overlaid(c, Sniffer, block), o);
    OverlayMeets(c, Built(c, o), Built(Overlaid(c, Sniffer, block), o), o, block);
  }

  lemma SnifferTable(c: Fields, o: Options, block: Fields, k: Key)
    requires Acceptable(o)
    ensures Expected(Overlaid(c, Sniffer, block), o, k) ==
            if k.Sniffer? then Some(Object(Sub(c, Sniffer) + block)) else Expected(c, o, k)
  {
  }

  /** What the DNS section is when the overlay comes before the transformation, and after it. */
  function DnsBefore(c: Fields, o: Options, block: Fields): Json {
    ExpectedDns(Object(Sub(c, Dns) + block), o.core)
  }

  function DnsAfter(c: Fields, o: Options, block: Fields): Json {
    var dns := if Dns in c then ExpectedDns(c[Dns], o.core) else Null;
    Object((if dns.Object? then dns.fields else map[]) + block)
  }

  /** A DNS block names `ipv6` and no listener; the two orders differ exactly if the core says otherwise. */
  lemma DnsOrders(c: Fields, o: Options, block: Fields)
    requires Listen !in block && Ipv6 in block
    ensures DnsBefore(c, o, block) == DnsAfter(c, o, block) <==> o.core.None? || o.core.value.ipv6 == block[Ipv6]
  {
    var before, after := DnsBefore(c, o, block).fields, DnsAfter(c, o, block).fields;
    assert after[Ipv6] == block[Ipv6];
    if o.core.None? || o.core.value.ipv6 == block[Ipv6] {
      assert before == after;
    } else {
      assert before[Ipv6] == o.core.value.ipv6;
    }
  }

  lemma DnsTable(c: Fields, o: Options, block: Fields, k: Key)
    requires Acceptable(o)
    ensures Expected(Overlaid(c, Dns, block), o, k) ==
            if k.Dns? then Some(DnsBefore(c, o, block)) else Expected(c, o, k)
  {
  }

  lemma DnsOverlayAt(c: Fields, b: Fields, o: Options, block: Fields)
    requires Acceptable(o) && Lookup(b, Dns) == Expected(c, o, Dns)
    ensures Object(Sub(b, Dns) + block) == DnsAfter(c, o, block)
  {
  }

  lemma DnsMeets(c: Fields, b: Fields, e: Fields, o: Options, block: Fields)
    requires Acceptable(o) && Meets(b, c, o) && Meets(e, Overlaid(c, Dns, block), o)
    ensures e == Overlaid(b, Dns, block) <==> DnsBefore(c, o, block) == DnsAfter(c, o, block)
  {
    assert Lookup(b, Dns) == Expected(c, o, Dns);
    DnsOverlayAt(c, b, o, block);
    forall k ensures Lookup(e, k) == Lookup(Overlaid(b, Dns, block), k) <==>
                     !k.Dns? || DnsBefore(c, o, block) == DnsAfter(c, o, block) {
      assert Lookup(e, k) == Expected(Overlaid(c, Dns, block), o, k) && Lookup(b, k) == Expected(c, o, k);
      OverlayAt(b, Dns, block, k);
      DnsTable(c, o, block, k);
    }
    if DnsBefore(c, o, block) == DnsAfter(c, o, block) {
      SameLookups(e, Overlaid(b, Dns, block));
    } else {
      assert Lookup(e, Dns) != Lookup(Overlaid(b, Dns, block), Dns);
    }
  }

  /**
   The DNS overlay and the kernel transformation can be exchanged exactly if the core settings are off
   or agree with the block on `ipv6`.
   */
  lemma DnsCommutesWithBuild(c: Fields, o: Options, block: Fields)
    requires Acceptable(o) && Listen !in block && Ipv6 in block
    ensures Built(Overlaid(c, Dns, block), o) == Overlaid(Built(c, o), Dns, block) <==>
            o.core.None? || o.core.value.ipv6 == block[Ipv6]
  {
    BuiltMeets(c, o);
    BuiltMeets(Overlaid(c, Dns, block), o);
    DnsMeets(c, Built(c, o), Built(Overlaid(c, Dns, block), o), o, block);
    DnsOrders(c, o, block);
  }
}
