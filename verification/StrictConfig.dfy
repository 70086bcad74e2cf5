/**
 The strict configuration: the validator of src-tauri/src/kernel_config_validation.rs and the
 generator of src-tauri/src/kernel_process.rs, both at the level of node trees.
 */
module StrictConfig {
  import opened Text
  import opened Wrappers
  import opened Yaml

  const ALLOWED_KEYS := ["port", "socks-port", "mixed-port", "allow-lan", "bind-address", "mode", "log-level",
                         "ipv6", "external-controller", "external-ui", "external-ui-url", "external-ui-name",
                         "secret", "tun", "dns", "rules"]

  const OPTIONAL_KEYS := ["port", "socks-port", "external-ui", "external-ui-url", "external-ui-name"]

  const LOG_LEVELS := ["silent", "error", "warn", "info", "debug"]

  const TRUE := "true"
  const FALSE := "false"
  const LOOPBACK := "127.0.0.1"
  const DIRECT := "direct"
  const UI := "ui"
  const PANEL_NAME := "metacubexd"
  const ENABLE := "enable"
  const RULE := "MATCH,DIRECT"
  const PANEL_URL := "https://github.com/MetaCubeX/metacubexd/archive/refs/heads/gh-pages.zip"
  const MIN_PORT: int := 1024
  const MAX_PORT: int := 65535

  datatype Error =
    | NotAMapping
    | MissingValue
    | UsesAlias
    | KeyNotScalar
    | UsesTag(key: string)
    | Duplicate(key: string)
    | UnknownKey(key: string)
    | MissingKey(key: string)
    | NotScalar(key: string)
    | BadPort(key: string)
    | PortNotNumber(key: string)
    | BadValue(key: string)
    | BadControllerPort
    | NotASequence
    | RulesNotExact
    | WrongRule
    | SectionNotMapping(section: string)
    | SectionMissingValue(section: string)
    | SectionUsesAliasOrTag(section: string)
    | SectionKeyNotScalar(section: string)
    | SectionDuplicate(section: string, key: string)
    | SectionExtraKey(section: string)
    | SectionNotDisabled(section: string)

  // ---------------------------------------------------------------------------
  // What the validator reports
  // ---------------------------------------------------------------------------

  predicate IsTagged(n: Node) {
    !n.Alias? && n.tag.Some?
  }

  predicate IsKey(n: Node) {
    n.Leaf? && n.value.Str?
  }

  predicate IsFalse(n: Node) {
    n.Leaf? && n.value == Bool(false)
  }

  predicate PortInRange(p: int) {
    MIN_PORT <= p <= MAX_PORT
  }

  /** The port text of a supported listen address. */
  function ControllerPort(address: string): Option<string> {
    if "127.0.0.1:" <= address && IsNumber(address[10..]) then Some(address[10..])
    else if "0.0.0.0:" <= address && IsNumber(address[8..]) then Some(address[8..])
    else None
  }

  predicate IsPortKey(key: string) {
    key == "mixed-port" || key == "port" || key == "socks-port"
  }

  function ScalarErrors(key: string, value: Scalar): seq<Error> {
    if IsPortKey(key) then
      if value.Int? then (if PortInRange(value.number) then [] else [BadPort(key)])
      else if value.Real? then [BadPort(key)]
      else [PortNotNumber(key)]
    else if key == "allow-lan" then (if value.Bool? then [] else [BadValue(key)])
    else if key == "bind-address" then (if value == Str(LOOPBACK) || value == Str("*") then [] else [BadValue(key)])
    else if key == "mode" then (if value == Str(DIRECT) then [] else [BadValue(key)])
    else if key == "log-level" then (if value.Str? && value.text in LOG_LEVELS then [] else [BadValue(key)])
    else if key == "ipv6" then (if value == Bool(false) then [] else [BadValue(key)])
    else if key == "external-controller" then
      if !value.Str? || ControllerPort(value.text).None? then [BadValue(key)]
      else
        var port := ParseI64(ControllerPort(value.text).value);
        if port.Some? && PortInRange(port.value) then [] else [BadControllerPort]
    else if key == "secret" then (if value.Str? && IsHex64(value.text) then [] else [BadValue(key)])
    else if key == "external-ui" then (if value == Str(UI) then [] else [BadValue(key)])
    else if key == "external-ui-name" then (if value == Str(PANEL_NAME) then [] else [BadValue(key)])
    else if key == "external-ui-url" then (if value == Str(PANEL_URL) then [] else [BadValue(key)])
    else []
  }

  predicate IsRule(n: Node) {
    n.Leaf? && n.tag.None? && n.value == Str(RULE)
  }

  function RuleErrors(n: Node): seq<Error> {
    if !n.Sequence? then [NotASequence]
    else if |n.items| != 1 then [RulesNotExact]
    else if !IsRule(n.items[0]) then [WrongRule]
    else []
  }

  /** The errors so far and the keys met so far. */
  datatype Walk = Walk(errors: seq<Error>, seen: seq<string>)

  function Report(w: Walk, e: Error): Walk {
    w.(errors := w.errors + [e])
  }

  /** One member of `tun` or `dns`. */
  function SectionStep(section: string, w: Walk, e: Pair): Walk {
    if e.value.None? then Report(w, SectionMissingValue(section))
    else if e.key.Alias? || e.value.value.Alias? || IsTagged(e.key) || IsTagged(e.value.value) then
      Report(w, SectionUsesAliasOrTag(section))
    else if !IsKey(e.key) then Report(w, SectionKeyNotScalar(section))
    else if e.key.value.text in w.seen then Report(w, SectionDuplicate(section, e.key.value.text))
    else
      var met := w.(seen := w.seen + [e.key.value.text]);
      if e.key.value.text != ENABLE then Report(met, SectionExtraKey(section))
      else if !IsFalse(e.value.value) then Report(met, SectionNotDisabled(section))
      else met
  }

  function SectionWalk(section: string, entries: seq<Pair>): Walk {
    if entries == [] then Walk([], [])
    else SectionStep(section, SectionWalk(section, entries[..|entries| - 1]), entries[|entries| - 1])
  }

  function NestedErrors(section: string, n: Node): seq<Error> {
    if section == "rules" then RuleErrors(n)
    else if !n.Mapping? then [SectionNotMapping(section)]
    else
      var w := SectionWalk(section, n.entries);
      if ENABLE in w.seen then w.errors else w.errors + [SectionNotDisabled(section)]
  }

  function KeyErrors(key: string, n: Node): seq<Error> {
    if n.Leaf? then ScalarErrors(key, n.value)
    else if key == "tun" || key == "dns" || key == "rules" then NestedErrors(key, n)
    else [NotScalar(key)]
  }

  /** One top-level entry. */
  function TopStep(w: Walk, e: Pair): Walk {
    if e.value.None? then Report(w, MissingValue)
    else if e.key.Alias? || e.value.value.Alias? then Report(w, UsesAlias)
    else if !IsKey(e.key) then Report(w, KeyNotScalar)
    else if IsTagged(e.key) || IsTagged(e.value.value) then Report(w, UsesTag(e.key.value.text))
    else if e.key.value.text in w.seen then Report(w, Duplicate(e.key.value.text))
    else
      var met := w.(seen := w.seen + [e.key.value.text]);
      if e.key.value.text !in ALLOWED_KEYS then Report(met, UnknownKey(e.key.value.text))
      else met.(errors := met.errors + KeyErrors(e.key.value.text, e.value.value))
  }

  function TopWalk(entries: seq<Pair>): Walk {
    if entries == [] then Walk([], [])
    else TopStep(TopWalk(entries[..|entries| - 1]), entries[|entries| - 1])
  }

  function MissingErrors(keys: seq<string>, seen: seq<string>): seq<Error> {
    if keys == [] then []
    else
      MissingErrors(keys[..|keys| - 1], seen)
      + (var k := keys[|keys| - 1]; if k in OPTIONAL_KEYS || k in seen then [] else [MissingKey(k)])
  }

  /** Everything `mihomo_config_errors` reports about a parsed document, in order. */
  function Errors(root: Node): seq<Error> {
    if !root.Mapping? then [NotAMapping]
    else
      var w := TopWalk(root.entries);
      w.errors + MissingErrors(ALLOWED_KEYS, w.seen)
  }

  // ---------------------------------------------------------------------------
  // The validator's loops
  // ---------------------------------------------------------------------------

  method CollectSectionErrors(section: string, entries: seq<Pair>) returns (errors: seq<Error>, seen: seq<string>)
    ensures Walk(errors, seen) == SectionWalk(section, entries)
  {
    errors, seen := [], [];
    for i := 0 to |entries|
      invariant Walk(errors, seen) == SectionWalk(section, entries[..i])
    {
      assert entries[..i + 1][..i] == entries[..i];
      var key, value := entries[i].key, entries[i].value;
      if value.None? {
        errors := errors + [SectionMissingValue(section)];
        continue;
      }
      if key.Alias? || value.value.Alias? || IsTagged(key) || IsTagged(value.value) {
        errors := errors + [SectionUsesAliasOrTag(section)];
        continue;
      }
      if !IsKey(key) {
        errors := errors + [SectionKeyNotScalar(section)];
        continue;
      }
      if key.value.text in seen {
        errors := errors + [SectionDuplicate(section, key.value.text)];
        continue;
      }
      seen := seen + [key.value.text];
      if key.value.text != ENABLE {
        errors := errors + [SectionExtraKey(section)];
        continue;
      }
      if !IsFalse(value.value) {
        errors := errors + [SectionNotDisabled(section)];
      }
    }
    assert entries[..|entries|] == entries;
  }

  method CollectNestedErrors(section: string, n: Node) returns (errors: seq<Error>)
    ensures errors == NestedErrors(section, n)
  {
    if section == "rules" {
      if !n.Sequence? {
        return [NotASequence];
      }
      if |n.items| != 1 {
        return [RulesNotExact];
      }
      for i := 0 to |n.items|
        invariant forall j | 0 <= j < i :: IsRule(n.items[j])
      {
        if !IsRule(n.items[i]) {
          return [WrongRule];
        }
      }
      return [];
    }
    if !n.Mapping? {
      return [SectionNotMapping(section)];
    }
    var seen;
    errors, seen := CollectSectionErrors(section, n.entries);
    if ENABLE !in seen {
      errors := errors + [SectionNotDisabled(section)];
    }
  }

  method CollectKeyErrors(key: string, n: Node) returns (errors: seq<Error>)
    ensures errors == KeyErrors(key, n)
  {
    if n.Leaf? {
      return ScalarErrors(key, n.value);
    }
    if key == "tun" || key == "dns" || key == "rules" {
      errors := CollectNestedErrors(key, n);
    } else {
      errors := [NotScalar(key)];
    }
  }

  method MihomoConfigErrors(root: Node) returns (errors: seq<Error>)
    ensures errors == Errors(root)
  {
    if !root.Mapping? {
      return [NotAMapping];
    }
    var entries := root.entries;
    var seen: seq<string> := [];
    errors := [];
    for i := 0 to |entries|
      invariant Walk(errors, seen) == TopWalk(entries[..i])
    {
      assert entries[..i + 1][..i] == entries[..i];
      var key, value := entries[i].key, entries[i].value;
      if value.None? {
        errors := errors + [MissingValue];
        continue;
      }
      if key.Alias? || value.value.Alias? {
        errors := errors + [UsesAlias];
        continue;
      }
      if !IsKey(key) {
        errors := errors + [KeyNotScalar];
        continue;
      }
      if IsTagged(key) || IsTagged(value.value) {
        errors := errors + [UsesTag(key.value.text)];
        continue;
      }
      if key.value.text in seen {
        errors := errors + [Duplicate(key.value.text)];
        continue;
      }
      seen := seen + [key.value.text];
      if key.value.text !in ALLOWED_KEYS {
        errors := errors + [UnknownKey(key.value.text)];
        continue;
      }
      var more := CollectKeyErrors(key.value.text, value.value);
      errors := errors + more;
    }
    assert entries[..|entries|] == entries;
    var missing := CollectMissing(ALLOWED_KEYS, seen);
    errors := errors + missing;
  }

  method CollectMissing(keys: seq<string>, seen: seq<string>) returns (errors: seq<Error>)
    ensures errors == MissingErrors(keys, seen)
  {
    errors := [];
    for i := 0 to |keys|
      invariant errors == MissingErrors(keys[..i], seen)
    {
      assert keys[..i + 1][..i] == keys[..i];
      if keys[i] in OPTIONAL_KEYS {
        continue;
      }
      if keys[i] !in seen {
        errors := errors + [MissingKey(keys[i])];
      }
    }
    assert keys[..|keys|] == keys;
  }

  // ---------------------------------------------------------------------------
  // The strict documents, declaratively
  // ---------------------------------------------------------------------------

  const DISABLED := [Pair(Leaf(Str(ENABLE), None), Some(Leaf(Bool(false), None)))]

  const HOSTS := [LOOPBACK, "0.0.0.0"]

  /** A supported host, a colon and an unprivileged port. */
  predicate IsListenAddress(address: string) {
    exists i | 0 <= i < |address| ::
      && address[i] == ':' && address[..i] in HOSTS
      && IsNumber(address[i + 1..]) && PortInRange(Value(address[i + 1..]))
  }

  predicate ValueAllowed(key: string, n: Node) {
    if key == "tun" || key == "dns" then n.Leaf? || (n.Mapping? && n.entries == DISABLED)
    else if key == "rules" then n.Leaf? || (n.Sequence? && n.items == [Leaf(Str(RULE), None)])
    else
      && n.Leaf?
      && (IsPortKey(key) ==> n.value.Int? && PortInRange(n.value.number))
      && (key == "allow-lan" ==> n.value.Bool?)
      && (key == "bind-address" ==> n.value == Str(LOOPBACK) || n.value == Str("*"))
      && (key == "mode" ==> n.value == Str(DIRECT))
      && (key == "log-level" ==> n.value.Str? && n.value.text in LOG_LEVELS)
      && (key == "ipv6" ==> n.value == Bool(false))
      && (key == "external-controller" ==> n.value.Str? && IsListenAddress(n.value.text))
      && (key == "secret" ==> n.value.Str? && IsHex64(n.value.text))
      && (key == "external-ui" ==> n.value == Str(UI))
      && (key == "external-ui-name" ==> n.value == Str(PANEL_NAME))
      && (key == "external-ui-url" ==> n.value == Str(PANEL_URL))
  }

  /** An untagged allowed key with an untagged allowed value. */
  predicate EntryAllowed(e: Pair) {
    && IsKey(e.key) && !IsTagged(e.key) && e.key.value.text in ALLOWED_KEYS
    && e.value.Some? && !e.value.value.Alias? && !IsTagged(e.value.value)
    && ValueAllowed(e.key.value.text, e.value.value)
  }

  function KeyOf(e: Pair): string {
    if IsKey(e.key) then e.key.value.text else ""
  }

  function Keys(entries: seq<Pair>): (keys: seq<string>)
    ensures |keys| == |entries|
    ensures forall i | 0 <= i < |entries| :: keys[i] == KeyOf(entries[i])
  {
    seq(|entries|, i requires 0 <= i < |entries| => KeyOf(entries[i]))
  }

  predicate Distinct(keys: seq<string>) {
    forall i, j | 0 <= i < j < |keys| :: keys[i] != keys[j]
  }

  /** Allowed entries with distinct keys, and every required key. */
  predicate Strict(root: Node) {
    && root.Mapping?
    && (forall e <- root.entries :: EntryAllowed(e))
    && Distinct(Keys(root.entries))
    && (forall key <- ALLOWED_KEYS | key !in OPTIONAL_KEYS :: key in Keys(root.entries))
  }

  // ---------------------------------------------------------------------------
  // No errors means strict
  // ---------------------------------------------------------------------------

  lemma ParsePort(s: string)
    requires IsNumber(s)
    ensures ParseI64(s).Some? && PortInRange(ParseI64(s).value) <==> PortInRange(Value(s))
  {
    assert Unsigned(s) == s;
  }

  lemma ControllerIsListenAddress(address: string)
    ensures IsListenAddress(address) <==>
            ControllerPort(address).Some? && PortInRange(Value(ControllerPort(address).value))
  {
    if ControllerPort(address).Some? {
      var i := |address| - |ControllerPort(address).value| - 1;
      assert address[i + 1..] == ControllerPort(address).value;
      assert address[..i] in HOSTS by {
        assert address[..i] == HOSTS[0] || address[..i] == HOSTS[1];
      }
    }
    if IsListenAddress(address) {
      ListenAddressHasPort(address);
    }
  }

  lemma ListenAddressHasPort(address: string)
    requires IsListenAddress(address)
    ensures ControllerPort(address).Some? && PortInRange(Value(ControllerPort(address).value))
  {
    var i :| 0 <= i < |address| && address[i] == ':' && address[..i] in HOSTS
             && IsNumber(address[i + 1..]) && PortInRange(Value(address[i + 1..]));
    assert address[..i + 1] == address[..i] + ":";
    if address[..i] == LOOPBACK {
      assert address[..10] == "127.0.0.1:";
    } else {
      assert address[..8] == "0.0.0.0:";
      assert address[0] == '0';
    }
  }

  lemma ScalarErrorsExact(key: string, value: Scalar)
    requires key in ALLOWED_KEYS
    ensures ScalarErrors(key, value) == [] <==> ValueAllowed(key, Leaf(value, None))
  {
    if key == "external-controller" && value.Str? {
      ControllerIsListenAddress(value.text);
      if ControllerPort(value.text).Some? {
        ParsePort(ControllerPort(value.text).value);
      }
    }
  }

  lemma {:induction false} SectionWalkExact(section: string, entries: seq<Pair>)
    ensures SectionWalk(section, entries).errors == [] <==> entries == [] || entries == DISABLED
    ensures entries == [] ==> SectionWalk(section, entries).seen == []
    ensures entries == DISABLED ==> SectionWalk(section, entries).seen == [ENABLE]
    decreases |entries|
  {
    if entries != [] {
      var before := entries[..|entries| - 1];
      var e := entries[|entries| - 1];
      SectionWalkExact(section, before);
      var w := SectionWalk(section, before);
      if |entries| == 1 {
        assert before == [];
        if SectionWalk(section, entries).errors == [] {
          assert e == DISABLED[0];
          assert entries == [e];
        }
      } else {
        assert entries != DISABLED;
      }
    }
  }

  lemma KeyErrorsExact(key: string, n: Node)
    requires key in ALLOWED_KEYS && !n.Alias?
    ensures KeyErrors(key, n) == [] <==> ValueAllowed(key, n)
  {
    if n.Leaf? {
      ScalarErrorsExact(key, n.value);
      assert ValueAllowed(key, n) <==> ValueAllowed(key, Leaf(n.value, None));
    } else if key == "rules" {
      if n.Sequence? && |n.items| == 1 {
        assert n.items == [n.items[0]];
      }
    } else if n.Mapping? {
      SectionWalkExact(key, n.entries);
    }
  }

  lemma {:induction false} TopWalkExact(entries: seq<Pair>)
    ensures TopWalk(entries).errors == [] <==> (forall e <- entries :: EntryAllowed(e)) && Distinct(Keys(entries))
    ensures TopWalk(entries).errors == [] ==> TopWalk(entries).seen == Keys(entries)
    decreases |entries|
  {
    if entries == [] {
      assert Keys(entries) == [];
    } else {
      var before := entries[..|entries| - 1];
      var e := entries[|entries| - 1];
      TopWalkExact(before);
      assert entries == before + [e];
      TopStepExact(TopWalk(before), e);
      StepPasses(before, e, TopWalk(before), TopStep(TopWalk(before), e), x => EntryAllowed(x));
    }
  }

  /** One entry more, whatever the rule for an entry is. */
  lemma StepPasses(before: seq<Pair>, e: Pair, w: Walk, next: Walk, ok: Pair -> bool)
    requires w.errors == [] <==> (forall x <- before :: ok(x)) && Distinct(Keys(before))
    requires w.errors == [] ==> w.seen == Keys(before)
    requires next.errors == [] <==> w.errors == [] && ok(e) && KeyOf(e) !in w.seen
    requires next.errors == [] ==> next.seen == w.seen + [KeyOf(e)]
    ensures next.errors == [] <==> (forall x <- before + [e] :: ok(x)) && Distinct(Keys(before + [e]))
    ensures next.errors == [] ==> next.seen == Keys(before + [e])
  {
    OneMoreEntry(before, e, ok);
  }

  lemma OneMoreEntry(before: seq<Pair>, e: Pair, ok: Pair -> bool)
    ensures (forall x <- before + [e] :: ok(x)) <==> (forall x <- before :: ok(x)) && ok(e)
    ensures Keys(before + [e]) == Keys(before) + [KeyOf(e)]
    ensures Distinct(Keys(before + [e])) <==> Distinct(Keys(before)) && KeyOf(e) !in Keys(before)
  {
    assert Keys(before + [e]) == Keys(before) + [KeyOf(e)];
    OneMoreKey(Keys(before), KeyOf(e));
  }

  lemma OneMoreKey(keys: seq<string>, key: string)
    ensures Distinct(keys + [key]) <==> Distinct(keys) && key !in keys
  {
    var longer := keys + [key];
    assert forall i | 0 <= i < |keys| :: longer[i] == keys[i];
    if Distinct(longer) {
      assert forall i | 0 <= i < |keys| :: keys[i] != longer[|keys|];
      assert forall i, j | 0 <= i < j < |keys| :: longer[i] != longer[j];
    }
  }

  lemma TopStepExact(w: Walk, e: Pair)
    ensures TopStep(w, e).errors == [] <==> w.errors == [] && EntryAllowed(e) && KeyOf(e) !in w.seen
    ensures TopStep(w, e).errors == [] ==> TopStep(w, e).seen == w.seen + [KeyOf(e)]
  {
    if e.value.Some? && IsKey(e.key) && e.key.value.text in ALLOWED_KEYS && !e.value.value.Alias? {
      KeyErrorsExact(e.key.value.text, e.value.value);
    }
  }

  lemma {:induction false} MissingErrorsExact(keys: seq<string>, seen: seq<string>)
    ensures MissingErrors(keys, seen) == [] <==> forall key <- keys | key !in OPTIONAL_KEYS :: key in seen
    decreases |keys|
  {
    if keys != [] {
      var before := keys[..|keys| - 1];
      assert keys == before + [keys[|keys| - 1]];
      MissingErrorsExact(before, seen);
    }
  }

  /** The validator reports nothing exactly for the strict documents. */
  lemma ValidatorIsExact(root: Node)
    ensures Errors(root) == [] <==> Strict(root)
  {
    if root.Mapping? {
      TopWalkExact(root.entries);
      MissingErrorsExact(ALLOWED_KEYS, TopWalk(root.entries).seen);
    }
  }

  // ---------------------------------------------------------------------------
  // What the reports say
  // ---------------------------------------------------------------------------

  /** An entry that gets as far as its key: no alias, no tag, a text key, a value. */
  predicate IsPlainEntry(e: Pair) {
    && e.value.Some? && !e.key.Alias? && !e.value.value.Alias?
    && IsKey(e.key) && e.key.tag.None? && !IsTagged(e.value.value)
  }

  /** A report about the value of a key. */
  predicate IsAboutValue(e: Error) {
    !e.MissingValue? && !e.UsesAlias? && !e.KeyNotScalar? && !e.UsesTag? && !e.Duplicate? && !e.UnknownKey? &&
    !e.MissingKey? && !e.NotAMapping?
  }

  lemma {:induction false} SectionReports(section: string, entries: seq<Pair>)
    ensures forall e <- SectionWalk(section, entries).errors :: IsAboutValue(e)
    decreases |entries|
  {
    if entries != [] {
      SectionReports(section, entries[..|entries| - 1]);
    }
  }

  lemma KeyReports(key: string, n: Node)
    ensures forall e <- KeyErrors(key, n) :: IsAboutValue(e)
  {
    if n.Mapping? {
      SectionReports(key, n.entries);
    }
  }

  /** What one entry adds to the reports about keys. */
  lemma StepReports(w: Walk, e: Pair, r: Error)
    requires !IsAboutValue(r)
    ensures
      var t := TopStep(w, e);
      var key := KeyOf(e);
      && t.seen == (if IsPlainEntry(e) && key !in w.seen then w.seen + [key] else w.seen)
      && (r in t.errors <==> r in w.errors || IsReportFor(e, key in w.seen, r))
  {
    if IsPlainEntry(e) {
      KeyReports(e.key.value.text, e.value.value);
    }
  }

  /** `r` is what is to be said about the entry, its key having been met before or not. */
  predicate IsReportFor(e: Pair, met: bool, r: Error) {
    if e.value.None? then r.MissingValue?
    else if e.key.Alias? || e.value.value.Alias? then r.UsesAlias?
    else if !IsKey(e.key) then r.KeyNotScalar?
    else if !IsPlainEntry(e) then r == UsesTag(KeyOf(e))
    else if met then r == Duplicate(KeyOf(e))
    else KeyOf(e) !in ALLOWED_KEYS && r == UnknownKey(KeyOf(e))
  }

  /** Among the first `n` entries there is a plain one with this key. */
  predicate Names(entries: seq<Pair>, n: nat, key: string)
    requires n <= |entries|
  {
    exists i :: 0 <= i < n && IsPlainEntry(entries[i]) && KeyOf(entries[i]) == key
  }

  /** One step, whatever the two walks are. */
  lemma OneMoreName(entries: seq<Pair>, w: Walk, t: Walk, key: string)
    requires entries != []
    requires
      var e := entries[|entries| - 1];
      && t.seen == (if IsPlainEntry(e) && KeyOf(e) !in w.seen then w.seen + [KeyOf(e)] else w.seen)
      && (key in w.seen <==> Names(entries[..|entries| - 1], |entries| - 1, key))
    ensures key in t.seen <==> Names(entries, |entries|, key)
  {
    var n := |entries| - 1;
    NamesBefore(entries, n, key);
    assert Names(entries, n + 1, key) <==> Names(entries, n, key) || (IsPlainEntry(entries[n]) && KeyOf(entries[n]) == key);
  }

  lemma NamesBefore(entries: seq<Pair>, i: nat, key: string)
    requires i < |entries|
    ensures Names(entries[..|entries| - 1], i, key) <==> Names(entries, i, key)
  {
    var before := entries[..|entries| - 1];
    assert forall j | 0 <= j < i :: before[j] == entries[j];
  }

  lemma {:induction false} SeenExactly(entries: seq<Pair>, key: string)
    ensures key in TopWalk(entries).seen <==> Names(entries, |entries|, key)
    decreases |entries|
  {
    if entries != [] {
      var n := |entries| - 1;
      SeenExactly(entries[..n], key);
      StepReports(TopWalk(entries[..n]), entries[n], MissingValue);
      OneMoreName(entries, TopWalk(entries[..n]), TopWalk(entries), key);
    }
  }

  /** The entry at `i` gives rise to the report `r`, given the entries before it. */
  predicate Warrants(entries: seq<Pair>, i: nat, r: Error)
    requires i < |entries|
  {
    IsReportFor(entries[i], Names(entries, i, KeyOf(entries[i])), r)
  }

  lemma WarrantsBefore(entries: seq<Pair>, i: nat, r: Error)
    requires i < |entries| - 1
    ensures Warrants(entries[..|entries| - 1], i, r) <==> Warrants(entries, i, r)
  {
    NamesBefore(entries, i, KeyOf(entries[i]));
  }

  ghost predicate SomeWarrants(entries: seq<Pair>, n: nat, r: Error)
    requires n <= |entries|
  {
    exists i: nat :: i < n && Warrants(entries, i, r)
  }

  lemma SomeWarrantsStep(entries: seq<Pair>, r: Error)
    requires entries != []
    ensures
      var n := |entries| - 1;
      SomeWarrants(entries, n + 1, r) <==> SomeWarrants(entries[..n], n, r) || Warrants(entries, n, r)
  {
    var n := |entries| - 1;
    forall i: nat | i < n ensures Warrants(entries[..n], i, r) <==> Warrants(entries, i, r) {
      WarrantsBefore(entries, i, r);
    }
    if SomeWarrants(entries[..n], n, r) {
      var i: nat :| i < n && Warrants(entries[..n], i, r);
      assert Warrants(entries, i, r);
    }
    if SomeWarrants(entries, n + 1, r) {
      var i: nat :| i < n + 1 && Warrants(entries, i, r);
      assert i < n ==> Warrants(entries[..n], i, r);
    }
  }

  /** One step, whatever the two walks are. */
  lemma OneMoreWarrants(entries: seq<Pair>, w: Walk, t: Walk, r: Error)
    requires entries != []
    requires
      var n := |entries| - 1;
      var met := KeyOf(entries[n]) in w.seen;
      && (met <==> Names(entries[..n], n, KeyOf(entries[n])))
      && (r in w.errors <==> SomeWarrants(entries[..n], n, r))
      && (r in t.errors <==> r in w.errors || IsReportFor(entries[n], met, r))
    ensures r in t.errors <==> SomeWarrants(entries, |entries|, r)
  {
    NamesBefore(entries, |entries| - 1, KeyOf(entries[|entries| - 1]));
    SomeWarrantsStep(entries, r);
  }

  /**
   Apart from the values, every report is about an entry that deserves it, and every such entry is reported:
   no value, an alias, a key that is no text, a tag, a key met before, or a key that is not allowed.
   */
  lemma {:induction false} ReportsExactly(entries: seq<Pair>, r: Error)
    requires !IsAboutValue(r)
    ensures r in TopWalk(entries).errors <==> SomeWarrants(entries, |entries|, r)
    decreases |entries|
  {
    if entries != [] {
      var n := |entries| - 1;
      ReportsExactly(entries[..n], r);
      SeenExactly(entries[..n], KeyOf(entries[n]));
      StepReports(TopWalk(entries[..n]), entries[n], r);
      OneMoreWarrants(entries, TopWalk(entries[..n]), TopWalk(entries), r);
    }
  }

  lemma {:induction false} MissingExactly(keys: seq<string>, seen: seq<string>, r: Error)
    ensures r in MissingErrors(keys, seen) <==> r.MissingKey? && r.key in keys && r.key !in OPTIONAL_KEYS && r.key !in seen
    decreases |keys|
  {
    if keys != [] {
      var before := keys[..|keys| - 1];
      assert keys == before + [keys[|keys| - 1]];
      MissingExactly(before, seen, r);
    }
  }

  /** A key is reported missing exactly if it is required and no plain entry has it. */
  lemma MissingIsReportedExactly(root: Node, key: string)
    requires root.Mapping?
    ensures MissingKey(key) in Errors(root) <==>
            key in ALLOWED_KEYS && key !in OPTIONAL_KEYS && !Names(root.entries, |root.entries|, key)
  {
    MissingExactly(ALLOWED_KEYS, TopWalk(root.entries).seen, MissingKey(key));
    SeenExactly(root.entries, key);
    ReportsExactly(root.entries, MissingKey(key));
  }

  // ---------------------------------------------------------------------------
  // The generator
  // ---------------------------------------------------------------------------

  datatype Options = Options(
    mixedPort: int,
    controllerPort: int,
    httpPort: int,
    socksPort: int,
    allowLan: bool,
    controllerHost: string,
    controllerPanel: bool,
    logLevel: string,
    secret: string,
    mode: string)

  /** The keys in the order of the generated lines. */
  const LINE_KEYS := ["port", "socks-port", "mixed-port", "allow-lan", "bind-address", "mode", "log-level",
                      "ipv6", "external-controller", "secret", "external-ui", "external-ui-name",
                      "external-ui-url", "tun", "dns", "rules"]

  predicate Acceptable(o: Options) {
    && PortInRange(o.mixedPort) && PortInRange(o.controllerPort) && o.mixedPort != o.controllerPort
    && (o.httpPort != 0 ==> PortInRange(o.httpPort) && o.httpPort != o.mixedPort && o.httpPort != o.controllerPort)
    && (o.socksPort != 0 ==> PortInRange(o.socksPort) && o.socksPort != o.mixedPort && o.socksPort != o.controllerPort)
    && (o.httpPort != 0 && o.socksPort != 0 ==> o.httpPort != o.socksPort)
    && IsHex64(o.secret)
    && o.mode == DIRECT
    && o.logLevel in LOG_LEVELS
  }

  /** The ports that something listens on. */
  function ActivePorts(o: Options): seq<int> {
    [o.mixedPort, o.controllerPort] + (if o.httpPort != 0 then [o.httpPort] else [])
    + if o.socksPort != 0 then [o.socksPort] else []
  }

  predicate InOrder(ports: seq<int>) {
    && (forall port <- ports :: 1024 <= port <= 65535)
    && forall i, j | 0 <= i < j < |ports| :: ports[i] != ports[j]
  }

  lemma OnePortMore(ports: seq<int>, port: int)
    ensures InOrder(ports + [port]) <==> InOrder(ports) && 1024 <= port <= 65535 && port !in ports
  {
    var more := ports + [port];
    assert forall p :: p in more <==> p in ports || p == port;
    if InOrder(more) {
      assert port in more && forall p <- ports :: p in more;
      forall i | 0 <= i < |ports| ensures ports[i] != port {
        assert more[i] != more[|ports|];
      }
      forall i, j | 0 <= i < j < |ports| ensures ports[i] != ports[j] {
        assert more[i] != more[j];
      }
    }
    if InOrder(ports) && 1024 <= port <= 65535 && port !in ports {
      forall i, j | 0 <= i < j < |more| ensures more[i] != more[j] {
        assert more[i] == ports[i] && (j < |ports| ==> more[j] == ports[j]);
      }
    }
  }

  lemma ActiveInOrder(o: Options)
    ensures InOrder(ActivePorts(o)) <==>
            && PortInRange(o.mixedPort) && PortInRange(o.controllerPort) && o.mixedPort != o.controllerPort
            && (o.httpPort != 0 ==> PortInRange(o.httpPort) && o.httpPort !in [o.mixedPort, o.controllerPort])
            && (o.socksPort != 0 ==> PortInRange(o.socksPort) && o.socksPort !in [o.mixedPort, o.controllerPort])
            && (o.httpPort != 0 && o.socksPort != 0 ==> o.httpPort != o.socksPort)
  {
    var two := [o.mixedPort, o.controllerPort];
    OnePortMore([], o.mixedPort);
    OnePortMore([o.mixedPort], o.controllerPort);
    assert [] + [o.mixedPort] == [o.mixedPort] && [o.mixedPort] + [o.controllerPort] == two;
    var three := if o.httpPort != 0 then two + [o.httpPort] else two;
    OnePortMore(two, o.httpPort);
    OnePortMore(three, o.socksPort);
    assert ActivePorts(o) == if o.socksPort != 0 then three + [o.socksPort] else three;
  }

  /** Options whose listeners have ports of their own, in range, with a proper secret, mode and level. */
  predicate InShape(o: Options) {
    && InOrder(ActivePorts(o))
    && |o.secret| == 64 && (forall c <- o.secret :: '0' <= c <= '9' || 'a' <= c <= 'f')
    && o.mode == "direct" && o.logLevel in {"silent", "error", "warn", "info", "debug"}
  }

  lemma AcceptableInShape(o: Options)
    ensures Acceptable(o) <==> InShape(o)
  {
    ActiveInOrder(o);
    SecretIsHex(o.secret);
  }

  /** The generator accepts exactly those. */
  lemma AcceptedExactly(o: Options)
    ensures Generated(o).Ok? <==> InShape(o)
  {
    AcceptableInShape(o);
  }

  lemma SecretIsHex(secret: string)
    ensures IsHex64(secret) <==> |secret| == 64 && forall c <- secret :: '0' <= c <= '9' || 'a' <= c <= 'f'
  {
    assert forall i | 0 <= i < |secret| :: secret[i] in secret;
  }

  function Plain(text: string): Node {
    Leaf(ClassifyPlain(text), None)
  }

  /** A line that may be left out. */
  predicate Included(o: Options, key: string) {
    if key == "port" then o.httpPort != 0
    else if key == "socks-port" then o.socksPort != 0
    else if key == "external-ui" || key == "external-ui-name" || key == "external-ui-url" then o.controllerPanel
    else true
  }

  function Shown(n: int): string {
    if n < 0 then "-" + Decimal(-n) else Decimal(n)
  }

  function LineValue(o: Options, key: string): Node {
    if key == "port" then Plain(Shown(o.httpPort))
    else if key == "socks-port" then Plain(Shown(o.socksPort))
    else if key == "mixed-port" then Plain(Shown(o.mixedPort))
    else if key == "allow-lan" then Plain(if o.allowLan then TRUE else FALSE)
    else if key == "bind-address" then (if o.allowLan then Leaf(Str("*"), None) else Plain(LOOPBACK))
    else if key == "mode" then Plain(DIRECT)
    else if key == "log-level" then Plain(o.logLevel)
    else if key == "ipv6" then Plain(FALSE)
    else if key == "external-controller" then Plain(o.controllerHost + ":" + Shown(o.controllerPort))
    else if key == "secret" then Plain(o.secret)
    else if key == "external-ui" then Plain(UI)
    else if key == "external-ui-name" then Plain(PANEL_NAME)
    else if key == "external-ui-url" then Plain(PANEL_URL)
    else if key == "tun" || key == "dns" then Mapping([Pair(Plain(ENABLE), Some(Plain(FALSE)))], None)
    else Sequence([Plain(RULE)], None)
  }

  function Line(o: Options, key: string): Pair {
    Pair(Plain(key), Some(LineValue(o, key)))
  }

  /** The lines that are not left out, in order. */
  function Emit(chosen: string -> bool, line: string -> Pair, keys: seq<string>): seq<Pair> {
    if keys == [] then []
    else (if chosen(keys[0]) then [line(keys[0])] else []) + Emit(chosen, line, keys[1..])
  }

  function Lines(o: Options): seq<Pair> {
    Emit(key => Included(o, key), key => Line(o, key), LINE_KEYS)
  }

  /** The tree that the generated text reads back as. */
  function Generated(o: Options): Result<Node, string> {
    if Acceptable(o) then Ok(Mapping(Lines(o), None)) else Err("invalid options")
  }

  // ---------------------------------------------------------------------------
  // What the generator emits is strict
  // ---------------------------------------------------------------------------

  lemma PlainText(s: string, i: nat)
    requires i < |s| && !IsDigit(s[i]) && s[i] !in "+-.eE"
    requires s !in ["null", "Null", "NULL", "~", "true", "True", "TRUE", "false", "False", "FALSE"]
    ensures ClassifyPlain(s) == Str(s)
  {
    Yaml.NotANumber(s, i);
  }

  lemma PlainPort(p: nat)
    requires PortInRange(p)
    ensures ClassifyPlain(Decimal(p)) == Int(p)
  {
    var s := Decimal(p);
    ValueOfDecimal(p);
    assert IsDigit(s[0]) && Unsigned(s) == s;
    assert ParseI64(s) == Some(p);
    StartsWithDigit(s);
  }

  lemma SignedDigits(n: int)
    ensures IsNumber(Unsigned(Shown(n))) && Signed(Shown(n)) == n
  {
    var digits := Decimal(if n < 0 then -n else n);
    ValueOfDecimal(if n < 0 then -n else n);
    assert IsDigit(digits[0]);
    assert Unsigned(Shown(n)) == digits;
  }

  lemma NoFloatMark(n: int)
    ensures !HasFloatMark(Shown(n))
  {
    var digits := Decimal(if n < 0 then -n else n);
    forall i | 0 <= i < |Shown(n)| ensures Shown(n)[i] !in ".eE" {
      assert Shown(n)[i] == '-' || IsDigit(Shown(n)[i]);
    }
  }

  lemma NumberIsNoWord(s: string)
    requires s != "" && (IsDigit(s[0]) || s[0] == '-')
    ensures s !in ["", "null", "Null", "NULL", "~"] && s !in ["true", "True", "TRUE"] && s !in ["false", "False", "FALSE"]
  {
  }

  /** An integer written out is read back as that integer exactly if it fits 64 bits, and is text otherwise. */
  lemma IntegersReadBack(n: int)
    ensures ClassifyPlain(Shown(n)) ==
            if -0x8000_0000_0000_0000 <= n <= 0x7FFF_FFFF_FFFF_FFFF then Int(n) else Str(Shown(n))
  {
    SignedDigits(n);
    NoFloatMark(n);
    assert IsDigit(Decimal(if n < 0 then -n else n)[0]);
    NumberIsNoWord(Shown(n));
  }

  lemma StartsWithDigit(s: string)
    requires |s| > 0 && IsDigit(s[0])
    ensures s !in ["", "null", "Null", "NULL", "~"] && s !in ["true", "True", "TRUE"] && s !in ["false", "False", "FALSE"]
  {
  }

  lemma PlainLoopback()
    ensures ClassifyPlain(LOOPBACK) == Str(LOOPBACK)
  {
    Yaml.TwoDots(LOOPBACK, 3, 5);
  }

  lemma PlainAddress(host: string, port: nat)
    ensures ClassifyPlain(host + ":" + Decimal(port)) == Str(host + ":" + Decimal(port))
  {
    var s := host + ":" + Decimal(port);
    assert s[|host|] == ':';
    PlainText(s, |host|);
  }

  lemma ColonIsUnique(host: string, digits: string)
    requires AllDigits(digits)
    ensures
      var s := host + ":" + digits;
      forall i | 0 <= i < |s| && s[i] == ':' && AllDigits(s[i + 1..]) :: i == |host|
  {
    var s := host + ":" + digits;
    forall i | |host| < i < |s| ensures s[i] != ':' {
      assert s[i] == digits[i - |host| - 1];
    }
    forall i | 0 <= i < |host| && s[i] == ':' ensures !AllDigits(s[i + 1..]) {
      assert s[i + 1..][|host| - i - 1] == ':';
    }
  }

  /** The address is a supported one exactly if the host is. */
  lemma AddressNeedsHost(host: string, port: nat)
    requires PortInRange(port)
    ensures IsListenAddress(host + ":" + Decimal(port)) <==> host in HOSTS
  {
    var d := Decimal(port);
    var s := host + ":" + d;
    ValueOfDecimal(port);
    AddressParts(host, d);
    if IsListenAddress(s) {
      var i :| 0 <= i < |s| && s[i] == ':' && s[..i] in HOSTS && IsNumber(s[i + 1..]) && PortInRange(Value(s[i + 1..]));
      ColonIsUnique(host, d);
    }
  }

  lemma AddressParts(host: string, digits: string)
    ensures
      var s := host + ":" + digits;
      |host| < |s| && s[|host|] == ':' && s[..|host|] == host && s[|host| + 1..] == digits
  {
  }

  lemma PlainKeys(key: string)
    requires key in LINE_KEYS
    ensures ClassifyPlain(key) == Str(key)
  {
    if key in LINE_KEYS[..8] {
      FirstPlainKeys(key);
    } else if key in LINE_KEYS[8..12] {
      LaterPlainKeys(key);
    } else {
      LastPlainKeys(key);
    }
  }

  lemma FirstPlainKeys(key: string)
    requires key in LINE_KEYS[..8]
    ensures ClassifyPlain(key) == Str(key)
  {
    PlainText(key, 0);
  }

  lemma LaterPlainKeys(key: string)
    requires key in LINE_KEYS[8..12]
    ensures ClassifyPlain(key) == Str(key)
  {
    PlainText(key, if key[0] == 'e' then 1 else 0);
  }

  lemma LastPlainKeys(key: string)
    requires key in LINE_KEYS[12..]
    ensures ClassifyPlain(key) == Str(key)
  {
    PlainText(key, if key[0] == 'e' then 1 else 0);
  }

  lemma LineKeysAllowed(key: string)
    requires key in LINE_KEYS
    ensures key in ALLOWED_KEYS
  {
  }

  lemma PlainLevels(level: string)
    requires level in LOG_LEVELS
    ensures ClassifyPlain(level) == Str(level)
  {
    PlainText(level, if level == "error" then 1 else 0);
  }

  lemma LineAllowed(o: Options, key: string)
    requires Acceptable(o) && key in LINE_KEYS && Included(o, key)
    ensures KeyOf(Line(o, key)) == key
    ensures key == "external-controller" ==> (EntryAllowed(Line(o, key)) <==> o.controllerHost in HOSTS)
    ensures key == "secret" ==> (EntryAllowed(Line(o, key)) <==> ClassifyPlain(o.secret).Str?)
    ensures key != "external-controller" && key != "secret" ==> EntryAllowed(Line(o, key))
  {
    PlainKeys(key);
    LineKeysAllowed(key);
    if key == "external-controller" {
      ControllerLineAllowed(o);
    } else if key == "secret" {
      SecretLineAllowed(o);
    } else if IsPortKey(key) || key == "log-level" {
      PortLineAllowed(o, key);
    } else {
      FixedLineAllowed(o, key);
    }
  }

  lemma ControllerLineAllowed(o: Options)
    requires Acceptable(o)
    ensures
      var n := LineValue(o, "external-controller");
      n.Leaf? && n.tag.None? && (ValueAllowed("external-controller", n) <==> o.controllerHost in HOSTS)
  {
    PlainAddress(o.controllerHost, o.controllerPort);
    AddressNeedsHost(o.controllerHost, o.controllerPort);
  }

  lemma SecretLineAllowed(o: Options)
    requires Acceptable(o)
    ensures
      var n := LineValue(o, "secret");
      n.Leaf? && n.tag.None? && (ValueAllowed("secret", n) <==> ClassifyPlain(o.secret).Str?)
  {
  }

  lemma PortLineAllowed(o: Options, key: string)
    requires Acceptable(o) && Included(o, key) && (IsPortKey(key) || key == "log-level")
    ensures LineValue(o, key).Leaf? && LineValue(o, key).tag.None? && ValueAllowed(key, LineValue(o, key))
  {
    if key == "log-level" {
      PlainLevels(o.logLevel);
    } else {
      PlainPort(if key == "port" then o.httpPort else if key == "socks-port" then o.socksPort else o.mixedPort);
    }
  }

  lemma FixedLineAllowed(o: Options, key: string)
    requires key in ["allow-lan", "bind-address", "mode", "ipv6", "external-ui", "external-ui-name",
                     "external-ui-url", "tun", "dns", "rules"]
    ensures !LineValue(o, key).Alias? && LineValue(o, key).tag.None? && ValueAllowed(key, LineValue(o, key))
  {
    if key == "tun" || key == "dns" {
      SectionLineAllowed(o, key);
    } else if key == "rules" {
      PlainConstant(RULE);
    } else {
      FixedScalarAllowed(o, key);
    }
  }

  lemma SectionLineAllowed(o: Options, key: string)
    requires key == "tun" || key == "dns"
    ensures LineValue(o, key) == Mapping(DISABLED, None)
  {
    PlainFlags();
    PlainConstant(ENABLE);
  }

  lemma FixedScalarAllowed(o: Options, key: string)
    requires key in ["allow-lan", "bind-address", "mode", "ipv6", "external-ui", "external-ui-name", "external-ui-url"]
    ensures LineValue(o, key).Leaf? && LineValue(o, key).tag.None? && ValueAllowed(key, LineValue(o, key))
  {
    if key in ["allow-lan", "bind-address", "mode", "ipv6"] {
      SwitchAllowed(o, key);
    } else {
      PanelLineAllowed(o, key);
    }
  }

  lemma SwitchAllowed(o: Options, key: string)
    requires key in ["allow-lan", "bind-address", "mode", "ipv6"]
    ensures LineValue(o, key).Leaf? && LineValue(o, key).tag.None? && ValueAllowed(key, LineValue(o, key))
  {
    if key == "bind-address" {
      PlainLoopback();
    } else if key == "mode" {
      PlainConstant(DIRECT);
    } else {
      PlainFlags();
    }
  }

  lemma PanelLineAllowed(o: Options, key: string)
    requires key in ["external-ui", "external-ui-name", "external-ui-url"]
    ensures LineValue(o, key).Leaf? && LineValue(o, key).tag.None? && ValueAllowed(key, LineValue(o, key))
  {
    if key == "external-ui" {
      PlainConstant(UI);
    } else if key == "external-ui-name" {
      PlainConstant(PANEL_NAME);
    } else {
      PlainConstant(PANEL_URL);
    }
  }

  lemma PlainConstant(s: string)
    requires s in [ENABLE, RULE, DIRECT, UI, PANEL_NAME, PANEL_URL]
    ensures ClassifyPlain(s) == Str(s)
  {
    if s == ENABLE {
      PlainText(s, 1);
    } else if s == RULE {
      PlainText(s, 0);
    } else if s == DIRECT {
      PlainText(s, 0);
    } else if s == UI {
      PlainText(s, 0);
    } else if s == PANEL_NAME {
      PlainText(s, 0);
    } else {
      PlainUrl();
    }
  }

  lemma PlainUrl()
    ensures ClassifyPlain(PANEL_URL) == Str(PANEL_URL)
  {
    var s := PANEL_URL;
    assert |s| > 5 && s[|s| - 1] == 'p';
    forall word <- ["null", "Null", "NULL", "~", "true", "True", "TRUE", "false", "False", "FALSE"] ensures s != word {
      assert |word| <= 5;
    }
    PlainText(s, |s| - 1);
  }

  lemma PlainFlags()
    ensures ClassifyPlain("true") == Bool(true) && ClassifyPlain(FALSE) == Bool(false)
  {
  }

  lemma {:induction false} EmittedKeys(chosen: string -> bool, line: string -> Pair, keys: seq<string>)
    requires forall key <- keys | chosen(key) :: KeyOf(line(key)) == key
    requires Distinct(keys)
    ensures Distinct(Keys(Emit(chosen, line, keys)))
    ensures forall key :: key in Keys(Emit(chosen, line, keys)) <==> key in keys && chosen(key)
    decreases |keys|
  {
    if keys == [] {
      assert Keys(Emit(chosen, line, keys)) == [];
    } else {
      EmittedKeys(chosen, line, keys[1..]);
      var rest := Emit(chosen, line, keys[1..]);
      assert keys == [keys[0]] + keys[1..];
      if chosen(keys[0]) {
        assert Keys([line(keys[0])] + rest) == [keys[0]] + Keys(rest);
      } else {
        assert [] + rest == rest;
      }
    }
  }

  lemma {:induction false} EmittedAll(chosen: string -> bool, line: string -> Pair, keys: seq<string>, ok: Pair -> bool)
    ensures (forall e <- Emit(chosen, line, keys) :: ok(e)) <==> (forall key <- keys | chosen(key) :: ok(line(key)))
    decreases |keys|
  {
    if keys != [] {
      EmittedAll(chosen, line, keys[1..], ok);
      assert keys == [keys[0]] + keys[1..];
    }
  }

  /** Emitted lines make a strict document if each is allowed and every required one is there. */
  lemma EmittedStrict(chosen: string -> bool, line: string -> Pair, keys: seq<string>)
    requires forall key <- keys | chosen(key) :: KeyOf(line(key)) == key
    requires Distinct(keys)
    requires forall key <- ALLOWED_KEYS | key !in OPTIONAL_KEYS :: key in keys && chosen(key)
    ensures Strict(Mapping(Emit(chosen, line, keys), None)) <==>
            forall key <- keys | chosen(key) :: EntryAllowed(line(key))
  {
    EmittedKeys(chosen, line, keys);
    EmittedAll(chosen, line, keys, e => EntryAllowed(e));
  }

  lemma LineKeysDistinct()
    ensures Distinct(LINE_KEYS)
    ensures forall key <- ALLOWED_KEYS | key !in OPTIONAL_KEYS :: key in LINE_KEYS
  {
    FirstKeysDiffer();
    LaterKeysDiffer();
    RequiredKeysAreLines();
  }

  lemma FirstKeysDiffer()
    ensures forall i, j | 0 <= i < j < |LINE_KEYS| && i < 7 :: LINE_KEYS[i] != LINE_KEYS[j]
  {
  }

  lemma LaterKeysDiffer()
    ensures forall i, j | 7 <= i < j < |LINE_KEYS| :: LINE_KEYS[i] != LINE_KEYS[j]
  {
  }

  lemma RequiredKeysAreLines()
    ensures forall key <- ALLOWED_KEYS | key !in OPTIONAL_KEYS :: key in LINE_KEYS
  {
  }

  lemma LineKeysRead(o: Options)
    ensures forall key <- LINE_KEYS :: KeyOf(Line(o, key)) == key
  {
    forall key <- LINE_KEYS ensures KeyOf(Line(o, key)) == key {
      PlainKeys(key);
    }
  }

  /**
   The generated document is strict exactly if the controller host is supported and the secret
   reads back as text.
   */
  lemma GeneratorIsStrict(o: Options)
    requires Generated(o).Ok?
    ensures Strict(Generated(o).value) <==> o.controllerHost in HOSTS && ClassifyPlain(o.secret).Str?
  {
    LinesStrict(o);
    AllLinesAllowed(o);
  }

  lemma LinesStrict(o: Options)
    ensures Strict(Mapping(Lines(o), None)) <==>
            forall key <- LINE_KEYS | Included(o, key) :: EntryAllowed(Line(o, key))
  {
    LineKeysDistinct();
    LineKeysRead(o);
    RequiredKeysIncluded(o);
    EmittedStrict(key => Included(o, key), key => Line(o, key), LINE_KEYS);
  }

  /** What it takes for a line to be allowed. */
  predicate LineReads(o: Options, key: string) {
    if key == "external-controller" then o.controllerHost in HOSTS
    else if key == "secret" then ClassifyPlain(o.secret).Str?
    else true
  }

  lemma LineReadsExactly(o: Options, key: string)
    requires Acceptable(o) && key in LINE_KEYS && Included(o, key)
    ensures EntryAllowed(Line(o, key)) <==> LineReads(o, key)
  {
    LineAllowed(o, key);
  }

  lemma AllLinesRead(o: Options)
    ensures (forall key <- LINE_KEYS | Included(o, key) :: LineReads(o, key)) <==>
            o.controllerHost in HOSTS && ClassifyPlain(o.secret).Str?
  {
    assert LINE_KEYS[8] in LINE_KEYS && Included(o, LINE_KEYS[8]);
    assert LINE_KEYS[9] in LINE_KEYS && Included(o, LINE_KEYS[9]);
  }

  lemma AllLinesAllowed(o: Options)
    requires Acceptable(o)
    ensures (forall key <- LINE_KEYS | Included(o, key) :: EntryAllowed(Line(o, key))) <==>
            o.controllerHost in HOSTS && ClassifyPlain(o.secret).Str?
  {
    SameOnAll(LINE_KEYS, key => Included(o, key), (key: string) => EntryAllowed(Line(o, key)), key => LineReads(o, key)) by {
      forall key <- LINE_KEYS | Included(o, key) ensures EntryAllowed(Line(o, key)) <==> LineReads(o, key) {
        LineReadsExactly(o, key);
      }
    }
    AllLinesRead(o);
  }

  lemma SameOnAll(keys: seq<string>, chosen: string -> bool, ok: string -> bool, readable: string -> bool)
    requires forall key <- keys | chosen(key) :: ok(key) <==> readable(key)
    ensures (forall key <- keys | chosen(key) :: ok(key)) <==> (forall key <- keys | chosen(key) :: readable(key))
  {
  }

  lemma RequiredKeysIncluded(o: Options)
    ensures forall key <- ALLOWED_KEYS | key !in OPTIONAL_KEYS :: key in LINE_KEYS && Included(o, key)
  {
    LineKeysDistinct();
  }

  // ---------------------------------------------------------------------------
  // The generated document carries the options
  // ---------------------------------------------------------------------------

  /** What a mapping has under a key, by its first entry. */
  function Find(entries: seq<Pair>, key: string): Option<Node> {
    if entries == [] then None
    else if KeyOf(entries[0]) == key then entries[0].value
    else Find(entries[1..], key)
  }

  lemma {:induction false} FindEmitted(chosen: string -> bool, line: string -> Pair, keys: seq<string>, key: string)
    requires forall k <- keys :: KeyOf(line(k)) == k
    ensures Find(Emit(chosen, line, keys), key) == if key in keys && chosen(key) then line(key).value else None
    decreases |keys|
  {
    if keys != [] {
      FindEmitted(chosen, line, keys[1..], key);
      var rest := Emit(chosen, line, keys[1..]);
      assert keys == [keys[0]] + keys[1..];
      if chosen(keys[0]) {
        assert ([line(keys[0])] + rest)[1..] == rest;
      } else {
        assert [] + rest == rest;
      }
    }
  }

  lemma FindLine(o: Options, key: string)
    ensures Find(Lines(o), key) == if key in LINE_KEYS && Included(o, key) then Some(LineValue(o, key)) else None
  {
    LineKeysRead(o);
    FindEmitted(k => Included(o, k), k => Line(o, k), LINE_KEYS, key);
  }

  /** These entries are those lines, key by key. */
  ghost predicate HasLines(entries: seq<Pair>, o: Options) {
    forall key :: Find(entries, key) == if key in LINE_KEYS && Included(o, key) then Some(LineValue(o, key)) else None
  }

  lemma GeneratedHasLines(o: Options)
    requires Generated(o).Ok?
    ensures Generated(o).value.Mapping? && HasLines(Generated(o).value.entries, o)
  {
    forall key
      ensures Find(Lines(o), key) == if key in LINE_KEYS && Included(o, key) then Some(LineValue(o, key)) else None
    {
      FindLine(o, key);
    }
  }

  /** The entries have this scalar, written without a tag, under this key. */
  predicate Says(entries: seq<Pair>, key: string, value: Scalar) {
    Find(entries, key) == Some(Leaf(value, None))
  }

  predicate SaysNothing(entries: seq<Pair>, key: string) {
    Find(entries, key).None?
  }

  predicate CarriesPorts(entries: seq<Pair>, o: Options) {
    && Says(entries, "mixed-port", Int(o.mixedPort))
    && (if o.httpPort != 0 then Says(entries, "port", Int(o.httpPort)) else SaysNothing(entries, "port"))
    && (if o.socksPort != 0 then Says(entries, "socks-port", Int(o.socksPort)) else SaysNothing(entries, "socks-port"))
  }

  lemma PortCarried(entries: seq<Pair>, o: Options, key: string, port: int)
    requires HasLines(entries, o) && key in LINE_KEYS && Included(o, key)
    requires LineValue(o, key) == Plain(Shown(port)) && PortInRange(port)
    ensures Says(entries, key, Int(port))
  {
    PlainPort(port);
  }

  lemma PortsCarried(entries: seq<Pair>, o: Options)
    requires HasLines(entries, o) && Acceptable(o)
    ensures CarriesPorts(entries, o)
  {
    assert LINE_KEYS[0] == "port" && LINE_KEYS[1] == "socks-port" && LINE_KEYS[2] == "mixed-port";
    PortCarried(entries, o, "mixed-port", o.mixedPort);
    if o.httpPort != 0 {
      PortCarried(entries, o, "port", o.httpPort);
    }
    if o.socksPort != 0 {
      PortCarried(entries, o, "socks-port", o.socksPort);
    }
  }

  predicate CarriesAccess(entries: seq<Pair>, o: Options) {
    && Says(entries, "allow-lan", Bool(o.allowLan))
    && Says(entries, "bind-address", Str(if o.allowLan then "*" else "127.0.0.1"))
  }

  lemma AccessCarried(entries: seq<Pair>, o: Options)
    requires HasLines(entries, o)
    ensures CarriesAccess(entries, o)
  {
    assert LINE_KEYS[3] == "allow-lan" && LINE_KEYS[4] == "bind-address";
    PlainFlags();
    PlainLoopback();
  }

  predicate CarriesMode(entries: seq<Pair>, o: Options) {
    Says(entries, "mode", Str(o.mode)) && Says(entries, "ipv6", Bool(false))
  }

  lemma ModeCarried(entries: seq<Pair>, o: Options)
    requires HasLines(entries, o) && Acceptable(o)
    ensures Says(entries, "mode", Str(o.mode))
  {
    assert LINE_KEYS[5] == "mode";
    PlainConstant(DIRECT);
  }

  lemma Ipv6Carried(entries: seq<Pair>, o: Options)
    requires HasLines(entries, o)
    ensures Says(entries, "ipv6", Bool(false))
  {
    assert LINE_KEYS[7] == "ipv6";
    PlainFlags();
  }

  predicate CarriesLevel(entries: seq<Pair>, o: Options) {
    Says(entries, "log-level", Str(o.logLevel))
  }

  lemma LevelCarried(entries: seq<Pair>, o: Options)
    requires HasLines(entries, o) && Acceptable(o)
    ensures CarriesLevel(entries, o)
  {
    assert LINE_KEYS[6] == "log-level";
    PlainLevels(o.logLevel);
  }

  /** Host, colon and the digits of the port. */
  predicate IsAddress(address: string, host: string, port: int) {
    && |address| > |host| && address[..|host|] == host && address[|host|] == ':'
    && IsNumber(address[|host| + 1..]) && Value(address[|host| + 1..]) == port
  }

  ghost predicate CarriesController(entries: seq<Pair>, o: Options) {
    exists address ::
      Says(entries, "external-controller", Str(address)) && IsAddress(address, o.controllerHost, o.controllerPort)
  }

  lemma ControllerCarried(entries: seq<Pair>, o: Options)
    requires HasLines(entries, o) && Acceptable(o)
    ensures CarriesController(entries, o)
  {
    assert LINE_KEYS[8] == "external-controller";
    var address := o.controllerHost + ":" + Decimal(o.controllerPort);
    PlainAddress(o.controllerHost, o.controllerPort);
    AddressParts(o.controllerHost, Decimal(o.controllerPort));
    ValueOfDecimal(o.controllerPort);
    assert IsAddress(address, o.controllerHost, o.controllerPort);
    assert Says(entries, "external-controller", Str(address));
  }

  /** The secret as text, unless a reader takes it for a number. */
  predicate CarriesSecret(entries: seq<Pair>, o: Options) {
    Says(entries, "secret", Str(o.secret)) <==>
    !(AllDigits(o.secret) && Value(o.secret) <= I64_MAX) && !ReadsAsExponent(o.secret)
  }

  lemma SecretCarried(entries: seq<Pair>, o: Options)
    requires HasLines(entries, o) && Acceptable(o)
    ensures CarriesSecret(entries, o)
  {
    assert LINE_KEYS[9] == "secret";
    SecretReadsBack(o.secret);
  }

  predicate CarriesPanel(entries: seq<Pair>, o: Options) {
    if o.controllerPanel then
      && Says(entries, "external-ui", Str("ui")) && Says(entries, "external-ui-name", Str("metacubexd"))
      && Says(entries, "external-ui-url", Str(PANEL_URL))
    else
      && SaysNothing(entries, "external-ui") && SaysNothing(entries, "external-ui-name")
      && SaysNothing(entries, "external-ui-url")
  }

  lemma PanelIsThere(entries: seq<Pair>, o: Options)
    requires HasLines(entries, o) && o.controllerPanel
    ensures Says(entries, "external-ui", Str(UI)) && Says(entries, "external-ui-name", Str(PANEL_NAME))
  {
    assert LINE_KEYS[10] == "external-ui" && LINE_KEYS[11] == "external-ui-name";
    PlainConstant(UI);
    PlainConstant(PANEL_NAME);
  }

  lemma PanelHasUrl(entries: seq<Pair>, o: Options)
    requires HasLines(entries, o) && o.controllerPanel
    ensures Says(entries, "external-ui-url", Str(PANEL_URL))
  {
    assert LINE_KEYS[12] == "external-ui-url";
    PlainConstant(PANEL_URL);
  }

  lemma PanelIsMissing(entries: seq<Pair>, o: Options)
    requires HasLines(entries, o) && !o.controllerPanel
    ensures SaysNothing(entries, "external-ui") && SaysNothing(entries, "external-ui-name")
    ensures SaysNothing(entries, "external-ui-url")
  {
  }

  lemma PanelCarried(entries: seq<Pair>, o: Options)
    requires HasLines(entries, o)
    ensures CarriesPanel(entries, o)
  {
    if o.controllerPanel {
      PanelIsThere(entries, o);
      PanelHasUrl(entries, o);
    } else {
      PanelIsMissing(entries, o);
    }
  }

  predicate CarriesSections(entries: seq<Pair>) {
    && Find(entries, "tun") == Find(entries, "dns") == Some(Mapping(DISABLED, None))
    && Find(entries, "rules") == Some(Sequence([Leaf(Str("MATCH,DIRECT"), None)], None))
  }

  lemma SectionsCarried(entries: seq<Pair>, o: Options)
    requires HasLines(entries, o)
    ensures CarriesSections(entries)
  {
    assert LINE_KEYS[13] == "tun" && LINE_KEYS[14] == "dns" && LINE_KEYS[15] == "rules";
    SectionLineAllowed(o, "tun");
    SectionLineAllowed(o, "dns");
    PlainConstant(RULE);
  }

  /** A mapping that has what the options say under each of the known keys, each key once, and nothing else. */
  ghost predicate Carries(entries: seq<Pair>, o: Options) {
    && CarriesPorts(entries, o) && CarriesAccess(entries, o) && CarriesMode(entries, o)
    && CarriesLevel(entries, o) && CarriesController(entries, o) && CarriesSecret(entries, o) && CarriesPanel(entries, o)
    && CarriesSections(entries)
    && Distinct(Keys(entries)) && forall key <- Keys(entries) :: key in ALLOWED_KEYS
  }

  lemma KeysCarried(o: Options)
    ensures Distinct(Keys(Lines(o))) && forall key <- Keys(Lines(o)) :: key in ALLOWED_KEYS
  {
    LineKeysDistinct();
    LineKeysRead(o);
    EmittedKeys(key => Included(o, key), key => Line(o, key), LINE_KEYS);
    forall key <- LINE_KEYS ensures key in ALLOWED_KEYS {
      LineKeysAllowed(key);
    }
  }

  lemma AllCarried(entries: seq<Pair>, o: Options)
    requires HasLines(entries, o) && Acceptable(o)
    requires Distinct(Keys(entries)) && forall key <- Keys(entries) :: key in ALLOWED_KEYS
    ensures Carries(entries, o)
  {
    PortsCarried(entries, o);
    AccessCarried(entries, o);
    ModeCarried(entries, o);
    Ipv6Carried(entries, o);
    LevelCarried(entries, o);
    ControllerCarried(entries, o);
    SecretCarried(entries, o);
    PanelCarried(entries, o);
    SectionsCarried(entries, o);
  }

  /** Whatever the accepted options are, the generated document says exactly what they say. */
  lemma GeneratedCarriesTheOptions(o: Options)
    requires Generated(o).Ok?
    ensures Generated(o).value.Mapping? && Generated(o).value.tag.None? && Carries(Generated(o).value.entries, o)
  {
    GeneratedHasLines(o);
    KeysCarried(o);
    AllCarried(Lines(o), o);
  }

  /** Digits, an `e` and digits that make a finite number. */
  predicate ReadsAsExponent(s: string) {
    exists e: nat | 0 < e < |s| - 1 :: ExponentAt(s, e)
  }

  predicate ExponentAt(s: string, e: nat)
    requires e < |s|
  {
    && s[e] == 'e' && AllDigits(s[..e]) && AllDigits(s[e + 1..])
    && IsFinite(Value(s[..e]), Value(s[e + 1..]))
  }

  lemma HexUnsigned(s: string)
    requires forall i | 0 <= i < |s| :: IsHex(s[i])
    ensures Unsigned(s) == s
  {
  }

  /** A hexadecimal literal has no dot, so it is finite with an exponent or has no mark at all. */
  lemma HexFloat(s: string)
    requires IsHex64(s)
    ensures IsFiniteFloat(s) && HasFloatMark(s) <==> ReadsAsExponent(s)
  {
    HexUnsigned(s);
    forall dot: nat, e: nat | dot <= e <= |s|
      ensures FloatAt(s, dot, e) <==> dot == e && FloatAt(s, e, e)
    {
      assert dot < e ==> s[dot] != '.';
    }
    forall e: nat | e < |s| ensures FloatAt(s, e, e) <==> 0 < e < |s| - 1 && ExponentAt(s, e) {
      HexUnsigned(s[e + 1..]);
      assert FloatDigits(s, e, e) == s[..e];
    }
    HexWithoutExponent(s);
    if ReadsAsExponent(s) {
      var e :| 0 < e < |s| - 1 && ExponentAt(s, e);
      assert FloatAt(s, e, e) && s[e] in ".eE";
    }
  }

  lemma HexWithoutExponent(s: string)
    requires IsHex64(s)
    ensures FloatAt(s, |s|, |s|) ==> !HasFloatMark(s)
  {
    assert FloatDigits(s, |s|, |s|) == s;
  }

  /**
   Which secrets read back as text: all but those that are nothing but digits with a value in the
   signed 64-bit range, and those of the form digits-e-digits with a finite value.
   */
  lemma SecretReadsBack(secret: string)
    requires IsHex64(secret)
    ensures ClassifyPlain(secret).Str? <==>
            !(AllDigits(secret) && Value(secret) <= I64_MAX) && !ReadsAsExponent(secret)
  {
    HexUnsigned(secret);
    HexFloat(secret);
    assert secret[1] != 'x';
  }

  lemma {:induction false} ZerosBefore(zeros: string, digit: char)
    requires forall i | 0 <= i < |zeros| :: zeros[i] == '0'
    requires IsDigit(digit)
    ensures AllDigits(zeros + [digit]) && Value(zeros + [digit]) == (digit - '0') as nat
    decreases |zeros|
  {
    var s := zeros + [digit];
    assert s[..|s| - 1] == zeros;
    if zeros == [] {
      assert Value(zeros) == 0;
    } else {
      var n := |zeros| - 1;
      assert zeros == zeros[..n] + ['0'];
      ZerosBefore(zeros[..n], '0');
    }
  }

  lemma Exponent308()
    ensures AllDigits("308") && Value("308") == 308
  {
    assert "308"[..2] == "30" && "30"[..1] == "3" && "3"[..0] == "";
  }

  /** A secret of this form is a number exactly if its digit and 308 zeros are. */
  lemma ExponentOf308(zeros: string, digit: char)
    requires |zeros| == 59 && forall i | 0 <= i < 59 :: zeros[i] == '0'
    requires IsDigit(digit)
    ensures ReadsAsExponent(zeros + [digit] + "e308") <==> IsFinite((digit - '0') as nat, 308)
  {
    var s := zeros + [digit] + "e308";
    ZerosBefore(zeros, digit);
    Exponent308();
    assert s[..60] == zeros + [digit] && s[60] == 'e' && s[61..] == "308";
    assert forall e: nat | e < |s| && s[e] == 'e' :: e == 60;
    assert ExponentAt(s, 60) <==> IsFinite((digit - '0') as nat, 308);
  }

  /** Where the finite numbers end: 59 zeros and `1e308` do not read back as text, 59 zeros and `2e308` do. */
  lemma SecretBoundary(zeros: string)
    requires |zeros| == 59 && forall i | 0 <= i < 59 :: zeros[i] == '0'
    ensures !ClassifyPlain(zeros + "1e308").Str? && ClassifyPlain(zeros + "2e308").Str?
  {
    assert zeros + "1e308" == zeros + ['1'] + "e308" && zeros + "2e308" == zeros + ['2'] + "e308";
    ExponentOf308(zeros, '1');
    ExponentOf308(zeros, '2');
    Yaml.LimitLies();
    assert (zeros + "1e308")[60] == 'e' && (zeros + "2e308")[60] == 'e';
    SecretReadsBack(zeros + "1e308");
    SecretReadsBack(zeros + "2e308");
  }
}
