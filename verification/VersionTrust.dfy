/**
 The version trust catalog and the rolling generations of native/tun-service/kernel_versions_windows.go.

 The catalog file is written all or nothing. A directory of the versions tree is named by the
 version and, for a rolling generation, by the digest of its archive; what the network, the
 archive reader and the file system answer is an input (`Env`).
 */
module VersionTrust {
  import opened Text
  import opened Wrappers

  const PREVIEW := "preview"
  const SMART := "smart"
  const MAX_CORE_BYTES: nat := 128 * 1024 * 1024

  datatype Marker = Marker(version: string, archiveSha: string, binarySha: string, assetName: string, archiveBytes: int)

  datatype ChannelRef = ChannelRef(current: string, previous: string)

  datatype Catalog = Catalog(versions: map<string, Marker>, channels: map<string, ChannelRef>)

  // ---------------------------------------------------------------------------
  // Patterns
  // ---------------------------------------------------------------------------

  predicate IsRolling(version: string) {
    version == PREVIEW || version == SMART
  }

  predicate IsNumber(s: string) {
    s != "" && AllDigits(s)
  }

  /** A rolling channel or `v1.2.3`. */
  predicate IsVersion(s: string) {
    || IsRolling(s)
    || (|s| > 0 && s[0] == 'v' &&
        exists i, j | 1 <= i < j < |s| ::
          s[i] == '.' && s[j] == '.' && IsNumber(s[1..i]) && IsNumber(s[i + 1..j]) && IsNumber(s[j + 1..]))
  }

  predicate IsLetter(c: char) {
    'a' <= c <= 'z' || 'A' <= c <= 'Z'
  }

  /** `filepath.Base(name) == name` on Windows. */
  predicate IsBaseName(name: string) {
    || name == "\\"
    || (name != "" && '/' !in name && '\\' !in name && !(|name| >= 2 && name[1] == ':' && IsLetter(name[0])))
  }

  // ---------------------------------------------------------------------------
  // The catalog
  // ---------------------------------------------------------------------------

  predicate ValidTrustedMarker(version: string, marker: Marker) {
    && marker.version == version
    && IsHex64(marker.archiveSha)
    && IsHex64(marker.binarySha)
    && IsBaseName(marker.assetName)
    && 0 < marker.archiveBytes <= MAX_CORE_BYTES
  }

  function TrustKey(marker: Marker): string {
    if IsRolling(marker.version) then marker.version + "@" + marker.archiveSha else marker.version
  }

  predicate ValidTrustEntry(key: string, marker: Marker) {
    && ValidTrustedMarker(marker.version, marker)
    && (key == TrustKey(marker) || (IsRolling(marker.version) && key == marker.version))
  }

  predicate ValidTarget(c: Catalog, channel: string, key: string) {
    key in c.versions && c.versions[key].version == channel && ValidTrustEntry(key, c.versions[key])
  }

  predicate ValidChannel(c: Catalog, channel: string) {
    channel in c.channels ==>
      && IsRolling(channel)
      && c.channels[channel].current != ""
      && ValidTarget(c, channel, c.channels[channel].current)
      && (c.channels[channel].previous != "" ==> ValidTarget(c, channel, c.channels[channel].previous))
  }

  /** The catalogs the loader lets through. */
  predicate Accepted(c: Catalog) {
    && (forall key <- c.versions :: ValidTrustEntry(key, c.versions[key]))
    && (forall channel <- c.channels :: ValidChannel(c, channel))
  }

  const EMPTY_CATALOG := Catalog(map[], map[])

  /** The channel reference after `key` became the newest generation. */
  function Rolled(c: Catalog, channel: string, key: string): ChannelRef {
    var ref := if channel in c.channels then c.channels[channel] else ChannelRef("", "");
    var adopted := if ref.current == "" && channel in c.versions then ref.(current := channel) else ref;
    if adopted.current != key then ChannelRef(key, adopted.current) else adopted
  }

  /** Entries of `channel` that are neither of its two generations. */
  predicate Outdated(channel: string, ref: ChannelRef, key: string, marker: Marker) {
    marker.version == channel && key != ref.current && key != ref.previous
  }

  function Pruned(versions: map<string, Marker>, channel: string, ref: ChannelRef): map<string, Marker> {
    map key | key in versions && !Outdated(channel, ref, key, versions[key]) :: versions[key]
  }

  /** `storeVersionTrust` up to the write. */
  function StoredCatalog(c: Catalog, marker: Marker): Result<Catalog, string> {
    var key := TrustKey(marker);
    if !ValidTrustedMarker(marker.version, marker) then Err("refusing invalid version trust entry")
    else if key in c.versions && c.versions[key] != marker then Err("official asset no longer matches the pinned entry")
    else
      var versions := c.versions[key := marker];
      if !IsRolling(marker.version) then Ok(c.(versions := versions))
      else
        var ref := Rolled(c.(versions := versions), marker.version, key);
        Ok(Catalog(Pruned(versions, marker.version, ref), c.channels[marker.version := ref]))
  }

  /** The entries of a channel are at most its two generations. */
  predicate TwoGenerations(c: Catalog, channel: string) {
    forall key <- c.versions | c.versions[key].version == channel ::
      channel in c.channels && (key == c.channels[channel].current || key == c.channels[channel].previous)
  }

  lemma StoreKeepsAccepted(c: Catalog, marker: Marker)
    requires Accepted(c) && StoredCatalog(c, marker).Ok?
    ensures Accepted(StoredCatalog(c, marker).value)
  {
    var d := StoredCatalog(c, marker).value;
    var v := marker.version;
    if IsRolling(v) {
      forall channel <- d.channels ensures ValidChannel(d, channel) {
        if channel != v {
          assert ValidChannel(c, channel);
        } else if v in c.channels {
          assert ValidChannel(c, v);
        }
      }
    } else {
      forall channel <- d.channels ensures ValidChannel(d, channel) {
        assert ValidChannel(c, channel);
      }
    }
  }

  /** A store leaves its channel with two generations and every other entry of the catalog alone. */
  lemma StoreGenerations(c: Catalog, marker: Marker, channel: string)
    requires Accepted(c) && StoredCatalog(c, marker).Ok? && IsRolling(channel)
    ensures channel == marker.version ==> TwoGenerations(StoredCatalog(c, marker).value, channel)
    ensures TwoGenerations(c, channel) ==> TwoGenerations(StoredCatalog(c, marker).value, channel)
    ensures forall key <- c.versions | c.versions[key].version != marker.version ::
              key in StoredCatalog(c, marker).value.versions &&
              StoredCatalog(c, marker).value.versions[key] == c.versions[key]
  {
  }

  // ---------------------------------------------------------------------------
  // Runs of the catalog
  // ---------------------------------------------------------------------------

  /** A refused marker leaves the catalog as it is. */
  function After(c: Catalog, markers: seq<Marker>): Catalog
    decreases |markers|
  {
    if markers == [] then c
    else
      var r := StoredCatalog(c, markers[0]);
      After(if r.Ok? then r.value else c, markers[1..])
  }

  /**
   Over any run from an accepted catalog: the catalog stays acceptable, a channel that has at most
   two generations keeps at most two, and the entry of a fixed version is never replaced.
   */
  lemma {:induction false} CatalogInvariant(c: Catalog, markers: seq<Marker>)
    requires Accepted(c)
    ensures Accepted(After(c, markers))
    ensures forall channel | IsRolling(channel) && TwoGenerations(c, channel) :: TwoGenerations(After(c, markers), channel)
    ensures forall version <- c.versions | !IsRolling(c.versions[version].version) ::
              version in After(c, markers).versions && After(c, markers).versions[version] == c.versions[version]
    decreases |markers|
  {
    if markers != [] {
      var r := StoredCatalog(c, markers[0]);
      var d := if r.Ok? then r.value else c;
      if r.Ok? {
        StoreKeepsAccepted(c, markers[0]);
        forall channel | IsRolling(channel) && TwoGenerations(c, channel) ensures TwoGenerations(d, channel) {
          StoreGenerations(c, markers[0], channel);
        }
        StoreGenerations(c, markers[0], PREVIEW);
        FixedEntriesStay(c, markers[0]);
      }
      CatalogInvariant(d, markers[1..]);
    }
  }

  lemma FixedEntriesStay(c: Catalog, marker: Marker)
    requires Accepted(c) && StoredCatalog(c, marker).Ok?
    ensures forall key <- c.versions | !IsRolling(c.versions[key].version) ::
              key in StoredCatalog(c, marker).value.versions &&
              StoredCatalog(c, marker).value.versions[key] == c.versions[key]
  {
  }

  function EntriesOf(c: Catalog, channel: string): set<string> {
    set key | key in c.versions && c.versions[key].version == channel
  }

  /** Counted: from an empty catalog no run leaves a channel with more than two entries. */
  lemma AtMostTwoGenerations(markers: seq<Marker>, channel: string)
    requires IsRolling(channel)
    ensures |EntriesOf(After(EMPTY_CATALOG, markers), channel)| <= 2
  {
    var c := After(EMPTY_CATALOG, markers);
    CatalogInvariant(EMPTY_CATALOG, markers);
    assert TwoGenerations(EMPTY_CATALOG, channel);
    assert TwoGenerations(c, channel);
    if EntriesOf(c, channel) != {} {
      var key :| key in EntriesOf(c, channel);
      var ref := c.channels[channel];
      SubsetSize(EntriesOf(c, channel), {ref.current, ref.previous});
    }
  }

  lemma {:induction false} SubsetSize(a: set<string>, b: set<string>)
    requires a <= b
    ensures |a| <= |b|
    decreases b
  {
    if a != {} {
      var x :| x in a;
      SubsetSize(a - {x}, b - {x});
    }
  }

  // ---------------------------------------------------------------------------
  // Directories and cached cores
  // ---------------------------------------------------------------------------

  /** A directory of the versions tree: the version's root ("" as digest) or one generation. */
  datatype Place = Place(version: string, digest: string)

  /** verified.json, the digest of core.exe and the downloaded archives by name. */
  datatype Directory = Directory(marker: Option<Marker>, core: Option<string>, archives: map<string, string>)

  type Disk = map<Place, Directory>

  const EMPTY_DIRECTORY := Directory(None, None, map[])

  datatype Core = Core(place: Place, digest: string)

  function RollingDigest(channel: string, key: string): Option<string> {
    var prefix := channel + "@";
    if prefix <= key && IsHex64(key[|prefix|..]) then Some(key[|prefix|..]) else None
  }

  function VersionDirectory(version: string, key: string): Place {
    match RollingDigest(version, key)
    case Some(digest) => Place(version, digest)
    case None => Place(version, "")
  }

  function At(disk: Disk, place: Place): Directory {
    if place in disk then disk[place] else EMPTY_DIRECTORY
  }

  function CachedTrusted(disk: Disk, version: string, key: string, c: Catalog): Option<Core> {
    if !(key in c.versions && c.versions[key].version == version && ValidTrustEntry(key, c.versions[key])) then None
    else
      var place := VersionDirectory(version, key);
      var directory := At(disk, place);
      if directory.marker == Some(c.versions[key]) && directory.core == Some(c.versions[key].binarySha)
      then Some(Core(place, c.versions[key].binarySha)) else None
  }

  function CurrentCached(disk: Disk, version: string, c: Catalog): Option<Core> {
    if IsRolling(version) && version in c.channels then
      var ref := c.channels[version];
      if ref.current != "" && CachedTrusted(disk, version, ref.current, c).Some?
      then CachedTrusted(disk, version, ref.current, c)
      else if ref.previous != "" then CachedTrusted(disk, version, ref.previous, c)
      else None
    else CachedTrusted(disk, version, version, c)
  }

  predicate Keeps(channel: string, ref: ChannelRef, digest: string) {
    RollingDigest(channel, ref.current) == Some(digest) || RollingDigest(channel, ref.previous) == Some(digest)
  }

  /** A generation directory that pruning removes, unless the file system refuses (`stuck`). */
  predicate Removable(channel: string, ref: ChannelRef, stuck: set<string>, place: Place) {
    place.version == channel && IsHex64(place.digest) && !Keeps(channel, ref, place.digest) && place.digest !in stuck
  }

  function PrunedDisk(disk: Disk, channel: string, ref: ChannelRef, stuck: set<string>): Disk {
    map place | place in disk && !Removable(channel, ref, stuck, place) :: disk[place]
  }

  // ---------------------------------------------------------------------------
  // Installing a version
  // ---------------------------------------------------------------------------

  datatype TrustFile = Absent | Unreadable | Present(catalog: Catalog)

  datatype Host = Host(trust: TrustFile, disk: Disk)

  datatype Asset = Asset(name: string, digest: string, size: int)

  /** A failed extraction may already have removed the old core.exe. */
  datatype Extraction = ExtractFailed(coreLost: bool) | Extracted(digest: string)

  datatype Env = Env(
    rootFails: bool,
    fetch: Option<Asset>,
    directoryFails: bool,
    downloads: bool,
    archiveLost: bool,
    specFails: bool,
    extraction: Extraction,
    trustWriteFails: bool,
    markerWriteFails: bool,
    stuck: set<string>)

  function Loaded(trust: TrustFile): Result<Catalog, string> {
    match trust
    case Absent => Ok(EMPTY_CATALOG)
    case Unreadable => Err("version trust catalog is invalid")
    case Present(c) => if Accepted(c) then Ok(c) else Err("version trust catalog contains an invalid entry")
  }

  predicate StoreSucceeds(h: Host, marker: Marker, env: Env) {
    && Loaded(h.trust).Ok?
    && StoredCatalog(Loaded(h.trust).value, marker).Ok?
    && !env.trustWriteFails
  }

  function StoredHost(h: Host, marker: Marker, env: Env): Host {
    if !StoreSucceeds(h, marker, env) then h
    else
      var c := StoredCatalog(Loaded(h.trust).value, marker).value;
      Host(Present(c),
           if IsRolling(marker.version) && marker.version in c.channels
           then PrunedDisk(h.disk, marker.version, c.channels[marker.version], env.stuck) else h.disk)
  }

  function MarkerFor(version: string, asset: Asset, binarySha: string): Marker {
    Marker(version, asset.digest, binarySha, asset.name, asset.size)
  }

  /** The directory once the archive is there, or the download gave up. */
  function Downloaded(directory: Directory, asset: Asset, env: Env): (Directory, bool) {
    if asset.name in directory.archives && directory.archives[asset.name] == asset.digest then (directory, true)
    else if env.downloads then (directory.(archives := directory.archives[asset.name := asset.digest]), true)
    else if env.archiveLost then (directory.(archives := directory.archives - {asset.name}), false)
    else (directory, false)
  }

  /** The directory after the extraction. */
  function WithCore(directory: Directory, extraction: Extraction): Directory {
    match extraction
    case ExtractFailed(coreLost) => if coreLost then directory.(core := None) else directory
    case Extracted(digest) => directory.(core := Some(digest))
  }

  /** `versionCore` from the creation of the directory on. */
  function Installed(h: Host, version: string, key: string, asset: Asset, env: Env): (Host, Option<Core>) {
    var place := VersionDirectory(version, key);
    if env.directoryFails then (h, None)
    else
      var (fetched, there) := Downloaded(At(h.disk, place), asset, env);
      if !there || env.specFails then (h.(disk := h.disk[place := fetched]), None)
      else
        var extracted := h.(disk := h.disk[place := WithCore(fetched, env.extraction)]);
        if env.extraction.ExtractFailed? then (extracted, None)
        else
          var marker := MarkerFor(version, asset, env.extraction.digest);
          var stored := StoredHost(extracted, marker, env);
          if !StoreSucceeds(extracted, marker, env) || env.markerWriteFails then (stored, None)
          else
            (stored.(disk := stored.disk[place := At(stored.disk, place).(marker := Some(marker))]),
             Some(Core(place, env.extraction.digest)))
  }

  /** The generation the fetched asset would become, if it is already trusted and intact. */
  predicate AlreadyCached(h: Host, c: Catalog, version: string, key: string, asset: Asset) {
    && IsRolling(version)
    && key in c.versions
    && c.versions[key].assetName == asset.name
    && c.versions[key].archiveBytes == asset.size
    && CachedTrusted(h.disk, version, key, c).Some?
  }

  function AssetKey(version: string, asset: Asset): string {
    if IsRolling(version) then version + "@" + asset.digest else version
  }

  function VersionCore(h: Host, version: string, refresh: bool, env: Env): (Host, Option<Core>) {
    if !IsVersion(version) || env.rootFails || Loaded(h.trust).Err? then (h, None)
    else
      var c := Loaded(h.trust).value;
      var cached := CurrentCached(h.disk, version, c);
      if cached.Some? && (!IsRolling(version) || !refresh) then (h, cached)
      else if env.fetch.None? then (h, cached)
      else
        var asset := env.fetch.value;
        var key := AssetKey(version, asset);
        if AlreadyCached(h, c, version, key, asset) then
          (StoredHost(h, c.versions[key], env),
           if StoreSucceeds(h, c.versions[key], env) then CachedTrusted(h.disk, version, key, c) else None)
        else Installed(h, version, key, asset, env)
  }

  // ---------------------------------------------------------------------------
  // A refresh keeps a usable core
  // ---------------------------------------------------------------------------

  /** The key the channel falls back to first: its current generation, or the legacy fixed key. */
  function CurrentKey(c: Catalog, channel: string): string {
    if channel in c.channels then c.channels[channel].current else channel
  }

  /** Two keys of a channel never share a directory. */
  lemma KeysHaveOwnDirectories(channel: string, a: string, b: string)
    requires a == channel || (channel + "@" <= a && IsHex64(a[|channel| + 1..]))
    requires b == channel || (channel + "@" <= b && IsHex64(b[|channel| + 1..]))
    requires VersionDirectory(channel, a) == VersionDirectory(channel, b)
    ensures a == b
  {
    if a != channel {
      assert a == a[..|channel| + 1] + a[|channel| + 1..];
    }
    if b != channel {
      assert b == b[..|channel| + 1] + b[|channel| + 1..];
    }
  }

  /** A valid rolling key has one of the two shapes. */
  lemma TargetShape(channel: string, key: string, marker: Marker)
    requires IsRolling(channel) && marker.version == channel && ValidTrustEntry(key, marker)
    ensures key == channel || (channel + "@" <= key && IsHex64(key[|channel| + 1..]))
  {
    if key != channel {
      assert key == channel + "@" + marker.archiveSha;
      assert key[|channel| + 1..] == marker.archiveSha;
    }
  }

  /** `key` names an intact core that `currentCachedCore` looks at. */
  predicate FallsBackTo(h: Host, channel: string, key: string) {
    && Loaded(h.trust).Ok?
    && var c := Loaded(h.trust).value;
    && (if channel in c.channels then key == c.channels[channel].current || key == c.channels[channel].previous
        else key == channel)
    && CachedTrusted(h.disk, channel, key, c).Some?
  }

  lemma FallbackServes(h: Host, channel: string, key: string)
    requires IsRolling(channel) && FallsBackTo(h, channel, key)
    ensures CurrentCached(h.disk, channel, Loaded(h.trust).value).Some?
  {
    TargetShape(channel, key, Loaded(h.trust).value.versions[key]);
  }

  lemma StoreKeepsEntry(c: Catalog, marker: Marker, channel: string)
    requires Accepted(c) && StoredCatalog(c, marker).Ok? && marker.version == channel && IsRolling(channel)
    requires ValidTarget(c, channel, CurrentKey(c, channel))
    ensures
      var d := StoredCatalog(c, marker).value;
      var key := CurrentKey(c, channel);
      && channel in d.channels
      && (key == d.channels[channel].current || key == d.channels[channel].previous)
      && key in d.versions && d.versions[key] == c.versions[key]
  {
  }

  /** The generation that was current before a store is one of the two kept, unchanged on disk. */
  lemma StoreKeepsCurrent(h: Host, marker: Marker, env: Env, channel: string, key: string)
    requires Loaded(h.trust).Ok? && marker.version == channel && IsRolling(channel)
    requires key == CurrentKey(Loaded(h.trust).value, channel) && FallsBackTo(h, channel, key)
    ensures FallsBackTo(StoredHost(h, marker, env), channel, key)
    ensures At(StoredHost(h, marker, env).disk, VersionDirectory(channel, key)) == At(h.disk, VersionDirectory(channel, key))
  {
    var c := Loaded(h.trust).value;
    if StoreSucceeds(h, marker, env) {
      StoreKeepsAccepted(c, marker);
      StoreKeepsEntry(c, marker, channel);
      TargetShape(channel, key, c.versions[key]);
      var d := StoredCatalog(c, marker).value;
      assert !Removable(channel, d.channels[channel], env.stuck, VersionDirectory(channel, key));
    }
  }

  /** What the release lookup guarantees about an asset it returns. */
  predicate Official(asset: Asset) {
    IsHex64(asset.digest) && 0 < asset.size <= MAX_CORE_BYTES
  }

  lemma InstallKeepsCurrent(h: Host, version: string, asset: Asset, env: Env, current: string)
    requires IsRolling(version) && Official(asset) && Loaded(h.trust).Ok?
    requires current == CurrentKey(Loaded(h.trust).value, version) && FallsBackTo(h, version, current)
    requires AssetKey(version, asset) != current
    ensures FallsBackTo(Installed(h, version, AssetKey(version, asset), asset, env).0, version, current)
  {
    var key := AssetKey(version, asset);
    var place := VersionDirectory(version, key);
    assert key[|version| + 1..] == asset.digest;
    TargetShape(version, current, Loaded(h.trust).value.versions[current]);
    if place == VersionDirectory(version, current) {
      KeysHaveOwnDirectories(version, key, current);
    }
    var (fetched, there) := Downloaded(At(h.disk, place), asset, env);
    if !env.directoryFails && there && !env.specFails && env.extraction.Extracted? {
      var extracted := h.(disk := h.disk[place := WithCore(fetched, env.extraction)]);
      assert FallsBackTo(extracted, version, current);
      StoreKeepsCurrent(extracted, MarkerFor(version, asset, env.extraction.digest), env, version, current);
    }
  }

  /**
   If the current generation is intact and the fetched asset has another digest (or is itself
   cached), then wherever `versionCore` stops, the reloaded catalog still serves a verified core.
   */
  lemma RefreshKeepsCore(h: Host, version: string, refresh: bool, env: Env)
    requires IsRolling(version) && Loaded(h.trust).Ok?
    requires
      var c := Loaded(h.trust).value;
      && CachedTrusted(h.disk, version, CurrentKey(c, version), c).Some?
      && (env.fetch.Some? ==>
            && Official(env.fetch.value)
            && (AssetKey(version, env.fetch.value) != CurrentKey(c, version)
                || AlreadyCached(h, c, version, AssetKey(version, env.fetch.value), env.fetch.value)))
    ensures
      var after := VersionCore(h, version, refresh, env).0;
      && Loaded(after.trust).Ok?
      && CurrentCached(after.disk, version, Loaded(after.trust).value).Some?
  {
    var c := Loaded(h.trust).value;
    var current := CurrentKey(c, version);
    FallbackServes(h, version, current);
    if env.fetch.Some? {
      var key := AssetKey(version, env.fetch.value);
      if AlreadyCached(h, c, version, key, env.fetch.value) {
        StoreKeepsCurrent(h, c.versions[key], env, version, current);
        FallbackServes(StoredHost(h, c.versions[key], env), version, current);
      } else {
        InstallKeepsCurrent(h, version, env.fetch.value, env, current);
        FallbackServes(Installed(h, version, key, env.fetch.value, env).0, version, current);
      }
    }
  }

  /** The refresh reaches the trust write with a new generation, and then cannot write its marker. */
  predicate StopsBeforeMarker(h: Host, version: string, env: Env) {
    && IsRolling(version) && !env.rootFails && Loaded(h.trust).Ok?
    && env.fetch.Some? && Official(env.fetch.value) && IsBaseName(env.fetch.value.name)
    && !env.directoryFails && env.downloads && !env.specFails
    && env.extraction.Extracted? && IsHex64(env.extraction.digest)
    && !env.trustWriteFails && env.markerWriteFails
    && AssetKey(version, env.fetch.value) !in Loaded(h.trust).value.versions
    && At(h.disk, VersionDirectory(version, AssetKey(version, env.fetch.value))).marker.None?
  }

  /** The new generation has no marker yet, and the old current one is served only if it was intact. */
  lemma DamagedCurrentIsLost(h: Host, version: string, env: Env)
    requires StopsBeforeMarker(h, version, env)
    requires version in Loaded(h.trust).value.channels
    requires
      var c := Loaded(h.trust).value;
      CachedTrusted(h.disk, version, c.channels[version].current, c).None?
    ensures
      var after := Installed(h, version, AssetKey(version, env.fetch.value), env.fetch.value, env).0;
      Loaded(after.trust).Ok? && CurrentCached(after.disk, version, Loaded(after.trust).value).None?
  {
    var c := Loaded(h.trust).value;
    var asset := env.fetch.value;
    var key := AssetKey(version, asset);
    var current := c.channels[version].current;
    assert ValidChannel(c, version);
    TargetShape(version, current, c.versions[current]);
    assert key[|version| + 1..] == asset.digest;
    if VersionDirectory(version, key) == VersionDirectory(version, current) {
      KeysHaveOwnDirectories(version, key, current);
    }
    var place := VersionDirectory(version, key);
    var fetched := Downloaded(At(h.disk, place), asset, env).0;
    var extracted := h.(disk := h.disk[place := WithCore(fetched, env.extraction)]);
    var marker := MarkerFor(version, asset, env.extraction.digest);
    assert TrustKey(marker) == key;
    StoreKeepsAccepted(c, marker);
    StoreKeepsEntry(c, marker, version);
    var stored := StoredHost(extracted, marker, env);
    var d := Loaded(stored.trust).value;
    assert d.channels[version] == ChannelRef(key, current);
    PruningNeverHeals(extracted.disk, version, key, d, env.stuck);
    PruningNeverHeals(extracted.disk, version, current, d, env.stuck);
  }

  /** A generation that was not intact is not intact after pruning either. */
  lemma PruningNeverHeals(disk: Disk, channel: string, key: string, d: Catalog, stuck: set<string>)
    requires channel in d.channels
    requires
      key in d.versions ==>
        At(disk, VersionDirectory(channel, key)).marker != Some(d.versions[key]) ||
        At(disk, VersionDirectory(channel, key)).core != Some(d.versions[key].binarySha)
    ensures CachedTrusted(PrunedDisk(disk, channel, d.channels[channel], stuck), channel, key, d).None?
  {
  }

  /**
   Why the current generation must be intact: a refresh that stops before its marker leaves a
   usable core exactly if the current generation was usable, whatever the previous one was worth.
   */
  lemma OnlyCurrentSurvives(h: Host, version: string, env: Env)
    requires StopsBeforeMarker(h, version, env)
    requires version in Loaded(h.trust).value.channels && IsVersion(version)
    ensures
      var c := Loaded(h.trust).value;
      var after := VersionCore(h, version, true, env).0;
      && Loaded(after.trust).Ok?
      && (CurrentCached(after.disk, version, Loaded(after.trust).value).Some? <==>
          CachedTrusted(h.disk, version, c.channels[version].current, c).Some?)
  {
    var c := Loaded(h.trust).value;
    if CachedTrusted(h.disk, version, c.channels[version].current, c).Some? {
      RefreshKeepsCore(h, version, true, env);
    } else {
      DamagedCurrentIsLost(h, version, env);
    }
  }

  // ---------------------------------------------------------------------------
  // A refresh with the digest of the current generation
  // ---------------------------------------------------------------------------

  /** The fetched asset has the digest of the intact current generation. */
  predicate SameDigest(h: Host, version: string, asset: Asset) {
    && IsRolling(version) && Official(asset) && Loaded(h.trust).Ok?
    && var c := Loaded(h.trust).value;
    && version in c.channels
    && AssetKey(version, asset) == c.channels[version].current
    && CachedTrusted(h.disk, version, c.channels[version].current, c).Some?
  }

  /** It is recorded under another name or size. */
  predicate Differs(h: Host, version: string, asset: Asset)
    requires SameDigest(h, version, asset)
  {
    var trusted := Loaded(h.trust).value.versions[AssetKey(version, asset)];
    trusted.assetName != asset.name || trusted.archiveBytes != asset.size
  }

  /** The previous generation is another one, and intact. */
  predicate PreviousServes(disk: Disk, version: string, c: Catalog)
    requires version in c.channels
  {
    var ref := c.channels[version];
    ref.previous != "" && ref.previous != ref.current && CachedTrusted(disk, version, ref.previous, c).Some?
  }

  predicate LosesCore(h: Host, version: string, env: Env) {
    var after := VersionCore(h, version, true, env).0;
    !(Loaded(after.trust).Ok? && CurrentCached(after.disk, version, Loaded(after.trust).value).Some?)
  }

  /** The trust store refuses the asset, so that the refresh changes nothing but the current directory. */
  lemma StoreRefuses(h: Host, version: string, asset: Asset, env: Env, disk: Disk)
    requires SameDigest(h, version, asset) && Differs(h, version, asset) && env.extraction.Extracted?
    ensures !StoreSucceeds(h.(disk := disk), MarkerFor(version, asset, env.extraction.digest), env)
  {
    assert TrustKey(MarkerFor(version, asset, env.extraction.digest)) == AssetKey(version, asset);
  }

  lemma InstallStaysInPlace(h: Host, version: string, asset: Asset, env: Env)
    requires SameDigest(h, version, asset) && Differs(h, version, asset)
    ensures
      var key := AssetKey(version, asset);
      var after := Installed(h, version, key, asset, env).0;
      && after.trust == h.trust
      && (forall place | place != VersionDirectory(version, key) :: At(after.disk, place) == At(h.disk, place))
  {
    var place := VersionDirectory(version, AssetKey(version, asset));
    var fetched := Downloaded(At(h.disk, place), asset, env).0;
    if env.extraction.Extracted? {
      StoreRefuses(h, version, asset, env, h.disk[place := WithCore(fetched, env.extraction)]);
    }
  }

  lemma OwnDirectory(c: Catalog, version: string)
    requires Accepted(c) && IsRolling(version) && version in c.channels
    requires c.channels[version].previous != "" && c.channels[version].previous != c.channels[version].current
    ensures VersionDirectory(version, c.channels[version].previous) != VersionDirectory(version, c.channels[version].current)
  {
    var ref := c.channels[version];
    assert ValidChannel(c, version);
    TargetShape(version, ref.current, c.versions[ref.current]);
    TargetShape(version, ref.previous, c.versions[ref.previous]);
    if VersionDirectory(version, ref.previous) == VersionDirectory(version, ref.current) {
      KeysHaveOwnDirectories(version, ref.previous, ref.current);
    }
  }

  lemma PreviousStays(h: Host, version: string, asset: Asset, env: Env)
    requires SameDigest(h, version, asset) && Differs(h, version, asset)
    ensures
      var c := Loaded(h.trust).value;
      var after := Installed(h, version, AssetKey(version, asset), asset, env).0;
      PreviousServes(after.disk, version, c) <==> PreviousServes(h.disk, version, c)
  {
    var c := Loaded(h.trust).value;
    var ref := c.channels[version];
    InstallStaysInPlace(h, version, asset, env);
    if ref.previous != "" && ref.previous != ref.current {
      OwnDirectory(c, version);
    }
  }

  /** A channel serves a core exactly if its current generation or another previous one is intact. */
  lemma ServesExactly(disk: Disk, version: string, c: Catalog)
    requires Accepted(c) && IsRolling(version) && version in c.channels
    ensures CurrentCached(disk, version, c).Some? <==>
            CachedTrusted(disk, version, c.channels[version].current, c).Some? || PreviousServes(disk, version, c)
  {
    assert ValidChannel(c, version);
  }

  lemma InstalledOverCurrent(h: Host, version: string, asset: Asset, env: Env)
    requires SameDigest(h, version, asset) && Differs(h, version, asset)
    requires !env.rootFails && env.fetch == Some(asset)
    ensures VersionCore(h, version, true, env).0 == Installed(h, version, AssetKey(version, asset), asset, env).0
  {
  }

  /** The extraction has removed the old core, and fails. */
  function LosingEnv(asset: Asset): Env {
    Env(false, Some(asset), false, true, false, false, ExtractFailed(true), false, false, {})
  }

  lemma CoreIsLost(h: Host, version: string, asset: Asset)
    requires SameDigest(h, version, asset) && Differs(h, version, asset)
    ensures
      var c := Loaded(h.trust).value;
      var after := Installed(h, version, AssetKey(version, asset), asset, LosingEnv(asset)).0;
      CachedTrusted(after.disk, version, c.channels[version].current, c).None?
  {
  }

  lemma SameDigestCanLoseTheCore(h: Host, version: string, asset: Asset)
    requires SameDigest(h, version, asset) && Differs(h, version, asset)
    requires !PreviousServes(h.disk, version, Loaded(h.trust).value)
    ensures LosesCore(h, version, LosingEnv(asset))
  {
    var env := LosingEnv(asset);
    InstalledOverCurrent(h, version, asset, env);
    InstallStaysInPlace(h, version, asset, env);
    PreviousStays(h, version, asset, env);
    CoreIsLost(h, version, asset);
    ServesExactly(VersionCore(h, version, true, env).0.disk, version, Loaded(h.trust).value);
  }

  lemma SameDigestKeepsTheCore(h: Host, version: string, asset: Asset, env: Env)
    requires SameDigest(h, version, asset) && env.fetch == Some(asset)
    requires Differs(h, version, asset) ==> PreviousServes(h.disk, version, Loaded(h.trust).value)
    ensures !LosesCore(h, version, env)
  {
    var c := Loaded(h.trust).value;
    if !Differs(h, version, asset) {
      RefreshKeepsCore(h, version, true, env);
    } else if env.rootFails {
      ServesExactly(h.disk, version, c);
    } else {
      InstalledOverCurrent(h, version, asset, env);
      InstallStaysInPlace(h, version, asset, env);
      PreviousStays(h, version, asset, env);
      ServesExactly(VersionCore(h, version, true, env).0.disk, version, c);
    }
  }

  /**
   Why the digest must differ: with the digest of the intact current generation a refresh can lose the
   core exactly if the asset is recorded under another name or size and no other generation serves.
   */
  lemma SameDigestExactly(h: Host, version: string, asset: Asset)
    requires SameDigest(h, version, asset)
    ensures (exists env: Env :: env.fetch == Some(asset) && LosesCore(h, version, env)) <==>
            Differs(h, version, asset) && !PreviousServes(h.disk, version, Loaded(h.trust).value)
  {
    if Differs(h, version, asset) && !PreviousServes(h.disk, version, Loaded(h.trust).value) {
      SameDigestCanLoseTheCore(h, version, asset);
    } else {
      forall env: Env | env.fetch == Some(asset) ensures !LosesCore(h, version, env) {
        SameDigestKeepsTheCore(h, version, asset, env);
      }
    }
  }

  // ---------------------------------------------------------------------------
  // What an answered core is worth
  // ---------------------------------------------------------------------------

  /** The reloaded catalog serves exactly this core. */
  predicate Serves(h: Host, version: string, core: Core) {
    Loaded(h.trust).Ok? && CurrentCached(h.disk, version, Loaded(h.trust).value) == Some(core)
  }

  /** The entry that `key` names is intact in the place of its own. */
  predicate IsIntact(h: Host, version: string, key: string, core: Core) {
    && Loaded(h.trust).Ok?
    && (if IsRolling(version) then
          version in Loaded(h.trust).value.channels && Loaded(h.trust).value.channels[version].current == key && key != ""
        else key == version)
    && CachedTrusted(h.disk, version, key, Loaded(h.trust).value) == Some(core)
  }

  lemma IntactServes(h: Host, version: string, key: string, core: Core)
    requires IsIntact(h, version, key, core)
    ensures Serves(h, version, core)
  {
  }

  /** A store that goes through makes its generation the current one, and leaves its directory alone. */
  lemma StoredIsCurrent(h: Host, marker: Marker, env: Env)
    requires StoreSucceeds(h, marker, env)
    ensures
      var t := StoredHost(h, marker, env);
      var key := TrustKey(marker);
      && Loaded(t.trust).Ok? && key in Loaded(t.trust).value.versions && Loaded(t.trust).value.versions[key] == marker
      && (IsRolling(marker.version) ==>
            marker.version in Loaded(t.trust).value.channels &&
            Loaded(t.trust).value.channels[marker.version].current == key)
      && At(t.disk, VersionDirectory(marker.version, key)) == At(h.disk, VersionDirectory(marker.version, key))
  {
    var c := Loaded(h.trust).value;
    StoreKeepsAccepted(c, marker);
    var d := StoredCatalog(c, marker).value;
    if IsRolling(marker.version) {
      assert !Removable(marker.version, d.channels[marker.version], env.stuck,
                        VersionDirectory(marker.version, TrustKey(marker)));
    }
  }

  lemma InstalledIsIntact(h: Host, version: string, asset: Asset, env: Env)
    requires Installed(h, version, AssetKey(version, asset), asset, env).1.Some?
    ensures
      var (t, core) := Installed(h, version, AssetKey(version, asset), asset, env);
      var key := AssetKey(version, asset);
      && IsIntact(t, version, key, core.value)
      && core.value == Core(VersionDirectory(version, key), env.extraction.digest)
      && Loaded(t.trust).value.versions[key] == MarkerFor(version, asset, env.extraction.digest)
  {
    var key := AssetKey(version, asset);
    var place := VersionDirectory(version, key);
    var fetched := Downloaded(At(h.disk, place), asset, env).0;
    var extracted := h.(disk := h.disk[place := WithCore(fetched, env.extraction)]);
    var marker := MarkerFor(version, asset, env.extraction.digest);
    assert TrustKey(marker) == key;
    StoredIsCurrent(extracted, marker, env);
    StoreKeepsAccepted(Loaded(h.trust).value, marker);
  }

  lemma CachedIsIntact(h: Host, version: string, key: string, env: Env)
    requires IsRolling(version) && Loaded(h.trust).Ok? && CachedTrusted(h.disk, version, key, Loaded(h.trust).value).Some?
    requires key == TrustKey(Loaded(h.trust).value.versions[key])
    requires StoreSucceeds(h, Loaded(h.trust).value.versions[key], env)
    ensures
      var c := Loaded(h.trust).value;
      IsIntact(StoredHost(h, c.versions[key], env), version, key, CachedTrusted(h.disk, version, key, c).value)
  {
    StoredIsCurrent(h, Loaded(h.trust).value.versions[key], env);
  }

  /**
   Whatever core `versionCore` answers, on whichever way, the reloaded catalog serves exactly that one;
   if it comes from a fetched asset, the catalog records the asset, and a rolling channel makes it current.
   */
  lemma AnsweredCoreIsServed(h: Host, version: string, refresh: bool, env: Env)
    requires VersionCore(h, version, refresh, env).1.Some?
    requires IsRolling(version) && env.fetch.Some? ==> IsHex64(env.fetch.value.digest)
    ensures
      var (t, core) := VersionCore(h, version, refresh, env);
      && Serves(t, version, core.value)
      && (t == h || (env.fetch.Some? && var key := AssetKey(version, env.fetch.value);
                     && IsIntact(t, version, key, core.value)
                     && Loaded(t.trust).value.versions[key] ==
                        MarkerFor(version, env.fetch.value, Loaded(t.trust).value.versions[key].binarySha)))
  {
    var c := Loaded(h.trust).value;
    var cached := CurrentCached(h.disk, version, c);
    if !(cached.Some? && (!IsRolling(version) || !refresh)) && env.fetch.Some? {
      var asset := env.fetch.value;
      var key := AssetKey(version, asset);
      if AlreadyCached(h, c, version, key, asset) {
        EntryOfAsset(c, version, asset);
        CachedIsIntact(h, version, key, env);
        StoredIsCurrent(h, c.versions[key], env);
        IntactServes(StoredHost(h, c.versions[key], env), version, key, CachedTrusted(h.disk, version, key, c).value);
      } else {
        InstalledIsIntact(h, version, asset, env);
        var t := Installed(h, version, key, asset, env);
        IntactServes(t.0, version, key, t.1.value);
      }
    }
  }

  /** The entry under an asset's key is about that digest. */
  lemma EntryOfAsset(c: Catalog, version: string, asset: Asset)
    requires Accepted(c) && IsRolling(version) && AssetKey(version, asset) in c.versions
    requires c.versions[AssetKey(version, asset)].version == version
    ensures
      var marker := c.versions[AssetKey(version, asset)];
      marker.archiveSha == asset.digest && TrustKey(marker) == AssetKey(version, asset)
  {
    var key := AssetKey(version, asset);
    var marker := c.versions[key];
    assert ValidTrustEntry(key, marker);
    assert key != version by {
      assert |key| > |version|;
    }
    assert key == version + "@" + marker.archiveSha;
    assert key[|version| + 1..] == marker.archiveSha && key[|version| + 1..] == asset.digest;
  }

  /** When an install answers a core: none of its steps fails, and the store accepts the asset. */
  lemma InstallAnswersExactly(h: Host, version: string, asset: Asset, env: Env)
    requires Loaded(h.trust).Ok? && Official(asset) && IsBaseName(asset.name)
    ensures
      var c := Loaded(h.trust).value;
      var key := AssetKey(version, asset);
      var there := var archives := At(h.disk, VersionDirectory(version, key)).archives;
                   asset.name in archives && archives[asset.name] == asset.digest;
      Installed(h, version, key, asset, env).1.Some? <==>
        && !env.directoryFails && (there || env.downloads) && !env.specFails
        && env.extraction.Extracted? && IsHex64(env.extraction.digest)
        && (key in c.versions ==> c.versions[key] == MarkerFor(version, asset, env.extraction.digest))
        && !env.trustWriteFails && !env.markerWriteFails
  {
    var key := AssetKey(version, asset);
    assert env.extraction.Extracted? ==> TrustKey(MarkerFor(version, asset, env.extraction.digest)) == key;
  }

  /** Before anything else is looked at: a bad version, no directory or a bad catalog gets no answer. */
  lemma BadRequestsChangeNothing(h: Host, version: string, refresh: bool, env: Env)
    requires !IsVersion(version) || env.rootFails || Loaded(h.trust).Err?
    ensures VersionCore(h, version, refresh, env) == (h, None)
  {
  }

  /**
   A catalog from before there were channels, with the version itself as the key of its one generation, is
   accepted and served, and its generation becomes the previous one when the channel gets its first.
   */
  lemma LegacyEntryIsAdopted(version: string, legacy: Marker, newest: Marker)
    requires IsRolling(version) && ValidTrustedMarker(version, legacy) && ValidTrustedMarker(version, newest)
    ensures
      var c := Catalog(map[version := legacy], map[]);
      var stored := StoredCatalog(c, newest);
      && Accepted(c) && CurrentKey(c, version) == version
      && stored.Ok?
      && stored.value.channels == map[version := ChannelRef(version + "@" + newest.archiveSha, version)]
      && stored.value.versions == map[version := legacy, version + "@" + newest.archiveSha := newest]
  {
    assert TrustKey(newest) == version + "@" + newest.archiveSha;
    assert |version + "@" + newest.archiveSha| > |version|;
  }

  /** Without a refresh, and if nothing can be fetched, the answer is the core that was cached. */
  lemma CachedIsAnswered(h: Host, version: string, refresh: bool, env: Env)
    requires IsVersion(version) && !env.rootFails && Loaded(h.trust).Ok?
    ensures
      var c := Loaded(h.trust).value;
      var cached := CurrentCached(h.disk, version, c);
      (cached.Some? && (!refresh || !IsRolling(version))) || env.fetch.None? ==>
        VersionCore(h, version, refresh, env) == (h, cached)
  {
  }

  /** The directory at `place`, if it is one of the channel's generations, is current, previous or stuck. */
  predicate IsTidy(disk: Disk, left: Disk, channel: string, ref: ChannelRef, stuck: set<string>, place: Place) {
    && (place.version == channel && IsHex64(place.digest) && place in left ==>
          || place.digest in stuck
          || place == VersionDirectory(channel, ref.current)
          || (ref.previous != "" && place == VersionDirectory(channel, ref.previous)))
    && (place in left ==> place in disk && left[place] == disk[place])
    && (place in disk && (place.version != channel || !IsHex64(place.digest)) ==> place in left)
  }

  lemma StoredIsPruned(h: Host, marker: Marker, env: Env)
    requires StoreSucceeds(h, marker, env) && IsRolling(marker.version)
    ensures
      var t := StoredHost(h, marker, env);
      && Loaded(t.trust).Ok? && marker.version in Loaded(t.trust).value.channels
      && t.disk == PrunedDisk(h.disk, marker.version, Loaded(t.trust).value.channels[marker.version], env.stuck)
  {
    StoreKeepsAccepted(Loaded(h.trust).value, marker);
  }

  /**
   After a store of a rolling generation the channel has its current and its previous directory and those
   the file system would not remove; every other directory of the tree is as it was.
   */
  lemma OneDirectoryPerGeneration(h: Host, t: Host, marker: Marker, env: Env, place: Place)
    requires StoreSucceeds(h, marker, env) && IsRolling(marker.version) && t == StoredHost(h, marker, env)
    ensures Loaded(t.trust).Ok? && marker.version in Loaded(t.trust).value.channels
    ensures IsTidy(h.disk, t.disk, marker.version, Loaded(t.trust).value.channels[marker.version], env.stuck, place)
  {
    StoredIsPruned(h, marker, env);
    assert marker.version != "";
    PrunedAre(h.disk, marker.version, Loaded(t.trust).value.channels[marker.version], env.stuck, place);
  }

  lemma PrunedAre(disk: Disk, channel: string, ref: ChannelRef, stuck: set<string>, place: Place)
    requires channel != ""
    ensures IsTidy(disk, PrunedDisk(disk, channel, ref, stuck), channel, ref, stuck, place)
  {
  }

  // ---------------------------------------------------------------------------
  // The runtime as an object
  // ---------------------------------------------------------------------------

  class WindowsRuntime {
    var trust: TrustFile
    var disk: Disk

    ghost function View(): Host
      reads this
    {
      Host(trust, disk)
    }

    constructor (host: Host)
      ensures View() == host
    {
      trust, disk := host.trust, host.disk;
    }

    method LoadVersionTrust() returns (r: Result<Catalog, string>)
      ensures r.Ok? <==> Loaded(trust).Ok?
      ensures r.Ok? ==> r.value == Loaded(trust).value
    {
      if trust.Absent? {
        return Ok(EMPTY_CATALOG);
      }
      if trust.Unreadable? {
        return Err("version trust catalog is invalid");
      }
      var c := trust.catalog;
      var keys := c.versions.Keys;
      while keys != {}
        invariant keys <= c.versions.Keys
        invariant forall key <- c.versions.Keys - keys :: ValidTrustEntry(key, c.versions[key])
        decreases keys
      {
        var key :| key in keys;
        if !ValidTrustEntry(key, c.versions[key]) {
          return Err("version trust catalog contains an invalid entry");
        }
        keys := keys - {key};
      }
      var channels := c.channels.Keys;
      while channels != {}
        invariant channels <= c.channels.Keys
        invariant forall channel <- c.channels.Keys - channels :: ValidChannel(c, channel)
        decreases channels
      {
        var channel :| channel in channels;
        var ref := c.channels[channel];
        if !IsRolling(channel) || ref.current == "" {
          return Err("version trust catalog contains an invalid channel");
        }
        if !ValidTarget(c, channel, ref.current) || (ref.previous != "" && !ValidTarget(c, channel, ref.previous)) {
          return Err("version trust catalog channel target is invalid");
        }
        channels := channels - {channel};
      }
      return Ok(c);
    }

    method StoreVersionTrust(marker: Marker, env: Env) returns (ok: bool)
      modifies this
      ensures View() == StoredHost(old(View()), marker, env)
      ensures ok == StoreSucceeds(old(View()), marker, env)
    {
      var loaded := LoadVersionTrust();
      if !ValidTrustedMarker(marker.version, marker) || loaded.Err? {
        return false;
      }
      var c := loaded.value;
      var key := TrustKey(marker);
      if key in c.versions && c.versions[key] != marker {
        return false;
      }
      var versions := c.versions[key := marker];
      var channels := c.channels;
      if IsRolling(marker.version) {
        var ref := if marker.version in channels then channels[marker.version] else ChannelRef("", "");
        if ref.current == "" && marker.version in versions {
          ref := ref.(current := marker.version);
        }
        if ref.current != key {
          ref := ChannelRef(key, ref.current);
        }
        channels := channels[marker.version := ref];
        versions := DropOutdated(versions, marker.version, ref);
      }
      if env.trustWriteFails {
        return false;
      }
      trust := Present(Catalog(versions, channels));
      if IsRolling(marker.version) {
        PruneRollingDirectories(marker.version, channels[marker.version], env.stuck);
      }
      return true;
    }

    method DropOutdated(all: map<string, Marker>, channel: string, ref: ChannelRef) returns (versions: map<string, Marker>)
      ensures versions == Pruned(all, channel, ref)
    {
      versions := all;
      var rest := all.Keys;
      while rest != {}
        invariant rest <= all.Keys
        invariant versions == map key | key in all && (key in rest || !Outdated(channel, ref, key, all[key])) :: all[key]
        decreases rest
      {
        var candidate :| candidate in rest;
        rest := rest - {candidate};
        if Outdated(channel, ref, candidate, all[candidate]) {
          versions := versions - {candidate};
        }
      }
    }

    method PruneRollingDirectories(channel: string, ref: ChannelRef, stuck: set<string>)
      modifies this`disk
      ensures disk == PrunedDisk(old(disk), channel, ref, stuck)
    {
      var all := disk;
      var rest := disk.Keys;
      while rest != {}
        invariant rest <= all.Keys
        invariant disk == map place | place in all && (place in rest || !Removable(channel, ref, stuck, place)) :: all[place]
        decreases rest
      {
        var place :| place in rest;
        rest := rest - {place};
        if Removable(channel, ref, stuck, place) {
          disk := disk - {place};
        }
      }
    }

    method CurrentCachedCore(version: string, c: Catalog) returns (r: Option<Core>)
      ensures r == CurrentCached(disk, version, c)
    {
      if !IsRolling(version) || version !in c.channels {
        return CachedTrusted(disk, version, version, c);
      }
      var keys := [c.channels[version].current, c.channels[version].previous];
      r := None;
      for i := 0 to 2
        invariant r == None
        invariant forall k | 0 <= k < i :: keys[k] == "" || CachedTrusted(disk, version, keys[k], c).None?
      {
        if keys[i] != "" && CachedTrusted(disk, version, keys[i], c).Some? {
          assert i == 1 ==> keys[0] == "" || CachedTrusted(disk, version, keys[0], c).None?;
          return CachedTrusted(disk, version, keys[i], c);
        }
      }
      assert keys[0] == "" || CachedTrusted(disk, version, keys[0], c).None?;
      assert keys[1] == "" || CachedTrusted(disk, version, keys[1], c).None?;
    }

    method EnsureVersionCore(version: string, refresh: bool, env: Env) returns (r: Option<Core>)
      modifies this
      ensures (View(), r) == VersionCore(old(View()), version, refresh, env)
    {
      if !IsVersion(version) || env.rootFails {
        return None;
      }
      var loaded := LoadVersionTrust();
      if loaded.Err? {
        return None;
      }
      var c := loaded.value;
      var cached := CurrentCachedCore(version, c);
      if cached.Some? && (!IsRolling(version) || !refresh) {
        return cached;
      }
      if env.fetch.None? {
        return cached;
      }
      var asset := env.fetch.value;
      var key := AssetKey(version, asset);
      if AlreadyCached(Host(trust, disk), c, version, key, asset) {
        var core := CachedTrusted(disk, version, key, c);
        var ok := StoreVersionTrust(c.versions[key], env);
        return if ok then core else None;
      }
      r := InstallVersion(version, key, asset, env);
    }

    method InstallVersion(version: string, key: string, asset: Asset, env: Env) returns (r: Option<Core>)
      modifies this
      ensures (View(), r) == Installed(old(View()), version, key, asset, env)
    {
      var place := VersionDirectory(version, key);
      if env.directoryFails {
        return None;
      }
      var (fetched, there) := Downloaded(At(disk, place), asset, env);
      disk := disk[place := fetched];
      if !there || env.specFails {
        return None;
      }
      disk := disk[place := WithCore(fetched, env.extraction)];
      assert disk == old(disk)[place := WithCore(fetched, env.extraction)];
      if env.extraction.ExtractFailed? {
        return None;
      }
      var marker := MarkerFor(version, asset, env.extraction.digest);
      var ok := StoreVersionTrust(marker, env);
      if !ok || env.markerWriteFails {
        return None;
      }
      disk := disk[place := At(disk, place).(marker := Some(marker))];
      return Some(Core(place, env.extraction.digest));
    }
  }
}
