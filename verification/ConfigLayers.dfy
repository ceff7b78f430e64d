/** Profile layering of `crates/config/src/config_yaml.rs`: how parsed config layers are merged, and
    what any number of them leaves fixed. */
module ConfigLayers {
  import opened Common
  import opened Capacity

  // ---------------------------------------------------------------- one layer

  datatype PoolDecl = PoolDecl(unit: Option<Unit>, value: Option<string>)

  type Resources = map<string, PoolDecl>

  datatype CachePatch = CachePatch(
    uri: Option<string>, read: Option<bool>, write: Option<bool>,
    concurrency: Option<nat>, endpoint: Option<string>, region: Option<string>)

  datatype PluginIdentifier = Builtin(name: string) | Path(path: string) | Url(url: string)

  datatype PluginSpec = PluginSpec(identifier: PluginIdentifier, options: map<string, string>, checksum: Option<string>)

  datatype MemCache = MemCache(perEntryBytes: nat, capacityBytes: nat)
  datatype Scratch = Scratch(scope: Option<string>, restoreScopes: seq<string>, seedOnFork: Option<bool>)
  datatype FuseEnabled = On | Off | Auto
  datatype LockBackend = Fs | Mem

  /** A parsed `.hephconfig`; single-field blocks are held as their field. */
  datatype Config = Config(
    version: Option<string>,
    versionFlavour: Option<string>,
    homeDir: Option<string>,
    plugins: seq<PluginSpec>,
    memCache: Option<MemCache>,
    scratch: Option<Scratch>,
    tmpCache: Option<MemCache>,
    fuse: Option<Option<FuseEnabled>>,
    lock: Option<Option<LockBackend>>,
    fsSkip: Option<seq<string>>,
    cacheSpill: Option<Option<nat>>,
    caches: map<string, CachePatch>,
    telemetry: Option<bool>,
    resources: Resources)

  datatype LoadError = UnitChanged

  // ---------------------------------------------------------------- merging

  /** The later value when there is one. */
  function Over<T>(base: Option<T>, later: Option<T>): Option<T> {
    if later.Some? then later else base
  }

  function MergePatch(base: CachePatch, p: CachePatch): CachePatch {
    CachePatch(Over(base.uri, p.uri), Over(base.read, p.read), Over(base.write, p.write),
               Over(base.concurrency, p.concurrency), Over(base.endpoint, p.endpoint), Over(base.region, p.region))
  }

  const NO_PATCH := CachePatch(None, None, None, None, None, None)

  function MergeCaches(a: map<string, CachePatch>, b: map<string, CachePatch>): map<string, CachePatch> {
    map n | n in a.Keys + b.Keys ::
      if n in b then MergePatch(if n in a then a[n] else NO_PATCH, b[n]) else a[n]
  }

  function MergeDecl(base: PoolDecl, d: PoolDecl): PoolDecl {
    PoolDecl(Over(base.unit, d.unit), Over(base.value, d.value))
  }

  const NO_DECL := PoolDecl(None, None)

  function MergeResources(a: Resources, b: Resources): Resources {
    map n | n in a.Keys + b.Keys ::
      if n in b then MergeDecl(if n in a then a[n] else NO_DECL, b[n]) else a[n]
  }

  function EffectiveUnit(pool: string, d: PoolDecl): Unit {
    if d.unit.Some? then d.unit.value else DefaultFor(pool)
  }

  /** `other` changes the unit of a pool this layer already has. */
  predicate Clashes(a: Resources, b: Resources, n: string) {
    n in a && n in b && b[n].unit.Some? && b[n].unit.value != EffectiveUnit(n, a[n])
  }

  predicate CheckMerge(a: Resources, b: Resources) {
    forall n :: n in b ==> !Clashes(a, b, n)
  }

  /** The position of the first entry with this identifier, or the length. */
  function Find(ps: seq<PluginSpec>, id: PluginIdentifier): (k: nat)
    ensures k <= |ps|
    ensures forall i :: 0 <= i < k ==> ps[i].identifier != id
    ensures k < |ps| ==> ps[k].identifier == id
  {
    if ps == [] || ps[0].identifier == id then 0 else 1 + Find(ps[1..], id)
  }

  function Upsert(ps: seq<PluginSpec>, e: PluginSpec): seq<PluginSpec> {
    var k := Find(ps, e.identifier);
    if k < |ps| then ps[k := e] else ps + [e]
  }

  function MergePlugins(base: seq<PluginSpec>, inc: seq<PluginSpec>): seq<PluginSpec> {
    if inc == [] then base else Upsert(MergePlugins(base, inc[..|inc| - 1]), inc[|inc| - 1])
  }

  /** `ConfigYaml::merge`. It has no case for `scratch`. */
  function Merge(a: Config, b: Config): Config {
    Config(
      Over(a.version, b.version),
      Over(a.versionFlavour, b.versionFlavour),
      Over(a.homeDir, b.homeDir),
      MergePlugins(a.plugins, b.plugins),
      Over(a.memCache, b.memCache),
      a.scratch,
      Over(a.tmpCache, b.tmpCache),
      Over(a.fuse, b.fuse),
      Over(a.lock, b.lock),
      Over(a.fsSkip, b.fsSkip),
      Over(a.cacheSpill, b.cacheSpill),
      MergeCaches(a.caches, b.caches),
      Over(a.telemetry, b.telemetry),
      MergeResources(a.resources, b.resources))
  }

  function TryMerge(a: Config, b: Config): Result<Config, LoadError> {
    if CheckMerge(a.resources, b.resources) then Ok(Merge(a, b)) else Err(UnitChanged)
  }

  // ---------------------------------------------------------------- the layered loader

  /** The fold shared by both loaders: the base, then each profile in order, stopping at an error. */
  function LoadLayered<T>(base: T, profiles: seq<T>, merge: (T, T) -> Result<T, LoadError>): Result<T, LoadError> {
    if profiles == [] then Ok(base)
    else
      var acc := LoadLayered(base, profiles[..|profiles| - 1], merge);
      if acc.Err? then acc else merge(acc.value, profiles[|profiles| - 1])
  }

  function LoadStrict(base: Config, profiles: seq<Config>): Result<Config, LoadError> {
    LoadLayered(base, profiles, TryMerge)
  }

  /** The lenient view of a layer: the two fields self-upgrade reads. */
  datatype VersionPin = VersionPin(version: Option<string>, versionFlavour: Option<string>)

  function MergePin(a: VersionPin, b: VersionPin): Result<VersionPin, LoadError> {
    Ok(VersionPin(Over(a.version, b.version), Over(a.versionFlavour, b.versionFlavour)))
  }

  function Pin(c: Config): VersionPin { VersionPin(c.version, c.versionFlavour) }

  function Pins(cs: seq<Config>): (ps: seq<VersionPin>)
    ensures |ps| == |cs| && forall i :: 0 <= i < |cs| ==> ps[i] == Pin(cs[i])
  {
    seq(|cs|, i requires 0 <= i < |cs| => Pin(cs[i]))
  }

  /** The lenient loader refines the strict one: whatever the strict fold accepts, the pin it ends
      with is the one the lenient fold reads from the same layers. */
  lemma {:induction false} LenientRefinesStrict(base: Config, profiles: seq<Config>)
    requires LoadStrict(base, profiles).Ok?
    ensures LoadLayered(Pin(base), Pins(profiles), MergePin) == Ok(Pin(LoadStrict(base, profiles).value))
    decreases |profiles|
  {
    if profiles != [] {
      var front := profiles[..|profiles| - 1];
      LenientRefinesStrict(base, front);
      assert Pins(profiles)[..|profiles| - 1] == Pins(front);
    }
  }

  // ---------------------------------------------------------------- pools over any run of layers

  /** The layers in order: the base is layer 0 and profile `i` is layer `i + 1`. */
  function Layer(base: Config, profiles: seq<Config>, i: nat): Config
    requires i <= |profiles|
  {
    if i == 0 then base else profiles[i - 1]
  }

  /** A field's value in the last layer that sets it. */
  function LastPresent<T>(base: Config, profiles: seq<Config>, field: Config -> Option<T>): Option<T> {
    if profiles == [] then field(base)
    else Over(LastPresent(base, profiles[..|profiles| - 1], field), field(profiles[|profiles| - 1]))
  }

  /** In terms of the layers: the result is what layer `j` says if no later layer sets the field and
      `j` does, or is the base. */
  lemma {:induction false} LastPresentIs<T>(base: Config, profiles: seq<Config>, field: Config -> Option<T>, j: nat)
    requires j <= |profiles| && (j == 0 || field(Layer(base, profiles, j)).Some?)
    requires forall k :: j < k <= |profiles| ==> field(Layer(base, profiles, k)).None?
    ensures LastPresent(base, profiles, field) == field(Layer(base, profiles, j))
    decreases |profiles|
  {
    if j < |profiles| {
      var front := profiles[..|profiles| - 1];
      assert field(Layer(base, profiles, |profiles|)).None?;
      forall k: nat | k <= |front| ensures Layer(base, front, k) == Layer(base, profiles, k) {
      }
      LastPresentIs(base, front, field, j);
    }
  }

  function UnitIn(c: Config, n: string): Option<Unit> {
    if n in c.resources then Some(EffectiveUnit(n, c.resources[n])) else None
  }

  function ValueIn(c: Config, n: string): Option<string> {
    if n in c.resources then c.resources[n].value else None
  }

  /** The effective unit given by the first layer that names the pool. */
  function FirstUnit(base: Config, profiles: seq<Config>, n: string): Option<Unit> {
    if profiles == [] then UnitIn(base, n)
    else Over(UnitIn(profiles[|profiles| - 1], n), FirstUnit(base, profiles[..|profiles| - 1], n))
  }

  /** In terms of the layers: it is what layer `j` gives if `j` names the pool and no earlier layer
      does, and nothing exactly when no layer names it. */
  lemma {:induction false} FirstUnitIs(base: Config, profiles: seq<Config>, n: string, j: nat)
    requires j <= |profiles| && (forall k :: 0 <= k < j ==> n !in Layer(base, profiles, k).resources)
    ensures n in Layer(base, profiles, j).resources
            ==> FirstUnit(base, profiles, n) == UnitIn(Layer(base, profiles, j), n)
    ensures j == |profiles| && n !in Layer(base, profiles, j).resources ==> FirstUnit(base, profiles, n) == None
    decreases |profiles|
  {
    if profiles != [] {
      var front := profiles[..|profiles| - 1];
      forall k: nat | k <= |front| ensures Layer(base, front, k) == Layer(base, profiles, k) {
      }
      FirstUnitIs(base, front, n, if j < |profiles| then j else j - 1);
    }
  }

  /** The value written by the last layer that writes one. */
  function LastValue(base: Config, profiles: seq<Config>, n: string): Option<string> {
    LastPresent(base, profiles, (c: Config) => ValueIn(c, n))
  }

  /** Pool units are fixed over any run of layers: each pool's effective unit is the one of the
      first layer naming it, and its value is the last one written. */
  lemma {:induction false} PoolsAreFixed(base: Config, profiles: seq<Config>, n: string)
    requires LoadStrict(base, profiles).Ok?
    ensures var r := LoadStrict(base, profiles).value.resources;
            && (n in r <==> FirstUnit(base, profiles, n).Some?)
            && (n in r ==> FirstUnit(base, profiles, n) == Some(EffectiveUnit(n, r[n])))
            && (n in r ==> r[n].value == LastValue(base, profiles, n))
            && (n !in r ==> LastValue(base, profiles, n) == None)
    decreases |profiles|
  {
    if profiles != [] {
      var front, last := profiles[..|profiles| - 1], profiles[|profiles| - 1];
      PoolsAreFixed(base, front, n);
      var acc := LoadStrict(base, front).value;
      assert LoadStrict(base, profiles).value == Merge(acc, last);
      assert !Clashes(acc.resources, last.resources, n);
    }
  }

  /** A profile writes a unit that differs from the one an earlier layer fixed. */
  ghost predicate UnitConflict(base: Config, profiles: seq<Config>, j: nat, n: string)
    requires j < |profiles|
  {
    var d := profiles[j].resources;
    && n in d && d[n].unit.Some?
    && FirstUnit(base, profiles[..j], n).Some?
    && FirstUnit(base, profiles[..j], n) != d[n].unit
  }

  lemma ConflictIsClash(base: Config, profiles: seq<Config>, n: string)
    requires profiles != [] && LoadStrict(base, profiles[..|profiles| - 1]).Ok?
    ensures var k := |profiles| - 1;
            UnitConflict(base, profiles, k, n)
            <==> Clashes(LoadStrict(base, profiles[..k]).value.resources, profiles[k].resources, n)
  {
    PoolsAreFixed(base, profiles[..|profiles| - 1], n);
  }

  /** The strict fold fails exactly when some profile changes a unit fixed before it. */
  lemma {:induction false} StrictFailsIffUnitChanges(base: Config, profiles: seq<Config>)
    ensures LoadStrict(base, profiles).Err? <==> exists j: nat, n :: j < |profiles| && UnitConflict(base, profiles, j, n)
    decreases |profiles|
  {
    if profiles != [] {
      var k := |profiles| - 1;
      var front, last := profiles[..k], profiles[k];
      StrictFailsIffUnitChanges(base, front);
      forall j: nat, n | j < k ensures UnitConflict(base, profiles, j, n) <==> UnitConflict(base, front, j, n) {
        assert profiles[..j] == front[..j];
      }
      if LoadStrict(base, front).Ok? {
        var acc := LoadStrict(base, front).value;
        forall n ensures UnitConflict(base, profiles, k, n) <==> Clashes(acc.resources, last.resources, n) {
          ConflictIsClash(base, profiles, n);
        }
      } else {
        var j: nat, n :| j < k && UnitConflict(base, front, j, n);
        assert UnitConflict(base, profiles, j, n);
      }
    }
  }

  /** Every pool with its unit and capacity, or an error if some declaration is refused. */
  function Resolve(r: Resources): Result<map<string, PoolSpec>, ()> {
    if forall n :: n in r ==> FromWritten(n, r[n].unit, r[n].value).Ok?
    then Ok(map n | n in r :: FromWritten(n, r[n].unit, r[n].value).value)
    else Err(())
  }

  /** A pool's declarations over the layers are acceptable: a builtin is given its own unit, and the
      last value written parses in the unit first given. */
  predicate PoolOk(base: Config, profiles: seq<Config>, n: string)
    requires FirstUnit(base, profiles, n).Some?
  {
    var unit, value := FirstUnit(base, profiles, n).value, LastValue(base, profiles, n);
    && (OfBuiltin(n).Some? ==> unit == OfBuiltin(n).value)
    && (value.Some? ==> ParseCapacity(n, unit, value.value, Allowed).Ok?)
  }

  lemma WrittenPool(base: Config, profiles: seq<Config>, n: string)
    requires LoadStrict(base, profiles).Ok? && n in LoadStrict(base, profiles).value.resources
    ensures FirstUnit(base, profiles, n).Some?
    ensures var d := LoadStrict(base, profiles).value.resources[n];
            FromWritten(n, d.unit, d.value).Ok? <==> PoolOk(base, profiles, n)
  {
    PoolsAreFixed(base, profiles, n);
  }

  /** Resolving succeeds exactly when every pool some layer names is acceptable. */
  lemma ResolvesIffPoolsOk(base: Config, profiles: seq<Config>)
    requires LoadStrict(base, profiles).Ok?
    ensures Resolve(LoadStrict(base, profiles).value.resources).Ok?
       <==> forall n :: FirstUnit(base, profiles, n).Some? ==> PoolOk(base, profiles, n)
  {
    var r := LoadStrict(base, profiles).value.resources;
    forall n ensures n in r <==> FirstUnit(base, profiles, n).Some? {
      PoolsAreFixed(base, profiles, n);
    }
    forall n | n in r ensures FromWritten(n, r[n].unit, r[n].value).Ok? <==> PoolOk(base, profiles, n) {
      WrittenPool(base, profiles, n);
    }
  }

  /** From the layers to the resolved pools: the unit is the first one given, a builtin's is its
      own, and the capacity is the last value written, read in that unit. */
  lemma ResolvedPools(base: Config, profiles: seq<Config>, n: string)
    requires LoadStrict(base, profiles).Ok?
    requires Resolve(LoadStrict(base, profiles).value.resources).Ok?
    ensures var specs := Resolve(LoadStrict(base, profiles).value.resources).value;
            && (n in specs <==> FirstUnit(base, profiles, n).Some?)
            && (n in specs ==>
                  && Some(specs[n].unit) == FirstUnit(base, profiles, n)
                  && (OfBuiltin(n).Some? ==> specs[n].unit == OfBuiltin(n).value)
                  && (specs[n].capacity.Some? <==> LastValue(base, profiles, n).Some?)
                  && (LastValue(base, profiles, n).Some? ==>
                        Ok(specs[n].capacity.value)
                        == ParseCapacity(n, specs[n].unit, LastValue(base, profiles, n).value, Allowed)))
  {
    PoolsAreFixed(base, profiles, n);
  }

  // ---------------------------------------------------------------- scalars: the last present wins

  lemma StrictStep(base: Config, profiles: seq<Config>)
    requires profiles != [] && LoadStrict(base, profiles).Ok?
    ensures LoadStrict(base, profiles[..|profiles| - 1]).Ok?
    ensures LoadStrict(base, profiles).value
         == Merge(LoadStrict(base, profiles[..|profiles| - 1]).value, profiles[|profiles| - 1])
  {
  }

  lemma {:induction false} FieldLastPresentWins<T>(base: Config, profiles: seq<Config>, field: Config -> Option<T>)
    requires LoadStrict(base, profiles).Ok?
    requires forall a, b :: field(Merge(a, b)) == Over(field(a), field(b))
    ensures field(LoadStrict(base, profiles).value) == LastPresent(base, profiles, field)
    decreases |profiles|
  {
    if profiles != [] {
      StrictStep(base, profiles);
      FieldLastPresentWins(base, profiles[..|profiles| - 1], field);
      var acc := LoadStrict(base, profiles[..|profiles| - 1]).value;
      assert field(Merge(acc, profiles[|profiles| - 1])) == Over(field(acc), field(profiles[|profiles| - 1]));
    }
  }

  /** Every optional field but `scratch` ends as the last layer that sets it says. */
  lemma ScalarsLastPresentWins(base: Config, profiles: seq<Config>)
    requires LoadStrict(base, profiles).Ok?
    ensures var r := LoadStrict(base, profiles).value;
            && r.version == LastPresent(base, profiles, (c: Config) => c.version)
            && r.versionFlavour == LastPresent(base, profiles, (c: Config) => c.versionFlavour)
            && r.homeDir == LastPresent(base, profiles, (c: Config) => c.homeDir)
            && r.memCache == LastPresent(base, profiles, (c: Config) => c.memCache)
            && r.tmpCache == LastPresent(base, profiles, (c: Config) => c.tmpCache)
            && r.fuse == LastPresent(base, profiles, (c: Config) => c.fuse)
            && r.lock == LastPresent(base, profiles, (c: Config) => c.lock)
            && r.fsSkip == LastPresent(base, profiles, (c: Config) => c.fsSkip)
            && r.cacheSpill == LastPresent(base, profiles, (c: Config) => c.cacheSpill)
            && r.telemetry == LastPresent(base, profiles, (c: Config) => c.telemetry)
  {
    FieldLastPresentWins(base, profiles, (c: Config) => c.version);
    FieldLastPresentWins(base, profiles, (c: Config) => c.versionFlavour);
    FieldLastPresentWins(base, profiles, (c: Config) => c.homeDir);
    FieldLastPresentWins(base, profiles, (c: Config) => c.memCache);
    FieldLastPresentWins(base, profiles, (c: Config) => c.tmpCache);
    FieldLastPresentWins(base, profiles, (c: Config) => c.fuse);
    FieldLastPresentWins(base, profiles, (c: Config) => c.lock);
    FieldLastPresentWins(base, profiles, (c: Config) => c.fsSkip);
    FieldLastPresentWins(base, profiles, (c: Config) => c.cacheSpill);
    FieldLastPresentWins(base, profiles, (c: Config) => c.telemetry);
  }

  // ---------------------------------------------------------------- caches over any run of layers

  /** A cache's patch in one layer; a layer that does not name it patches nothing. */
  function PatchOf(c: Config, n: string): CachePatch { PatchIn(c.caches, n) }

  function PatchIn(m: map<string, CachePatch>, n: string): CachePatch {
    if n in m then m[n] else NO_PATCH
  }

  lemma PatchInMerge(a: map<string, CachePatch>, b: map<string, CachePatch>, n: string)
    ensures PatchIn(MergeCaches(a, b), n) == MergePatch(PatchIn(a, n), PatchIn(b, n))
    ensures n in MergeCaches(a, b) <==> n in a || n in b
  {
  }

  predicate NamedIn(base: Config, profiles: seq<Config>, n: string) {
    if profiles == [] then n in base.caches
    else NamedIn(base, profiles[..|profiles| - 1], n) || n in profiles[|profiles| - 1].caches
  }

  /** A cache exists if any layer names it, and each of its fields is the last one set for it. */
  lemma {:induction false} CachesLastPresentWin(base: Config, profiles: seq<Config>, n: string)
    requires LoadStrict(base, profiles).Ok?
    ensures var r := LoadStrict(base, profiles).value;
            && (n in r.caches <==> NamedIn(base, profiles, n))
            && PatchOf(r, n).uri == LastPresent(base, profiles, (c: Config) => PatchOf(c, n).uri)
            && PatchOf(r, n).read == LastPresent(base, profiles, (c: Config) => PatchOf(c, n).read)
            && PatchOf(r, n).write == LastPresent(base, profiles, (c: Config) => PatchOf(c, n).write)
            && PatchOf(r, n).concurrency == LastPresent(base, profiles, (c: Config) => PatchOf(c, n).concurrency)
            && PatchOf(r, n).endpoint == LastPresent(base, profiles, (c: Config) => PatchOf(c, n).endpoint)
            && PatchOf(r, n).region == LastPresent(base, profiles, (c: Config) => PatchOf(c, n).region)
    decreases |profiles|
  {
    if profiles != [] {
      var front, last := profiles[..|profiles| - 1], profiles[|profiles| - 1];
      StrictStep(base, profiles);
      CachesLastPresentWin(base, front, n);
      PatchInMerge(LoadStrict(base, front).value.caches, last.caches, n);
    }
  }

  datatype RemoteCache = RemoteCache(
    uri: string, read: bool, write: bool, concurrency: nat, endpoint: Option<string>, region: Option<string>)

  const DEFAULT_CACHE_CONCURRENCY := 256

  function OrElse<T>(x: Option<T>, default: T): T { if x.Some? then x.value else default }

  /** `RemoteCacheConfigPatch::resolve`: only `uri` has no default. */
  function ResolveCache(p: CachePatch): Option<RemoteCache> {
    if p.uri.None? then None
    else Some(RemoteCache(p.uri.value, OrElse(p.read, true), OrElse(p.write, true),
                          OrElse(p.concurrency, DEFAULT_CACHE_CONCURRENCY), p.endpoint, p.region))
  }

  /** From the layers to a resolved cache: it needs a `uri` in some layer, and every setting is the
      last one any layer gives for that cache, or its default. */
  lemma ResolvedCaches(base: Config, profiles: seq<Config>, n: string)
    requires LoadStrict(base, profiles).Ok? && NamedIn(base, profiles, n)
    ensures var r := LoadStrict(base, profiles).value;
            && n in r.caches
            && ResolveCache(r.caches[n])
               == if LastPresent(base, profiles, (c: Config) => PatchOf(c, n).uri).None? then None
                  else Some(RemoteCache(
                    LastPresent(base, profiles, (c: Config) => PatchOf(c, n).uri).value,
                    OrElse(LastPresent(base, profiles, (c: Config) => PatchOf(c, n).read), true),
                    OrElse(LastPresent(base, profiles, (c: Config) => PatchOf(c, n).write), true),
                    OrElse(LastPresent(base, profiles, (c: Config) => PatchOf(c, n).concurrency), 256),
                    LastPresent(base, profiles, (c: Config) => PatchOf(c, n).endpoint),
                    LastPresent(base, profiles, (c: Config) => PatchOf(c, n).region)))
  {
    CachesLastPresentWin(base, profiles, n);
  }

  // ---------------------------------------------------------------- the field that is not layered

  /** The last `scratch` block among the profiles, if one has any. */
  function LastScratch(profiles: seq<Config>): Option<Scratch> {
    if profiles == [] then None
    else Over(LastScratch(profiles[..|profiles| - 1]), profiles[|profiles| - 1].scratch)
  }

  /** The gap: `scratch` stays the base's whatever the profiles say. So it follows the documented
      rule exactly when no profile sets it, or the last that does repeats the base. */
  lemma {:induction false} ScratchIgnoresProfiles(base: Config, profiles: seq<Config>)
    requires LoadStrict(base, profiles).Ok?
    ensures LoadStrict(base, profiles).value.scratch == base.scratch
    ensures LoadStrict(base, profiles).value.scratch == LastPresent(base, profiles, (c: Config) => c.scratch)
       <==> LastScratch(profiles).None? || LastScratch(profiles) == base.scratch
    decreases |profiles|
  {
    ScratchPresent(base, profiles);
    if profiles != [] {
      StrictStep(base, profiles);
      ScratchIgnoresProfiles(base, profiles[..|profiles| - 1]);
    }
  }

  lemma {:induction false} ScratchPresent(base: Config, profiles: seq<Config>)
    ensures LastPresent(base, profiles, (c: Config) => c.scratch) == Over(base.scratch, LastScratch(profiles))
    decreases |profiles|
  {
    if profiles != [] {
      ScratchPresent(base, profiles[..|profiles| - 1]);
    }
  }

  /** A profile that sets `scratch` where the base does not: the setting is lost. */
  lemma ScratchIsLost(x: Scratch) returns (base: Config, profile: Config)
    ensures profile.scratch == Some(x) && LoadStrict(base, [profile]).Ok?
    ensures LoadStrict(base, [profile]).value.scratch == None
  {
    base, profile := EMPTY, EMPTY.(scratch := Some(x));
    assert [profile][..0] == [];
    assert LoadStrict(base, []) == Ok(base);
  }

  // ---------------------------------------------------------------- plugins

  ghost predicate Distinct(ps: seq<PluginSpec>) {
    forall i, j :: 0 <= i < j < |ps| ==> ps[i].identifier != ps[j].identifier
  }

  predicate HasId(ps: seq<PluginSpec>, id: PluginIdentifier) { Find(ps, id) < |ps| }

  lemma FindIs(ps: seq<PluginSpec>, id: PluginIdentifier, k: nat)
    requires k <= |ps| && (forall i :: 0 <= i < k ==> ps[i].identifier != id)
    requires k < |ps| ==> ps[k].identifier == id
    ensures Find(ps, id) == k
  {
  }

  lemma UpsertAgain(ps: seq<PluginSpec>, e: PluginSpec, f: PluginSpec)
    requires e.identifier == f.identifier
    ensures Upsert(Upsert(ps, e), f) == Upsert(ps, f)
  {
    var k := Find(ps, e.identifier);
    FindIs(Upsert(ps, e), f.identifier, k);
  }

  lemma UpsertSwap(ps: seq<PluginSpec>, e: PluginSpec, f: PluginSpec)
    requires e.identifier != f.identifier && HasId(ps, e.identifier)
    ensures Upsert(Upsert(ps, e), f) == Upsert(Upsert(ps, f), e)
  {
    var k, m := Find(ps, e.identifier), Find(ps, f.identifier);
    FindIs(Upsert(ps, f), e.identifier, k);
    FindIs(Upsert(ps, e), f.identifier, m);
  }

  /** The entry a merge ends with for an identifier: the last one written. */
  function LastEntry(base: seq<PluginSpec>, inc: seq<PluginSpec>, id: PluginIdentifier): Option<PluginSpec> {
    if inc == [] then if HasId(base, id) then Some(base[Find(base, id)]) else None
    else if inc[|inc| - 1].identifier == id then Some(inc[|inc| - 1])
    else LastEntry(base, inc[..|inc| - 1], id)
  }

  function Lookup(ps: seq<PluginSpec>, id: PluginIdentifier): Option<PluginSpec> {
    LastEntry(ps, [], id)
  }

  lemma UpsertLookup(ps: seq<PluginSpec>, e: PluginSpec, id: PluginIdentifier)
    ensures Lookup(Upsert(ps, e), id) == if id == e.identifier then Some(e) else Lookup(ps, id)
  {
    var k, m := Find(ps, e.identifier), Find(ps, id);
    if id == e.identifier {
      FindIs(Upsert(ps, e), id, k);
    } else if m < |ps| || k < |ps| {
      FindIs(Upsert(ps, e), id, m);
    } else {
      FindIs(Upsert(ps, e), id, m + 1);
    }
  }

  /** The last writer wins. */
  lemma {:induction false} MergeLookup(base: seq<PluginSpec>, inc: seq<PluginSpec>, id: PluginIdentifier)
    ensures Lookup(MergePlugins(base, inc), id) == LastEntry(base, inc, id)
    decreases |inc|
  {
    if inc != [] {
      var front := inc[..|inc| - 1];
      MergeLookup(base, front, id);
      UpsertLookup(MergePlugins(base, front), inc[|inc| - 1], id);
    }
  }

  /** Base entries keep their places, new ones follow, and identifiers stay distinct. */
  lemma {:induction false} MergeKeepsOrder(base: seq<PluginSpec>, inc: seq<PluginSpec>)
    ensures |base| <= |MergePlugins(base, inc)|
    ensures forall i :: 0 <= i < |base| ==> MergePlugins(base, inc)[i].identifier == base[i].identifier
    ensures Distinct(base) ==> Distinct(MergePlugins(base, inc))
    decreases |inc|
  {
    if inc != [] {
      MergeKeepsOrder(base, inc[..|inc| - 1]);
    }
  }

  lemma {:induction false} MergeHasId(base: seq<PluginSpec>, inc: seq<PluginSpec>, id: PluginIdentifier)
    requires HasId(inc, id)
    ensures HasId(MergePlugins(base, inc), id)
  {
    MergeLookup(base, inc, id);
    LastEntryFound(base, inc, id);
  }

  /** An entry that has to be appended is named for the first time. */
  lemma NewIdIsLast(base: seq<PluginSpec>, inc: seq<PluginSpec>)
    requires inc != [] && !HasId(MergePlugins(base, inc[..|inc| - 1]), inc[|inc| - 1].identifier)
    ensures Find(inc, inc[|inc| - 1].identifier) == |inc| - 1
  {
    var front, id := inc[..|inc| - 1], inc[|inc| - 1].identifier;
    if HasId(front, id) {
      MergeHasId(base, front, id);
    }
    FindIs(inc, id, |front|);
  }

  /** Entries new to the base follow it in the order the overlay first names them. */
  lemma {:induction false} NewEntriesFollow(base: seq<PluginSpec>, inc: seq<PluginSpec>)
    ensures var r := MergePlugins(base, inc);
            && |base| <= |r|
            && (forall i :: |base| <= i < |r| ==> HasId(inc, r[i].identifier))
            && (forall i, j :: |base| <= i < j < |r| ==> Find(inc, r[i].identifier) < Find(inc, r[j].identifier))
    decreases |inc|
  {
    if inc != [] {
      var front, last := inc[..|inc| - 1], inc[|inc| - 1];
      var m := MergePlugins(base, front);
      NewEntriesFollow(base, front);
      forall i | |base| <= i < |m| ensures Find(inc, m[i].identifier) == Find(front, m[i].identifier) {
        FindIs(inc, m[i].identifier, Find(front, m[i].identifier));
      }
      if !HasId(m, last.identifier) {
        NewIdIsLast(base, inc);
      }
    }
  }

  lemma {:induction false} LastEntryFound(base: seq<PluginSpec>, inc: seq<PluginSpec>, id: PluginIdentifier)
    requires HasId(inc, id)
    ensures LastEntry(base, inc, id).Some?
    decreases |inc|
  {
    if inc[|inc| - 1].identifier != id {
      var front := inc[..|inc| - 1];
      FindIs(front, id, Find(inc, id));
      LastEntryFound(base, front, id);
    }
  }

  /** Overlaying one more entry commutes with merging onto a base. */
  lemma {:induction false} MergeUpsert(a: seq<PluginSpec>, b: seq<PluginSpec>, e: PluginSpec)
    requires Distinct(b)
    ensures MergePlugins(a, Upsert(b, e)) == Upsert(MergePlugins(a, b), e)
    decreases |b|
  {
    var k := Find(b, e.identifier);
    if k == |b| {
      assert (b + [e])[..|b|] == b;
    } else {
      var front, last := b[..|b| - 1], b[|b| - 1];
      var m := MergePlugins(a, front);
      if k == |b| - 1 {
        assert b[k := e][..|b| - 1] == front;
        UpsertAgain(m, last, e);
      } else {
        FindIs(front, e.identifier, k);
        assert Upsert(b, e)[..|b| - 1] == Upsert(front, e);
        assert Upsert(b, e)[|b| - 1] == last;
        MergeUpsert(a, front, e);
        MergeHasId(a, front, e.identifier);
        UpsertSwap(m, e, last);
      }
    }
  }

  lemma {:induction false} PluginsAssociate(a: seq<PluginSpec>, b: seq<PluginSpec>, c: seq<PluginSpec>)
    requires Distinct(b)
    ensures MergePlugins(MergePlugins(a, b), c) == MergePlugins(a, MergePlugins(b, c))
    decreases |c|
  {
    if c != [] {
      var front, last := c[..|c| - 1], c[|c| - 1];
      PluginsAssociate(a, b, front);
      MergeKeepsOrder(b, front);
      MergeUpsert(a, MergePlugins(b, front), last);
    }
  }

  /** And only then: a middle layer that repeats an identifier breaks it for some overlay. */
  lemma RepeatBreaksAssociation(b: seq<PluginSpec>) returns (c: seq<PluginSpec>)
    requires !Distinct(b)
    ensures MergePlugins(MergePlugins([], b), c) != MergePlugins([], MergePlugins(b, c))
  {
    var i, j :| 0 <= i < j < |b| && b[i].identifier == b[j].identifier;
    var id := b[j].identifier;
    LastEntryAfter(b, j, id);
    var was := LastEntry([], b, id).value;
    var e := PluginSpec(id, if was.options == map[] then map["x" := "y"] else map[], None);
    assert e != was by {
      assert "x" in map["x" := "y"];
    }
    c := [e];
    MergeOne(b, e);
    MergeOne(MergePlugins([], b), e);
    var k := Find(b, id);
    assert k <= i;
    var right := MergePlugins(b, c);
    assert right == b[k := e];
    LastEntrySuffix(b, right, j, id);
    MergeLookup([], right, id);
    UpsertLookup(MergePlugins([], b), e, id);
  }

  lemma MergeOne(ps: seq<PluginSpec>, e: PluginSpec)
    ensures MergePlugins(ps, [e]) == Upsert(ps, e)
  {
    assert [e][..0] == [];
    assert MergePlugins(ps, []) == ps;
  }

  lemma {:induction false} LastEntryAfter(b: seq<PluginSpec>, j: nat, id: PluginIdentifier)
    requires j < |b| && b[j].identifier == id
    ensures LastEntry([], b, id).Some?
    decreases |b|
  {
    if j < |b| - 1 {
      LastEntryAfter(b[..|b| - 1], j, id);
    }
  }

  /** Only the tail from a later occurrence on decides the last entry. */
  lemma {:induction false} LastEntrySuffix(b: seq<PluginSpec>, c: seq<PluginSpec>, j: nat, id: PluginIdentifier)
    requires |b| == |c| && j < |b| && b[j].identifier == id && (forall i :: j <= i < |b| ==> b[i] == c[i])
    ensures LastEntry([], b, id) == LastEntry([], c, id)
    decreases |b|
  {
    if b[|b| - 1].identifier != id {
      LastEntrySuffix(b[..|b| - 1], c[..|b| - 1], j, id);
    }
  }

  // ---------------------------------------------------------------- overlaying associates

  lemma PatchesAssociate(a: CachePatch, b: CachePatch, c: CachePatch)
    ensures MergePatch(MergePatch(a, b), c) == MergePatch(a, MergePatch(b, c))
    ensures MergePatch(NO_PATCH, a) == a && MergePatch(a, NO_PATCH) == a
  {
  }

  lemma CachesAssociate(a: map<string, CachePatch>, b: map<string, CachePatch>, c: map<string, CachePatch>)
    ensures MergeCaches(MergeCaches(a, b), c) == MergeCaches(a, MergeCaches(b, c))
  {
    var left, right := MergeCaches(MergeCaches(a, b), c), MergeCaches(a, MergeCaches(b, c));
    assert left.Keys == right.Keys;
    forall n | n in left ensures left[n] == right[n] {
      PatchInMerge(a, b, n);
      PatchInMerge(b, c, n);
      PatchInMerge(MergeCaches(a, b), c, n);
      PatchInMerge(a, MergeCaches(b, c), n);
      PatchesAssociate(PatchIn(a, n), PatchIn(b, n), PatchIn(c, n));
    }
  }

  lemma ResourcesAssociate(a: Resources, b: Resources, c: Resources)
    ensures MergeResources(MergeResources(a, b), c) == MergeResources(a, MergeResources(b, c))
  {
    var left, right := MergeResources(MergeResources(a, b), c), MergeResources(a, MergeResources(b, c));
    assert left.Keys == right.Keys;
    forall n | n in left ensures left[n] == right[n] {
      DeclInMerge(a, b, n);
      DeclInMerge(b, c, n);
      DeclInMerge(MergeResources(a, b), c, n);
      DeclInMerge(a, MergeResources(b, c), n);
    }
  }

  function DeclIn(r: Resources, n: string): PoolDecl {
    if n in r then r[n] else NO_DECL
  }

  lemma DeclInMerge(a: Resources, b: Resources, n: string)
    ensures DeclIn(MergeResources(a, b), n) == MergeDecl(DeclIn(a, n), DeclIn(b, n))
    ensures n in MergeResources(a, b) <==> n in a || n in b
  {
  }

  /** Overlaying is associative whenever the middle layer repeats no plugin identifier. */
  lemma MergeAssociates(a: Config, b: Config, c: Config)
    requires Distinct(b.plugins)
    ensures Merge(Merge(a, b), c) == Merge(a, Merge(b, c))
  {
    CachesAssociate(a.caches, b.caches, c.caches);
    ResourcesAssociate(a.resources, b.resources, c.resources);
    PluginsAssociate(a.plugins, b.plugins, c.plugins);
  }

  function Then(r: Result<Config, LoadError>, c: Config): Result<Config, LoadError> {
    if r.Err? then r else TryMerge(r.value, c)
  }

  function Under(a: Config, r: Result<Config, LoadError>): Result<Config, LoadError> {
    if r.Err? then r else TryMerge(a, r.value)
  }

  /** Once the last two agree, the two groupings accept the same pools. */
  lemma ChecksGroup(a: Resources, b: Resources, c: Resources)
    requires CheckMerge(b, c)
    ensures CheckMerge(a, MergeResources(b, c)) <==> CheckMerge(a, b) && CheckMerge(MergeResources(a, b), c)
  {
    var left, right := MergeResources(a, b), MergeResources(b, c);
    if CheckMerge(a, right) {
      forall n | n in b ensures !Clashes(a, b, n) {
        assert n in right && !Clashes(a, right, n) && (n in c ==> !Clashes(b, c, n));
      }
      forall n | n in c ensures !Clashes(left, c, n) {
        assert n in right && !Clashes(a, right, n) && !Clashes(b, c, n);
      }
    }
    if CheckMerge(a, b) && CheckMerge(left, c) {
      forall n | n in right ensures !Clashes(a, right, n) {
        assert (n in b ==> !Clashes(a, b, n)) && (n in c ==> !Clashes(left, c, n));
      }
    }
  }

  /** The checked overlay is not associative: grouping to the right also needs the last two layers
      to agree by themselves, where a unit the first layer gave does not help. */
  lemma CheckedRightGrouping(a: Config, b: Config, c: Config)
    ensures Under(a, TryMerge(b, c)).Ok?
       <==> Then(TryMerge(a, b), c).Ok? && CheckMerge(b.resources, c.resources)
    ensures Under(a, TryMerge(b, c)).Ok? && Distinct(b.plugins) ==> Under(a, TryMerge(b, c)) == Then(TryMerge(a, b), c)
  {
    if CheckMerge(b.resources, c.resources) {
      ChecksGroup(a.resources, b.resources, c.resources);
    }
    if Distinct(b.plugins) {
      MergeAssociates(a, b, c);
    }
  }

  const EMPTY := Config(None, None, None, [], None, None, None, None, None, None, None, map[], None, map[])

  /** Three layers the loader accepts but whose last two do not merge by themselves. */
  lemma CheckedGroupingDiffers() returns (a: Config, b: Config, c: Config)
    ensures Then(TryMerge(a, b), c).Ok? && Under(a, TryMerge(b, c)).Err?
  {
    a := EMPTY.(resources := map["slots" := PoolDecl(Some(Bytes), None)]);
    b := EMPTY.(resources := map["slots" := PoolDecl(None, Some("1G"))]);
    c := EMPTY.(resources := map["slots" := PoolDecl(Some(Bytes), Some("2G"))]);
    assert Clashes(b.resources, c.resources, "slots");
  }

  // ---------------------------------------------------------------- the code that merges in place

  /** `merge_plugins`: replace the first entry with the same identifier, or append. */
  method OverlayPlugins(base: seq<PluginSpec>, inc: seq<PluginSpec>) returns (r: seq<PluginSpec>)
    ensures r == MergePlugins(base, inc)
  {
    r := base;
    for i := 0 to |inc|
      invariant r == MergePlugins(base, inc[..i])
    {
      assert inc[..i + 1][..i] == inc[..i];
      var k := 0;
      while k < |r| && r[k].identifier != inc[i].identifier
        invariant 0 <= k <= |r|
        invariant forall j :: 0 <= j < k ==> r[j].identifier != inc[i].identifier
      {
        k := k + 1;
      }
      FindIs(r, inc[i].identifier, k);
      if k < |r| {
        r := r[k := inc[i]];
      } else {
        r := r + [inc[i]];
      }
    }
    assert inc[..|inc|] == inc;
  }

  /** `ResourcesConfig::check_merge`: stop at the first pool whose unit would change. */
  method FindClash(a: Resources, b: Resources) returns (clash: Option<string>)
    ensures clash.None? <==> CheckMerge(a, b)
    ensures clash.Some? ==> Clashes(a, b, clash.value)
  {
    var todo := b.Keys;
    while todo != {}
      invariant todo <= b.Keys
      invariant forall n :: n in b && n !in todo ==> !Clashes(a, b, n)
      decreases todo
    {
      var n :| n in todo;
      if n in a && b[n].unit.Some? && b[n].unit.value != EffectiveUnit(n, a[n]) {
        return Some(n);
      }
      todo := todo - {n};
    }
    return None;
  }

  /** `ResourcesConfig::merge`: pool by pool and field by field. */
  method OverlayResources(a: Resources, b: Resources) returns (r: Resources)
    ensures r == MergeResources(a, b)
  {
    r := a;
    var todo := b.Keys;
    while todo != {}
      invariant todo <= b.Keys
      invariant r.Keys == a.Keys + (b.Keys - todo)
      invariant forall n :: n in r ==> r[n] == if n in b && n !in todo then MergeResources(a, b)[n] else a[n]
      decreases todo
    {
      var n :| n in todo;
      var base := if n in r then r[n] else NO_DECL;
      if b[n].unit.Some? {
        base := base.(unit := b[n].unit);
      }
      if b[n].value.Some? {
        base := base.(value := b[n].value);
      }
      r := r[n := base];
      todo := todo - {n};
    }
  }

  method OverlayCaches(a: map<string, CachePatch>, b: map<string, CachePatch>) returns (r: map<string, CachePatch>)
    ensures r == MergeCaches(a, b)
  {
    r := a;
    var todo := b.Keys;
    while todo != {}
      invariant todo <= b.Keys
      invariant r.Keys == a.Keys + (b.Keys - todo)
      invariant forall n :: n in r ==> r[n] == if n in b && n !in todo then MergeCaches(a, b)[n] else a[n]
      decreases todo
    {
      var n :| n in todo;
      r := r[n := MergePatch(if n in r then r[n] else NO_PATCH, b[n])];
      todo := todo - {n};
    }
  }

  /** The three parts of a merge, as the code goes through the fields. */
  function OverIdentity(a: Config, b: Config): Config {
    a.(version := Over(a.version, b.version), versionFlavour := Over(a.versionFlavour, b.versionFlavour),
       homeDir := Over(a.homeDir, b.homeDir), memCache := Over(a.memCache, b.memCache),
       tmpCache := Over(a.tmpCache, b.tmpCache))
  }

  function OverSettings(a: Config, b: Config): Config {
    a.(fuse := Over(a.fuse, b.fuse), lock := Over(a.lock, b.lock), fsSkip := Over(a.fsSkip, b.fsSkip),
       cacheSpill := Over(a.cacheSpill, b.cacheSpill), telemetry := Over(a.telemetry, b.telemetry))
  }

  function OverCollections(a: Config, b: Config): Config {
    a.(caches := MergeCaches(a.caches, b.caches), resources := MergeResources(a.resources, b.resources),
       plugins := MergePlugins(a.plugins, b.plugins))
  }

  lemma MergeInParts(a: Config, b: Config)
    ensures OverCollections(OverSettings(OverIdentity(a, b), b), b) == Merge(a, b)
  {
  }

  /** The config being loaded, overlaid in place. */
  class ConfigYaml {
    var version: Option<string>
    var versionFlavour: Option<string>
    var homeDir: Option<string>
    var plugins: seq<PluginSpec>
    var memCache: Option<MemCache>
    var scratch: Option<Scratch>
    var tmpCache: Option<MemCache>
    var fuse: Option<Option<FuseEnabled>>
    var lock: Option<Option<LockBackend>>
    var fsSkip: Option<seq<string>>
    var cacheSpill: Option<Option<nat>>
    var caches: map<string, CachePatch>
    var telemetry: Option<bool>
    var resources: Resources

    function View(): Config
      reads this
    {
      Config(version, versionFlavour, homeDir, plugins, memCache, scratch, tmpCache, fuse, lock, fsSkip,
             cacheSpill, caches, telemetry, resources)
    }

    constructor (c: Config)
      ensures View() == c
    {
      version, versionFlavour, homeDir, plugins := c.version, c.versionFlavour, c.homeDir, c.plugins;
      memCache, scratch, tmpCache, fuse, lock := c.memCache, c.scratch, c.tmpCache, c.fuse, c.lock;
      fsSkip, cacheSpill, caches := c.fsSkip, c.cacheSpill, c.caches;
      telemetry, resources := c.telemetry, c.resources;
    }

    method MergeIdentity(other: Config)
      modifies this`version, this`versionFlavour, this`homeDir, this`memCache, this`tmpCache
      ensures View() == OverIdentity(old(View()), other)
    {
      if other.version.Some? {
        version := other.version;
      }
      if other.versionFlavour.Some? {
        versionFlavour := other.versionFlavour;
      }
      if other.homeDir.Some? {
        homeDir := other.homeDir;
      }
      if other.memCache.Some? {
        memCache := other.memCache;
      }
      if other.tmpCache.Some? {
        tmpCache := other.tmpCache;
      }
    }

    method MergeSettings(other: Config)
      modifies this`fuse, this`lock, this`fsSkip, this`cacheSpill, this`telemetry
      ensures View() == OverSettings(old(View()), other)
    {
      if other.fuse.Some? {
        fuse := other.fuse;
      }
      if other.lock.Some? {
        lock := other.lock;
      }
      if other.fsSkip.Some? {
        fsSkip := other.fsSkip;
      }
      if other.cacheSpill.Some? {
        cacheSpill := other.cacheSpill;
      }
      if other.telemetry.Some? {
        telemetry := other.telemetry;
      }
    }

    method MergeCollections(other: Config)
      modifies this`caches, this`resources, this`plugins
      ensures View() == OverCollections(old(View()), other)
    {
      caches := OverlayCaches(caches, other.caches);
      resources := OverlayResources(resources, other.resources);
      plugins := OverlayPlugins(plugins, other.plugins);
    }

    method MergeFrom(other: Config)
      modifies this
      ensures View() == Merge(old(View()), other)
    {
      MergeInParts(View(), other);
      MergeIdentity(other);
      MergeSettings(other);
      MergeCollections(other);
    }

    /** Refuses a changed unit before touching anything. */
    method TryMergeFrom(other: Config) returns (ok: bool)
      modifies this
      ensures ok == TryMerge(old(View()), other).Ok?
      ensures View() == if ok then TryMerge(old(View()), other).value else old(View())
    {
      var clash := FindClash(resources, other.resources);
      ok := clash.None?;
      if ok {
        MergeFrom(other);
      }
    }
  }

  /** `load_with_profiles`, from parsed layers. */
  method LoadWithProfiles(base: Config, profiles: seq<Config>) returns (r: Result<Config, LoadError>)
    ensures r == LoadStrict(base, profiles)
  {
    var cfg := new ConfigYaml(base);
    for i := 0 to |profiles|
      invariant LoadStrict(base, profiles[..i]) == Ok(cfg.View())
    {
      assert profiles[..i + 1][..i] == profiles[..i];
      var ok := cfg.TryMergeFrom(profiles[i]);
      if !ok {
        StrictStaysFailed(base, profiles, i + 1);
        return Err(UnitChanged);
      }
    }
    assert profiles[..|profiles|] == profiles;
    return Ok(cfg.View());
  }

  lemma {:induction false} StrictStaysFailed(base: Config, profiles: seq<Config>, i: nat)
    requires i <= |profiles| && LoadStrict(base, profiles[..i]) == Err(UnitChanged)
    ensures LoadStrict(base, profiles) == Err(UnitChanged)
    decreases |profiles| - i
  {
    if i == |profiles| {
      assert profiles[..i] == profiles;
    } else {
      assert profiles[..i + 1][..i] == profiles[..i];
      StrictStaysFailed(base, profiles, i + 1);
    }
  }
}
