/** The RISC-V target machine: its construction-time settings, the ABI name
    held in its mutable target options, and the cache that gives each
    function its subtarget. */
module Machine {
  import opened Wrappers
  import opened Construction
  import opened ABI
  import opened SubtargetKey

  /** What the target machine does to shared state, in order: a reset of the
      target options from a function's attributes, and the construction of a
      subtarget for a key. */
  datatype Event = ResetTargetOptions(fn: Function) | SubtargetCreated(key: string)

  /** `events` records each key of `keys` being built exactly once, each
      time right after a reset of the target options, and no other key. */
  ghost predicate CreationLog(events: seq<Event>, keys: set<string>) {
    (forall i | 0 <= i < |events| && events[i].SubtargetCreated? ::
       0 < i && events[i - 1].ResetTargetOptions?) &&
    (forall k :: k in keys <==> SubtargetCreated(k) in events) &&
    (forall i, j | 0 <= i < j < |events| && events[i].SubtargetCreated? && events[j].SubtargetCreated? ::
       events[i].key != events[j].key)
  }

  lemma ResetKeepsLog(events: seq<Event>, keys: set<string>, f: Function)
    requires CreationLog(events, keys)
    ensures CreationLog(events + [ResetTargetOptions(f)], keys)
  {
    var e := events + [ResetTargetOptions(f)];
    forall k ensures k in keys <==> SubtargetCreated(k) in e {
      assert SubtargetCreated(k) in e <==> SubtargetCreated(k) in events;
    }
  }

  lemma CreationExtendsLog(events: seq<Event>, keys: set<string>, f: Function, key: string)
    requires CreationLog(events, keys) && key !in keys
    ensures CreationLog(events + [ResetTargetOptions(f), SubtargetCreated(key)], keys + {key})
  {
    var e := events + [ResetTargetOptions(f), SubtargetCreated(key)];
    forall k ensures k in keys + {key} <==> SubtargetCreated(k) in e {
      assert SubtargetCreated(k) in e <==> SubtargetCreated(k) in events || k == key;
    }
    forall i, j | 0 <= i < j < |e| && e[i].SubtargetCreated? && e[j].SubtargetCreated?
      ensures e[i].key != e[j].key
    {
      if j == |e| - 1 {
        assert e[i] in events;
      }
    }
  }

  /** Every cached subtarget belongs to `owner`, is for the triple `tt` and
      sits under the key of its own attributes; `events` records the building
      of exactly the cached keys, each once, each right after a reset. */
  ghost predicate CacheInvariant(cache: map<string, RISCVSubtarget>, events: seq<Event>, tt: Triple, owner: RISCVTargetMachine) {
    (forall k | k in cache ::
       Key(cache[k].Attrs()) == k && cache[k].targetTriple == tt && cache[k].owner == owner) &&
    CreationLog(events, cache.Keys)
  }

  lemma InsertKeepsCacheInvariant(cache: map<string, RISCVSubtarget>, events: seq<Event>, tt: Triple,
                                  owner: RISCVTargetMachine, f: Function, subtarget: RISCVSubtarget)
    requires CacheInvariant(cache, events, tt, owner)
    requires Key(subtarget.Attrs()) !in cache
    requires subtarget.targetTriple == tt && subtarget.owner == owner
    ensures var key := Key(subtarget.Attrs());
            CacheInvariant(cache[key := subtarget], events + [ResetTargetOptions(f)] + [SubtargetCreated(key)], tt, owner)
  {
    var key := Key(subtarget.Attrs());
    CreationExtendsLog(events, cache.Keys, f, key);
    assert events + [ResetTargetOptions(f)] + [SubtargetCreated(key)] == events + [ResetTargetOptions(f), SubtargetCreated(key)];
    assert cache[key := subtarget].Keys == cache.Keys + {key};
  }

  /** A resolved subtarget; nothing in it changes after construction. */
  class RISCVSubtarget {
    const targetTriple: Triple
    const cpu: string
    const tuneCPU: string
    const features: string
    const abiName: string
    const owner: RISCVTargetMachine

    constructor (tt: Triple, cpu: string, tuneCPU: string, features: string, abiName: string, owner: RISCVTargetMachine)
      ensures targetTriple == tt && this.cpu == cpu && this.tuneCPU == tuneCPU
      ensures this.features == features && this.abiName == abiName && this.owner == owner
    {
      targetTriple := tt;
      this.cpu := cpu;
      this.tuneCPU := tuneCPU;
      this.features := features;
      this.abiName := abiName;
      this.owner := owner;
    }

    function Attrs(): (attrs: SubtargetAttrs) {
      SubtargetAttrs(cpu, tuneCPU, features)
    }
  }

  class RISCVTargetMachine {
    const targetTriple: Triple
    const targetCPU: string
    const targetFS: string
    const dataLayout: string
    const relocModel: RelocModel
    const optLevel: CodeGenOptLevel
    /** The ABI names the RISC-V ABI table recognises. */
    const knownABIs: set<string>
    /** The ABI name of the target options' MC options. */
    var optionsABIName: string
    var subtargetMap: map<string, RISCVSubtarget>
    ghost var events: seq<Event>

    /** Every cached subtarget is this machine's, for this machine's triple,
        and sits under the key of its own attributes; every key was built
        exactly once, right after a reset of the target options, and the
        cache holds exactly the keys built. */
    ghost predicate Valid()
      reads this
    {
      CacheInvariant(subtargetMap, events, targetTriple, this)
    }

    /** The triple must be 32- or 64-bit; the data layout and relocation
        model are resolved once, and the cache starts empty. */
    constructor (tt: Triple, cpu: string, fs: string, optionsABIName: string, knownABIs: set<string>,
                 rm: Option<RelocModel>, ol: CodeGenOptLevel)
      requires IsArch64Bit(tt) || IsArch32Bit(tt)
      ensures Valid()
      ensures targetTriple == tt && targetCPU == cpu && targetFS == fs && optLevel == ol
      ensures this.optionsABIName == optionsABIName && this.knownABIs == knownABIs
      ensures dataLayout == ComputeDataLayout(tt)
      ensures relocModel == GetEffectiveRelocModel(tt, rm)
      ensures subtargetMap == map[] && events == []
    {
      targetTriple := tt;
      targetCPU := cpu;
      targetFS := fs;
      dataLayout := ComputeDataLayout(tt);
      relocModel := GetEffectiveRelocModel(tt, rm);
      optLevel := ol;
      this.knownABIs := knownABIs;
      this.optionsABIName := optionsABIName;
      subtargetMap := map[];
      events := [];
    }

    /** The cache key of a function on this machine. */
    function KeyOf(f: Function): (key: string) {
      Key(ResolveAttrs(f, targetCPU, targetFS))
    }

    /** Resets the target options from the function's attributes. What is
        reset is not part of this model; the ABI name is not among it. */
    method ResetTargetOptionsFor(f: Function)
      requires Valid()
      modifies this`events
      ensures Valid()
      ensures events == old(events) + [ResetTargetOptions(f)]
    {
      ResetKeepsLog(events, subtargetMap.Keys, f);
      events := events + [ResetTargetOptions(f)];
    }

    /** The ABI for a new subtarget of a function in module `m`: the module
        flag, unless the options name a recognised, different ABI. */
    method CheckModuleABI(m: Module) returns (r: Result<string>)
      ensures r == SubtargetABIName(optionsABIName, m.targetABIFlag, knownABIs)
    {
      var abiName := optionsABIName;
      match m.targetABIFlag {
        case Some(moduleABIName) =>
          if abiName in knownABIs && moduleABIName != abiName {
            return Fatal(ABI_MISMATCH);
          }
          abiName := moduleABIName;
        case None =>
      }
      r := Ok(abiName);
    }

    /** The subtarget of `f`. A hit returns the cached object and does nothing
        else. A miss resets the target options, then checks the options' ABI
        against the module flag (fatal on conflict), then builds a subtarget
        with the resolved attributes and ABI and caches it under the key. */
    method GetSubtargetImpl(f: Function) returns (r: Result<RISCVSubtarget>)
      requires Valid()
      modifies this`subtargetMap, this`events
      ensures Valid()
      ensures KeyOf(f) in old(subtargetMap) ==>
                r == Ok(old(subtargetMap)[KeyOf(f)]) &&
                subtargetMap == old(subtargetMap) && events == old(events)
      ensures KeyOf(f) !in old(subtargetMap) &&
              SubtargetABIName(optionsABIName, f.parent.targetABIFlag, knownABIs).Fatal? ==>
                r == Fatal(ABI_MISMATCH) &&
                subtargetMap == old(subtargetMap) && events == old(events) + [ResetTargetOptions(f)]
      ensures KeyOf(f) !in old(subtargetMap) &&
              SubtargetABIName(optionsABIName, f.parent.targetABIFlag, knownABIs).Ok? ==>
                r.Ok? && fresh(r.value) &&
                r.value.Attrs() == ResolveAttrs(f, targetCPU, targetFS) &&
                r.value.abiName == SubtargetABIName(optionsABIName, f.parent.targetABIFlag, knownABIs).value &&
                subtargetMap == old(subtargetMap)[KeyOf(f) := r.value] &&
                events == old(events) + [ResetTargetOptions(f), SubtargetCreated(KeyOf(f))]
      ensures r.Ok? ==> KeyOf(f) in subtargetMap && r.value == subtargetMap[KeyOf(f)]
    {
      var attrs := ResolveAttrs(f, targetCPU, targetFS);
      var key := Key(attrs);
      if key !in subtargetMap {
        ghost var eventsBefore := events;
        ResetTargetOptionsFor(f);
        var abiName := CheckModuleABI(f.parent);
        if abiName.Fatal? {
          return Fatal(abiName.message);
        }
        var subtarget := new RISCVSubtarget(targetTriple, attrs.cpu, attrs.tuneCPU, attrs.features, abiName.value, this);
        InsertKeepsCacheInvariant(subtargetMap, eventsBefore, targetTriple, this, f, subtarget);
        subtargetMap := subtargetMap[key := subtarget];
        events := events + [SubtargetCreated(key)];
        assert events == eventsBefore + [ResetTargetOptions(f), SubtargetCreated(key)];
      }
      r := Ok(subtargetMap[key]);
    }

    /** Reconciles the options' ABI name with a module's "target-abi" flag. */
    method SetTargetOptionsWithModuleMetadata(m: Module) returns (r: Result<()>)
      requires Valid()
      modifies this`optionsABIName
      ensures Valid()
      ensures ModuleMetadataABIName(old(optionsABIName), m.targetABIFlag).Fatal? ==>
                r == Fatal(ABI_MISMATCH) && optionsABIName == old(optionsABIName)
      ensures ModuleMetadataABIName(old(optionsABIName), m.targetABIFlag).Ok? ==>
                r == Ok(()) && optionsABIName == ModuleMetadataABIName(old(optionsABIName), m.targetABIFlag).value
    {
      var abiName := optionsABIName;
      match m.targetABIFlag {
        case Some(moduleABIName) =>
          if abiName != "" && moduleABIName != abiName {
            return Fatal(ABI_MISMATCH);
          }
          if abiName == "" {
            optionsABIName := moduleABIName;
          }
        case None =>
      }
      r := Ok(());
    }
  }

  /** Resolving two functions one after the other: equal keys give the very
      same object, with no second reset and no second ABI check; different
      keys give different objects. */
  method ResolveTwice(tm: RISCVTargetMachine, f: Function, g: Function)
    returns (first: Result<RISCVSubtarget>, second: Result<RISCVSubtarget>)
    requires tm.Valid()
    modifies tm
    ensures tm.Valid()
    ensures first.Ok? && tm.KeyOf(f) == tm.KeyOf(g) ==>
              second == first &&
              (tm.KeyOf(f) in old(tm.subtargetMap) ==> tm.events == old(tm.events)) &&
              (tm.KeyOf(f) !in old(tm.subtargetMap) ==>
                 tm.events == old(tm.events) + [ResetTargetOptions(f), SubtargetCreated(tm.KeyOf(f))])
    ensures first.Ok? && second.Ok? && tm.KeyOf(f) != tm.KeyOf(g) ==> first.value != second.value
  {
    first := tm.GetSubtargetImpl(f);
    second := tm.GetSubtargetImpl(g);
    if first.Ok? && second.Ok? && tm.KeyOf(f) != tm.KeyOf(g) {
      assert first.value.Attrs() != second.value.Attrs();
    }
  }
}
