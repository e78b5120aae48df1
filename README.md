# RISC-V target machine (PULP/Snitch fork of the LLVM RISC-V backend)

This project is a Dafny model of the RISC-V target machine of the LLVM code
generator, as extended for the PULP, Snitch and HERO platforms. It covers:

- what the target machine decides once, when it is built: the data layout
  string for the target triple (with its HERO-specific address space 1), the
  effective relocation model, and the answer that every address-space cast
  is a no-op;
- the per-function subtarget cache. The "target-cpu", "tune-cpu" and
  "target-features" attributes are resolved against the machine's defaults
  and joined into a key. On a miss, the target options are reset and the
  options' ABI name is checked against the module's "target-abi" flag. A
  conflict is fatal; otherwise a subtarget is built and cached under the
  key;
- the reconciliation of the target options' ABI name with a module's
  "target-abi" flag;
- the pass configuration hooks. Each appends this target's passes to the
  pass manager's list: atomic expansion, DAG or GlobalISel instruction
  selection, the SSR, DMA, FREP and hardware-loop passes around register
  allocation, branch relaxation, and the atomic pseudo expansion last.

Modules:

- `Wrappers`: `Option` and `Result`. `Result.Fatal` stands for a fatal error
  that ends compilation.
- `Construction`: the triple, the data layout, the relocation model and the
  address-space cast query.
- `ABI`: the two ABI consistency checks, as functions.
- `SubtargetKey`: the function attributes, their resolution and the cache key.
- `Machine`: the classes `RISCVSubtarget` and `RISCVTargetMachine`. The
  machine holds the mutable ABI name of its target options, the subtarget
  map and a ghost log of the resets and subtarget creations it performs.
- `Pipeline`: the passes each hook appends, as a function, and the
  properties of the pipeline they build.
- `PassConfig`: the class `RISCVPassConfig`. It holds a list of passes, and
  each of its hook methods appends to that list.

## Model

| member | source | states |
|---|---|---|
| Construction.ComputeDataLayout | llvm/lib/Target/RISCV/RISCVTargetMachine.cpp:51-61 | A 64-bit triple gets the RV64 layout. A 32-bit triple gets the HERO layout when its vendor is HERO, and the plain RV32 layout otherwise. Any other triple violates the asserted precondition. |
| Construction.LayoutPointerWidthMatchesTriple | llvm/lib/Target/RISCV/RISCVTargetMachine.cpp:51-61 | For every supported triple and vendor, the layout contains "p:N:N", where N is the triple's pointer width. |
| Construction.HeroLayoutWidensAddressSpaceOne | llvm/lib/Target/RISCV/RISCVTargetMachine.cpp:56-58 | The HERO 32-bit layout gives address space 1 64-bit pointers with 32-bit alignment ("p1:64:32"). It keeps 32-bit pointers in address space 0. |
| Construction.GetEffectiveRelocModel | llvm/lib/Target/RISCV/RISCVTargetMachine.cpp:63-68 | The result is the requested model, or Static when none is requested. |
| Construction.RelocModelIgnoresTriple | llvm/lib/Target/RISCV/RISCVTargetMachine.cpp:63-68 | The triple does not affect the result. Resolving the effective model a second time changes nothing. |
| Construction.IsNoopAddrSpaceCast | llvm/lib/Target/RISCV/RISCVTargetMachine.cpp:138-145 | Every cast between any two address spaces is a no-op. |
| ABI.SubtargetABIName | llvm/lib/Target/RISCV/RISCVTargetMachine.cpp:105-114 | Fatal, with the mismatch message, exactly when a module flag exists, the option's ABI is recognised, and the two differ. Otherwise the result is the module flag, or the option's ABI when the module has no flag. |
| ABI.ModuleMetadataABIName | llvm/lib/Target/RISCV/RISCVTargetMachine.cpp:120-131 | Fatal exactly when a module flag exists, the option is non-empty, and the two differ. An empty option adopts the flag; otherwise the option is kept. |
| ABI.ModuleMetadataIdempotent | llvm/lib/Target/RISCV/RISCVTargetMachine.cpp:120-131 | Applying the module's metadata to already reconciled options succeeds and changes nothing. |
| ABI.ReconciledOptionsGovernSubtargets | llvm/lib/Target/RISCV/RISCVTargetMachine.cpp:105-131 | After a successful reconciliation, the subtarget check for the same module never fails. It yields the module's ABI, or the option's when the module has none. |
| ABI.SubtargetCheckNoStricter | llvm/lib/Target/RISCV/RISCVTargetMachine.cpp:108-127 | When the empty name is not a recognised ABI, every mismatch that the subtarget check rejects is also rejected by the options check. |
| ABI.ChecksDisagreeOnUnrecognisedABI | llvm/lib/Target/RISCV/RISCVTargetMachine.cpp:108-127 | For every table of recognised ABIs, some unrecognised option ABI and module flag make the options check fatal. The subtarget check accepts the same pair and takes the module's ABI. |
| ABI.Ilp32Examples | llvm/lib/Target/RISCV/RISCVTargetMachine.cpp:105-131 | With "ilp32" recognised, "ilp32" against "ilp32d" is fatal in both checks, and "ilp32" against "ilp32" yields "ilp32" in both. |
| SubtargetKey.ResolveAttrs | llvm/lib/Target/RISCV/RISCVTargetMachine.cpp:88-97 | Each attribute that is present is taken as given. Otherwise the CPU falls back to the machine's CPU, the tuning CPU to the CPU just resolved, and the features to the machine's feature string. |
| SubtargetKey.Key | llvm/lib/Target/RISCV/RISCVTargetMachine.cpp:98 | The key's length is the sum of the three lengths. Its consecutive slices are the CPU, the tuning CPU and the features. |
| SubtargetKey.KeyInjectiveGivenLengths | llvm/lib/Target/RISCV/RISCVTargetMachine.cpp:98 | Equal keys with equal CPU and tuning-CPU lengths come from equal attributes. |
| SubtargetKey.KeyCollision | llvm/lib/Target/RISCV/RISCVTargetMachine.cpp:98-99 | Whatever the machine's defaults and module, two functions with different resolved attributes can have the same key. |
| Machine.InsertKeepsCacheInvariant | llvm/lib/Target/RISCV/RISCVTargetMachine.cpp:99-116 | Caching a new subtarget under its own key, after a reset and its creation are logged, keeps the cache invariant. |
| Machine.RISCVSubtarget.constructor | llvm/lib/Target/RISCV/RISCVTargetMachine.cpp:115 | The subtarget holds the triple, the three resolved attributes, the ABI name and its target machine. |
| Machine.RISCVTargetMachine.constructor | llvm/lib/Target/RISCV/RISCVTargetMachine.cpp:70-84 | The data layout is `ComputeDataLayout` of the triple. The relocation model is the effective one. The cache starts empty and valid. |
| Machine.RISCVTargetMachine.ResetTargetOptionsFor | llvm/lib/Target/RISCV/RISCVTargetMachine.cpp:104 | A reset for the function is appended to the log, the cache invariant is kept, and nothing else changes. |
| Machine.RISCVTargetMachine.CheckModuleABI | llvm/lib/Target/RISCV/RISCVTargetMachine.cpp:105-114 | The result is `SubtargetABIName` of the options' ABI, the module flag and the recognised ABIs. |
| Machine.RISCVTargetMachine.GetSubtargetImpl | llvm/lib/Target/RISCV/RISCVTargetMachine.cpp:86-118 | On a hit, the result is the cached object and nothing changes. On a miss, the options are reset first. An ABI conflict is then fatal with the map unchanged. Otherwise a fresh subtarget is built with the resolved attributes and checked ABI and cached under the key, and its creation is logged. The cache invariant is kept, and a successful result is the map's entry for the key. |
| Machine.RISCVTargetMachine.SetTargetOptionsWithModuleMetadata | llvm/lib/Target/RISCV/RISCVTargetMachine.cpp:120-131 | On a conflict, the call is fatal and the options' ABI name is unchanged. Otherwise the name becomes `ModuleMetadataABIName` of the old name and the flag. The cache invariant is kept. |
| Machine.ResolveTwice | llvm/lib/Target/RISCV/RISCVTargetMachine.cpp:99-117 | Two functions with equal keys get the very same subtarget. The log then holds nothing new if the key was already cached, and otherwise exactly one reset for the first function followed by the key's creation; the second call logs nothing. Functions with different keys get different objects. |
| Pipeline.HookPassesFacts | llvm/lib/Target/RISCV/RISCVTargetMachine.cpp:174-238 | No hook adds a post-RA scheduler. Only the second pre-emission hook adds the atomic pseudo expansion, and only the instruction selector hook adds the DAG selector. Each GlobalISel hook adds exactly one pass, which is a GlobalISel pass, and no other hook adds one. Only the pre-second-scheduling hook adds nothing. |
| Pipeline.PreRegAllocOrder | llvm/lib/Target/RISCV/RISCVTargetMachine.cpp:229-238 | The DMA, SSR and FREP passes always come first, in that order. The base-offset merge, vector-configuration cleanup and hardware-loop passes follow exactly when optimising. |
| Pipeline.PreEmitOrder | llvm/lib/Target/RISCV/RISCVTargetMachine.cpp:208-227 | The second pre-emission hook adds pseudo expansion, hardware-loop fixup, post-RA SSR expansion and atomic pseudo expansion, in that order, and no scheduler. The first adds branch relaxation only. The pre-second-scheduling hook adds nothing. |
| Pipeline.NoPostRASchedulerAdded | llvm/lib/Target/RISCV/RISCVTargetMachine.cpp:214-227 | For any sequence of hook calls, no post-RA scheduler is added. Without the second pre-emission hook, no atomic pseudo expansion is added. |
| Pipeline.AssumedHookOrder | llvm/lib/Target/RISCV/RISCVTargetMachine.cpp:157-166 | The assumed driver order ends with the second pre-emission hook and calls it nowhere else. |
| Pipeline.TargetPipelineFollowsAssumedOrder | llvm/lib/Target/RISCV/RISCVTargetMachine.cpp:174-238 | Calling the hooks in the assumed order appends exactly the IR, selection, pre-RA, pre-sched2, pre-emit and pre-emit-2 passes, in that order. |
| Pipeline.AtomicPseudoExpansionIsLast | llvm/lib/Target/RISCV/RISCVTargetMachine.cpp:223-226 | At every optimisation level and with either selector, the atomic pseudo expansion is the last pass and occurs nowhere else. |
| Pipeline.SelectorsAreExclusive | llvm/lib/Target/RISCV/RISCVTargetMachine.cpp:182-206 | The DAG selector is present exactly when SelectionDAG is chosen. It then sits right after the IR passes and no GlobalISel pass appears. With GlobalISel, the four GlobalISel passes follow the IR passes back to back, in order. |
| Pipeline.ExpansionsPrecedeTheirUsers | llvm/lib/Target/RISCV/RISCVTargetMachine.cpp:174-238 | Atomic expansion comes first, before every selection pass. The pre-RA SSR expansion comes before the post-RA SSR expansion. |
| PassConfig.RISCVPassConfig.constructor | llvm/lib/Target/RISCV/RISCVTargetMachine.cpp:150-151 | The configuration belongs to the given target machine and starts with the given pass list. |
| PassConfig.RISCVPassConfig.AddIRPasses | llvm/lib/Target/RISCV/RISCVTargetMachine.cpp:174-180 | Appends the atomic expansion, then the target-independent IR passes. |
| PassConfig.RISCVPassConfig.AddInstSelector | llvm/lib/Target/RISCV/RISCVTargetMachine.cpp:182-186 | Appends the DAG selector and reports success. |
| PassConfig.RISCVPassConfig.AddIRTranslator | llvm/lib/Target/RISCV/RISCVTargetMachine.cpp:188-191 | Appends the IR translator at the machine's optimisation level and reports success. |
| PassConfig.RISCVPassConfig.AddLegalizeMachineIR | llvm/lib/Target/RISCV/RISCVTargetMachine.cpp:193-196 | Appends the legalizer and reports success. |
| PassConfig.RISCVPassConfig.AddRegBankSelect | llvm/lib/Target/RISCV/RISCVTargetMachine.cpp:198-201 | Appends register bank selection and reports success. |
| PassConfig.RISCVPassConfig.AddGlobalInstructionSelect | llvm/lib/Target/RISCV/RISCVTargetMachine.cpp:203-206 | Appends GlobalISel instruction selection and reports success. |
| PassConfig.RISCVPassConfig.AddPreSched2 | llvm/lib/Target/RISCV/RISCVTargetMachine.cpp:208 | Leaves the pass list unchanged. |
| PassConfig.RISCVPassConfig.AddPreEmitPass | llvm/lib/Target/RISCV/RISCVTargetMachine.cpp:210-212 | Appends branch relaxation. |
| PassConfig.RISCVPassConfig.AddPreEmitPass2 | llvm/lib/Target/RISCV/RISCVTargetMachine.cpp:214-227 | Appends the hook's four passes in order, ending with the atomic pseudo expansion. |
| PassConfig.RISCVPassConfig.AddPreRegAlloc | llvm/lib/Target/RISCV/RISCVTargetMachine.cpp:229-238 | Appends the DMA, SSR and FREP passes, then the three optimising passes only when the machine's optimisation level is not None. |
| PassConfig.RISCVPassConfig.AddSelectorPasses | llvm/lib/Target/RISCV/RISCVTargetMachine.cpp:182-206 | Calls one strategy's selector hooks in order and appends exactly that strategy's selection passes. |
| PassConfig.RISCVPassConfig.AddTargetPasses | llvm/lib/Target/RISCV/RISCVTargetMachine.cpp:174-238 | Calling every hook in the assumed driver order appends exactly `TargetPipeline`. Through `TargetPipelineFollowsAssumedOrder`, the lemmas above hold for that list. |

## Left out

- Target registration and pass-registry initialisation (`LLVMInitializeRISCVTarget`, lines 37-49) only record global registrations and have no logic to model.
- The assembler info, the object-file lowering, the machine-outliner flag and the effective code model (lines 76-83) come from code that is not part of this model. So does the target transform info (lines 133-136).
- RISCVABI::getTargetABI is not part of this model. The names it recognises are the parameter `knownABIs`.
- Machine.RISCVTargetMachine.ResetTargetOptionsFor: resetTargetOptions is not part of this model. It is logged as an event and assumed to leave the options' ABI name unchanged.
- Machine.RISCVTargetMachine.GetSubtargetImpl: on the fatal path the map is left unchanged. The empty entry that the map's subscript inserts before the check is not modelled, because the process ends there.
- Construction.ComputeDataLayout: the assertion that the triple is 32- or 64-bit is modelled as a precondition. The behaviour of builds without assertions is not modelled: for a triple that is neither 32- nor 64-bit, they return the HERO 32-bit layout when the vendor is HERO and the plain RV32 layout otherwise.
- Pipeline.AssumedHookOrder: the order in which the target-independent pass configuration calls the hooks is an assumption, not modelled code. So are the passes it adds between them. The assumption calls the hooks of exactly one selection strategy, which excludes GlobalISel's fallback mode: there the driver also calls the instruction selector hook after the GlobalISel hooks, so `SelectorsAreExclusive` does not hold. The properties that do not depend on that order (`NoPostRASchedulerAdded`, `HookPassesFacts`) hold for any sequence of hook calls.
- The passes that the target-independent IR hook adds are one opaque pass, `GenericIRPasses`. The passes themselves are tags; their bodies are not modelled.
- The commented-out passes (SSR reassociation, generic reassociation, SSR statistics, the post-RA scheduler and auto-FREP) are not added by the code and so are not in the model, except as the absence that `NoPostRASchedulerAdded` states.
- Concurrency: the source does not lock the subtarget map, and the model is single-threaded.
- The subtarget's internals (feature parsing, ABI computation, register info) are not part of this model. The subtarget's reference to its target machine is the field `owner`.
