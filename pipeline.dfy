/** The passes this target contributes to the code generation pipeline,
    hook by hook. The passes themselves are opaque tags. */
module Pipeline {
  import opened Construction

  datatype Pass =
    | AtomicExpand
      /** The passes the target-independent IR hook adds after this target's. */
    | GenericIRPasses
    | RISCVISelDag
    | IRTranslator(optLevel: CodeGenOptLevel)
    | Legalizer
    | RegBankSelect
    | InstructionSelect
    | RISCVExpandSDMA
    | RISCVExpandSSR
    | SNITCHFrepLoops
    | RISCVMergeBaseOffsetOpt
    | RISCVCleanupVSETVLI
    | PULPHardwareLoops
    | BranchRelaxation
    | RISCVExpandPseudo
    | PULPFixupHwLoops
    | RISCVExpandSSRPostRegAlloc
    | RISCVExpandAtomicPseudo
      /** The post-register-allocation scheduler, which this target never adds. */
    | PostRAScheduler

  /** The pass configuration hooks this target overrides. */
  datatype Hook =
    | AddIRPasses
    | AddInstSelector
    | AddIRTranslator
    | AddLegalizeMachineIR
    | AddRegBankSelect
    | AddGlobalInstructionSelect
    | AddPreRegAlloc
    | AddPreSched2
    | AddPreEmitPass
    | AddPreEmitPass2

  /** The two instruction selection strategies. */
  datatype Selector = SelectionDAG | GlobalISel

  predicate IsGlobalISelHook(h: Hook) {
    h == AddIRTranslator || h == AddLegalizeMachineIR || h == AddRegBankSelect || h == AddGlobalInstructionSelect
  }

  predicate IsGlobalISelPass(p: Pass) {
    p.IRTranslator? || p == Legalizer || p == RegBankSelect || p == InstructionSelect
  }

  /** The passes a hook appends, in order, at optimisation level `ol`. */
  function HookPasses(h: Hook, ol: CodeGenOptLevel): (r: seq<Pass>) {
    match h
    case AddIRPasses => [AtomicExpand, GenericIRPasses]
    case AddInstSelector => [RISCVISelDag]
    case AddIRTranslator => [IRTranslator(ol)]
    case AddLegalizeMachineIR => [Legalizer]
    case AddRegBankSelect => [RegBankSelect]
    case AddGlobalInstructionSelect => [InstructionSelect]
    case AddPreRegAlloc =>
      [RISCVExpandSDMA, RISCVExpandSSR, SNITCHFrepLoops] +
      (if ol != NoOptimization then [RISCVMergeBaseOffsetOpt, RISCVCleanupVSETVLI, PULPHardwareLoops] else [])
    case AddPreSched2 => []
    case AddPreEmitPass => [BranchRelaxation]
    case AddPreEmitPass2 => [RISCVExpandPseudo, PULPFixupHwLoops, RISCVExpandSSRPostRegAlloc, RISCVExpandAtomicPseudo]
  }

  /** What tells the hooks apart: none adds a post-register-allocation
      scheduler; only the second pre-emission hook adds the atomic pseudo
      expansion, only the instruction selector hook the DAG selector, only
      the four GlobalISel hooks GlobalISel passes, one each; only the
      pre-second-scheduling hook adds nothing. */
  lemma HookPassesFacts(h: Hook, ol: CodeGenOptLevel)
    ensures var r := HookPasses(h, ol);
            PostRAScheduler !in r &&
            (RISCVExpandAtomicPseudo in r <==> h == AddPreEmitPass2) &&
            (RISCVISelDag in r <==> h == AddInstSelector) &&
            (forall p :: p in r ==> (IsGlobalISelPass(p) <==> IsGlobalISelHook(h))) &&
            (IsGlobalISelHook(h) ==> |r| == 1) &&
            (h == AddPreSched2 <==> r == [])
  {
  }

  /** Pre-register-allocation: the DMA, streaming-register and fast-repeat
      passes always, in that order; the base-offset merge, vector
      configuration cleanup and hardware-loop passes after them, in that
      order, exactly when optimising. */
  lemma PreRegAllocOrder(ol: CodeGenOptLevel)
    ensures var r := HookPasses(AddPreRegAlloc, ol);
            r[..3] == [RISCVExpandSDMA, RISCVExpandSSR, SNITCHFrepLoops] &&
            (ol == NoOptimization ==> |r| == 3) &&
            (ol != NoOptimization ==> r[3..] == [RISCVMergeBaseOffsetOpt, RISCVCleanupVSETVLI, PULPHardwareLoops])
  {
  }

  /** The second pre-emission hook ends with the atomic pseudo expansion and
      adds no scheduler; the first adds branch relaxation only. */
  lemma PreEmitOrder(ol: CodeGenOptLevel)
    ensures var r := HookPasses(AddPreEmitPass2, ol);
            r == [RISCVExpandPseudo, PULPFixupHwLoops, RISCVExpandSSRPostRegAlloc, RISCVExpandAtomicPseudo] &&
            r[|r| - 1] == RISCVExpandAtomicPseudo && PostRAScheduler !in r
    ensures HookPasses(AddPreEmitPass, ol) == [BranchRelaxation]
    ensures HookPasses(AddPreSched2, ol) == []
  {
  }

  /** The passes appended by calling the hooks `hooks` in order. */
  function PassesOfHooks(hooks: seq<Hook>, ol: CodeGenOptLevel): (passes: seq<Pass>) {
    if hooks == [] then [] else HookPasses(hooks[0], ol) + PassesOfHooks(hooks[1..], ol)
  }

  lemma {:induction false} PassesOfHooksAppend(hs1: seq<Hook>, hs2: seq<Hook>, ol: CodeGenOptLevel)
    ensures PassesOfHooks(hs1 + hs2, ol) == PassesOfHooks(hs1, ol) + PassesOfHooks(hs2, ol)
    decreases |hs1|
  {
    if hs1 == [] {
      assert hs1 + hs2 == hs2;
    } else {
      assert (hs1 + hs2)[1..] == hs1[1..] + hs2;
      PassesOfHooksAppend(hs1[1..], hs2, ol);
    }
  }

  lemma PassesOfHooksCons(h: Hook, hooks: seq<Hook>, ol: CodeGenOptLevel)
    ensures PassesOfHooks([h] + hooks, ol) == HookPasses(h, ol) + PassesOfHooks(hooks, ol)
  {
    assert ([h] + hooks)[1..] == hooks;
  }

  /** A pass that none of the called hooks appends is not in their passes. */
  lemma {:induction false} PassesOfHooksExclude(hooks: seq<Hook>, ol: CodeGenOptLevel, p: Pass)
    requires forall i :: 0 <= i < |hooks| ==> p !in HookPasses(hooks[i], ol)
    ensures p !in PassesOfHooks(hooks, ol)
    decreases |hooks|
  {
    if hooks != [] {
      assert p !in HookPasses(hooks[0], ol);
      forall i | 0 <= i < |hooks| - 1 ensures p !in HookPasses(hooks[1..][i], ol) {
        assert hooks[1..][i] == hooks[i + 1];
      }
      PassesOfHooksExclude(hooks[1..], ol, p);
    }
  }

  /** Whichever hooks the driver calls, in whatever order, this target never
      adds a post-register-allocation scheduler, and adds the atomic pseudo
      expansion only through the second pre-emission hook. */
  lemma NoPostRASchedulerAdded(hooks: seq<Hook>, ol: CodeGenOptLevel)
    ensures PostRAScheduler !in PassesOfHooks(hooks, ol)
    ensures AddPreEmitPass2 !in hooks ==> RISCVExpandAtomicPseudo !in PassesOfHooks(hooks, ol)
  {
    PassesOfHooksExclude(hooks, ol, PostRAScheduler);
    if AddPreEmitPass2 !in hooks {
      PassesOfHooksExclude(hooks, ol, RISCVExpandAtomicPseudo);
    }
  }

  /** The selector hooks of a strategy, in the order the driver calls them. */
  function SelectorHooks(sel: Selector): (hooks: seq<Hook>) {
    match sel
    case SelectionDAG => [AddInstSelector]
    case GlobalISel => [AddIRTranslator, AddLegalizeMachineIR, AddRegBankSelect, AddGlobalInstructionSelect]
  }

  /** ASSUMPTION about the target-independent driver, which is not part of
      this model: it calls the IR hook, then the hooks of exactly one
      selection strategy (so not GlobalISel's fallback mode, in which the
      driver also calls the instruction selector hook after the GlobalISel
      hooks), then the pre-register-allocation, pre-second-scheduling,
      first and second pre-emission hooks, each once, in that order, and
      adds nothing after the second pre-emission hook. */
  function AssumedHookOrder(sel: Selector): (hooks: seq<Hook>)
    ensures |hooks| > 0 && hooks[|hooks| - 1] == AddPreEmitPass2 && AddPreEmitPass2 !in hooks[..|hooks| - 1]
  {
    [AddIRPasses] + SelectorHooks(sel) + [AddPreRegAlloc, AddPreSched2, AddPreEmitPass, AddPreEmitPass2]
  }

  /** The passes of the selection strategy's hooks, in order. */
  function SelectionPasses(ol: CodeGenOptLevel, sel: Selector): (passes: seq<Pass>) {
    match sel
    case SelectionDAG => [RISCVISelDag]
    case GlobalISel => [IRTranslator(ol), Legalizer, RegBankSelect, InstructionSelect]
  }

  /** This target's passes, hook by hook, in the order of `AssumedHookOrder`,
      written out in closed form; `TargetPipelineFollowsAssumedOrder` proves
      it equal to `PassesOfHooks(AssumedHookOrder(sel), ol)`. */
  function TargetPipeline(ol: CodeGenOptLevel, sel: Selector): (passes: seq<Pass>) {
    HookPasses(AddIRPasses, ol) + SelectionPasses(ol, sel) + HookPasses(AddPreRegAlloc, ol) +
    HookPasses(AddPreSched2, ol) + HookPasses(AddPreEmitPass, ol) + HookPasses(AddPreEmitPass2, ol)
  }

  lemma SelectorHooksPasses(ol: CodeGenOptLevel, sel: Selector)
    ensures PassesOfHooks(SelectorHooks(sel), ol) == SelectionPasses(ol, sel)
  {
    if sel == GlobalISel {
      PassesOfHooksCons(AddGlobalInstructionSelect, [], ol);
      PassesOfHooksCons(AddRegBankSelect, [AddGlobalInstructionSelect], ol);
      PassesOfHooksCons(AddLegalizeMachineIR, [AddRegBankSelect, AddGlobalInstructionSelect], ol);
      PassesOfHooksCons(AddIRTranslator, [AddLegalizeMachineIR, AddRegBankSelect, AddGlobalInstructionSelect], ol);
    } else {
      PassesOfHooksCons(AddInstSelector, [], ol);
    }
  }

  lemma LateHooksPasses(ol: CodeGenOptLevel)
    ensures PassesOfHooks([AddPreRegAlloc, AddPreSched2, AddPreEmitPass, AddPreEmitPass2], ol) ==
              HookPasses(AddPreRegAlloc, ol) + HookPasses(AddPreSched2, ol) +
              HookPasses(AddPreEmitPass, ol) + HookPasses(AddPreEmitPass2, ol)
  {
    PassesOfHooksCons(AddPreEmitPass2, [], ol);
    PassesOfHooksCons(AddPreEmitPass, [AddPreEmitPass2], ol);
    PassesOfHooksCons(AddPreSched2, [AddPreEmitPass, AddPreEmitPass2], ol);
    PassesOfHooksCons(AddPreRegAlloc, [AddPreSched2, AddPreEmitPass, AddPreEmitPass2], ol);
  }

  lemma PassesOfThreeParts(first: Hook, middle: seq<Hook>, late: seq<Hook>, ol: CodeGenOptLevel)
    ensures PassesOfHooks([first] + middle + late, ol) ==
              HookPasses(first, ol) + PassesOfHooks(middle, ol) + PassesOfHooks(late, ol)
  {
    PassesOfHooksAppend([first] + middle, late, ol);
    PassesOfHooksCons(first, middle, ol);
  }

  /** Calling the hooks in the assumed order appends exactly `TargetPipeline`. */
  lemma TargetPipelineFollowsAssumedOrder(ol: CodeGenOptLevel, sel: Selector)
    ensures PassesOfHooks(AssumedHookOrder(sel), ol) == TargetPipeline(ol, sel)
  {
    var late := [AddPreRegAlloc, AddPreSched2, AddPreEmitPass, AddPreEmitPass2];
    PassesOfThreeParts(AddIRPasses, SelectorHooks(sel), late, ol);
    SelectorHooksPasses(ol, sel);
    LateHooksPasses(ol);
  }

  lemma OnlyAtEnd<T>(front: seq<T>, last: seq<T>, x: T)
    requires x !in front && |last| > 0 && last[|last| - 1] == x && x !in last[..|last| - 1]
    ensures var p := front + last;
            p[|p| - 1] == x && forall i :: 0 <= i < |p| - 1 ==> p[i] != x
  {
    var p := front + last;
    forall i | 0 <= i < |p| - 1 ensures p[i] != x {
      if i < |front| {
        assert p[i] == front[i];
      } else {
        assert p[i] == last[..|last| - 1][i - |front|];
      }
    }
  }

  /** The atomic pseudo expansion is the last pass this target adds, and no
      other pass of the target comes after it, at every optimisation level
      and with either selector. */
  lemma AtomicPseudoExpansionIsLast(ol: CodeGenOptLevel, sel: Selector)
    ensures var p := TargetPipeline(ol, sel);
            |p| > 0 && p[|p| - 1] == RISCVExpandAtomicPseudo &&
            forall i :: 0 <= i < |p| - 1 ==> p[i] != RISCVExpandAtomicPseudo
  {
    var front := HookPasses(AddIRPasses, ol) + SelectionPasses(ol, sel) + HookPasses(AddPreRegAlloc, ol) +
                 HookPasses(AddPreSched2, ol) + HookPasses(AddPreEmitPass, ol);
    var last := [RISCVExpandPseudo, PULPFixupHwLoops, RISCVExpandSSRPostRegAlloc, RISCVExpandAtomicPseudo];
    assert HookPasses(AddPreEmitPass2, ol) == last;
    assert RISCVExpandAtomicPseudo !in HookPasses(AddPreRegAlloc, ol);
    OnlyAtEnd(front, last, RISCVExpandAtomicPseudo);
  }

  /** Regrouping a concatenation of seven lists, for the proofs below and for
      appending one hook's passes after another. */
  lemma RegroupTail<T>(a: seq<T>, b: seq<T>, c: seq<T>, d: seq<T>, e: seq<T>, f: seq<T>, g: seq<T>)
    ensures a + b + c + d + e + f == a + b + (c + d + e + f)
    ensures a + b + c + d + e + f + g == a + (b + c + d + e + f + g)
  {
  }

  /** Selection passes alone between two stretches free of them. */
  lemma SelectionIsolated(ir: seq<Pass>, ol: CodeGenOptLevel, sel: Selector, rest: seq<Pass>)
    requires |ir| == 2
    requires forall q :: q in ir ==> q != RISCVISelDag && !IsGlobalISelPass(q)
    requires forall q :: q in rest ==> q != RISCVISelDag && !IsGlobalISelPass(q)
    ensures var p := ir + SelectionPasses(ol, sel) + rest;
            (sel == SelectionDAG <==> RISCVISelDag in p) &&
            (sel == SelectionDAG ==> p[2] == RISCVISelDag && forall q :: q in p ==> !IsGlobalISelPass(q)) &&
            (sel == GlobalISel ==> |p| >= 6 && p[2..6] == [IRTranslator(ol), Legalizer, RegBankSelect, InstructionSelect])
  {
    var selection := SelectionPasses(ol, sel);
    var p := ir + selection + rest;
    assert forall q :: q in p <==> q in ir || q in selection || q in rest;
    if sel == GlobalISel {
      assert p[2..2 + |selection|] == selection;
    } else {
      assert p[2] == selection[0];
    }
  }

  /** Outside the selector hooks, this target adds no selection pass. */
  lemma NoSelectionOutsideSelectors(ol: CodeGenOptLevel)
    ensures |HookPasses(AddIRPasses, ol)| == 2
    ensures forall q :: q in HookPasses(AddIRPasses, ol) ==> q != RISCVISelDag && !IsGlobalISelPass(q)
    ensures var rest := HookPasses(AddPreRegAlloc, ol) + HookPasses(AddPreSched2, ol) +
                        HookPasses(AddPreEmitPass, ol) + HookPasses(AddPreEmitPass2, ol);
            forall q :: q in rest ==> q != RISCVISelDag && !IsGlobalISelPass(q)
  {
    HookPassesFacts(AddIRPasses, ol);
    HookPassesFacts(AddPreRegAlloc, ol);
    HookPassesFacts(AddPreSched2, ol);
    HookPassesFacts(AddPreEmitPass, ol);
    HookPassesFacts(AddPreEmitPass2, ol);
  }

  /** Exactly one selection strategy appears, right after the IR passes: the
      DAG selector alone, or the four GlobalISel passes back to back in their
      fixed order; never both. */
  lemma SelectorsAreExclusive(ol: CodeGenOptLevel, sel: Selector)
    ensures var p := TargetPipeline(ol, sel);
            (sel == SelectionDAG <==> RISCVISelDag in p) &&
            (sel == SelectionDAG ==> p[2] == RISCVISelDag && forall q :: q in p ==> !IsGlobalISelPass(q)) &&
            (sel == GlobalISel ==> |p| >= 6 && p[2..6] == [IRTranslator(ol), Legalizer, RegBankSelect, InstructionSelect])
  {
    RegroupTail(HookPasses(AddIRPasses, ol), SelectionPasses(ol, sel), HookPasses(AddPreRegAlloc, ol),
                HookPasses(AddPreSched2, ol), HookPasses(AddPreEmitPass, ol), HookPasses(AddPreEmitPass2, ol), []);
    NoSelectionOutsideSelectors(ol);
    SelectionIsolated(HookPasses(AddIRPasses, ol), ol, sel,
                      HookPasses(AddPreRegAlloc, ol) + HookPasses(AddPreSched2, ol) +
                      HookPasses(AddPreEmitPass, ol) + HookPasses(AddPreEmitPass2, ol));
  }

  /** Atomic operations are expanded at the IR level before any instruction
      selection pass, and the streaming-register pseudo-operations are
      expanded before register allocation and again after it, in that order. */
  lemma ExpansionsPrecedeTheirUsers(ol: CodeGenOptLevel, sel: Selector)
    ensures var p := TargetPipeline(ol, sel);
            p[0] == AtomicExpand &&
            (forall i :: 0 <= i < |p| && (p[i] == RISCVISelDag || IsGlobalISelPass(p[i])) ==> 0 < i) &&
            exists i, j :: 0 <= i < j < |p| && p[i] == RISCVExpandSSR && p[j] == RISCVExpandSSRPostRegAlloc
  {
    var p := TargetPipeline(ol, sel);
    var k := |HookPasses(AddIRPasses, ol) + SelectionPasses(ol, sel)|;
    assert p[k + 1] == RISCVExpandSSR;
    assert p[|p| - 2] == RISCVExpandSSRPostRegAlloc;
  }
}
