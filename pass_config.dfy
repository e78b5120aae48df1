/** The RISC-V pass configuration: each overridden hook appends its passes,
    one after another, to the pass manager's list. */
module PassConfig {
  import opened Construction
  import opened Pipeline
  import Machine

  class RISCVPassConfig {
    const tm: Machine.RISCVTargetMachine
    /** The passes added to the pass manager so far. */
    var passes: seq<Pass>

    constructor (tm: Machine.RISCVTargetMachine, pm: seq<Pass>)
      ensures this.tm == tm && passes == pm
    {
      this.tm := tm;
      passes := pm;
    }

    /** The atomic expansion, then the target-independent IR passes. */
    method AddIRPasses()
      modifies this`passes
      ensures passes == old(passes) + HookPasses(Hook.AddIRPasses, tm.optLevel)
    {
      passes := passes + [AtomicExpand];
      passes := passes + [GenericIRPasses];
    }

    /** The hooks below answer whether adding their passes failed. */
    method AddInstSelector() returns (failed: bool)
      modifies this`passes
      ensures !failed && passes == old(passes) + HookPasses(Hook.AddInstSelector, tm.optLevel)
    {
      passes := passes + [RISCVISelDag];
      failed := false;
    }

    method AddIRTranslator() returns (failed: bool)
      modifies this`passes
      ensures !failed && passes == old(passes) + HookPasses(Hook.AddIRTranslator, tm.optLevel)
    {
      passes := passes + [IRTranslator(tm.optLevel)];
      failed := false;
    }

    method AddLegalizeMachineIR() returns (failed: bool)
      modifies this`passes
      ensures !failed && passes == old(passes) + HookPasses(Hook.AddLegalizeMachineIR, tm.optLevel)
    {
      passes := passes + [Legalizer];
      failed := false;
    }

    method AddRegBankSelect() returns (failed: bool)
      modifies this`passes
      ensures !failed && passes == old(passes) + HookPasses(Hook.AddRegBankSelect, tm.optLevel)
    {
      passes := passes + [RegBankSelect];
      failed := false;
    }

    method AddGlobalInstructionSelect() returns (failed: bool)
      modifies this`passes
      ensures !failed && passes == old(passes) + HookPasses(Hook.AddGlobalInstructionSelect, tm.optLevel)
    {
      passes := passes + [InstructionSelect];
      failed := false;
    }

    /** Adds nothing. */
    method AddPreSched2()
      modifies this`passes
      ensures passes == old(passes) + HookPasses(Hook.AddPreSched2, tm.optLevel)
    {
    }

    method AddPreEmitPass()
      modifies this`passes
      ensures passes == old(passes) + HookPasses(Hook.AddPreEmitPass, tm.optLevel)
    {
      passes := passes + [BranchRelaxation];
    }

    /** The atomic pseudo expansion goes last, so that no later pass can
        break the forward-progress requirements of an LR/SC sequence. */
    method AddPreEmitPass2()
      modifies this`passes
      ensures passes == old(passes) + HookPasses(Hook.AddPreEmitPass2, tm.optLevel)
    {
      passes := passes + [RISCVExpandPseudo];
      passes := passes + [PULPFixupHwLoops];
      passes := passes + [RISCVExpandSSRPostRegAlloc];
      passes := passes + [RISCVExpandAtomicPseudo];
    }

    method AddPreRegAlloc()
      modifies this`passes
      ensures passes == old(passes) + HookPasses(Hook.AddPreRegAlloc, tm.optLevel)
    {
      passes := passes + [RISCVExpandSDMA];
      passes := passes + [RISCVExpandSSR];
      passes := passes + [SNITCHFrepLoops];
      if tm.optLevel != NoOptimization {
        passes := passes + [RISCVMergeBaseOffsetOpt];
        passes := passes + [RISCVCleanupVSETVLI];
        passes := passes + [PULPHardwareLoops];
      }
    }

    /** The hooks of one instruction selection strategy, in order. */
    method AddSelectorPasses(sel: Selector)
      modifies this`passes
      ensures passes == old(passes) + SelectionPasses(tm.optLevel, sel)
    {
      var failed: bool;
      match sel {
        case SelectionDAG =>
          failed := AddInstSelector();
        case GlobalISel =>
          failed := AddIRTranslator();
          failed := AddLegalizeMachineIR();
          failed := AddRegBankSelect();
          failed := AddGlobalInstructionSelect();
      }
    }

    /** Calls the hooks in the order `AssumedHookOrder` states for the
        target-independent driver; the passes the driver adds itself between
        them are not part of this model. */
    method AddTargetPasses(sel: Selector)
      modifies this`passes
      ensures passes == old(passes) + TargetPipeline(tm.optLevel, sel)
    {
      ghost var start := passes;
      AddIRPasses();
      AddSelectorPasses(sel);
      AddPreRegAlloc();
      AddPreSched2();
      AddPreEmitPass();
      AddPreEmitPass2();
      RegroupTail(start, HookPasses(Hook.AddIRPasses, tm.optLevel), SelectionPasses(tm.optLevel, sel),
                   HookPasses(Hook.AddPreRegAlloc, tm.optLevel), HookPasses(Hook.AddPreSched2, tm.optLevel),
                   HookPasses(Hook.AddPreEmitPass, tm.optLevel), HookPasses(Hook.AddPreEmitPass2, tm.optLevel));
    }
  }
}
