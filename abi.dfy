/** The two consistency checks between the ABI name given in the target
    options (`-target-abi`) and the "target-abi" module flag.

    Which names the RISC-V ABI table recognises is not part of this model; it
    is the parameter `knownABIs`, the names for which the table's lookup does
    not answer "unknown". */
module ABI {
  import opened Wrappers

  const ABI_MISMATCH := "-target-abi option != target-abi module flag"

  /** The ABI a new subtarget is built with, checked as the subtarget cache
      does on a miss: the module flag wins, unless the option names a
      recognised ABI that differs from it, which is fatal. Without a module
      flag the option's ABI is used as it is, recognised or not. */
  function SubtargetABIName(optionABI: string, moduleABI: Option<string>, knownABIs: set<string>): (r: Result<string>)
    ensures r.Fatal? <==> moduleABI.Some? && optionABI in knownABIs && moduleABI.value != optionABI
    ensures r.Fatal? ==> r.message == ABI_MISMATCH
    ensures r.Ok? && moduleABI.Some? ==> r.value == moduleABI.value
    ensures moduleABI.None? ==> r == Ok(optionABI)
  {
    match moduleABI
    case None => Ok(optionABI)
    case Some(moduleName) =>
      if optionABI in knownABIs && moduleName != optionABI then Fatal(ABI_MISMATCH)
      else Ok(moduleName)
  }

  /** The options' ABI name after the module's metadata has been applied to
      the target options: a non-empty option that differs from the module
      flag is fatal; an empty option adopts the flag; otherwise the option
      stays as it is. */
  function ModuleMetadataABIName(optionABI: string, moduleABI: Option<string>): (r: Result<string>)
    ensures r.Fatal? <==> moduleABI.Some? && optionABI != "" && moduleABI.value != optionABI
    ensures r.Fatal? ==> r.message == ABI_MISMATCH
    ensures r.Ok? && optionABI == "" && moduleABI.Some? ==> r.value == moduleABI.value
    ensures r.Ok? && (optionABI != "" || moduleABI.None?) ==> r.value == optionABI
  {
    match moduleABI
    case None => Ok(optionABI)
    case Some(moduleName) =>
      if optionABI != "" && moduleName != optionABI then Fatal(ABI_MISMATCH)
      else if optionABI == "" then Ok(moduleName)
      else Ok(optionABI)
  }

  /** Applying the module's metadata a second time changes nothing. */
  lemma ModuleMetadataIdempotent(optionABI: string, moduleABI: Option<string>)
    requires ModuleMetadataABIName(optionABI, moduleABI).Ok?
    ensures var adopted := ModuleMetadataABIName(optionABI, moduleABI).value;
            ModuleMetadataABIName(adopted, moduleABI) == Ok(adopted)
  {
  }

  /** Once the options have been reconciled with a module, every subtarget
      built for that module's functions passes its own check and gets the
      module's ABI, or the option's when the module has none. */
  lemma ReconciledOptionsGovernSubtargets(optionABI: string, moduleABI: Option<string>, knownABIs: set<string>)
    requires ModuleMetadataABIName(optionABI, moduleABI).Ok?
    ensures var adopted := ModuleMetadataABIName(optionABI, moduleABI).value;
            SubtargetABIName(adopted, moduleABI, knownABIs) == Ok(moduleABI.GetOr(adopted))
  {
  }

  /** The empty name is never a recognised ABI, so whatever the subtarget
      check rejects, the options check rejects too. */
  lemma SubtargetCheckNoStricter(optionABI: string, moduleABI: Option<string>, knownABIs: set<string>)
    requires "" !in knownABIs
    ensures SubtargetABIName(optionABI, moduleABI, knownABIs).Fatal? ==>
              ModuleMetadataABIName(optionABI, moduleABI).Fatal?
  {
  }

  /** The converse fails: an unrecognised, non-empty option ABI that differs
      from the module flag is fatal for the options check, while the subtarget
      check silently takes the module's ABI. */
  lemma ChecksDisagreeOnUnrecognisedABI(knownABIs: set<string>)
    ensures exists optionABI: string, moduleName: string ::
              optionABI !in knownABIs &&
              ModuleMetadataABIName(optionABI, Some(moduleName)).Fatal? &&
              SubtargetABIName(optionABI, Some(moduleName), knownABIs) == Ok(moduleName)
  {
    var unknown := UnrecognisedName(knownABIs, "x");
    var moduleName := unknown + "x";
    assert |moduleName| != |unknown|;
    assert ModuleMetadataABIName(unknown, Some(moduleName)).Fatal?;
  }

  /** A name at least as long as `seed` that is not in the finite set `names`. */
  lemma UnrecognisedName(names: set<string>, seed: string) returns (name: string)
    requires seed != ""
    ensures name !in names && |name| >= |seed|
    decreases names
  {
    if seed !in names {
      name := seed;
    } else {
      name := UnrecognisedName(names - {seed}, seed + "x");
    }
  }

  /** An "ilp32" option against an "ilp32d" module flag is fatal for both
      checks when "ilp32" is recognised; equal names pass both and yield "ilp32". */
  lemma Ilp32Examples(knownABIs: set<string>)
    requires "ilp32" in knownABIs
    ensures SubtargetABIName("ilp32", Some("ilp32d"), knownABIs) == Fatal(ABI_MISMATCH)
    ensures ModuleMetadataABIName("ilp32", Some("ilp32d")) == Fatal(ABI_MISMATCH)
    ensures SubtargetABIName("ilp32", Some("ilp32"), knownABIs) == Ok("ilp32")
    ensures ModuleMetadataABIName("ilp32", Some("ilp32")) == Ok("ilp32")
  {
    assert "ilp32d" != "ilp32" by { assert |"ilp32d"| != |"ilp32"|; }
  }
}
