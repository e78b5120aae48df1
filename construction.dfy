/** What the RISC-V target machine computes once, when it is constructed:
    the data layout string for the triple, the effective relocation model,
    and the address-space cast query. */
module Construction {
  import opened Wrappers

  /** The vendor field of a target triple; only HERO is told apart by this target. */
  datatype Vendor = Hero | OtherVendor

  /** A target triple, reduced to what this target reads of it: the pointer
      width of its architecture (0 for an unknown architecture) and its vendor. */
  datatype Triple = Triple(archPointerBitWidth: nat, vendor: Vendor)

  predicate IsArch64Bit(tt: Triple) { tt.archPointerBitWidth == 64 }

  predicate IsArch32Bit(tt: Triple) { tt.archPointerBitWidth == 32 }

  /** Relocation models a client may request. */
  datatype RelocModel = Static | Pic | DynamicNoPic | Ropi | Rwpi | RopiRwpi

  /** Code generation optimisation levels. */
  datatype CodeGenOptLevel = NoOptimization | Less | Default | Aggressive

  newtype AddressSpace = n: int | 0 <= n < 0x1_0000_0000

  const LAYOUT_RV64 := "e-m:e-p:64:64-i64:64-i128:128-n64-S128"
  const LAYOUT_RV32_HERO := "e-m:e-p:32:32-p1:64:32-i64:64-n32-S128-P0-A0"
  const LAYOUT_RV32 := "e-m:e-p:32:32-i64:64-n32-S128"

  /** The data layout of the target. The assertion that the triple is 32- or
      64-bit is the precondition. */
  function ComputeDataLayout(tt: Triple): (layout: string)
    requires IsArch64Bit(tt) || IsArch32Bit(tt)
    ensures IsArch64Bit(tt) ==> layout == LAYOUT_RV64
    ensures IsArch32Bit(tt) && tt.vendor == Hero ==> layout == LAYOUT_RV32_HERO
    ensures IsArch32Bit(tt) && tt.vendor != Hero ==> layout == LAYOUT_RV32
  {
    if IsArch64Bit(tt) then LAYOUT_RV64
    else if tt.vendor == Hero then LAYOUT_RV32_HERO
    else LAYOUT_RV32
  }

  /** `t` occurs in `s` starting at position `i`. */
  predicate OccursAt(s: string, t: string, i: nat) {
    i + |t| <= |s| && s[i..i + |t|] == t
  }

  ghost predicate Contains(s: string, t: string) {
    exists i: nat :: OccursAt(s, t, i)
  }

  /** Decimal spelling of a natural number. */
  function Decimal(n: nat): (s: string)
    ensures |s| > 0
  {
    var digit := "0123456789"[n % 10];
    if n < 10 then [digit] else Decimal(n / 10) + [digit]
  }

  /** The data layout specification of the default address space's pointers,
      "p:<size>:<abi alignment>", for pointers of `bits` bits aligned to their size. */
  function PointerSpec(bits: nat): (spec: string) {
    "p:" + Decimal(bits) + ":" + Decimal(bits)
  }

  /** `t` occurs in `s` at `i` when it ends the first `end` characters of `s`. */
  lemma OccursAtEndOfPrefix(s: string, t: string, i: nat, end: nat)
    requires end <= |s| && i + |t| == end && s[..end][i..] == t
    ensures OccursAt(s, t, i) && Contains(s, t)
  {
    assert s[i..i + |t|] == s[..end][i..];
    assert OccursAt(s, t, i);
  }

  lemma PointerSpecDecimal()
    ensures PointerSpec(64) == "p:64:64" && PointerSpec(32) == "p:32:32"
  {
    assert Decimal(6) == "6" && Decimal(3) == "3";
  }

  lemma Rv64LayoutPointers()
    ensures Contains(LAYOUT_RV64, "p:64:64")
  {
    assert LAYOUT_RV64[..13] == "e-m:e-p:64:64";
    assert LAYOUT_RV64[..13][6..] == "p:64:64";
    OccursAtEndOfPrefix(LAYOUT_RV64, "p:64:64", 6, 13);
  }

  lemma Rv32LayoutPointers()
    ensures Contains(LAYOUT_RV32, "p:32:32")
  {
    assert LAYOUT_RV32[..13] == "e-m:e-p:32:32";
    assert LAYOUT_RV32[..13][6..] == "p:32:32";
    OccursAtEndOfPrefix(LAYOUT_RV32, "p:32:32", 6, 13);
  }

  lemma Rv32HeroLayoutPointers()
    ensures Contains(LAYOUT_RV32_HERO, "p:32:32")
  {
    assert LAYOUT_RV32_HERO[..13] == "e-m:e-p:32:32";
    assert LAYOUT_RV32_HERO[..13][6..] == "p:32:32";
    OccursAtEndOfPrefix(LAYOUT_RV32_HERO, "p:32:32", 6, 13);
  }

  lemma HeroAddressSpaceOne()
    ensures Contains(LAYOUT_RV32_HERO, "p1:64:32")
  {
    assert LAYOUT_RV32_HERO[..22] == "e-m:e-p:32:32-p1:64:32";
    assert LAYOUT_RV32_HERO[..22][14..] == "p1:64:32";
    OccursAtEndOfPrefix(LAYOUT_RV32_HERO, "p1:64:32", 14, 22);
  }

  /** The layout's pointers in address space 0 are as wide as the triple's
      architecture says, whatever the vendor. */
  lemma LayoutPointerWidthMatchesTriple(tt: Triple)
    requires IsArch64Bit(tt) || IsArch32Bit(tt)
    ensures Contains(ComputeDataLayout(tt), PointerSpec(tt.archPointerBitWidth))
  {
    PointerSpecDecimal();
    Rv64LayoutPointers();
    Rv32LayoutPointers();
    Rv32HeroLayoutPointers();
  }

  /** The HERO vendor's 32-bit layout gives address space 1 64-bit pointers
      with 32-bit alignment, and keeps 32-bit pointers in address space 0. */
  lemma HeroLayoutWidensAddressSpaceOne(tt: Triple)
    requires IsArch32Bit(tt) && tt.vendor == Hero
    ensures Contains(ComputeDataLayout(tt), "p1:64:32")
    ensures Contains(ComputeDataLayout(tt), PointerSpec(32))
  {
    HeroAddressSpaceOne();
    Rv32HeroLayoutPointers();
    PointerSpecDecimal();
  }

  /** The requested relocation model, or Static when none is requested. The
      triple is not consulted. */
  function GetEffectiveRelocModel(tt: Triple, rm: Option<RelocModel>): (r: RelocModel)
    ensures rm.Some? ==> r == rm.value
    ensures rm.None? ==> r == Static
  {
    if rm.None? then Static else rm.value
  }

  /** The triple plays no part, and resolving an already effective model
      changes nothing. */
  lemma RelocModelIgnoresTriple(tt1: Triple, tt2: Triple, rm: Option<RelocModel>)
    ensures GetEffectiveRelocModel(tt1, rm) == GetEffectiveRelocModel(tt2, rm)
    ensures GetEffectiveRelocModel(tt2, Some(GetEffectiveRelocModel(tt1, rm))) == GetEffectiveRelocModel(tt1, rm)
  {
  }

  /** A RISC-V hart has one byte-addressable address space, so every cast
      between address spaces is a no-op. */
  function IsNoopAddrSpaceCast(srcAS: AddressSpace, dstAS: AddressSpace): (r: bool)
    ensures r
  {
    true
  }
}
