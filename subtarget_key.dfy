/** How a function's attributes select a subtarget: the three attributes
    "target-cpu", "tune-cpu" and "target-features", each optional, fall back
    to the target machine's defaults and are joined into the cache key. */
module SubtargetKey {
  import opened Wrappers

  /** The part of a module this target reads: its "target-abi" flag when
      that flag holds a string. */
  datatype Module = Module(targetABIFlag: Option<string>)

  /** The part of a function this target reads: its three string attributes
      and the module that contains it. */
  datatype Function = Function(
    targetCPU: Option<string>,
    tuneCPU: Option<string>,
    targetFeatures: Option<string>,
    parent: Module)

  /** The resolved CPU, tuning CPU and feature string of a function. */
  datatype SubtargetAttrs = SubtargetAttrs(cpu: string, tuneCPU: string, features: string)

  /** An absent "target-cpu" falls back to the machine's CPU, an absent
      "tune-cpu" to the CPU just resolved (not to any machine-wide tuning
      CPU), an absent "target-features" to the machine's feature string. */
  function ResolveAttrs(f: Function, targetCPU: string, targetFS: string): (a: SubtargetAttrs)
    ensures f.targetCPU.Some? ==> a.cpu == f.targetCPU.value
    ensures f.targetCPU.None? ==> a.cpu == targetCPU
    ensures f.tuneCPU.Some? ==> a.tuneCPU == f.tuneCPU.value
    ensures f.tuneCPU.None? ==> a.tuneCPU == a.cpu
    ensures f.targetFeatures.Some? ==> a.features == f.targetFeatures.value
    ensures f.targetFeatures.None? ==> a.features == targetFS
  {
    var cpu := f.targetCPU.GetOr(targetCPU);
    SubtargetAttrs(cpu, f.tuneCPU.GetOr(cpu), f.targetFeatures.GetOr(targetFS))
  }

  /** The cache key: the three resolved strings concatenated with no separator. */
  function Key(a: SubtargetAttrs): (k: string)
    ensures |k| == |a.cpu| + |a.tuneCPU| + |a.features|
    ensures k[..|a.cpu|] == a.cpu
    ensures k[|a.cpu|..|a.cpu| + |a.tuneCPU|] == a.tuneCPU
    ensures k[|a.cpu| + |a.tuneCPU|..] == a.features
  {
    a.cpu + a.tuneCPU + a.features
  }

  /** The key tells attributes apart once the lengths of the CPU and the
      tuning CPU are known. */
  lemma KeyInjectiveGivenLengths(a: SubtargetAttrs, b: SubtargetAttrs)
    requires Key(a) == Key(b)
    requires |a.cpu| == |b.cpu| && |a.tuneCPU| == |b.tuneCPU|
    ensures a == b
  {
    var k := Key(a);
    assert a.cpu == k[..|a.cpu|] == b.cpu;
    assert a.tuneCPU == k[|a.cpu|..|a.cpu| + |a.tuneCPU|] == b.tuneCPU;
    assert a.features == k[|a.cpu| + |a.tuneCPU|..] == b.features;
  }

  /** Without lengths the key is ambiguous: two functions of one module whose
      resolved attributes differ can share a key, and so share a subtarget. */
  lemma KeyCollision(targetCPU: string, targetFS: string, m: Module)
    ensures exists f: Function, g: Function ::
              f.parent == m && g.parent == m &&
              ResolveAttrs(f, targetCPU, targetFS) != ResolveAttrs(g, targetCPU, targetFS) &&
              Key(ResolveAttrs(f, targetCPU, targetFS)) == Key(ResolveAttrs(g, targetCPU, targetFS))
  {
    var f := Function(Some("snitch"), Some("snitch+a"), Some(""), m);
    var g := Function(Some("snitch"), Some("snitch"), Some("+a"), m);
    assert "snitch+a" != "snitch" by { assert |"snitch+a"| != |"snitch"|; }
    assert Key(ResolveAttrs(f, targetCPU, targetFS)) == "snitch" + "snitch+a" + "";
    assert Key(ResolveAttrs(g, targetCPU, targetFS)) == "snitch" + "snitch" + "+a";
  }
}
