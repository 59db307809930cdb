/** The delegate catalogue and the default delegate priority orders that
    replicate AI Hub's defaults on Qualcomm devices. */
module AIHubDefaults {
  import opened TierFilter

  /** The delegates the runtime can create (Java `TFLiteHelpers.DelegateType`):
      the Qualcomm neural-network delegate on the NPU and the GPU delegate.
      The XNNPack CPU path is not a delegate: it is what an empty tier runs. */
  datatype DelegateType = QnnNpu | GpuV2

  /** A tier: the delegates that must all initialise together. */
  type Tier = seq<DelegateType>

  /** A priority order: tiers, most preferred first. */
  type PriorityOrder = seq<Tier>

  /** The delegates enabled by default. */
  const EnabledDelegates: set<DelegateType> := {QnnNpu, GpuV2}

  /** The default priority order: NPU with GPU, then GPU alone, then the
      CPU-only fallback. */
  const DelegatePriorityOrder: PriorityOrder := [[QnnNpu, GpuV2], [GpuV2], []]

  /** The GPU-only order: GPU, then the CPU-only fallback. */
  const DelegateGpu: PriorityOrder := [[GpuV2], []]

  /** The default priority order restricted to the given delegates. Whatever
      is enabled, the result is a non-empty selection of the default tiers
      that ends with the CPU-only tier. */
  function DelegatePriorityOrderForDelegates(enabled: set<DelegateType>): (r: PriorityOrder)
    ensures 1 <= |r| <= |DelegatePriorityOrder|
    ensures r[|r| - 1] == []
    ensures forall t :: t in r <==> t in DelegatePriorityOrder && Allowed(t, enabled)
  {
    FilterKeepsCpuFallback(DelegatePriorityOrder, enabled);
    Filter(DelegatePriorityOrder, enabled)
  }

  /** The default priority order ends with the CPU-only tier. */
  lemma DefaultOrdersEndWithCpuTier()
    ensures DelegatePriorityOrder[|DelegatePriorityOrder| - 1] == []
    ensures DelegateGpu[|DelegateGpu| - 1] == []
  {
  }

  /** The restriction, for every enabled set: both delegates enabled keeps
      all three tiers; only the GPU keeps the GPU tier and the fallback;
      without the GPU only the CPU-only tier survives. */
  lemma {:induction false} DefaultRestrictionByCase(enabled: set<DelegateType>)
    ensures QnnNpu in enabled && GpuV2 in enabled ==>
      DelegatePriorityOrderForDelegates(enabled) == DelegatePriorityOrder
    ensures QnnNpu !in enabled && GpuV2 in enabled ==>
      DelegatePriorityOrderForDelegates(enabled) == DelegateGpu
    ensures GpuV2 !in enabled ==>
      DelegatePriorityOrderForDelegates(enabled) == [[]]
  {
    var o := DelegatePriorityOrder;
    assert o[1..] == [[GpuV2], []];
    assert o[1..][1..] == [[]];
    assert o[1..][1..][1..] == [];
    assert Allowed(o[2], enabled);
    assert Allowed(o[0], enabled) <==> QnnNpu in enabled && GpuV2 in enabled;
    assert Allowed(o[1], enabled) <==> GpuV2 in enabled;
    assert Filter(o[1..][1..], enabled) == [[]];
    if GpuV2 !in enabled {
      assert Filter(o[1..], enabled) == [[]];
    }
  }

  /** With the default enabled set every default tier is kept; with nothing
      enabled only the CPU-only tier is. */
  lemma DefaultEnabledKeepsAllTiers()
    ensures DelegatePriorityOrderForDelegates(EnabledDelegates) == DelegatePriorityOrder
    ensures DelegatePriorityOrderForDelegates({}) == [[]]
  {
    DefaultRestrictionByCase(EnabledDelegates);
    DefaultRestrictionByCase({});
  }
}
