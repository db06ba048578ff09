/**
 * D3D11 device creation (src/native/stages/common/d3d11-utils.cpp): walk the
 * DXGI adapters by increasing index and create the device on the first one
 * whose description names a preferred vendor, else on the default adapter.
 *
 * The DXGI calls are oracles: the factory's HRESULT, the adapter
 * descriptions in enumeration order (`EnumAdapters(i)` reports not-found
 * exactly at `i == |adapters|`), and the HRESULTs of the two
 * `D3D11CreateDevice` calls. The adapters released, in order, are an output.
 */
module D3D11Utils {
  import opened Text
  import opened Common
  import opened Config

  /** `D3D_FEATURE_LEVEL_11_0`, `10_1`, `10_0`, `9_1`: the levels requested, in order. */
  const FeatureLevels: seq<int> := [0xb000, 0xa100, 0xa000, 0x9100]

  /** The vendors `createDeviceAndContext` prefers. */
  const SearchStrings: seq<string> := ["NVIDIA", "AMD"]

  /** The best feature level is requested first: the list is strictly descending. */
  lemma FeatureLevelsDescending()
    ensures |FeatureLevels| == 4
    ensures forall i, j :: 0 <= i < j < |FeatureLevels| ==> FeatureLevels[i] > FeatureLevels[j]
  {
  }

  /** An adapter description contains one of the search strings as a substring. */
  predicate Matches(description: string, searchStrings: seq<string>)
  {
    exists j :: 0 <= j < |searchStrings| && Contains(description, searchStrings[j])
  }

  /** The first adapter at or after index i that matches. */
  function FirstMatchFrom(adapters: seq<string>, searchStrings: seq<string>, i: nat): (r: Option<nat>)
    requires i <= |adapters|
    ensures r.Some? ==> i <= r.value < |adapters| && Matches(adapters[r.value], searchStrings)
    ensures r.Some? ==> forall j :: i <= j < r.value ==> !Matches(adapters[j], searchStrings)
    ensures r.None? ==> forall j :: i <= j < |adapters| ==> !Matches(adapters[j], searchStrings)
    decreases |adapters| - i
  {
    if i == |adapters| then None
    else if Matches(adapters[i], searchStrings) then Some(i)
    else FirstMatchFrom(adapters, searchStrings, i + 1)
  }

  /**
   * What the DXGI and D3D11 calls report: the factory's HRESULT, the adapter
   * descriptions in enumeration order, and the HRESULTs of creating a device
   * on a chosen adapter and on the default one.
   */
  datatype GpuOracle = GpuOracle(factoryHr: HResult, adapters: seq<string>, specificHr: HResult, defaultHr: HResult)

  /** The device a search with `searchStrings` ends with, or the exception it throws. */
  function SelectedDevice(gpu: GpuOracle, searchStrings: seq<string>): Outcome<Device>
  {
    if gpu.factoryHr < 0 then Threw(ErrorCodeMessage("createDxgiFactory", gpu.factoryHr))
    else match FirstMatchFrom(gpu.adapters, searchStrings, 0)
      case Some(k) =>
        if gpu.specificHr < 0 then Threw(ErrorCodeMessage("D3D11CreateDevice(specific)", gpu.specificHr))
        else Ok(AdapterDevice(k))
      case None => CreateDefaultDevice(gpu.defaultHr)
  }

  /** Adapter indices 0, 1, ..., n - 1. */
  function Indices(n: nat): (r: seq<nat>)
    ensures |r| == n && forall i :: 0 <= i < n ==> r[i] == i
  {
    if n == 0 then [] else Indices(n - 1) + [n - 1]
  }

  /** `createDefaultDeviceAndContext`: the hardware device on the default adapter. */
  function CreateDefaultDevice(createHr: HResult): (r: Outcome<Device>)
    ensures r.Threw? <==> createHr < 0
    ensures r.Threw? ==> r.message == ErrorCodeMessage("D3D11CreateDevice", createHr)
    ensures r.Ok? ==> r.value == DefaultDevice
  {
    match ThrowIfFail(createHr, "D3D11CreateDevice")
    case Fail(m) => Threw(m)
    case Pass => Ok(DefaultDevice)
  }

  /**
   * The inner loop: every search string is tried (there is no early exit)
   * and `found` ends up true if any of them occurs in the description.
   */
  method DescriptionMatches(description: string, searchStrings: seq<string>) returns (found: bool)
    ensures found == Matches(description, searchStrings)
  {
    found := false;
    var k := 0;
    while k < |searchStrings|
      invariant 0 <= k <= |searchStrings|
      invariant found == exists j :: 0 <= j < k && Contains(description, searchStrings[j])
    {
      if IndexOf(description, searchStrings[k]).Some? {
        found := true;
      }
      k := k + 1;
    }
  }

  /**
   * `createSpecificDeviceAndContext`. With a match at index k, adapters
   * 0..k-1 are released as they are passed over and the device is created on
   * adapter k, which is released after a successful creation (a failed
   * creation throws first and keeps that reference). Without a match every
   * adapter is released and the default device is created.
   */
  method CreateSpecificDeviceAndContext(gpu: GpuOracle, searchStrings: seq<string>)
    returns (device: Outcome<Device>, released: seq<nat>)
    ensures device == SelectedDevice(gpu, searchStrings)
    ensures gpu.factoryHr < 0 ==> released == []
    ensures gpu.factoryHr >= 0 && FirstMatchFrom(gpu.adapters, searchStrings, 0).Some? ==>
              var k := FirstMatchFrom(gpu.adapters, searchStrings, 0).value;
              released == if gpu.specificHr < 0 then Indices(k) else Indices(k + 1)
    ensures gpu.factoryHr >= 0 && FirstMatchFrom(gpu.adapters, searchStrings, 0).None? ==>
              released == Indices(|gpu.adapters|)
  {
    var factory := ThrowIfFail(gpu.factoryHr, "createDxgiFactory");
    if factory.Fail? {
      return Threw(factory.message), [];
    }
    released := [];
    var adapter: Option<nat> := None;
    var i := 0;
    while i < |gpu.adapters|
      invariant 0 <= i <= |gpu.adapters|
      invariant released == Indices(i)
      invariant FirstMatchFrom(gpu.adapters, searchStrings, 0) == FirstMatchFrom(gpu.adapters, searchStrings, i)
      invariant adapter == None
    {
      adapter := Some(i);
      var found := DescriptionMatches(gpu.adapters[i], searchStrings);
      if found {
        break;
      }
      released := released + [i];
      adapter := None;
      i := i + 1;
    }
    if adapter.Some? {
      var created := ThrowIfFail(gpu.specificHr, "D3D11CreateDevice(specific)");
      if created.Fail? {
        return Threw(created.message), released;
      }
      released := released + [adapter.value];
      device := Ok(AdapterDevice(adapter.value));
    } else {
      device := CreateDefaultDevice(gpu.defaultHr);
    }
  }

  /** `createDeviceAndContext`: the search with the NVIDIA and AMD vendor strings. */
  method CreateDeviceAndContext(gpu: GpuOracle) returns (device: Outcome<Device>)
    ensures device == SelectedDevice(gpu, SearchStrings)
  {
    var released;
    device, released := CreateSpecificDeviceAndContext(gpu, SearchStrings);
  }

  /**
   * A device on a specific adapter is on the first adapter, by index, whose
   * description contains "NVIDIA" or "AMD"; a device on the default adapter
   * means no description contains either.
   */
  lemma SelectedDeviceIsFirstVendorAdapter(gpu: GpuOracle)
    ensures var d := SelectedDevice(gpu, SearchStrings);
            d.Ok? && d.value.AdapterDevice? ==>
              var k := d.value.adapterIndex;
              && k < |gpu.adapters| && (Contains(gpu.adapters[k], "NVIDIA") || Contains(gpu.adapters[k], "AMD"))
              && forall j :: 0 <= j < k ==> !Contains(gpu.adapters[j], "NVIDIA") && !Contains(gpu.adapters[j], "AMD")
    ensures var d := SelectedDevice(gpu, SearchStrings);
            d.Ok? && d.value.DefaultDevice? ==>
              forall j :: 0 <= j < |gpu.adapters| ==> !Contains(gpu.adapters[j], "NVIDIA") && !Contains(gpu.adapters[j], "AMD")
  {
    assert SearchStrings[0] == "NVIDIA" && SearchStrings[1] == "AMD";
    var d := SelectedDevice(gpu, SearchStrings);
    if d.Ok? && d.value.AdapterDevice? {
      var k := d.value.adapterIndex;
      assert Matches(gpu.adapters[k], SearchStrings);
      forall j | 0 <= j < k
        ensures !Contains(gpu.adapters[j], "NVIDIA") && !Contains(gpu.adapters[j], "AMD")
      {
        assert !Matches(gpu.adapters[j], SearchStrings);
      }
    }
    if d.Ok? && d.value.DefaultDevice? {
      forall j | 0 <= j < |gpu.adapters|
        ensures !Contains(gpu.adapters[j], "NVIDIA") && !Contains(gpu.adapters[j], "AMD")
      {
        assert !Matches(gpu.adapters[j], SearchStrings);
      }
    }
  }

  /** A string none of whose characters starts `p` does not contain `p`. */
  lemma LacksFirstChar(s: string, p: string)
    requires |p| >= 1 && forall j :: 0 <= j < |s| ==> s[j] != p[0]
    ensures !Contains(s, p)
  {
    forall j: nat
      ensures !OccursAt(s, p, j)
    {
      if j + |p| <= |s| {
        assert s[j..j + |p|][0] == s[j];
      }
    }
  }

  /**
   * The vendor order does not rank adapters: an AMD adapter enumerated before
   * an NVIDIA one is chosen, and an Intel adapter before both is passed over.
   */
  lemma FirstAdapterByIndexWins()
    ensures FirstMatchFrom(["Intel UHD", "AMD Radeon", "NVIDIA GeForce"], SearchStrings, 0) == Some(1)
  {
    var adapters := ["Intel UHD", "AMD Radeon", "NVIDIA GeForce"];
    assert Matches(adapters[1], SearchStrings) by {
      assert OccursAt(adapters[1], SearchStrings[1], 0);
    }
    assert !Matches(adapters[0], SearchStrings) by {
      LacksFirstChar(adapters[0], SearchStrings[0]);
      LacksFirstChar(adapters[0], SearchStrings[1]);
    }
  }
}
