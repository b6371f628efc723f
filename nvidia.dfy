/** The GPU telemetry collector (NvidiaCollector.collect): for every device,
    in index order, the device's UUID is read once and a fixed set of samples
    labelled with it is appended to each of seven gauge families. */
module Nvidia {
  import opened Metrics

  /** The answer of nvmlDeviceGetUtilizationRates. */
  datatype Utilization = Utilization(gpu: int, memory: int)

  /** The answer of nvmlDeviceGetMemoryInfo. */
  datatype MemoryInfo = MemoryInfo(used: int, free: int, total: int)

  /** The answer of nvmlDeviceGetBAR1MemoryInfo. */
  datatype Bar1MemoryInfo = Bar1MemoryInfo(bar1Used: int, bar1Free: int, bar1Total: int)

  /** What the NVML queries that collect makes return for one device handle,
      one field per query (and per argument where one query is asked with
      several arguments). */
  datatype DeviceReading = DeviceReading(
    uuid: string,
    utilizationRates: Utilization,
    clockInfoCount: int,            // nvmlDeviceGetClockInfo(handle, NVML_CLOCK_COUNT)
    clockInfoMem: int,              // nvmlDeviceGetClockInfo(handle, NVML_CLOCK_MEM)
    maxClockInfoCount: int,         // nvmlDeviceGetMaxClockInfo(handle, NVML_CLOCK_COUNT)
    maxClockInfoMem: int,           // nvmlDeviceGetMaxClockInfo(handle, NVML_CLOCK_MEM)
    powerUsage: int,
    powerManagementLimitConstraints: (int, int),
    powerManagementLimit: int,
    powerManagementDefaultLimit: int,
    enforcedPowerLimit: int,
    memoryInfo: MemoryInfo,
    bar1MemoryInfo: Bar1MemoryInfo,
    temperatureGpu: int,            // nvmlDeviceGetTemperature(handle, NVML_TEMPERATURE_GPU)
    temperatureThresholdSlowdown: int,
    temperatureThresholdShutdown: int,
    fanSpeed: int)

  /** The label value that identifies a device in every family. */
  function GpuId(d: DeviceReading): (id: string)
  {
    d.uuid
  }

  /** The seven families, in the order collect yields them. */
  const GPU_SCHEMAS: seq<Schema> := [
    Schema("nvidia_gpu_utilization", "GPU Utilization", ["gpu_id", "type"]),
    Schema("nvidia_clock_speed", "Clock Speed", ["gpu_id", "type"]),
    Schema("nvidia_power_usage", "Power Usage", ["gpu_id", "type"]),
    Schema("nvidia_memory_usage", "Memory Usage", ["gpu_id", "type"]),
    Schema("nvidia_bar1_memory_usage", "BAR1 Memory Usage", ["gpu_id", "type"]),
    Schema("nvidia_temperature", "Temperature", ["gpu_id", "type"]),
    Schema("nvidia_fan_speed", "Fan Speed", ["gpu_id"])
  ]

  // The labels that follow gpu_id on each of one device's samples, in the
  // order they are added, family by family.
  const UTILIZATION_TYPES: seq<seq<string>> := [["gpu"], ["memory"]]
  const CLOCK_TYPES: seq<seq<string>> := [["core"], ["memory"], ["max_core"], ["max_memory"]]
  const POWER_TYPES: seq<seq<string>> :=
    [["usage"], ["min_limit"], ["max_limit"], ["limit"], ["default_limit"], ["enforced_limit"]]
  const MEMORY_TYPES: seq<seq<string>> := [["used"], ["free"], ["total"]]
  const BAR1_TYPES: seq<seq<string>> := [["used"], ["free"], ["total"]]
  const TEMPERATURE_TYPES: seq<seq<string>> := [["current"], ["slowdown_threshold"], ["shutdown_threshold"]]
  const FAN_TYPES: seq<seq<string>> := [[]]

  const GPU_TYPES: seq<seq<seq<string>>> :=
    [UTILIZATION_TYPES, CLOCK_TYPES, POWER_TYPES, MEMORY_TYPES, BAR1_TYPES, TEMPERATURE_TYPES, FAN_TYPES]

  /** How many samples one device adds to each family. */
  const GPU_PER_DEVICE: seq<nat> := [2, 4, 6, 3, 3, 3, 1]

  function UtilizationSamples(d: DeviceReading): seq<Sample>
  {
    [Sample([d.uuid, "gpu"], d.utilizationRates.gpu),
     Sample([d.uuid, "memory"], d.utilizationRates.memory)]
  }

  function ClockSamples(d: DeviceReading): seq<Sample>
  {
    [Sample([d.uuid, "core"], d.clockInfoCount),
     Sample([d.uuid, "memory"], d.clockInfoMem),
     Sample([d.uuid, "max_core"], d.maxClockInfoCount),
     Sample([d.uuid, "max_memory"], d.maxClockInfoMem)]
  }

  function PowerSamples(d: DeviceReading): seq<Sample>
  {
    [Sample([d.uuid, "usage"], d.powerUsage),
     Sample([d.uuid, "min_limit"], d.powerManagementLimitConstraints.0),
     Sample([d.uuid, "max_limit"], d.powerManagementLimitConstraints.1),
     Sample([d.uuid, "limit"], d.powerManagementLimit),
     Sample([d.uuid, "default_limit"], d.powerManagementDefaultLimit),
     Sample([d.uuid, "enforced_limit"], d.enforcedPowerLimit)]
  }

  function MemorySamples(d: DeviceReading): seq<Sample>
  {
    [Sample([d.uuid, "used"], d.memoryInfo.used),
     Sample([d.uuid, "free"], d.memoryInfo.free),
     Sample([d.uuid, "total"], d.memoryInfo.total)]
  }

  function Bar1Samples(d: DeviceReading): seq<Sample>
  {
    [Sample([d.uuid, "used"], d.bar1MemoryInfo.bar1Used),
     Sample([d.uuid, "free"], d.bar1MemoryInfo.bar1Free),
     Sample([d.uuid, "total"], d.bar1MemoryInfo.bar1Total)]
  }

  function TemperatureSamples(d: DeviceReading): seq<Sample>
  {
    [Sample([d.uuid, "current"], d.temperatureGpu),
     Sample([d.uuid, "slowdown_threshold"], d.temperatureThresholdSlowdown),
     Sample([d.uuid, "shutdown_threshold"], d.temperatureThresholdShutdown)]
  }

  function FanSamples(d: DeviceReading): seq<Sample>
  {
    [Sample([d.uuid], d.fanSpeed)]
  }

  /** The samples one device adds to the k-th family. */
  function GpuSampler(k: nat): (sampler: DeviceReading -> seq<Sample>)
    requires k < 7
  {
    match k
    case 0 => UtilizationSamples
    case 1 => ClockSamples
    case 2 => PowerSamples
    case 3 => MemorySamples
    case 4 => Bar1Samples
    case 5 => TemperatureSamples
    case 6 => FanSamples
  }

  /** The k-th family collect yields for the devices `ds`, listed in index order. */
  function GpuFamily(k: nat, ds: seq<DeviceReading>): (family: Family)
    requires k < 7
  {
    Family(GPU_SCHEMAS[k], Flatten(ds, GpuSampler(k)))
  }

  /** The three tables agree: each family's type labels are as many as its
      per-device count, distinct, and with gpu_id fill its label names. */
  lemma GpuTables(k: nat)
    requires k < 7
    ensures |GPU_TYPES[k]| == GPU_PER_DEVICE[k]
    ensures forall m :: 0 <= m < |GPU_TYPES[k]| ==> 1 + |GPU_TYPES[k][m]| == |GPU_SCHEMAS[k].labels|
    ensures forall a, b :: 0 <= a < b < |GPU_TYPES[k]| ==> GPU_TYPES[k][a] != GPU_TYPES[k][b]
  {
  }

  /** Every family's per-device samples follow its type table. */
  lemma SamplerShaped(k: nat)
    requires k < 7
    ensures Shaped(GpuSampler(k), GpuId, GPU_TYPES[k])
  {
    match k
    case 0 => UtilizationShaped();
    case 1 => ClockShaped();
    case 2 => PowerShaped();
    case 3 => MemoryShaped();
    case 4 => Bar1Shaped();
    case 5 => TemperatureShaped();
    case 6 => FanShaped();
  }

  lemma UtilizationShaped() ensures Shaped(UtilizationSamples, GpuId, UTILIZATION_TYPES) {}
  lemma ClockShaped() ensures Shaped(ClockSamples, GpuId, CLOCK_TYPES) {}
  lemma PowerShaped() ensures Shaped(PowerSamples, GpuId, POWER_TYPES) {}
  lemma MemoryShaped() ensures Shaped(MemorySamples, GpuId, MEMORY_TYPES) {}
  lemma Bar1Shaped() ensures Shaped(Bar1Samples, GpuId, BAR1_TYPES) {}
  lemma TemperatureShaped() ensures Shaped(TemperatureSamples, GpuId, TEMPERATURE_TYPES) {}
  lemma FanShaped() ensures Shaped(FanSamples, GpuId, FAN_TYPES) {}

  /** Layout of the k-th family: it holds GPU_PER_DEVICE[k] samples per
      device, the devices' blocks follow each other in index order, each
      block is what that device contributes, the m-th sample of device j is
      labelled with that device's UUID and the m-th type label, and every
      sample has one value per label name. */
  lemma GpuFamilyLayout(k: nat, ds: seq<DeviceReading>)
    requires k < 7
    ensures |GpuFamily(k, ds).samples| == |ds| * GPU_PER_DEVICE[k]
    ensures GpuFamily(k, ds).WellLabelled()
    ensures forall j :: 0 <= j < |ds| ==>
      (j + 1) * GPU_PER_DEVICE[k] <= |GpuFamily(k, ds).samples| &&
      GpuFamily(k, ds).samples[j * GPU_PER_DEVICE[k] .. (j + 1) * GPU_PER_DEVICE[k]] == GpuSampler(k)(ds[j])
    ensures forall j, m :: 0 <= j < |ds| && 0 <= m < GPU_PER_DEVICE[k] ==>
      GpuSampler(k)(ds[j])[m].labelValues == [ds[j].uuid] + GPU_TYPES[k][m]
  {
    GpuTables(k);
    SamplerShaped(k);
    var f, types := GpuSampler(k), GPU_TYPES[k];
    FlattenLength(ds, f, GpuId, types);
    Labelling(ds, f, GpuId, types, |GPU_SCHEMAS[k].labels| - 1);
    forall j | 0 <= j < |ds|
      ensures (j + 1) * |types| <= |Flatten(ds, f)| && Flatten(ds, f)[j * |types| .. (j + 1) * |types|] == f(ds[j])
    {
      FlattenBlock(ds, f, GpuId, types, j);
    }
  }

  /** All samples one device adds, in every family, begin with that device's
      UUID, which collect reads once per device. */
  lemma DeviceIdShared(ds: seq<DeviceReading>, j: nat)
    requires j < |ds|
    ensures forall k :: 0 <= k < 7 ==>
      (j + 1) * GPU_PER_DEVICE[k] <= |GpuFamily(k, ds).samples| &&
      forall s :: s in GpuFamily(k, ds).samples[j * GPU_PER_DEVICE[k] .. (j + 1) * GPU_PER_DEVICE[k]] ==>
        [ds[j].uuid] <= s.labelValues
  {
    forall k | 0 <= k < 7
      ensures (j + 1) * GPU_PER_DEVICE[k] <= |GpuFamily(k, ds).samples| &&
        forall s :: s in GpuFamily(k, ds).samples[j * GPU_PER_DEVICE[k] .. (j + 1) * GPU_PER_DEVICE[k]] ==>
          [ds[j].uuid] <= s.labelValues
    {
      DeviceBlockId(ds, j, k);
    }
  }

  lemma DeviceBlockId(ds: seq<DeviceReading>, j: nat, k: nat)
    requires j < |ds| && k < 7
    ensures (j + 1) * GPU_PER_DEVICE[k] <= |GpuFamily(k, ds).samples|
    ensures forall s :: s in GpuFamily(k, ds).samples[j * GPU_PER_DEVICE[k] .. (j + 1) * GPU_PER_DEVICE[k]] ==>
      [ds[j].uuid] <= s.labelValues
  {
    GpuTables(k);
    SamplerShaped(k);
    var f := GpuSampler(k);
    FlattenBlock(ds, f, GpuId, GPU_TYPES[k], j);
    forall s | s in f(ds[j]) ensures [ds[j].uuid] <= s.labelValues {
      var m :| 0 <= m < |f(ds[j])| && f(ds[j])[m] == s;
      assert s.labelValues == [GpuId(ds[j])] + GPU_TYPES[k][m];
    }
  }

  /** When the devices' UUIDs are pairwise distinct, no family holds two
      samples with the same label values. */
  lemma GpuLabelValuesDistinct(k: nat, ds: seq<DeviceReading>)
    requires k < 7
    requires forall a, b :: 0 <= a < b < |ds| ==> ds[a].uuid != ds[b].uuid
    ensures GpuFamily(k, ds).DistinctLabelValues()
  {
    GpuTables(k);
    SamplerShaped(k);
    FlattenDistinct(ds, GpuSampler(k), GpuId, GPU_TYPES[k]);
  }

  /** NvidiaCollector.collect over the readings of devices 0 .. |devices| - 1,
      yielding the seven families in the order of GPU_SCHEMAS. */
  method Collect(devices: seq<DeviceReading>) returns (families: seq<Family>)
    ensures |families| == 7
    ensures forall k :: 0 <= k < 7 ==> families[k] == GpuFamily(k, devices)
  {
    var gpuUtilization := NewFamily("nvidia_gpu_utilization", "GPU Utilization", ["gpu_id", "type"]);
    var clockSpeed := NewFamily("nvidia_clock_speed", "Clock Speed", ["gpu_id", "type"]);
    var powerUsage := NewFamily("nvidia_power_usage", "Power Usage", ["gpu_id", "type"]);
    var memoryUsage := NewFamily("nvidia_memory_usage", "Memory Usage", ["gpu_id", "type"]);
    var bar1MemoryUsage := NewFamily("nvidia_bar1_memory_usage", "BAR1 Memory Usage", ["gpu_id", "type"]);
    var temperature := NewFamily("nvidia_temperature", "Temperature", ["gpu_id", "type"]);
    var fanSpeed := NewFamily("nvidia_fan_speed", "Fan Speed", ["gpu_id"]);

    for i := 0 to |devices|
      invariant gpuUtilization == GpuFamily(0, devices[..i])
      invariant clockSpeed == GpuFamily(1, devices[..i])
      invariant powerUsage == GpuFamily(2, devices[..i])
      invariant memoryUsage == GpuFamily(3, devices[..i])
      invariant bar1MemoryUsage == GpuFamily(4, devices[..i])
      invariant temperature == GpuFamily(5, devices[..i])
      invariant fanSpeed == GpuFamily(6, devices[..i])
    {
      var reading := devices[i];
      var gpuId := reading.uuid;
      gpuUtilization := AddUtilization(gpuUtilization, gpuId, reading);
      clockSpeed := AddClockSpeed(clockSpeed, gpuId, reading);
      powerUsage := AddPowerUsage(powerUsage, gpuId, reading);
      memoryUsage := AddMemoryUsage(memoryUsage, gpuId, reading);
      bar1MemoryUsage := AddBar1MemoryUsage(bar1MemoryUsage, gpuId, reading);
      temperature := AddTemperature(temperature, gpuId, reading);
      fanSpeed := AddFanSpeed(fanSpeed, gpuId, reading);
      assert devices[..i + 1][..i] == devices[..i];
    }
    assert devices[..|devices|] == devices;

    families := [gpuUtilization, clockSpeed, powerUsage, memoryUsage, bar1MemoryUsage, temperature, fanSpeed];
  }

  // The blocks of the loop body, one per family: the samples one device adds.

  method AddUtilization(family: Family, gpuId: string, reading: DeviceReading) returns (r: Family)
    requires gpuId == reading.uuid
    ensures r == Family(family.schema, family.samples + UtilizationSamples(reading))
  {
    var utilization := reading.utilizationRates;
    r := family.AddMetric([gpuId, "gpu"], utilization.gpu);
    r := r.AddMetric([gpuId, "memory"], utilization.memory);
  }

  method AddClockSpeed(family: Family, gpuId: string, reading: DeviceReading) returns (r: Family)
    requires gpuId == reading.uuid
    ensures r == Family(family.schema, family.samples + ClockSamples(reading))
  {
    r := family.AddMetric([gpuId, "core"], reading.clockInfoCount);
    r := r.AddMetric([gpuId, "memory"], reading.clockInfoMem);
    r := r.AddMetric([gpuId, "max_core"], reading.maxClockInfoCount);
    r := r.AddMetric([gpuId, "max_memory"], reading.maxClockInfoMem);
  }

  method AddPowerUsage(family: Family, gpuId: string, reading: DeviceReading) returns (r: Family)
    requires gpuId == reading.uuid
    ensures r == Family(family.schema, family.samples + PowerSamples(reading))
  {
    r := family.AddMetric([gpuId, "usage"], reading.powerUsage);
    r := r.AddMetric([gpuId, "min_limit"], reading.powerManagementLimitConstraints.0);
    r := r.AddMetric([gpuId, "max_limit"], reading.powerManagementLimitConstraints.1);
    r := r.AddMetric([gpuId, "limit"], reading.powerManagementLimit);
    r := r.AddMetric([gpuId, "default_limit"], reading.powerManagementDefaultLimit);
    r := r.AddMetric([gpuId, "enforced_limit"], reading.enforcedPowerLimit);
  }

  method AddMemoryUsage(family: Family, gpuId: string, reading: DeviceReading) returns (r: Family)
    requires gpuId == reading.uuid
    ensures r == Family(family.schema, family.samples + MemorySamples(reading))
  {
    var memory := reading.memoryInfo;
    r := family.AddMetric([gpuId, "used"], memory.used);
    r := r.AddMetric([gpuId, "free"], memory.free);
    r := r.AddMetric([gpuId, "total"], memory.total);
  }

  method AddBar1MemoryUsage(family: Family, gpuId: string, reading: DeviceReading) returns (r: Family)
    requires gpuId == reading.uuid
    ensures r == Family(family.schema, family.samples + Bar1Samples(reading))
  {
    var bar1 := reading.bar1MemoryInfo;
    r := family.AddMetric([gpuId, "used"], bar1.bar1Used);
    r := r.AddMetric([gpuId, "free"], bar1.bar1Free);
    r := r.AddMetric([gpuId, "total"], bar1.bar1Total);
  }

  method AddTemperature(family: Family, gpuId: string, reading: DeviceReading) returns (r: Family)
    requires gpuId == reading.uuid
    ensures r == Family(family.schema, family.samples + TemperatureSamples(reading))
  {
    r := family.AddMetric([gpuId, "current"], reading.temperatureGpu);
    r := r.AddMetric([gpuId, "slowdown_threshold"], reading.temperatureThresholdSlowdown);
    r := r.AddMetric([gpuId, "shutdown_threshold"], reading.temperatureThresholdShutdown);
  }

  method AddFanSpeed(family: Family, gpuId: string, reading: DeviceReading) returns (r: Family)
    requires gpuId == reading.uuid
    ensures r == Family(family.schema, family.samples + FanSamples(reading))
  {
    r := family.AddMetric([gpuId], reading.fanSpeed);
  }
}
