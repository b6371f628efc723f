/** The miner statistics collector (DTSMCollector.collect): one `getstat`
    reply becomes two uptime samples and, for every entry of the reply's
    `result` list in list order, samples labelled with that entry's GPU UUID
    in four further gauge families. */
module Dtsm {
  import opened Metrics

  /** One entry of the reply's `result` list: one GPU as the miner sees it. */
  datatype GpuStat = GpuStat(
    gpuUuid: string,
    solPs: int,
    avgSolPs: int,
    solPw: int,
    avgSolPw: int,
    acceptedShares: int,
    rejectedShares: int,
    latency: int)

  /** The parsed `getstat` reply. */
  datatype MinerStat = MinerStat(uptime: int, contime: int, result: seq<GpuStat>)

  /** A collector for one miner API endpoint. */
  datatype DtsmCollector = DtsmCollector(host: string, port: int)

  /** The label value that identifies a GPU in the per-GPU families. */
  function GpuUuid(g: GpuStat): (id: string)
  {
    g.gpuUuid
  }

  /** The five families, in the order collect yields them. */
  const MINER_SCHEMAS: seq<Schema> := [
    Schema("miner_uptime", "Uptime", ["type"]),
    Schema("miner_hashrate", "Hashrate", ["gpu_id", "type"]),
    Schema("miner_efficiency", "Efficiency", ["gpu_id", "type"]),
    Schema("miner_pool_shares", "Pool Shares", ["gpu_id", "type"]),
    Schema("miner_latency", "Latency", ["gpu_id"])
  ]

  // The labels that follow gpu_id on each of one GPU's samples, in the order
  // they are added, for the per-GPU families 1 to 4.
  const HASHRATE_TYPES: seq<seq<string>> := [["current"], ["average"]]
  const EFFICIENCY_TYPES: seq<seq<string>> := [["current"], ["average"]]
  const POOL_SHARES_TYPES: seq<seq<string>> := [["accepted"], ["rejected"]]
  const LATENCY_TYPES: seq<seq<string>> := [[]]

  /** How many samples one entry of `result` adds to the family k, 1 <= k < 5. */
  const MINER_PER_GPU: seq<nat> := [0, 2, 2, 2, 1]

  function StatTypes(k: nat): (types: seq<seq<string>>)
    requires 1 <= k < 5
  {
    match k
    case 1 => HASHRATE_TYPES
    case 2 => EFFICIENCY_TYPES
    case 3 => POOL_SHARES_TYPES
    case 4 => LATENCY_TYPES
  }

  function UptimeSamples(data: MinerStat): seq<Sample>
  {
    [Sample(["miner"], data.uptime), Sample(["connection"], data.contime)]
  }

  function HashrateSamples(g: GpuStat): seq<Sample>
  {
    [Sample([g.gpuUuid, "current"], g.solPs), Sample([g.gpuUuid, "average"], g.avgSolPs)]
  }

  function EfficiencySamples(g: GpuStat): seq<Sample>
  {
    [Sample([g.gpuUuid, "current"], g.solPw), Sample([g.gpuUuid, "average"], g.avgSolPw)]
  }

  function PoolSharesSamples(g: GpuStat): seq<Sample>
  {
    [Sample([g.gpuUuid, "accepted"], g.acceptedShares), Sample([g.gpuUuid, "rejected"], g.rejectedShares)]
  }

  function LatencySamples(g: GpuStat): seq<Sample>
  {
    [Sample([g.gpuUuid], g.latency)]
  }

  /** The samples one entry of `result` adds to the family k, 1 <= k < 5. */
  function StatSampler(k: nat): (sampler: GpuStat -> seq<Sample>)
    requires 1 <= k < 5
  {
    match k
    case 1 => HashrateSamples
    case 2 => EfficiencySamples
    case 3 => PoolSharesSamples
    case 4 => LatencySamples
  }

  /** The k-th family collect yields for the reply `data`. */
  function MinerFamily(k: nat, data: MinerStat): (family: Family)
    requires k < 5
  {
    if k == 0 then Family(MINER_SCHEMAS[0], UptimeSamples(data))
    else StatFamily(k, data.result)
  }

  /** The per-GPU family k, 1 <= k < 5, for the entries `stats`. */
  function StatFamily(k: nat, stats: seq<GpuStat>): (family: Family)
    requires 1 <= k < 5
  {
    Family(MINER_SCHEMAS[k], Flatten(stats, StatSampler(k)))
  }

  // Shapes of the per-GPU samples.

  lemma HashrateShaped() ensures Shaped(HashrateSamples, GpuUuid, HASHRATE_TYPES) {}
  lemma EfficiencyShaped() ensures Shaped(EfficiencySamples, GpuUuid, EFFICIENCY_TYPES) {}
  lemma PoolSharesShaped() ensures Shaped(PoolSharesSamples, GpuUuid, POOL_SHARES_TYPES) {}
  lemma LatencyShaped() ensures Shaped(LatencySamples, GpuUuid, LATENCY_TYPES) {}

  lemma StatSamplerShaped(k: nat)
    requires 1 <= k < 5
    ensures Shaped(StatSampler(k), GpuUuid, StatTypes(k))
  {
    match k
    case 1 => HashrateShaped();
    case 2 => EfficiencyShaped();
    case 3 => PoolSharesShaped();
    case 4 => LatencyShaped();
  }

  /** The tables agree: each per-GPU family's type labels are as many as its
      per-GPU count, distinct, and with gpu_id fill its label names. */
  lemma StatTables(k: nat)
    requires 1 <= k < 5
    ensures |StatTypes(k)| == MINER_PER_GPU[k]
    ensures forall m :: 0 <= m < |StatTypes(k)| ==> 1 + |StatTypes(k)[m]| == |MINER_SCHEMAS[k].labels|
    ensures forall a, b :: 0 <= a < b < |StatTypes(k)| ==> StatTypes(k)[a] != StatTypes(k)[b]
  {
  }

  /** The uptime family holds exactly two samples, miner uptime then
      connection uptime, each with one value for its one label name. */
  lemma UptimeFamilyLayout(data: MinerStat)
    ensures MinerFamily(0, data).schema.labels == ["type"]
    ensures MinerFamily(0, data).WellLabelled()
    ensures MinerFamily(0, data).DistinctLabelValues()
    ensures MinerFamily(0, data).samples == [Sample(["miner"], data.uptime), Sample(["connection"], data.contime)]
  {
  }

  /** Layout of the per-GPU family k: MINER_PER_GPU[k] samples per entry of
      `result`, the entries' blocks in list order, each block what that entry
      contributes, labelled with the entry's gpu_uuid and the type labels,
      and one value per label name on every sample. */
  lemma StatFamilyLayout(k: nat, data: MinerStat)
    requires 1 <= k < 5
    ensures |MinerFamily(k, data).samples| == |data.result| * MINER_PER_GPU[k]
    ensures MinerFamily(k, data).WellLabelled()
    ensures forall j :: 0 <= j < |data.result| ==>
      (j + 1) * MINER_PER_GPU[k] <= |MinerFamily(k, data).samples| &&
      MinerFamily(k, data).samples[j * MINER_PER_GPU[k] .. (j + 1) * MINER_PER_GPU[k]] == StatSampler(k)(data.result[j])
    ensures forall j, m :: 0 <= j < |data.result| && 0 <= m < MINER_PER_GPU[k] ==>
      StatSampler(k)(data.result[j])[m].labelValues == [data.result[j].gpuUuid] + StatTypes(k)[m]
  {
    StatTables(k);
    StatSamplerShaped(k);
    var f, types, rs := StatSampler(k), StatTypes(k), data.result;
    FlattenLength(rs, f, GpuUuid, types);
    Labelling(rs, f, GpuUuid, types, |MINER_SCHEMAS[k].labels| - 1);
    forall j | 0 <= j < |rs|
      ensures (j + 1) * |types| <= |Flatten(rs, f)| && Flatten(rs, f)[j * |types| .. (j + 1) * |types|] == f(rs[j])
    {
      FlattenBlock(rs, f, GpuUuid, types, j);
    }
  }

  /** When the entries' gpu_uuid values are pairwise distinct, no per-GPU
      family holds two samples with the same label values. */
  lemma StatLabelValuesDistinct(k: nat, data: MinerStat)
    requires 1 <= k < 5
    requires forall a, b :: 0 <= a < b < |data.result| ==> data.result[a].gpuUuid != data.result[b].gpuUuid
    ensures MinerFamily(k, data).DistinctLabelValues()
  {
    StatTables(k);
    StatSamplerShaped(k);
    FlattenDistinct(data.result, StatSampler(k), GpuUuid, StatTypes(k));
  }

  /** DTSMCollector.collect: queries the miner at the collector's host and
      port once (`query` stands for query_miner) and yields the five families
      in the order of MINER_SCHEMAS. */
  method Collect(collector: DtsmCollector, query: (string, int) -> MinerStat) returns (families: seq<Family>)
    ensures |families| == 5
    ensures forall k :: 0 <= k < 5 ==> families[k] == MinerFamily(k, query(collector.host, collector.port))
  {
    var hashrate := NewFamily("miner_hashrate", "Hashrate", ["gpu_id", "type"]);
    var efficiency := NewFamily("miner_efficiency", "Efficiency", ["gpu_id", "type"]);
    var poolShares := NewFamily("miner_pool_shares", "Pool Shares", ["gpu_id", "type"]);
    var latency := NewFamily("miner_latency", "Latency", ["gpu_id"]);
    var uptime := NewFamily("miner_uptime", "Uptime", ["type"]);

    var minerData := query(collector.host, collector.port);

    uptime := uptime.AddMetric(["miner"], minerData.uptime);
    uptime := uptime.AddMetric(["connection"], minerData.contime);
    var result := minerData.result;
    for i := 0 to |result|
      invariant hashrate == StatFamily(1, result[..i])
      invariant efficiency == StatFamily(2, result[..i])
      invariant poolShares == StatFamily(3, result[..i])
      invariant latency == StatFamily(4, result[..i])
    {
      var gpu := result[i];
      var gpuId := gpu.gpuUuid;
      hashrate := AddHashrate(hashrate, gpuId, gpu);
      efficiency := AddEfficiency(efficiency, gpuId, gpu);
      poolShares := AddPoolShares(poolShares, gpuId, gpu);
      latency := AddLatency(latency, gpuId, gpu);

      assert result[..i + 1][..i] == result[..i];
    }
    assert result[..|result|] == result;

    families := [uptime, hashrate, efficiency, poolShares, latency];
  }

  // The samples each entry of the reply adds, one method per family, in the
  // order the loop body adds them.

  method AddHashrate(family: Family, gpuId: string, gpu: GpuStat) returns (r: Family)
    requires gpuId == gpu.gpuUuid
    ensures r == Family(family.schema, family.samples + HashrateSamples(gpu))
  {
    r := family.AddMetric([gpuId, "current"], gpu.solPs);
    r := r.AddMetric([gpuId, "average"], gpu.avgSolPs);
  }

  method AddEfficiency(family: Family, gpuId: string, gpu: GpuStat) returns (r: Family)
    requires gpuId == gpu.gpuUuid
    ensures r == Family(family.schema, family.samples + EfficiencySamples(gpu))
  {
    r := family.AddMetric([gpuId, "current"], gpu.solPw);
    r := r.AddMetric([gpuId, "average"], gpu.avgSolPw);
  }

  method AddPoolShares(family: Family, gpuId: string, gpu: GpuStat) returns (r: Family)
    requires gpuId == gpu.gpuUuid
    ensures r == Family(family.schema, family.samples + PoolSharesSamples(gpu))
  {
    r := family.AddMetric([gpuId, "accepted"], gpu.acceptedShares);
    r := r.AddMetric([gpuId, "rejected"], gpu.rejectedShares);
  }

  method AddLatency(family: Family, gpuId: string, gpu: GpuStat) returns (r: Family)
    requires gpuId == gpu.gpuUuid
    ensures r == Family(family.schema, family.samples + LatencySamples(gpu))
  {
    r := family.AddMetric([gpuId], gpu.latency);
  }
}
