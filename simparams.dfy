/** The constant tables of simparams.py that `setDetailedParams` reads, and
    what they give for the two CPU models listed. */
module SimParams {
  import opened Wrappers
  import opened Bench
  import opened Simulation

  /** `cpu_models`: per architecture, per model name, the core type,
      configuration script, voltage, frequency and out-of-order flag. */
  const A53 := CpuModel("sc-a53-odn2", "HPI", "se.py", "0.82V", "1.895GHz", false)
  const I7 := CpuModel("sc-i7-6700", "DerivO3CPU", "se.py", "1.32V", "4.0GHz", true)
  const CpuModels: map<string, map<string, CpuModel>> :=
    map["aarch64" := map["sc-a53-odn2" := A53], "x86-64" := map["sc-i7-6700" := I7]]

  /** `hwp_config`: type, degree, latency, queue size. */
  const HwpConfig: map<string, Prefetcher> := map[
    "stride1" := Prefetcher("StridePrefetcher", 1, 1, 0),
    "stride4q" := Prefetcher("StridePrefetcher", 4, 0, 4),
    "stride8" := Prefetcher("StridePrefetcher", 8, 1, 0)]

  /** `mem_technologies`, documented as "(L1I, L1D, L2, L3)". */
  const MemTechnologies: map<string, map<string, seq<string>>> := map[
    "default" := map["sram-only" := ["sram", "sram", "sram", "none"]],
    "sc-i7-6700" := map["sram-only" := ["sram", "sram", "sram", "sram"]]]

  /** `mem_cases`. */
  const MemCases: map<string, set<string>> := map["default" := {"typical"}]

  /** `mem_configs`, whose rows are documented as L1I, L1D, L2 and an
      optional L3. */
  const A53Typical := [CacheLevel(4, 4, 2, 2, "32kB", 2), CacheLevel(4, 4, 2, 2, "32kB", 4), CacheLevel(11, 11, 2, 2, "512kB", 16)]
  const I7Typical := [CacheLevel(4, 4, 2, 2, "32kB", 8), CacheLevel(4, 4, 2, 2, "32kB", 8),
                      CacheLevel(10, 10, 2, 2, "256kB", 4), CacheLevel(38, 38, 2, 2, "2MB", 16)]
  const MemConfigs: map<string, map<string, map<string, seq<CacheLevel>>>> := map[
    "sc-i7-6700" := map["sram" := map["typical" := I7Typical]],
    "sc-a53-odn2" := map["sram" := map["typical" := A53Typical]]]

  const Tables := SimTables(MemTechnologies, MemConfigs, HwpConfig)

  /** The Cortex-A53 model takes the default two-level hierarchy; its first
      documented row (L1I) is 2-way, its second (L1D) 4-way. */
  lemma A53Levels()
    ensures Hierarchy(Tables, A53, "sram-only") == Some(["sram", "sram", "sram", "none"])
    ensures var hier := ["sram", "sram", "sram", "none"];
      && !HasL3(hier) && LevelsPresent(MemConfigs[A53.name], hier, "typical")
      && Level(MemConfigs[A53.name], hier, "typical", 0) == Some(CacheLevel(4, 4, 2, 2, "32kB", 2))
      && Level(MemConfigs[A53.name], hier, "typical", 1) == Some(CacheLevel(4, 4, 2, 2, "32kB", 4))
  {
    assert A53.name !in MemTechnologies;
  }

  /** The Core i7 model has its own three-level hierarchy, every row of it
      present. */
  lemma I7Levels()
    ensures Hierarchy(Tables, I7, "sram-only") == Some(["sram", "sram", "sram", "sram"])
    ensures var hier := ["sram", "sram", "sram", "sram"];
      HasL3(hier) && LevelsPresent(MemConfigs[I7.name], hier, "typical")
  {
    assert I7.name in MemTechnologies;
  }

  /** As written, `setDetailedParams` gives the Cortex-A53's first-level
      data cache the 2-way row the tables document as the instruction
      cache, and the instruction cache the 4-way data row. */
  lemma A53DataCacheAsWritten(p: map<string, Value>, args: Args)
    ensures var hier := ["sram", "sram", "sram", "none"];
      var r := CachesParams(p, args, Tables, hier, MemConfigs[A53.name], "typical", AsWrittenRows);
      && Key("l1d", "_assoc") in r && r[Key("l1d", "_assoc")] == N(2)
      && Key("l1i", "_assoc") in r && r[Key("l1i", "_assoc")] == N(4)
  {
    A53Levels();
    CachesLevels(p, args, Tables, ["sram", "sram", "sram", "none"], MemConfigs[A53.name], "typical", AsWrittenRows);
  }

  /** With the documented rows, the Cortex-A53's data cache is 4-way and its
      instruction cache 2-way, and every field of each comes from its own
      row. */
  lemma A53DataCacheDocumented(p: map<string, Value>, args: Args)
    ensures var hier := ["sram", "sram", "sram", "none"];
      var r := CachesParams(p, args, Tables, hier, MemConfigs[A53.name], "typical", DocumentedRows);
      && LevelParams(r, "l1d", A53Typical[1]) && LevelParams(r, "l1i", A53Typical[0])
      && r[Key("l1d", "_assoc")] == N(4) && r[Key("l1i", "_assoc")] == N(2)
  {
    A53Levels();
    CachesLevels(p, args, Tables, ["sram", "sram", "sram", "none"], MemConfigs[A53.name], "typical", DocumentedRows);
  }
}
