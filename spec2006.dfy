/** The SPEC CPU2006 benchmark list of benchsuites/spec2006.py: its constant
    tables and `get_preprocessing`. */
module Spec2006 {
  import opened Wrappers
  import opened Bench

  const Benchmarks: seq<string> := [
    "400.perlbench",
    "401.bzip2",
    "403.gcc",
    "410.bwaves",
    "416.gamess",
    "429.mcf",
    "433.milc",
    "434.zeusmp",
    "435.gromacs",
    "436.cactusADM",
    "437.leslie3d",
    "444.namd",
    "445.gobmk",
    "447.dealII",
    "450.soplex",
    "453.povray",
    "454.calculix",
    "456.hmmer",
    "458.sjeng",
    "459.GemsFDTD",
    "462.libquantum",
    "464.h264ref",
    "465.tonto",
    "470.lbm",
    "471.omnetpp",
    "473.astar",
    "481.wrf",
    "482.sphinx3",
    "483.xalancbmk",
    "998.specrand",
    "999.specrand"
  ]

  const ExeNames: map<string, string> := map[
    "482.sphinx3" := "sphinx_livepretend",
    "483.xalancbmk" := "Xalan"
  ]

  const Preprocessing: map<string, Entry> := map[
    "481.wrf" := Tup(["ln -s le/32/* .", "ln -s le/64/* .", "ln -s be/32/* .", "ln -s be/64/* ."]),
    "482.sphinx3" := Tup(["rm *.be.raw && for file in *.le.raw; do mv \"$file\" \"${file%.le.raw}.raw\"; done && wc -c $(ls *.raw) | awk -F\".raw\" \'{print $1}\' | awk \'{print $2 \" \" $1}\' | head -n -1 > ctlfile", "rm *.le.raw && for file in *.be.raw; do mv \"$file\" \"${file%.be.raw}.raw\"; done && wc -c $(ls *.raw) | awk -F\".raw\" \'{print $1}\' | awk \'{print $2 \" \" $1}\' | head -n -1 > ctlfile"])
  ]

  const SubsetTest: map<string, seq<string>> := map[
    "400.perlbench" := ["attrs", "gv", "makerand", "pack", "redef", "ref", "regmesg", "test"],
    "401.bzip2" := ["dryer_2", "input_program_5"],
    "445.gobmk" := ["capture", "connection", "connection_rot", "connect", "connect_rot", "cutstone", "dniwog"]
  ]

  const SubsetTrain: map<string, seq<string>> := map[
    "400.perlbench" := ["perfect", "scrabbl", "suns"],
    "401.bzip2" := ["byoudoin_5", "input_combined_80", "input_program_10"],
    "445.gobmk" := ["arb", "arend", "arion", "atari", "blunder", "buzco", "nicklas2", "nicklas4"],
    "450.soplex" := ["pds-20", "train"],
    "473.astar" := ["BigLakes1024", "rivers"]
  ]

  const SubsetRef: map<string, seq<string>> := map[
    "400.perlbench" := ["checkspam", "diffmail", "splitmail"],
    "401.bzip2" := ["input_source_280", "chicken_30", "liberty_30", "input_program_10", "text_280", "input_combined_200"],
    "403.gcc" := ["166", "200", "c-typeck", "cp-decl", "expr", "expr2", "g23", "s04", "scilab"],
    "416.gamess" := ["cytosine_2", "h2ocu2+_gradient", "triazolium"],
    "445.gobmk" := ["13x13", "nngs", "score2", "trevorc", "trevord"],
    "450.soplex" := ["pds-50", "ref"],
    "456.hmmer" := ["nph3", "retro"],
    "464.h264ref" := ["foreman_ref_encoder_baseline", "foreman_ref_encoder_main", "sss_encoder_main"],
    "473.astar" := ["BigLakes2048", "rivers"]
  ]

  const ParamsTest: map<string, Entry> := map[
    "400.perlbench" := Tup(["-I. -I./lib attrs.pl", "-I. -I./lib gv.pl", "-I. -I./lib makerand.pl", "-I. -I./lib pack.pl", "-I. -I./lib redef.pl", "-I. -I./lib ref.pl", "-I. -I./lib regmesg.pl", "-I. -I./lib test.pl"]),
    "401.bzip2" := Tup(["dryer.jpg 2", "input.program 5"]),
    "403.gcc" := Str("cccp.in -o cccp.s"),
    "410.bwaves" := Str("bwaves.in"),
    "429.mcf" := Str("inp.in"),
    "435.gromacs" := Str("-silent -deffnm gromacs -nice 0"),
    "436.cactusADM" := Str("benchADM.par"),
    "444.namd" := Str("--input namd.input --iterations 1 --output namd.out"),
    "445.gobmk" := Tup(["--quiet --mode gtp", "--quiet --mode gtp", "--quiet --mode gtp", "--quiet --mode gtp", "--quiet --mode gtp", "--quiet --mode gtp", "--quiet --mode gtp"]),
    "447.dealII" := Str("8"),
    "450.soplex" := Str("-m10000 test.mps"),
    "453.povray" := Str("SPEC-benchmark-test.ini"),
    "454.calculix" := Str("-i beampic"),
    "456.hmmer" := Str("--fixed 0 --mean 325 --num 45000 --sd 200 --seed 0 bombesin.hmm"),
    "458.sjeng" := Str("test.txt"),
    "462.libquantum" := Str("33 5"),
    "464.h264ref" := Str("-d foreman_test_encoder_baseline.cfg"),
    "470.lbm" := Str("20 reference.dat 0 1 100_100_130_cf_a.of"),
    "471.omnetpp" := Str("omnetpp.ini"),
    "473.astar" := Str("lake.cfg"),
    "482.sphinx3" := Str("ctlfile . args.an4"),
    "483.xalancbmk" := Str("-v test.xml xalanc.xsl"),
    "998.specrand" := Str("1 3"),
    "999.specrand" := Str("1 3")
  ]

  const ParamsTrain: map<string, Entry> := map[
    "400.perlbench" := Tup(["-I. -I./lib perfect.pl", "-I. -I./lib scrabbl.pl", "-I. -I./lib suns.pl"]),
    "401.bzip2" := Tup(["byoudoin.jpg 5", "input.combined 80", "input.program 10"]),
    "403.gcc" := Str("integrate.in -o integrate.s"),
    "410.bwaves" := Str("bwaves.in"),
    "429.mcf" := Str("inp.in"),
    "435.gromacs" := Str("-silent -deffnm gromacs -nice 0"),
    "436.cactusADM" := Str("benchADM.par"),
    "444.namd" := Str("--input namd.input --iterations 1 --output namd.out"),
    "445.gobmk" := Tup(["--quiet --mode gtp", "--quiet --mode gtp", "--quiet --mode gtp", "--quiet --mode gtp", "--quiet --mode gtp", "--quiet --mode gtp", "--quiet --mode gtp", "--quiet --mode gtp"]),
    "447.dealII" := Str("10"),
    "450.soplex" := Tup(["-s1 -e -m5000 pds-20.mps", "-m1200 train.mps"]),
    "453.povray" := Str("SPEC-benchmark-train.ini"),
    "454.calculix" := Str("-i stairs"),
    "456.hmmer" := Str("--fixed 0 --mean 425 --num 85000 --sd 300 --seed 0 leng100.hmm"),
    "458.sjeng" := Str("train.txt"),
    "462.libquantum" := Str("143 25"),
    "464.h264ref" := Str("-d foreman_train_encoder_baseline.cfg"),
    "470.lbm" := Str("300 reference.dat 0 1 100_100_130_cf_b.of"),
    "471.omnetpp" := Str("omnetpp.ini"),
    "473.astar" := Tup(["BigLakes1024.cfg", "rivers1.cfg"]),
    "482.sphinx3" := Str("ctlfile . args.an4"),
    "483.xalancbmk" := Str("-v allbooks.xml xalanc.xsl"),
    "998.specrand" := Str("324342 24239"),
    "999.specrand" := Str("324342 24239")
  ]

  const ParamsRef: map<string, Entry> := map[
    "400.perlbench" := Tup(["-I. -I./lib checkspam.pl", "-I. -I./lib diffmail.pl", "-I. -I./lib splitmail.pl"]),
    "401.bzip2" := Tup(["input.source 280", "chicken.jpg 30", "liberty.jpg 30", "input.program 10", "text.html 280", "input.combined 200"]),
    "403.gcc" := Tup(["166.in -o 166.s", "200.in -o 200.s", "c-typeck.in -o c-typeck.s", "cp-decl.in -o cp-decl.s", "expr.in -o expr.s", "expr2.in -o expr2.s", "g23.in -o g23.s", "s04.in -o s04.s", "scilab.in -o scilab.s"]),
    "410.bwaves" := Str("bwaves.in"),
    "429.mcf" := Str("inp.in"),
    "435.gromacs" := Str("-silent -deffnm gromacs -nice 0"),
    "436.cactusADM" := Str("benchADM.par"),
    "444.namd" := Str("--input namd.input --iterations 38 --output namd.out"),
    "445.gobmk" := Tup(["--quiet --mode gtp", "--quiet --mode gtp", "--quiet --mode gtp", "--quiet --mode gtp", "--quiet --mode gtp"]),
    "447.dealII" := Str("23"),
    "450.soplex" := Tup(["-s1 -e -m4500 pds-50.mps", "-m3500 ref.mps"]),
    "453.povray" := Str("SPEC-benchmark-ref.ini"),
    "454.calculix" := Str("-i hyperviscoplastic"),
    "456.hmmer" := Tup(["nph3.hmm swiss41", "--fixed 0 --mean 500 --num 500000 --sd 350 --seed 0 retro.hmm"]),
    "458.sjeng" := Str("ref.txt"),
    "462.libquantum" := Str("1397 8"),
    "464.h264ref" := Tup(["-d foreman_ref_encoder_baseline.cfg", "-d foreman_ref_encoder_main.cfg", " -d sss_encoder_main.cfg"]),
    "470.lbm" := Str("3000 reference.dat 0 0 100_100_130_ldc.of"),
    "471.omnetpp" := Str("omnetpp.ini"),
    "473.astar" := Tup(["BigLakes2048.cfg", "rivers.cfg"]),
    "482.sphinx3" := Str("ctlfile . args.an4"),
    "483.xalancbmk" := Str("-v t5.xml xalanc.xsl"),
    "998.specrand" := Str("1255432124 234923"),
    "999.specrand" := Str("1255432124 234923")
  ]

  const InputTest: map<string, Entry> := map[
    "465.tonto" := Str("stdin"),
    "416.gamess" := Str("exam29.config"),
    "433.milc" := Str("su3imp.in"),
    "437.leslie3d" := Str("leslie3d.in"),
    "445.gobmk" := Tup(["capture.tst", "connection.tst", "connection_rot.tst", "connect.tst", "connect_rot.tst", "cutstone.tst", "dniwog.tst"])
  ]

  const InputTrain: map<string, Entry> := map[
    "465.tonto" := Str("stdin"),
    "416.gamess" := Str("h2ocu2+_energy.config"),
    "433.milc" := Str("su3imp.in"),
    "437.leslie3d" := Str("leslie3d.in"),
    "445.gobmk" := Tup(["arb.tst", "arend.tst", "arion.tst", "atari.tst", "blunder.tst", "buzco.tst", "nicklas2.tst", "nicklas4.tst"])
  ]

  const InputRef: map<string, Entry> := map[
    "416.gamess" := Tup(["cytosine.2.config", " h2ocu2+.gradient.config", "triazolium.config"]),
    "433.milc" := Str("su3imp.in"),
    "437.leslie3d" := Str("leslie3d.in"),
    "445.gobmk" := Tup(["13x13.tst", "nngs.tst", "score2.tst", "trevorc.tst", "trevord.tst"]),
    "465.tonto" := Str("stdin")
  ]

  /** Only the train set has memory sizes. */
  const MemSizeTrain: map<string, string> := map[
    "459.GemsFDTD" := "4GB",
    "465.tonto" := "4GB",
    "481.wrf" := "4GB"
  ]

  const MemSizes: map<string, map<string, string>> := map["train" := MemSizeTrain]

  /** The list as `bench5.py` sees it; it defines no `bench_groups`. */
  const Spec2006Suite: Suite := Suite(
    Benchmarks, ExeNames, Preprocessing, MemSizes,
    map["test" := SubsetTest, "train" := SubsetTrain, "ref" := SubsetRef],
    map["test" := ParamsTest, "train" := ParamsTrain, "ref" := ParamsRef],
    map["test" := InputTest, "train" := InputTrain, "ref" := InputRef],
    None)

  /** `get_preprocessing(b_name, arch_bits, endianness)`: the shell command
      that prepares the input data of a benchmark, chosen by endianness and,
      for 481.wrf, word size. Any other benchmark falls through to
      `preprocessing.get(b_name)`. */
  function GetPreprocessing(bName: string, archBits: int, endianness: string): (r: Option<Entry>)
    ensures r.Some? <==> bName in Preprocessing
    ensures r.Some? ==> r.value.Str? && r.value.s in Preprocessing[bName].items
  {
    if bName == "481.wrf" then
      var cmds := Preprocessing[bName].items;
      if endianness == "le" then
        if archBits == 32 then Some(Str(cmds[0])) else Some(Str(cmds[1]))
      else
        if archBits == 32 then Some(Str(cmds[2])) else Some(Str(cmds[3]))
    else if bName == "482.sphinx3" then
      var cmds := Preprocessing[bName].items;
      if endianness == "le" then Some(Str(cmds[0])) else Some(Str(cmds[1]))
    else Get(Preprocessing, bName)
  }

  /** Little-endian 481.wrf links the 32-bit data for 32 bits and the 64-bit
      data for any other word size. */
  lemma WrfLittleEndian(archBits: int)
    ensures GetPreprocessing("481.wrf", archBits, "le") ==
      Some(Str(if archBits == 32 then "ln -s le/32/* ." else "ln -s le/64/* ."))
  {
  }

  /** Any endianness other than "le" selects the big-endian data. */
  lemma WrfBigEndian(archBits: int, endianness: string)
    requires endianness != "le"
    ensures GetPreprocessing("481.wrf", archBits, endianness) ==
      Some(Str(if archBits == 32 then "ln -s be/32/* ." else "ln -s be/64/* ."))
  {
  }

  /** 482.sphinx3 keeps the raw files of its endianness; the word size plays
      no part. */
  lemma Sphinx3Endianness(archBits: int, otherBits: int, endianness: string)
    ensures GetPreprocessing("482.sphinx3", archBits, endianness) ==
      Some(Str(Preprocessing["482.sphinx3"].items[if endianness == "le" then 0 else 1]))
    ensures GetPreprocessing("482.sphinx3", archBits, endianness) == GetPreprocessing("482.sphinx3", otherBits, endianness)
  {
  }

  /** Every other benchmark has no preprocessing. */
  lemma NoPreprocessing(bName: string, archBits: int, endianness: string)
    requires bName != "481.wrf" && bName != "482.sphinx3"
    ensures GetPreprocessing(bName, archBits, endianness) == None
  {
  }

  /** The positional reading of `get_ss_params` is safe on every set: tuples
      match the subset lists in length and belong to benchmarks with
      subsets. */
  lemma ParamsTestWellFormed()
    ensures WellFormedSet(SubsetTest, ParamsTest)
  {
  }

  lemma InputTestWellFormed()
    ensures WellFormedSet(SubsetTest, InputTest)
  {
  }

  lemma ParamsTrainWellFormed()
    ensures WellFormedSet(SubsetTrain, ParamsTrain)
  {
  }

  lemma InputTrainWellFormed()
    ensures WellFormedSet(SubsetTrain, InputTrain)
  {
  }

  lemma ParamsRefWellFormed()
    ensures WellFormedSet(SubsetRef, ParamsRef)
  {
  }

  lemma InputRefWellFormed()
    ensures WellFormedSet(SubsetRef, InputRef)
  {
  }

  /** Hence `get_ss_params` on this list reads every tuple within bounds and
      hands on plain strings only for a benchmark without subsets. */
  lemma SubsetsCovered(bName: string)
    ensures bName in SubsetTest ==> Covers(EntryOf(ParamsTest, bName), EntryOf(InputTest, bName), |SubsetTest[bName]|)
    ensures bName !in SubsetTest ==> EntryOf(ParamsTest, bName).Str? && EntryOf(InputTest, bName).Str?
    ensures bName in SubsetTrain ==> Covers(EntryOf(ParamsTrain, bName), EntryOf(InputTrain, bName), |SubsetTrain[bName]|)
    ensures bName !in SubsetTrain ==> EntryOf(ParamsTrain, bName).Str? && EntryOf(InputTrain, bName).Str?
    ensures bName in SubsetRef ==> Covers(EntryOf(ParamsRef, bName), EntryOf(InputRef, bName), |SubsetRef[bName]|)
    ensures bName !in SubsetRef ==> EntryOf(ParamsRef, bName).Str? && EntryOf(InputRef, bName).Str?
  {
    ParamsTestWellFormed();
    InputTestWellFormed();
    WellFormedCovers(SubsetTest, ParamsTest, InputTest, bName);
    ParamsTrainWellFormed();
    InputTrainWellFormed();
    WellFormedCovers(SubsetTrain, ParamsTrain, InputTrain, bName);
    ParamsRefWellFormed();
    InputRefWellFormed();
    WellFormedCovers(SubsetRef, ParamsRef, InputRef, bName);
  }

  /** `get_params` gives every benchmark of the test and ref sets the default
      "2GB". */
  lemma MemSizeOutsideTrain(bName: string, bSet: string)
    requires bSet != "train"
    ensures MemSize(MemSizes, bName, bSet) == "2GB"
  {
  }

  /** In the train set only 459.GemsFDTD, 465.tonto and 481.wrf get 4GB. */
  lemma MemSizeInTrain(bName: string)
    ensures MemSize(MemSizes, bName, "train") ==
      if bName == "459.GemsFDTD" || bName == "465.tonto" || bName == "481.wrf" then "4GB" else "2GB"
  {
  }
}
