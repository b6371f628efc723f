/** The command line and start-up of the exporter: the miner option group
    rule of parse_args, the miner_collectors table and the registration of
    collectors in main. */
module RigStats {
  import opened Wrappers
  import Dtsm

  /** The options as given on the command line, already converted by their
      `type=` functions; None is an option that was not given. */
  datatype RawArgs = RawArgs(
    port: Option<int>,
    miner: Option<string>,
    minerApiHost: Option<string>,
    minerApiPort: Option<int>)

  /** The namespace parse_args returns. */
  datatype Args = Args(
    port: int,
    miner: Option<string>,
    minerApiHost: Option<string>,
    minerApiPort: Option<int>)

  /** Why parse_args stops the program with a usage message. */
  datatype UsageError =
    | InvalidMinerChoice(name: string)
    | IncompleteMinerGroup(message: string)

  const DEFAULT_PORT: int := 9001
  const MINER_CHOICES: seq<string> := ["dtsm"]
  const MINER_GROUP_MESSAGE: string := "--miner requires --miner_api_host and --miner_api_port."

  /** How many of the given flags are true: the length of the tuple that
      filter(None.__ne__, ...) keeps, with each flag saying "not None". */
  function CountGiven(given: seq<bool>): (r: nat)
    ensures r <= |given|
  {
    if given == [] then 0
    else CountGiven(given[..|given| - 1]) + (if given[|given| - 1] then 1 else 0)
  }

  /** The count is 0 exactly when nothing was given and the full length
      exactly when everything was. */
  lemma {:induction false} CountGivenExtremes(given: seq<bool>)
    ensures CountGiven(given) == 0 <==> forall i :: 0 <= i < |given| ==> !given[i]
    ensures CountGiven(given) == |given| <==> forall i :: 0 <= i < |given| ==> given[i]
  {
    if given != [] {
      var init := given[..|given| - 1];
      CountGivenExtremes(init);
      assert forall i :: 0 <= i < |init| ==> init[i] == given[i];
    }
  }

  /** The flags of the miner option group, in the order parse_args lists them. */
  function MinerGroup(raw: RawArgs): (given: seq<bool>)
  {
    [raw.miner.Some?, raw.minerApiHost.Some?, raw.minerApiPort.Some?]
  }

  /** parse_args: argparse rejects a miner name outside its choices while
      parsing; afterwards the miner options must be all given or all absent;
      an absent port takes its default. */
  function ParseArgs(raw: RawArgs): (r: Result<Args, UsageError>)
    ensures r.Success? && r.value.miner.Some? ==> r.value.minerApiHost.Some? && r.value.minerApiPort.Some?
  {
    var group := MinerGroup(raw);
    CountGivenExtremes(group);
    assert |group| == 3 && group[0] == raw.miner.Some?;
    assert group[1] == raw.minerApiHost.Some? && group[2] == raw.minerApiPort.Some?;
    if raw.miner.Some? && raw.miner.value !in MINER_CHOICES then
      Failure(InvalidMinerChoice(raw.miner.value))
    else if CountGiven(group) !in {0, 3} then
      Failure(IncompleteMinerGroup(MINER_GROUP_MESSAGE))
    else
      Success(Args(
        if raw.port.Some? then raw.port.value else DEFAULT_PORT,
        raw.miner, raw.minerApiHost, raw.minerApiPort))
  }

  /** The miner option group rule: the arguments are accepted exactly when
      the miner name, if given, is a choice and the three miner options are
      all given or all absent; the errors name which rule failed; accepted
      arguments keep their values and the default port. */
  lemma MinerOptionGroupRule(raw: RawArgs)
    ensures ParseArgs(raw).Success? <==>
      (raw.miner.None? || raw.miner.value in MINER_CHOICES) &&
      ((raw.miner.None? && raw.minerApiHost.None? && raw.minerApiPort.None?) ||
       (raw.miner.Some? && raw.minerApiHost.Some? && raw.minerApiPort.Some?))
    ensures raw.miner.Some? && raw.miner.value !in MINER_CHOICES ==>
      ParseArgs(raw) == Failure(InvalidMinerChoice(raw.miner.value))
    ensures ((raw.miner.None? || raw.miner.value in MINER_CHOICES) &&
             !(raw.miner.None? && raw.minerApiHost.None? && raw.minerApiPort.None?) &&
             !(raw.miner.Some? && raw.minerApiHost.Some? && raw.minerApiPort.Some?)) ==>
      ParseArgs(raw) == Failure(IncompleteMinerGroup(MINER_GROUP_MESSAGE))
    ensures ParseArgs(raw).Success? ==>
      ParseArgs(raw).value == Args(
        if raw.port.Some? then raw.port.value else DEFAULT_PORT,
        raw.miner, raw.minerApiHost, raw.minerApiPort)
  {
    var g := MinerGroup(raw);
    CountGivenExtremes(g);
    assert g[0] == raw.miner.Some? && g[1] == raw.minerApiHost.Some? && g[2] == raw.minerApiPort.Some?;
  }

  /** Lower-cases the ASCII letters of a string. */
  function Lower(s: string): (r: string)
    ensures |r| == |s|
    ensures forall i :: 0 <= i < |s| ==> r[i] == LowerChar(s[i])
  {
    if s == [] then [] else Lower(s[..|s| - 1]) + [LowerChar(s[|s| - 1])]
  }

  function LowerChar(c: char): (lower: char)
  {
    if 'A' <= c <= 'Z' then (c as int + 32) as char else c
  }

  /** Lower-casing twice is lower-casing once, and a lower-cased string has
      no upper-case ASCII letter. */
  lemma LowerIdempotent(s: string)
    ensures Lower(Lower(s)) == Lower(s)
    ensures forall i :: 0 <= i < |s| ==> !('A' <= Lower(s)[i] <= 'Z')
  {
  }

  /** The miner software a collector can be built for. */
  datatype MinerSoftware = DTSM

  /** miner_collectors: the table from lower-case miner name to collector. */
  function MinerCollectors(): (table: map<string, MinerSoftware>)
    ensures forall name :: name in table ==> Lower(name) == name
  {
    map["dtsm" := DTSM]
  }

  /** Every miner name argparse accepts is, lower-cased, a key of the table,
      so the lookup in main never fails for accepted arguments. */
  lemma AcceptedMinerResolves(raw: RawArgs)
    requires ParseArgs(raw).Success? && ParseArgs(raw).value.miner.Some?
    ensures Lower(ParseArgs(raw).value.miner.value) in MinerCollectors()
    ensures MinerCollectors()[Lower(ParseArgs(raw).value.miner.value)] == DTSM
  {
    var name := ParseArgs(raw).value.miner.value;
    assert name == "dtsm";
    assert Lower(name) == "dtsm";
  }

  /** A collector the registry scrapes. */
  datatype Collector = Gpu | Miner(collector: Dtsm.DtsmCollector)

  /** Builds the collector for a miner software from the API host and port. */
  function BuildMinerCollector(kind: MinerSoftware, host: string, port: int): (collector: Collector)
  {
    match kind
    case DTSM => Miner(Dtsm.DtsmCollector(host, port))
  }

  /** The collectors main registers for accepted arguments, in order. */
  function Registered(args: Args): (r: seq<Collector>)
    requires args.miner.Some? ==> args.minerApiHost.Some? && args.minerApiPort.Some?
  {
    [Gpu] +
    if args.miner.None? then []
    else [Miner(Dtsm.DtsmCollector(args.minerApiHost.value, args.minerApiPort.value))]
  }

  /** For accepted arguments: the GPU collector comes first and is always
      there; a miner collector follows exactly when a miner is named, and it
      queries the given API host and port. */
  lemma RegistrationOrder(raw: RawArgs)
    requires ParseArgs(raw).Success?
    ensures var args := ParseArgs(raw).value;
      var r := Registered(args);
      r[0] == Gpu &&
      (|r| == 2 <==> raw.miner.Some?) &&
      (|r| == 1 <==> raw.miner.None?) &&
      (raw.miner.Some? ==> r[1] == Miner(Dtsm.DtsmCollector(raw.minerApiHost.value, raw.minerApiPort.value)))
  {
    MinerOptionGroupRule(raw);
  }

  /** The collector registry; it may already hold collectors when main runs. */
  class Registry {
    var collectors: seq<Collector>

    constructor(initial: seq<Collector>)
      ensures collectors == initial
    {
      collectors := initial;
    }

    method Register(c: Collector)
      modifies this
      ensures collectors == old(collectors) + [c]
    {
      collectors := collectors + [c];
    }
  }

  /** main up to starting the HTTP server: parse the arguments, stop on a
      usage error, else register the GPU collector and then, when a miner is
      named, the collector looked up by its lower-cased name. */
  method Start(registry: Registry, raw: RawArgs) returns (outcome: Result<Args, UsageError>)
    modifies registry
    ensures outcome == ParseArgs(raw)
    ensures outcome.Failure? ==> registry.collectors == old(registry.collectors)
    ensures outcome.Success? ==> registry.collectors == old(registry.collectors) + Registered(outcome.value)
  {
    outcome := ParseArgs(raw);
    if outcome.Failure? {
      return;
    }
    var args := outcome.value;
    MinerOptionGroupRule(raw);
    registry.Register(Gpu);
    if args.miner.Some? {
      AcceptedMinerResolves(raw);
      var kind := MinerCollectors()[Lower(args.miner.value)];
      registry.Register(BuildMinerCollector(kind, args.minerApiHost.value, args.minerApiPort.value));
    }
  }
}
