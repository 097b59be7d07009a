/**
 * The gateway supervisor: the port the gateway listens on, the single
 * child-process slot `GatewayState(Mutex<Option<CommandChild>>)`, and the
 * start/stop commands that fill and empty it.
 */
module Gateway {
  import opened Common
  import opened ProjectRoot
  import ConfigStore
  import Json

  const DEFAULT_GATEWAY_PORT: nat := 18789
  const U16_LIMIT: nat := 0x1_0000

  /**
   * `s.parse::<u16>()`: an optional `+` followed by at least one decimal
   * digit, with a value that fits in 16 bits.
   */
  function ParseU16(s: string): (r: Option<nat>)
    ensures r.Some? ==> r.value < U16_LIMIT
    ensures var digits := Unsigned(s);
      && (r.Some? <==> |digits| > 0 && AllDigits(digits) && DigitsValue(digits) < U16_LIMIT)
      && (r.Some? ==> r.value == DigitsValue(digits))
  {
    var digits := Unsigned(s);
    if digits == [] || !AllDigits(digits) then None
    else if DigitsValue(digits) < U16_LIMIT then Some(DigitsValue(digits))
    else None
  }

  /** The text after an optional leading `+`. */
  function Unsigned(s: string): (digits: string)
    ensures |s| > 0 && s[0] == '+' ==> s == "+" + digits
    ensures (|s| == 0 || s[0] != '+') ==> digits == s
  {
    if |s| > 0 && s[0] == '+' then s[1..] else s
  }

  /** Leading zeros are accepted and ignored: `"08080"` is port 8080. */
  lemma {:induction false} ParseU16LeadingZero(s: string)
    requires |s| > 0 && AllDigits(s)
    ensures ParseU16("0" + s) == ParseU16(s)
  {
    DigitsValueLeadingZero(s);
    assert Unsigned("0" + s) == "0" + s;
  }

  /** Every 16-bit port written in decimal parses back to itself, with or without a `+` sign. */
  lemma ParseU16RoundTrip(n: nat)
    requires n < U16_LIMIT
    ensures ParseU16(Decimal(n)) == Some(n)
    ensures ParseU16("+" + Decimal(n)) == Some(n)
  {
    DecimalRoundTrip(n);
    assert ("+" + Decimal(n))[1..] == Decimal(n);
  }

  /** A number too large for 16 bits is refused, not truncated. */
  lemma ParseU16RejectsOverflow(n: nat)
    requires n >= U16_LIMIT
    ensures ParseU16(Decimal(n)) == None
  {
    DecimalRoundTrip(n);
  }

  /** `get_gateway_port`: `GATEWAY_PORT` when it parses as a u16, else 18789. */
  function GatewayPort(portVar: Option<string>): (port: nat)
    ensures port < U16_LIMIT
    ensures portVar.None? ==> port == DEFAULT_GATEWAY_PORT
    ensures portVar.Some? && ParseU16(portVar.value).Some? ==> port == ParseU16(portVar.value).value
    ensures portVar.Some? && ParseU16(portVar.value).None? ==> port == DEFAULT_GATEWAY_PORT
  {
    match portVar
    case None => DEFAULT_GATEWAY_PORT
    case Some(v) =>
      match ParseU16(v)
      case Some(p) => p
      case None => DEFAULT_GATEWAY_PORT
  }

  /** An opaque handle on the spawned child process. */
  type ChildId = nat

  /** The command the supervisor spawns: program, arguments, working directory. */
  datatype Launch = Launch(program: string, args: seq<string>, dir: Path)

  const ALREADY_RUNNING: string := "Gateway already running"
  const NO_PROJECT_ROOT: string := "Could not find project root (package.json not found in parents)"
  const STARTED: string := "Gateway started"
  const SPAWN_FAILED: string := "Failed to spawn gateway process: "
  const STOPPED: string := "Gateway stopped"
  const STOP_FAILED: string := "Failed to stop gateway: "
  const NOT_RUNNING: string := "Gateway not running"

  /** The launch used from a project root: `pnpm run gateway` when pnpm runs, else `npm run gateway`. */
  function GatewayLaunch(root: Path, pnpmRuns: bool): (l: Launch)
    ensures l.args == ["run", "gateway"] && l.dir == root
    ensures l.program == (if pnpmRuns then "pnpm" else "npm")
  {
    Launch(if pnpmRuns then "pnpm" else "npm", ["run", "gateway"], root)
  }

  /**
   * The supervisor; `slot` is the mutex-guarded `Option<CommandChild>`.
   * The model is sequential, so holding the lock is exclusive access to `slot`.
   */
  class GatewaySupervisor {
    var slot: Option<ChildId>

    constructor ()
      ensures slot.None?
    {
      slot := None;
    }

    /**
     * `start_gateway_internal`. `cwd` and `fs` feed `find_project_root`,
     * `pnpmRuns` is the `pnpm --version` probe, `spawn` the outcome of the
     * spawn. `launched` is the command spawned, None when nothing was.
     */
    method Start(cwd: Option<Path>, fs: set<Path>, pnpmRuns: bool, spawn: Result<ChildId, string>)
      returns (r: Result<string, string>, launched: Option<Launch>)
      modifies this
      ensures old(slot).Some? ==> r == Ok(ALREADY_RUNNING) && launched.None? && slot == old(slot)
      ensures old(slot).None? && (cwd.None? || NearestRoot(fs, cwd.value).None?) ==>
        r == Err(NO_PROJECT_ROOT) && launched.None? && slot.None?
      ensures old(slot).None? && cwd.Some? && NearestRoot(fs, cwd.value).Some? ==>
        && launched == Some(GatewayLaunch(NearestRoot(fs, cwd.value).value, pnpmRuns))
        && (spawn.Ok? ==> r == Ok(STARTED) && slot == Some(spawn.value))
        && (spawn.Err? ==> r == Err(SPAWN_FAILED + spawn.error) && slot.None?)
      ensures slot.Some? ==> r.Ok?
    {
      launched := None;
      if slot.Some? {
        return Ok(ALREADY_RUNNING), None;
      }
      var root := FindProjectRoot(cwd, fs);
      if root.None? {
        return Err(NO_PROJECT_ROOT), None;
      }
      var cmd := if pnpmRuns then "pnpm" else "npm";
      launched := Some(Launch(cmd, ["run", "gateway"], root.value));
      match spawn {
        case Ok(child) =>
          slot := Some(child);
          r := Ok(STARTED);
        case Err(e) =>
          r := Err(SPAWN_FAILED + e);
      }
    }

    /**
     * `stop_gateway`. `kill` is the outcome of `child.kill()`; `killed` is
     * the child the kill was sent to, None when the slot was empty. The slot
     * is emptied before the kill, so it ends empty whatever the kill does.
     */
    method Stop(kill: Result<(), string>) returns (r: Result<string, string>, killed: Option<ChildId>)
      modifies this
      ensures slot.None?
      ensures killed == old(slot)
      ensures old(slot).None? ==> r == Ok(NOT_RUNNING)
      ensures old(slot).Some? ==> r == (if kill.Ok? then Ok(STOPPED) else Err(STOP_FAILED + kill.error))
    {
      killed := slot;
      slot := None;
      match killed {
        case None =>
          r := Ok(NOT_RUNNING);
        case Some(_) =>
          r := if kill.Ok? then Ok(STOPPED) else Err(STOP_FAILED + kill.error);
      }
    }
  }

  /** Two starts without a stop in between spawn one child; the second reports it is already running. */
  method StartTwiceSpawnsOnce(cwd: Path, fs: set<Path>, first: ChildId, second: ChildId)
    returns (r1: Result<string, string>, r2: Result<string, string>, l1: Option<Launch>, l2: Option<Launch>,
             running: Option<ChildId>)
    requires IsProjectRoot(fs, cwd)
    ensures r1 == Ok(STARTED) && r2 == Ok(ALREADY_RUNNING)
    ensures l1 == Some(GatewayLaunch(cwd, true)) && l2.None?
    ensures running == Some(first)
  {
    var supervisor := new GatewaySupervisor();
    r1, l1 := supervisor.Start(Some(cwd), fs, true, Ok(first));
    r2, l2 := supervisor.Start(Some(cwd), fs, true, Ok(second));
    running := supervisor.slot;
  }

  /** Stopping an idle supervisor reports "not running" and sends no kill. */
  method StopWhenIdle(kill: Result<(), string>) returns (r: Result<string, string>, killed: Option<ChildId>)
    ensures r == Ok(NOT_RUNNING) && killed.None?
  {
    var supervisor := new GatewaySupervisor();
    r, killed := supervisor.Stop(kill);
  }

  /**
   * The launch-time rule of `run()`'s setup hook: start the gateway only when
   * the config reads and says setup is complete; a config error is ignored.
   */
  predicate ShouldAutoStart(config: ConfigStore.ConfigFile): (b: bool)
    ensures b ==>
      && config.Stored? && config.doc.JObject?
      && ConfigStore.SETUP_COMPLETE_KEY in config.doc.fields
      && config.doc.fields[ConfigStore.SETUP_COMPLETE_KEY] == Json.JBool(true)
    ensures config.Unreadable? || config.Malformed? ==> !b
  {
    match ConfigStore.GetConfig(config)
    case Ok(cfg) => cfg.setupComplete
    case Err(_) => false
  }

  /** A first launch (no config file) does not start the gateway; a launch after setup was saved does. */
  lemma AutoStartAfterSetupOnly(config: ConfigStore.ConfigFile, theme: string)
    ensures !ShouldAutoStart(ConfigStore.Missing)
    ensures config.Stored? && config.doc.JObject? ==>
      ShouldAutoStart(ConfigStore.Stored(ConfigStore.Merge(config.doc, ConfigStore.AppConfig(true, theme)).value))
  {
  }
}
