/** The emergency halt of src/risk/kill_switch.py. */
module KillSwitches {
  import opened Prelude

  datatype Level = Inactive | Throttle | Pause | Kill

  datatype Path = Cli | Telegram | RestApi

  datatype LogEvent =
    | Activated(timestamp: real, level: Level, path: Path, reason: string, orderCount: int)
    | Deactivated(timestamp: real, previous: Level, reason: string)

  /** The value of a kill switch at one moment. */
  datatype KillState = KillState(
    level: Level, since: Option<real>, path: Option<Path>, reason: string, orderCount: int, log: seq<LogEvent>)

  /** Are new orders permitted at this level? */
  predicate Allows(level: Level) {
    level == Inactive || level == Throttle
  }

  function AfterActivate(k: KillState, level: Level, path: Path, reason: string, orderCount: int, now: real)
    : KillState
  {
    if level == Inactive then k
    else KillState(level, Some(now), Some(path), reason, orderCount,
                   k.log + [Activated(now, level, path, reason, orderCount)])
  }

  function AfterDeactivate(k: KillState, reason: string, now: real): KillState {
    if k.level == Inactive then k
    else KillState(Inactive, None, None, "", k.orderCount, k.log + [Deactivated(now, k.level, reason)])
  }

  class KillSwitch {
    var level: Level
    var activationTime: Option<real>
    var activationPath: Option<Path>
    var activationReason: string
    var orderCountAtActivation: int
    var log: seq<LogEvent>

    ghost function State(): KillState
      reads this
    {
      KillState(level, activationTime, activationPath, activationReason, orderCountAtActivation, log)
    }

    constructor ()
      ensures State() == KillState(Inactive, None, None, "", 0, [])
    {
      level, activationTime, activationPath := Inactive, None, None;
      activationReason, orderCountAtActivation, log := "", 0, [];
    }

    method Activate(level: Level, path: Path, reason: string, orderCount: int, now: real)
      modifies this
      ensures State() == AfterActivate(old(State()), level, path, reason, orderCount, now)
      ensures level == Inactive ==> State() == old(State())
      ensures level != Inactive ==>
        && this.level == level && activationTime == Some(now) && activationPath == Some(path)
        && activationReason == reason && orderCountAtActivation == orderCount
        && log == old(log) + [Activated(now, level, path, reason, orderCount)]
    {
      if level == Inactive {
        return;
      }
      this.level := level;
      activationTime := Some(now);
      activationPath := Some(path);
      activationReason := reason;
      orderCountAtActivation := orderCount;
      log := log + [Activated(now, level, path, reason, orderCount)];
    }

    method Deactivate(reason: string, now: real)
      modifies this
      ensures State() == AfterDeactivate(old(State()), reason, now)
      ensures old(level) == Inactive ==> State() == old(State())
      ensures level == Inactive && orderCountAtActivation == old(orderCountAtActivation)
      ensures old(level) != Inactive ==>
        && activationTime == None && activationPath == None && activationReason == ""
        && log == old(log) + [Deactivated(now, old(level), reason)]
    {
      if level == Inactive {
        return;
      }
      log := log + [Deactivated(now, level, reason)];
      level := Inactive;
      activationTime := None;
      activationPath := None;
      activationReason := "";
    }

    method CheckOrderAllowed() returns (allowed: bool)
      ensures allowed <==> Allows(level)
      ensures allowed <==> level == Inactive || level == Throttle
    {
      if level == Inactive {
        return true;
      }
      return level == Throttle;
    }
  }

  /** The level that a log leaves behind. */
  function LevelAfter(log: seq<LogEvent>): Level {
    if log == [] || log[|log| - 1].Deactivated? then Inactive else log[|log| - 1].level
  }

  /** The last log event accounts for the whole state: an activation for its level, time, path, reason and order
      count, a deactivation for the cleared fields. */
  predicate LogTells(k: KillState) {
    if k.level == Inactive then
      k.since == None && k.path == None && k.reason == "" && (k.log == [] || k.log[|k.log| - 1].Deactivated?)
    else
      && k.log != [] && k.since.Some? && k.path.Some?
      && k.log[|k.log| - 1] == Activated(k.since.value, k.level, k.path.value, k.reason, k.orderCount)
  }
}
