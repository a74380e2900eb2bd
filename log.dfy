/** lib/log.js: the console transport's level and `increaseVerbosity`. */
module Log {

  /** The level the console transport starts at. */
  const InitialLevel: string := "info"

  /** The level `increaseVerbosity` moves to from `level`. */
  function NextLevel(level: string): string
  {
    if level == "info" then "debug"
    else if level == "debug" then "verbose"
    else level
  }

  /** The level after n calls. */
  function After(level: string, n: nat): string
    decreases n
  {
    if n == 0 then level else After(NextLevel(level), n - 1)
  }

  /** How far along the info → debug → verbose ladder a level is; 2 is the top. */
  function Step(level: string): (r: nat)
    ensures r <= 2
  {
    if level == "info" then 0 else if level == "debug" then 1 else 2
  }

  /** One call raises info to debug and debug to verbose, and leaves every other level alone. */
  lemma NextLevelTransitions(level: string)
    ensures level == "info" ==> NextLevel(level) == "debug"
    ensures level == "debug" ==> NextLevel(level) == "verbose"
    ensures level != "info" && level != "debug" ==> NextLevel(level) == level
    ensures NextLevel(level) != level <==> Step(level) < 2
    ensures Step(level) < 2 ==> Step(NextLevel(level)) == Step(level) + 1
  {
  }

  /**
   * n calls climb min(n, 2 - step) rungs and then stay put: from "info" two
   * calls reach "verbose", and no number of calls goes further.
   */
  lemma {:induction false} AfterClimbs(level: string, n: nat)
    ensures Step(level) + n >= 2 ==> Step(After(level, n)) == 2
    ensures Step(level) + n < 2 ==> Step(After(level, n)) == Step(level) + n
    ensures Step(level) == 2 ==> After(level, n) == level
    decreases n
  {
    if n > 0 {
      AfterClimbs(NextLevel(level), n - 1);
    }
  }

  /** From the initial level, two calls or more end at "verbose". */
  lemma {:induction false} FromInfo(n: nat)
    requires n >= 2
    ensures After(InitialLevel, n) == "verbose"
  {
    assert After(InitialLevel, 2) == "verbose";
    AfterClimbs("verbose", n - 2);
    assert After(InitialLevel, n) == After("verbose", n - 2);
  }

  /** `logger.transports.console`, whose `level` `increaseVerbosity` switches on. */
  class ConsoleTransport {
    var level: string

    constructor ()
      ensures level == InitialLevel
    {
      level := InitialLevel;
    }

    /** `increaseVerbosity()`. */
    method IncreaseVerbosity()
      modifies this
      ensures level == NextLevel(old(level))
    {
      if level == "info" {
        level := "debug";
      } else if level == "debug" {
        level := "verbose";
      }
    }
  }

  /** A fresh transport given `-v -v` ends at "verbose". */
  method TwoCalls() returns (level: string)
    ensures level == "verbose"
  {
    var console := new ConsoleTransport();
    console.IncreaseVerbosity();
    console.IncreaseVerbosity();
    level := console.level;
  }
}
