/** The simulation clock slice: flags and fields the clock and its controls assign. */
module Simulation {

  datatype Scenario = Normal | Weekend | SpecialEvent

  /** The declared speed type; the reducer does not enforce it. */
  predicate IsDeclaredSpeed(speed: int) {
    speed == 1 || speed == 2 || speed == 4 || speed == 8
  }

  /** Mutable state of the simulation slice. Times are wall-clock milliseconds. */
  class SimulationStore {
    var isRunning: bool
    var speed: int
    var scenario: Scenario
    var currentTime: int
    var lastUpdateTime: int

    /** The initial state; `now` stands for the two `new Date()` calls. */
    constructor (now: int)
      ensures !isRunning && speed == 1 && scenario == Normal
      ensures currentTime == now && lastUpdateTime == now
      ensures IsDeclaredSpeed(speed)
    {
      isRunning := false;
      speed := 1;
      scenario := Normal;
      currentTime := now;
      lastUpdateTime := now;
    }

    method StartSimulation()
      modifies this`isRunning
      ensures isRunning
    {
      isRunning := true;
    }

    method PauseSimulation()
      modifies this`isRunning
      ensures !isRunning
    {
      isRunning := false;
    }

    /** Stores the payload unchecked: nothing restricts it to the declared speeds. */
    method SetSpeed(newSpeed: int)
      modifies this`speed
      ensures speed == newSpeed
    {
      speed := newSpeed;
    }

    method SetScenario(newScenario: Scenario)
      modifies this`scenario
      ensures scenario == newScenario
    {
      scenario := newScenario;
    }

    method UpdateSimulationTime(time: int)
      modifies this`currentTime
      ensures currentTime == time
    {
      currentTime := time;
    }

    method SetLastUpdateTime(time: int)
      modifies this`lastUpdateTime
      ensures lastUpdateTime == time
    {
      lastUpdateTime := time;
    }

    /** Stops the clock and re-seeds both times; speed and scenario survive a reset. */
    method ResetSimulation(now: int)
      modifies this`isRunning, this`currentTime, this`lastUpdateTime
      ensures !isRunning && currentTime == now && lastUpdateTime == now
    {
      isRunning := false;
      currentTime := now;
      lastUpdateTime := now;
    }
  }
}
