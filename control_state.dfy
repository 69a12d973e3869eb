/** backend/services/controlState.js: the module-level `isPaused` flag and the
    four functions over it, as one object. */
module ControlState {

  class ExecutionControl {
    var isPaused: bool

    /** The module's load: execution starts active. */
    constructor ()
      ensures !isPaused
      ensures ShouldExecute() && GetExecutionState() == "active"
    {
      isPaused := false;
    }

    method PauseExecution()
      modifies this
      ensures isPaused
      ensures !ShouldExecute() && GetExecutionState() == "paused"
    {
      isPaused := true;
    }

    method ResumeExecution()
      modifies this
      ensures !isPaused
      ensures ShouldExecute() && GetExecutionState() == "active"
    {
      isPaused := false;
    }

    function GetExecutionState(): (state: string)
      reads this
      ensures state == "paused" || state == "active"
      ensures state == "paused" <==> !ShouldExecute()
    {
      if isPaused then "paused" else "active"
    }

    function ShouldExecute(): (go: bool)
      reads this
      ensures go <==> !isPaused
    {
      !isPaused
    }
  }

  /** The two states read consistently, and pausing twice or resuming twice is
      the same as doing it once. */
  method PauseResumeScenario() returns (c: ExecutionControl)
    ensures fresh(c) && c.ShouldExecute()
  {
    c := new ExecutionControl();
    c.PauseExecution();
    assert c.GetExecutionState() == "paused";
    c.PauseExecution();
    assert c.GetExecutionState() == "paused" && !c.ShouldExecute();
    c.ResumeExecution();
    assert c.GetExecutionState() == "active";
    c.ResumeExecution();
  }
}
