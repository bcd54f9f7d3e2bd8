/** The game engine as the editor sees it. Its own logic (movement,
    scoring, the asynchronous run with its cancellation token) is not part
    of this model: each operation only records that it was called, with the
    result it handed back, so that the editor's calls can be stated in order. */
module Engine {

  import opened Blocks

  /** One call the editor makes on the engine, with what it returned. */
  datatype EngineCall =
    | ResetCall
    | ExecuteProgramCall(program: seq<Command>, completed: bool)
    | ExecuteStepCall(program: seq<Command>, index: int, result: int)
    | CompleteStatusCall

  class GameEngine {
    /** `mapData` is set: a map has been loaded. */
    var mapLoaded: bool
    /** `isGameOver`. */
    var isGameOver: bool
    /** Every call made on this engine so far, oldest first. */
    ghost var calls: seq<EngineCall>

    constructor (mapLoaded: bool)
      ensures this.mapLoaded == mapLoaded && !isGameOver && calls == []
    {
      this.mapLoaded := mapLoaded;
      isGameOver := false;
      calls := [];
    }

    /** `reset()`: puts the simulation back to the loaded map's start. */
    method Reset()
      modifies this
      ensures calls == old(calls) + [ResetCall]
    {
      calls := calls + [ResetCall];
    }

    /** `executeProgram(program)`: runs the whole program; `completed` is
        false when the run was refused or cut short by a reset. */
    method ExecuteProgram(program: seq<Command>) returns (completed: bool)
      modifies this
      ensures calls == old(calls) + [ExecuteProgramCall(program, completed)]
    {
      completed := true;
      calls := calls + [ExecuteProgramCall(program, completed)];
    }

    /** `executeStep(program, index)`: applies one command and hands back
        the next index, or -1 once the program is done. */
    method ExecuteStep(program: seq<Command>, index: int) returns (next: int)
      modifies this
      ensures next == -1 || next == index + 1
      ensures calls == old(calls) + [ExecuteStepCall(program, index, next)]
    {
      next := if 0 <= index < |program| - 1 then index + 1 else -1;
      calls := calls + [ExecuteStepCall(program, index, next)];
    }

    /** `setStatus(…, 'complete')`: reports that the program is done. */
    method SetCompleteStatus()
      modifies this
      ensures calls == old(calls) + [CompleteStatusCall]
    {
      calls := calls + [CompleteStatusCall];
    }
  }
}
