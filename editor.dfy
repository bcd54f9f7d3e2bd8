/** The block editor: the workspace it compiles, the step cursor
    `currentStep` and the block limit, over an abstract game engine. The
    editor's widgets, dialogs and timers are not part of this model. */
module Editor {

  import opened Wrappers
  import opened Blocks
  import opened FlattenSpec
  import opened Engine
  import Flattener

  /** Whether a step may go ahead: there is a program, a map is loaded and
      the game is not over. */
  predicate MayStep(program: seq<Command>, mapLoaded: bool, isGameOver: bool) {
    |program| > 0 && mapLoaded && !isGameOver
  }

  class BlockEditor {
    const gameEngine: GameEngine
    /** JavaScript's global `parseInt`, on text. */
    const parseInt: ParseInt
    /** The injected workspace, as a snapshot of its blocks; `None` until
        the editor has been attached. */
    var workspace: Option<Workspace>
    /** Index of the next command `stepProgram` runs. */
    var currentStep: int
    var blockLimit: int

    /** The cursor never goes below the start of the program. */
    ghost predicate Valid()
      reads this
    {
      currentStep >= 0
    }

    constructor (gameEngine: GameEngine, parseInt: ParseInt)
      ensures Valid()
      ensures this.gameEngine == gameEngine && this.parseInt == parseInt
      ensures workspace == None && currentStep == 0 && blockLimit == 20
    {
      this.gameEngine := gameEngine;
      this.parseInt := parseInt;
      workspace := None;
      currentStep := 0;
      blockLimit := 20;
    }

    /** The workspace is created (`Blockly.inject`) or its blocks edited:
        from now on the editor compiles `ws`. */
    method AttachWorkspace(ws: Workspace)
      modifies this`workspace
      ensures workspace == Some(ws)
    {
      workspace := Some(ws);
    }

    /** `getFlattenedProgram()`: the flat program of the first top-level
        block's chain, or nothing without a workspace or blocks. */
    method GetFlattenedProgram() returns (program: seq<Command>)
      ensures program == Program(workspace, parseInt)
      ensures workspace.None? || workspace.value.topBlocks == [] ==> program == []
    {
      if workspace.None? {
        return [];
      }
      var topBlocks := workspace.value.topBlocks;
      if |topBlocks| == 0 {
        return [];
      }
      var startBlock := topBlocks[0];
      program := Flattener.Traverse(Some(startBlock), parseInt);
    }

    /** `runProgram()`: with a program and a loaded map, resets the game
        (the cursor goes back to 0) and then asks the engine to run the
        whole program; otherwise nothing happens. */
    method RunProgram()
      requires Valid()
      modifies this`currentStep, gameEngine
      ensures Valid()
      ensures var program := Program(workspace, parseInt);
        if |program| == 0 || !old(gameEngine.mapLoaded) then
          currentStep == old(currentStep) && unchanged(gameEngine)
        else
          && currentStep == 0
          && |gameEngine.calls| == |old(gameEngine.calls)| + 2
          && gameEngine.calls[|old(gameEngine.calls)| + 1].ExecuteProgramCall?
          && gameEngine.calls == old(gameEngine.calls) + [ResetCall,
               ExecuteProgramCall(program, gameEngine.calls[|old(gameEngine.calls)| + 1].completed)]
    {
      var program := GetFlattenedProgram();
      if |program| == 0 {
        return;
      }
      if !gameEngine.mapLoaded {
        return;
      }
      ResetGame();
      var _ := gameEngine.ExecuteProgram(program);
    }

    /** `stepProgram()`: when a step may go ahead, asks the engine to run the
        command at the cursor and moves the cursor to the index it hands
        back, or leaves it (and reports completion) on -1. Without a
        program, without a map or after game over nothing happens. */
    method StepProgram()
      requires Valid()
      modifies this`currentStep, gameEngine
      ensures Valid()
      ensures var program := Program(workspace, parseInt);
        if !MayStep(program, old(gameEngine.mapLoaded), old(gameEngine.isGameOver)) then
          currentStep == old(currentStep) && unchanged(gameEngine)
        else
          var n := |old(gameEngine.calls)|;
          && |gameEngine.calls| > n && gameEngine.calls[n].ExecuteStepCall?
          && var result := gameEngine.calls[n].result;
          && gameEngine.calls == old(gameEngine.calls)
               + [ExecuteStepCall(program, old(currentStep), result)]
               + (if result == -1 then [CompleteStatusCall] else [])
          && currentStep == (if result == -1 then old(currentStep) else result)
          && (currentStep == old(currentStep) || currentStep == old(currentStep) + 1)
    {
      var program := GetFlattenedProgram();
      if |program| == 0 {
        return;
      }
      if !gameEngine.mapLoaded {
        return;
      }
      if gameEngine.isGameOver {
        return;
      }
      var result := gameEngine.ExecuteStep(program, currentStep);
      if result == -1 {
        gameEngine.SetCompleteStatus();
      } else {
        currentStep := result;
      }
    }

    /** `resetGame()`: the cursor goes back to the first command and the
        engine is reset. */
    method ResetGame()
      modifies this`currentStep, gameEngine
      ensures Valid()
      ensures currentStep == 0
      ensures gameEngine.calls == old(gameEngine.calls) + [ResetCall]
    {
      currentStep := 0;
      gameEngine.Reset();
    }

    /** `setBlockLimit(limit)`. */
    method SetBlockLimit(limit: int)
      modifies this`blockLimit
      ensures blockLimit == limit
    {
      blockLimit := limit;
    }

    /** `clearProgram()`: when there is a workspace holding blocks and the
        user confirms, empties the workspace and resets the game. */
    method ClearProgram(confirmed: bool)
      requires Valid()
      modifies this`workspace, this`currentStep, gameEngine
      ensures Valid()
      ensures if old(workspace).None? || old(workspace).value.topBlocks == [] || !confirmed then
          && workspace == old(workspace) && currentStep == old(currentStep)
          && unchanged(gameEngine)
        else
          && workspace == Some(Workspace([])) && Program(workspace, parseInt) == []
          && currentStep == 0 && gameEngine.calls == old(gameEngine.calls) + [ResetCall]
    {
      if workspace.None? {
        return;
      }
      if |workspace.value.topBlocks| == 0 {
        return;
      }
      if confirmed {
        workspace := Some(Workspace([]));
        ResetGame();
      }
    }
  }
}
