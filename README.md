# RoboBunny block editor: program flattener and step cursor

RoboBunny lets a player build a program out of visual blocks: three
jumps (`F_Jump`, `FR_Jump`, `FL_Jump`), a `Turn` and a repeat block
(`controls_repeat_ext`). A game engine then runs the program against a bunny
on a map. This project models the two pieces of `BlockEditor` that hold
logic:

- **The flattener** (`getFlattenedProgram` and its inner `traverse`). It walks
  the chain of the first top-level block and compiles it into a flat,
  loop-unrolled list of `{type, value}` commands.
  - `Blocks` holds the data. A block is an immutable tree node: enabled
    flag, type, fields, the blocks plugged into `TIMES` and `DO`, and the
    next block.
  - `FlattenSpec` defines the result as structurally recursive functions
    (`Flatten`, `Contribution`, `Repeat`, `RepeatCount`, `ActionCommand`,
    `Program`). `Traverse` uses `RepeatCount` and `ActionCommand` for the
    two expressions it evaluates per block.
  - `FlattenLaws` proves what each kind of block contributes, how a repeat
    unrolls, that the output follows chain order, how many commands come
    out, and that every command is well formed.
  - `Flattener.Traverse` is the source's `while` loop with its `push`es. It
    recurses into a repeat's `DO` chain and hands the nested `for` loop to
    `Flattener.PushRepeated`. It is proved to compute `Flatten`.
- **The step cursor** (`currentStep`) and the editor's other fields, as the
  class `Editor.BlockEditor`. Its methods `RunProgram`, `StepProgram`,
  `ResetGame`, `ClearProgram` and `SetBlockLimit` state the new field values.
  They also state the exact sequence of calls they make on the game engine.
  The engine (`Engine.GameEngine`) is abstract. It records each call and the
  result it handed back in a ghost log.

JavaScript's `parseInt` is not re-implemented. Every flattener function takes
it as a parameter of type `string -> Option<int>`, where `None` is `NaN`.

At three edges the code behaves as follows:

- The repeat count is `parseInt(NUM) || 2`. So a count of 0 also becomes 2,
  not only a missing or non-numeric one.
- A negative count yields no copies.
- A jump's value is whatever `parseInt` gives, including `NaN`. It is not
  restricted to 1 or 2.

## Model

| member | source | states |
|---|---|---|
| `Blocks.Includes` | block-editor.js:243 | `s.includes(t)` is true exactly when `t` occurs at some position of `s` |
| `Blocks.JumpTypes` | block-editor.js:238-245 | of the four action types, the three jumps include "Jump" and `Turn` does not, so only jumps go through `parseInt` |
| `FlattenSpec.RepeatCount` | block-editor.js:224-228 | the count is never 0; when it is not 2 it is the parsed `NUM` of a `math_number` in `TIMES`; a nonzero parse of such a `NUM` is the count |
| `FlattenSpec.ActionCommand` | block-editor.js:238-250 | the command keeps the block's type; a jump's value is `parseInt(VALUE)` (or `NaN`), a turn's is the `VALUE` text unchanged (or `null`) |
| `FlattenLaws.RepeatLength` | block-editor.js:233-236 | unrolling `count` times gives `max(count, 0)` times the body's length in commands |
| `FlattenLaws.RepeatAt` | block-editor.js:234-235 | position `i` of the unrolled body is the body's command at `i` modulo the body's length: whole copies, in order |
| `FlattenLaws.RepeatFrom` | block-editor.js:234-235 | every command of an unrolled repeat is a command of its body |
| `FlattenLaws.DisabledSkipped` | block-editor.js:217-220 | a disabled block adds nothing whatever its `TIMES`/`DO` hold, and the walk continues with its next block |
| `FlattenLaws.UnrecognisedSkipped` | block-editor.js:238-253 | an enabled block of any other type adds nothing and does not break the chain |
| `FlattenLaws.ActionEmitsOne` | block-editor.js:238-253 | an enabled action block adds exactly one command of its own type, then the rest of the chain follows |
| `FlattenLaws.RepeatUnrolls` | block-editor.js:222-236 | an enabled repeat adds its flattened `DO` body `RepeatCount` times in order (`max(count,0)` times the body's length in commands, none for an empty or missing body), then the rest of the chain follows |
| `FlattenLaws.ContributionIgnoresNext` | block-editor.js:216-253 | what a block adds does not depend on the blocks chained below it |
| `FlattenLaws.FlattenAttach` | block-editor.js:212-216 | output follows chain order: flattening two chains joined one below the other is the first's commands followed by the second's |
| `FlattenLaws.FlattenLength` | block-editor.js:212-256 | the number of commands equals an independent count: one per enabled action, `max(count,0)` times the body's count per enabled repeat |
| `FlattenLaws.ContributionLength` | block-editor.js:217-251 | the same count for a single block's contribution |
| `FlattenLaws.FlattenWellFormed` | block-editor.js:212-256 | every emitted command has one of the four action types; jumps carry a number or `NaN`, turns text or `null` |
| `FlattenLaws.ContributionWellFormed` | block-editor.js:217-251 | the same for a single block's contribution |
| `FlattenLaws.EmptyWorkspace` | block-editor.js:204-207 | no workspace or no top-level blocks gives the empty program |
| `FlattenLaws.OnlyFirstTopBlock` | block-editor.js:206-210 | the program is the first top-level block's chain; the other top-level blocks contribute nothing |
| `FlattenLaws.FiveForwardJumps` | block-editor.js:224-236 | a repeat of 5 around one forward jump of 1 compiles into five forward jumps of 1 |
| `Flattener.Traverse` | block-editor.js:212-256 | the loop with its pushes and nested repeat loop returns exactly `Flatten` of the chain |
| `Flattener.PushRepeated` | block-editor.js:234-236 | the inner loop appends exactly `Repeat(childCmds, repeatCount)`: the body `repeatCount` times in order, nothing for a count that is not positive |
| `Editor.BlockEditor.constructor` | block-editor.js:7-11 | no workspace yet, cursor at 0, block limit 20 |
| `Editor.BlockEditor.AttachWorkspace` | block-editor.js:77 | the editor now compiles the given workspace |
| `Editor.BlockEditor.GetFlattenedProgram` | block-editor.js:203-259 | returns `Program` of the current workspace: empty without a workspace or blocks |
| `Editor.BlockEditor.RunProgram` | block-editor.js:264-281 | with an empty program or no map nothing changes, neither the cursor nor the engine; otherwise the cursor becomes 0 and the engine is reset and then asked to run exactly that program |
| `Editor.BlockEditor.StepProgram` | block-editor.js:286-309 | with an empty program, no map or game over nothing changes, neither the cursor nor the engine; otherwise one step call at the cursor, then the cursor moves to the answer, or stays and completion is reported on -1 |
| `Editor.BlockEditor.ResetGame` | block-editor.js:314-316 | the cursor becomes 0 and the engine is reset |
| `Editor.BlockEditor.SetBlockLimit` | block-editor.js:322-323 | the block limit becomes the given value |
| `Editor.BlockEditor.ClearProgram` | block-editor.js:190-198 | keeps the cursor non-negative; without a workspace, without blocks or unconfirmed nothing changes, the engine included; otherwise the workspace is emptied (its program is empty) and the game reset |
| `Engine.GameEngine.Reset` | block-editor.js:316 | the engine records one reset call |
| `Engine.GameEngine.ExecuteProgram` | block-editor.js:280 | the engine records one run of exactly the given program, with its result |
| `Engine.GameEngine.ExecuteStep` | block-editor.js:302 | the engine records one step call and answers the next index or -1 |
| `Engine.GameEngine.SetCompleteStatus` | block-editor.js:305 | the engine records one completion report |

## Left out

- Blockly and the page: `init` and the toolbox, `defineBlocks`, `bindControlEvents`, `updateBlockCount`, `resize`. These are widget plumbing, not logic.
- The `alert` messages in `runProgram` and `stepProgram`, and the `highlightBlock(null)` in `resetGame`. They only affect the display.
- The `confirm` dialog in `clearProgram`. The user's answer is the `confirmed` parameter of `ClearProgram`.
- The 100 ms `setTimeout` delays and the `await`s. `RunProgram` and `StepProgram` run to completion in one go. No interleaving at an `await` is modelled: neither an event between the reset and the engine's run in `runProgram`, nor a `resetGame` during `stepProgram`'s wait for `executeStep`, after which the stale result would overwrite the cursor that was just reset to 0.
- The game engine's own behaviour: movement, scoring, game over, the run token and the re-entrancy guard. Its source is not part of this model. `Engine.GameEngine` only logs calls. Its method bodies are stand-ins that callers cannot rely on, except for one promise: a step answers `-1` or `index + 1`.
- Engine.GameEngine.ExecuteProgram: its contract does not say when a run completes, because that depends on the engine's timing and resets.
- Engine.GameEngine.Reset: its contract does not say what happens to the map, the game-over flag or the score, because the engine's reset is not part of this model.
- JavaScript `parseInt` itself. It is a parameter, so the model makes no claim about which texts parse to which numbers.
- Blockly's field types. Every field value, including `math_number`'s `NUM`, is modelled as text, which is what `parseInt` converts it to first.
- The ordering of `getTopBlocks(true)` by position on the canvas. A workspace is a list of top-level blocks already in that order.
- The editor-owned, mutable block graph. It is modelled as an immutable snapshot; an edit, or `workspace.clear()`, replaces the snapshot.
- The shallow clone of each repeated command. Commands are values, so the copies cannot share state anyway.
- The JavaScript field name `type` of a command. It is called `kind`, because `type` is a Dafny keyword.
