/** The data the flattener reads and writes: a snapshot of the editor's
    block graph and the flat commands it is compiled into. */
module Blocks {

  import opened Wrappers

  /** Block types the flattener recognises (Blockly's `block.type`). */
  const RepeatType: string := "controls_repeat_ext"
  const NumberType: string := "math_number"
  const ForwardJump: string := "F_Jump"
  const ForwardRightJump: string := "FR_Jump"
  const ForwardLeftJump: string := "FL_Jump"
  const TurnType: string := "Turn"

  /** The four action types, each compiled into one command. */
  const ActionTypes: seq<string> := [ForwardJump, ForwardRightJump, ForwardLeftJump, TurnType]

  /** A snapshot of one block of the editor. The block graph is a finite
      tree: `next` is the block chained below, `times` and `body` are the
      blocks plugged into the value input `TIMES` and the statement input
      `DO` (the only two inputs the flattener looks up). */
  datatype Block = Block(
    enabled: bool,
    kind: string,
    fields: map<string, string>,
    times: Option<Block>,
    body: Option<Block>,
    next: Option<Block>)
  {
    /** `getFieldValue(name)`: the field's text, or `None` (JavaScript
        `null`) when the block has no such field. */
    function FieldValue(name: string): (v: Option<string>)
      ensures v.Some? <==> name in fields
      ensures v.Some? ==> v.value == fields[name]
    {
      if name in fields then Some(fields[name]) else None
    }
  }

  /** The workspace as `getTopBlocks(true)` returns it: the top-level blocks
      ordered by position. */
  datatype Workspace = Workspace(topBlocks: seq<Block>)

  /** The `value` of a command: a jump carries `parseInt` of its field, which
      may be `NaN`; a turn carries the field's text unchanged, or `null`. */
  datatype CommandValue = Int(n: int) | NaN | Text(s: string) | Null

  /** `{type, value}`: one step of the flat program. */
  datatype Command = Command(kind: string, value: CommandValue)

  /** `t` occurs in `s` starting at index `i`. */
  predicate OccursAt(s: string, t: string, i: int) {
    0 <= i <= |s| - |t| && s[i..i + |t|] == t
  }

  /** `s.includes(t)`: `t` occurs in `s` as a contiguous piece. */
  function Includes(s: string, t: string): (b: bool)
    ensures b <==> exists i :: OccursAt(s, t, i)
    decreases |s|
  {
    if |s| < |t| then false
    else if s[..|t|] == t then assert OccursAt(s, t, 0); true
    else
      var b := Includes(s[1..], t);
      assert b ==> exists i :: OccursAt(s, t, i) by {
        if b {
          var j :| OccursAt(s[1..], t, j);
          assert s[j + 1..j + 1 + |t|] == s[1..][j..j + |t|];
          assert OccursAt(s, t, j + 1);
        }
      }
      assert (exists i :: OccursAt(s, t, i)) ==> b by {
        if exists i :: OccursAt(s, t, i) {
          var i :| OccursAt(s, t, i);
          assert i != 0;
          assert s[1..][i - 1..i - 1 + |t|] == s[i..i + |t|];
          assert OccursAt(s[1..], t, i - 1);
        }
      }
      b
  }

  /** Of the four action types, exactly the three jumps include "Jump". */
  lemma JumpTypes()
    ensures Includes(ForwardJump, "Jump")
    ensures Includes(ForwardRightJump, "Jump")
    ensures Includes(ForwardLeftJump, "Jump")
    ensures !Includes(TurnType, "Jump")
  {
    assert ForwardJump[2..6] == "Jump";
    assert ForwardRightJump[3..7] == "Jump";
    assert ForwardLeftJump[3..7] == "Jump";
    assert TurnType[0] != "Jump"[0];
  }
}
