/** `traverse`, the loop that walks a chain and pushes commands, proved to
    compute `Flatten`. */
module Flattener {

  import opened Wrappers
  import opened Blocks
  import opened FlattenSpec

  /** Walks the chain starting at `block` along its next links, pushing each
      block's commands; a repeat block's `DO` chain is walked once,
      recursively, and its commands pushed `repeatCount` times. */
  method Traverse(block: Option<Block>, parseInt: ParseInt) returns (cmds: seq<Command>)
    ensures cmds == Flatten(block, parseInt)
    decreases Size(block)
  {
    cmds := [];
    var currentBlock := block;
    while currentBlock.Some?
      invariant Size(currentBlock) <= Size(block)
      invariant cmds + Flatten(currentBlock, parseInt) == Flatten(block, parseInt)
      decreases Size(currentBlock)
    {
      var b := currentBlock.value;
      ghost var before := cmds;
      if !b.enabled {
        // skipped together with everything plugged into it
      } else if b.kind == RepeatType {
        // `parseInt(NUM) || 2` for a math_number in TIMES, else 2
        var repeatCount := RepeatCount(b.times, parseInt);
        var childCmds := Traverse(b.body, parseInt);
        cmds := PushRepeated(cmds, childCmds, repeatCount);
        assert Contribution(b, parseInt) == Repeat(childCmds, repeatCount);
      } else if b.kind in ActionTypes {
        cmds := cmds + [ActionCommand(b, parseInt)];
      }
      assert cmds == before + Contribution(b, parseInt);
      assert Flatten(currentBlock, parseInt) == Contribution(b, parseInt) + Flatten(b.next, parseInt);
      AppendAssociates(before, Contribution(b, parseInt), Flatten(b.next, parseInt));
      currentBlock := b.next;
    }
  }

  /** The repeat's inner loop: pushes `childCmds` onto `cmds` once per
      iteration, `repeatCount` times (no time when it is not positive). */
  method PushRepeated(cmds: seq<Command>, childCmds: seq<Command>, repeatCount: int)
    returns (out: seq<Command>)
    ensures out == cmds + Repeat(childCmds, repeatCount)
  {
    out := cmds;
    var i := 0;
    while i < repeatCount
      invariant 0 <= i <= if repeatCount < 0 then 0 else repeatCount
      invariant out == cmds + Repeat(childCmds, i)
    {
      assert Repeat(childCmds, i + 1) == Repeat(childCmds, i) + childCmds;
      out := out + childCmds;
      i := i + 1;
    }
    assert Repeat(childCmds, i) == Repeat(childCmds, repeatCount);
  }
}
