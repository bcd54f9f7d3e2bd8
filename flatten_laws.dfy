/** Properties of the flat program: what each kind of block contributes,
    how repeats unroll, and that the output follows the chain's order. */
module FlattenLaws {

  import opened Wrappers
  import opened Blocks
  import opened FlattenSpec

  /** Unrolling `count` times gives `max(count, 0) * |body|` commands. */
  lemma {:induction false} RepeatLength(body: seq<Command>, count: int)
    ensures |Repeat(body, count)| == if count <= 0 then 0 else count * |body|
    decreases count
  {
    if count > 0 {
      RepeatLength(body, count - 1);
      assert |Repeat(body, count)| == (count - 1) * |body| + |body|;
    }
  }

  /** Position `i` of an unrolled repeat holds the body's command at
      `i mod |body|`: the copies are the body, in order, each time. */
  lemma {:induction false} RepeatAt(body: seq<Command>, count: int, i: int)
    requires 0 <= i < |Repeat(body, count)|
    ensures |body| > 0 && Repeat(body, count)[i] == body[i % |body|]
    decreases count
  {
    var prev := Repeat(body, count - 1);
    assert Repeat(body, count) == prev + body;
    RepeatLength(body, count - 1);
    if i < |prev| {
      RepeatAt(body, count - 1, i);
    } else {
      var q := count - 1;
      assert |prev| == q * |body|;
      ModAfterWholeCopies(q, |body|, i - |prev|);
    }
  }

  /** `(q * d + r) mod d` is `r` for a remainder `r` below `d`. */
  lemma ModAfterWholeCopies(q: nat, d: nat, r: nat)
    requires r < d
    ensures (q * d + r) % d == r
  {
    var n := q * d + r;
    var e := q - n / d;
    assert n == (n / d) * d + n % d;
    assert e * d == n % d - r;
    WholeMultiples(e, d);
  }

  /** A non-zero multiple of `d` is at least `d` away from zero. */
  lemma WholeMultiples(e: int, d: nat)
    ensures e >= 1 ==> e * d >= d
    ensures e <= -1 ==> e * d <= -(d as int)
  {
  }

  /** Every command of an unrolled repeat comes from its body. */
  lemma {:induction false} RepeatFrom(body: seq<Command>, count: int, cmd: Command)
    requires cmd in Repeat(body, count)
    ensures cmd in body
  {
    if count > 0 && cmd !in body {
      RepeatFrom(body, count - 1, cmd);
    }
  }

  /** A disabled block contributes nothing, whatever is plugged into its
      `TIMES` and `DO` inputs, and the walk goes on with its next block. */
  lemma DisabledSkipped(b: Block, times: Option<Block>, body: Option<Block>, parseInt: ParseInt)
    requires !b.enabled
    ensures Flatten(Some(b), parseInt) == Flatten(b.next, parseInt)
    ensures Flatten(Some(b.(times := times, body := body)), parseInt) == Flatten(b.next, parseInt)
  {
  }

  /** An enabled block of a type the flattener does not recognise adds
      nothing but does not break the chain. */
  lemma UnrecognisedSkipped(b: Block, parseInt: ParseInt)
    requires b.enabled && b.kind != RepeatType && b.kind !in ActionTypes
    ensures Flatten(Some(b), parseInt) == Flatten(b.next, parseInt)
  {
  }

  /** An enabled action block adds exactly one command, of its own type,
      ahead of the rest of its chain. */
  lemma ActionEmitsOne(b: Block, parseInt: ParseInt)
    requires b.enabled && b.kind in ActionTypes
    ensures var out := Flatten(Some(b), parseInt);
      && |out| == 1 + |Flatten(b.next, parseInt)|
      && out[0].kind == b.kind
      && out[1..] == Flatten(b.next, parseInt)
  {
  }

  /** An enabled repeat block adds its flattened `DO` body `RepeatCount`
      times, in order, ahead of the rest of its chain: that is
      `max(count, 0) * |body|` commands, none when the body is empty or
      missing. */
  lemma RepeatUnrolls(b: Block, parseInt: ParseInt)
    requires b.enabled && b.kind == RepeatType
    ensures var body := Flatten(b.body, parseInt);
      var count := RepeatCount(b.times, parseInt);
      var out := Flatten(Some(b), parseInt);
      var added := if count < 0 then 0 else count * |body|;
      && |out| == added + |Flatten(b.next, parseInt)|
      && (forall i :: 0 <= i < added ==> out[i] == body[i % |body|])
      && out[added..] == Flatten(b.next, parseInt)
  {
    var body := Flatten(b.body, parseInt);
    var count := RepeatCount(b.times, parseInt);
    var out := Flatten(Some(b), parseInt);
    var added := if count < 0 then 0 else count * |body|;
    RepeatLength(body, count);
    assert Contribution(b, parseInt) == Repeat(body, count);
    assert out == Repeat(body, count) + Flatten(b.next, parseInt);
    forall i | 0 <= i < added
      ensures out[i] == body[i % |body|]
    {
      RepeatAt(body, count, i);
      assert out[i] == Repeat(body, count)[i];
    }
  }

  /** Connecting chain `tail` below the last block of chain `c`. */
  function Attach(c: Option<Block>, tail: Option<Block>): (r: Option<Block>)
    ensures c.None? ==> r == tail
    ensures c.Some? ==> r.Some? && r.value.kind == c.value.kind && r.value.enabled == c.value.enabled
    decreases c
  {
    match c
    case None => tail
    case Some(b) => Some(b.(next := Attach(b.next, tail)))
  }

  /** Output order follows the chain: flattening two chains joined one
      below the other gives the first one's commands, then the second's. */
  lemma {:induction false} FlattenAttach(c: Option<Block>, tail: Option<Block>, parseInt: ParseInt)
    ensures Flatten(Attach(c, tail), parseInt) == Flatten(c, parseInt) + Flatten(tail, parseInt)
    decreases c
  {
    match c
    case None =>
    case Some(b) =>
      FlattenAttach(b.next, tail, parseInt);
      var b' := b.(next := Attach(b.next, tail));
      ContributionIgnoresNext(b, Attach(b.next, tail), parseInt);
      AppendAssociates(Contribution(b, parseInt), Flatten(b.next, parseInt), Flatten(tail, parseInt));
      assert Flatten(Attach(c, tail), parseInt)
          == Contribution(b', parseInt) + Flatten(Attach(b.next, tail), parseInt);
  }

  /** What a block contributes does not depend on what is chained below it. */
  lemma ContributionIgnoresNext(b: Block, next: Option<Block>, parseInt: ParseInt)
    ensures Contribution(b.(next := next), parseInt) == Contribution(b, parseInt)
  {
    var b' := b.(next := next);
    assert b'.enabled == b.enabled && b'.kind == b.kind && b'.times == b.times && b'.body == b.body;
    assert b'.fields == b.fields;
    if b.enabled && b.kind in ActionTypes && b.kind != RepeatType {
      assert ActionCommand(b', parseInt) == ActionCommand(b, parseInt);
    }
  }

  /** The number of commands a chain compiles into, counted without building
      them: one per enabled action block, `max(count, 0)` times the body's
      count per enabled repeat block. */
  function CommandCount(c: Option<Block>, parseInt: ParseInt): (n: nat)
    decreases c
  {
    match c
    case None => 0
    case Some(b) => BlockCount(b, parseInt) + CommandCount(b.next, parseInt)
  }

  /** The number of commands one block contributes. */
  function BlockCount(b: Block, parseInt: ParseInt): (n: nat)
    decreases b
  {
    if !b.enabled then 0
    else if b.kind == RepeatType then
      var k := RepeatCount(b.times, parseInt);
      if k < 0 then 0 else k * CommandCount(b.body, parseInt)
    else if b.kind in ActionTypes then 1
    else 0
  }

  /** The flat program has exactly as many commands as `CommandCount`. */
  lemma {:induction false} FlattenLength(c: Option<Block>, parseInt: ParseInt)
    ensures |Flatten(c, parseInt)| == CommandCount(c, parseInt)
    decreases c
  {
    match c
    case None =>
    case Some(b) =>
      ContributionLength(b, parseInt);
      FlattenLength(b.next, parseInt);
  }

  lemma {:induction false} ContributionLength(b: Block, parseInt: ParseInt)
    ensures |Contribution(b, parseInt)| == BlockCount(b, parseInt)
    decreases b
  {
    if b.enabled && b.kind == RepeatType {
      FlattenLength(b.body, parseInt);
      RepeatLength(Flatten(b.body, parseInt), RepeatCount(b.times, parseInt));
    }
  }

  /** A well-formed command: one of the four action types; a jump carries a
      number or `NaN`, a turn carries text or `null`. */
  predicate WellFormed(cmd: Command) {
    && cmd.kind in ActionTypes
    && (cmd.kind == TurnType ==> cmd.value.Text? || cmd.value.Null?)
    && (cmd.kind != TurnType ==> cmd.value.Int? || cmd.value.NaN?)
  }

  /** Whatever the graph, every command of the flat program is well formed:
      repeat, math_number and unrecognised blocks never leak through. */
  lemma {:induction false} FlattenWellFormed(c: Option<Block>, parseInt: ParseInt)
    ensures forall cmd :: cmd in Flatten(c, parseInt) ==> WellFormed(cmd)
    decreases c
  {
    match c
    case None =>
    case Some(b) =>
      ContributionWellFormed(b, parseInt);
      FlattenWellFormed(b.next, parseInt);
  }

  lemma {:induction false} ContributionWellFormed(b: Block, parseInt: ParseInt)
    ensures forall cmd :: cmd in Contribution(b, parseInt) ==> WellFormed(cmd)
    decreases b
  {
    if b.enabled && b.kind == RepeatType {
      var body := Flatten(b.body, parseInt);
      FlattenWellFormed(b.body, parseInt);
      forall cmd | cmd in Contribution(b, parseInt)
        ensures WellFormed(cmd)
      {
        RepeatFrom(body, RepeatCount(b.times, parseInt), cmd);
      }
    }
  }

  /** With no workspace, or no top-level block, the program is empty. */
  lemma EmptyWorkspace(ws: Option<Workspace>, parseInt: ParseInt)
    requires ws.None? || ws.value.topBlocks == []
    ensures Program(ws, parseInt) == []
  {
  }

  /** Only the first top-level block's chain is compiled: the other
      top-level blocks contribute nothing. */
  lemma OnlyFirstTopBlock(first: Block, others: seq<Block>, others': seq<Block>, parseInt: ParseInt)
    ensures Program(Some(Workspace([first] + others)), parseInt) == Flatten(Some(first), parseInt)
    ensures Program(Some(Workspace([first] + others)), parseInt)
         == Program(Some(Workspace([first] + others')), parseInt)
  {
  }

  /** A repeat block whose `TIMES` holds the number 5 and whose `DO` holds one
      forward jump of 1 compiles into five forward jumps of 1. */
  lemma {:induction false} FiveForwardJumps(parseInt: ParseInt)
    requires parseInt("5") == Some(5) && parseInt("1") == Some(1)
    ensures var five := Block(true, NumberType, map["NUM" := "5"], None, None, None);
      var jump := Block(true, ForwardJump, map["VALUE" := "1"], None, None, None);
      var loop := Block(true, RepeatType, map[], Some(five), Some(jump), None);
      var one := Command(ForwardJump, Int(1));
      Flatten(Some(loop), parseInt) == [one, one, one, one, one]
  {
    var five := Block(true, NumberType, map["NUM" := "5"], None, None, None);
    var jump := Block(true, ForwardJump, map["VALUE" := "1"], None, None, None);
    var loop := Block(true, RepeatType, map[], Some(five), Some(jump), None);
    var one := Command(ForwardJump, Int(1));
    assert five.FieldValue("NUM") == Some("5");
    assert RepeatCount(Some(five), parseInt) == 5;
    assert jump.FieldValue("VALUE") == Some("1");
    assert ActionCommand(jump, parseInt) == one;
    assert Flatten(Some(jump), parseInt) == [one];
    FiveCopies(one);
    assert Contribution(loop, parseInt) == Repeat([one], 5);
  }

  lemma FiveCopies(c: Command)
    ensures Repeat([c], 5) == [c, c, c, c, c]
  {
    assert Repeat([c], 1) == [c];
    assert Repeat([c], 2) == [c, c];
    assert Repeat([c], 3) == [c, c, c];
    assert Repeat([c], 4) == [c, c, c, c];
  }
}
