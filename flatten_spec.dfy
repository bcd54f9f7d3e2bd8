/** What `getFlattenedProgram` computes, as functions over a block-graph
    snapshot, and the properties of that result. JavaScript's `parseInt` is
    not re-implemented: every function takes it as a parameter, a total map
    from text to an integer or `NaN` (`None`). */
module FlattenSpec {

  import opened Wrappers
  import opened Blocks

  /** `parseInt` on text: `None` stands for `NaN`. */
  type ParseInt = string -> Option<int>

  /** `parseInt` applied to a field value; `parseInt(null)` is `NaN`. */
  function ParseField(v: Option<string>, parseInt: ParseInt): (r: Option<int>)
    ensures v.None? ==> r.None?
    ensures v.Some? ==> r == parseInt(v.value)
  {
    match v
    case None => None
    case Some(s) => parseInt(s)
  }

  /** How many blocks a chain holds, counting everything plugged into it. */
  function Size(c: Option<Block>): (n: nat)
    ensures c.None? <==> n == 0
  {
    match c
    case None => 0
    case Some(b) => 1 + Size(b.times) + Size(b.body) + Size(b.next)
  }

  /** The repeat count of a `controls_repeat_ext` block whose `TIMES` input
      holds `times`: `parseInt(NUM) || 2` when `times` is a `math_number`
      block, 2 otherwise. `NaN` and 0 are falsy, so both fall back to 2. */
  function RepeatCount(times: Option<Block>, parseInt: ParseInt): (n: int)
    ensures n != 0
    ensures n != 2 ==>
      && times.Some? && times.value.kind == NumberType
      && "NUM" in times.value.fields && parseInt(times.value.fields["NUM"]) == Some(n)
    ensures
      && times.Some? && times.value.kind == NumberType && "NUM" in times.value.fields
      && parseInt(times.value.fields["NUM"]).Some? && parseInt(times.value.fields["NUM"]).value != 0
      ==> n == parseInt(times.value.fields["NUM"]).value
  {
    if times.Some? && times.value.kind == NumberType then
      match ParseField(times.value.FieldValue("NUM"), parseInt)
      case Some(k) => if k != 0 then k else 2
      case None => 2
    else 2
  }

  /** The single command an enabled action block compiles into: a jump's
      `VALUE` goes through `parseInt`, a turn's stays as it is. */
  function ActionCommand(b: Block, parseInt: ParseInt): (cmd: Command)
    requires b.kind in ActionTypes
    ensures cmd.kind == b.kind
    ensures b.kind != TurnType ==>
      cmd.value == match ParseField(b.FieldValue("VALUE"), parseInt)
                   case Some(k) => Int(k)
                   case None => NaN
    ensures b.kind == TurnType ==>
      cmd.value == if "VALUE" in b.fields then Text(b.fields["VALUE"]) else Null
  {
    JumpTypes();
    var val := b.FieldValue("VALUE");
    if Includes(b.kind, "Jump") then
      Command(b.kind, match ParseField(val, parseInt) case Some(k) => Int(k) case None => NaN)
    else
      Command(b.kind, match val case Some(s) => Text(s) case None => Null)
  }

  /** `count` copies of `body`, one after another; none when `count` is not
      positive. */
  function Repeat(body: seq<Command>, count: int): seq<Command>
    decreases count
  {
    if count <= 0 then [] else Repeat(body, count - 1) + body
  }

  /** The commands one block adds, without the rest of its chain. */
  function Contribution(b: Block, parseInt: ParseInt): seq<Command>
    decreases b
  {
    if !b.enabled then []
    else if b.kind == RepeatType then
      Repeat(Flatten(b.body, parseInt), RepeatCount(b.times, parseInt))
    else if b.kind in ActionTypes then [ActionCommand(b, parseInt)]
    else []
  }

  /** The flat program of the chain starting at `c` (`traverse(c)`). */
  function Flatten(c: Option<Block>, parseInt: ParseInt): seq<Command>
    decreases c
  {
    match c
    case None => []
    case Some(b) => Contribution(b, parseInt) + Flatten(b.next, parseInt)
  }

  /** The flat program of a workspace (`getFlattenedProgram`): the chain of
      the first top-level block, or nothing. */
  function Program(ws: Option<Workspace>, parseInt: ParseInt): seq<Command>
  {
    if ws.None? || |ws.value.topBlocks| == 0 then []
    else Flatten(Some(ws.value.topBlocks[0]), parseInt)
  }

  /** Concatenating commands is associative. */
  lemma AppendAssociates(a: seq<Command>, b: seq<Command>, c: seq<Command>)
    ensures (a + b) + c == a + (b + c)
  {
  }
}
