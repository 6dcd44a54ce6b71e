/** One conversation turn: prompt building, the tool loop, and what is saved of it
    (nanobot/agent/context.py and nanobot/agent/loop.py). */
module AgentTurns {
  import opened Prelude
  import opened Chat

  /* ---------- the agent iteration loop ---------- */

  /** What the provider may answer in one iteration. */
  datatype Response = Response(content: Option<string>, toolCalls: seq<ToolCall>, isError: bool)

  /** Everything the loop cannot compute itself: model answers and tool results by iteration,
      and the text left once think blocks are removed (None when nothing is left). */
  datatype World = World(
    llm: nat -> Response,
    execute: (nat, nat) -> string,
    withoutThink: string -> Option<string>)

  /** What the caller is told: the model's text, the fixed apology, or the fixed note that
      the iteration limit was reached. */
  datatype Reply = ModelText(text: string) | Apology | LimitReached(limit: int)

  function StripThink(w: World, text: Option<string>): Option<string> {
    if text == None || text.value == "" then None else w.withoutThink(text.value)
  }

  function ToContent(text: Option<string>): Content {
    if text == None then NoContent else Text(text.value)
  }

  function AssistantMessage(text: Option<string>, calls: seq<ToolCall>): Message {
    Message(Assistant, ToContent(text), calls, "", "", "")
  }

  function ResultMessage(call: ToolCall, result: string): Message {
    Message(Tool, Text(result), [], call.id, call.name, "")
  }

  /** The results of the first `n` calls of one answer, in call order. */
  function Results(w: World, iteration: nat, n: nat): (results: seq<Message>)
    requires n <= |w.llm(iteration).toolCalls|
    ensures |results| == n
    ensures forall k :: 0 <= k < n ==>
      results[k] == ResultMessage(w.llm(iteration).toolCalls[k], w.execute(iteration, k))
  {
    if n == 0 then []
    else Results(w, iteration, n - 1) + [ResultMessage(w.llm(iteration).toolCalls[n - 1], w.execute(iteration, n - 1))]
  }

  /** One assistant message with calls, followed by the result of each call in order. */
  function ToolBlock(w: World, iteration: nat): seq<Message> {
    var r := w.llm(iteration);
    [AssistantMessage(r.content, r.toolCalls)] + Results(w, iteration, |r.toolCalls|)
  }

  /** Everything the loop appends from `iteration` on. */
  function LoopTail(w: World, iteration: nat, max: int): seq<Message>
    decreases max - iteration
  {
    if iteration >= max then []
    else
      var r := w.llm(iteration);
      if r.toolCalls != [] then ToolBlock(w, iteration) + LoopTail(w, iteration + 1, max)
      else if r.isError then []
      else [AssistantMessage(StripThink(w, r.content), [])]
  }

  /** The iteration whose answer ended the loop, or the bound when every answer asked for tools. */
  function LastIteration(w: World, iteration: nat, max: int): (last: nat)
    ensures last >= iteration && (last > iteration ==> last <= max)
    decreases max - iteration
  {
    if iteration >= max || w.llm(iteration).toolCalls == [] then iteration
    else LastIteration(w, iteration + 1, max)
  }

  /** The reply a tool-free answer leads to, before the limit check. */
  function ReplyText(w: World, r: Response): Option<Reply> {
    var clean := StripThink(w, r.content);
    if r.isError && (clean == None || clean.value == "") then Some(Apology)
    else if clean == None then None else Some(ModelText(clean.value))
  }

  /** The text returned to the caller. A text-free answer on the last allowed iteration
      also reads as "limit reached". */
  function FinalContent(w: World, max: int): Option<Reply> {
    var last := LastIteration(w, 0, max);
    var reply := if last < max then ReplyText(w, w.llm(last)) else None;
    if reply == None && last + 1 >= max then Some(LimitReached(max)) else reply
  }

  function NamesOf(calls: seq<ToolCall>): seq<string> {
    if calls == [] then [] else NamesOf(calls[..|calls| - 1]) + [calls[|calls| - 1].name]
  }

  /** The tools used, in order. */
  function ToolsUsed(w: World, iteration: nat, max: int): seq<string>
    decreases max - iteration
  {
    if iteration >= max || w.llm(iteration).toolCalls == [] then []
    else NamesOf(w.llm(iteration).toolCalls) + ToolsUsed(w, iteration + 1, max)
  }

  /** Execute the calls of one answer and append their results. */
  method RunTools(w: World, iteration: nat, messages: seq<Message>, toolsUsed: seq<string>)
    returns (messages': seq<Message>, toolsUsed': seq<string>)
    ensures messages' == messages + Results(w, iteration, |w.llm(iteration).toolCalls|)
    ensures toolsUsed' == toolsUsed + NamesOf(w.llm(iteration).toolCalls)
  {
    var calls := w.llm(iteration).toolCalls;
    messages', toolsUsed' := messages, toolsUsed;
    for k := 0 to |calls|
      invariant messages' == messages + Results(w, iteration, k)
      invariant toolsUsed' == toolsUsed + NamesOf(calls[..k])
    {
      toolsUsed' := toolsUsed' + [calls[k].name];
      messages' := messages' + [ResultMessage(calls[k], w.execute(iteration, k))];
      assert calls[..k + 1][..k] == calls[..k];
    }
    assert calls[..|calls|] == calls;
  }

  lemma {:induction false} Associate<T>(a: seq<T>, b: seq<T>, c: seq<T>)
    ensures a + (b + c) == a + b + c
  {
  }

  /** What one iteration adds to the messages, the tools used and the iteration count. */
  lemma {:induction false} LoopUnfolds(w: World, iteration: nat, max: int)
    ensures iteration >= max ==> LoopTail(w, iteration, max) == [] && ToolsUsed(w, iteration, max) == []
    ensures iteration >= max || w.llm(iteration).toolCalls == [] ==> LastIteration(w, iteration, max) == iteration
    ensures iteration < max ==>
      var r := w.llm(iteration);
      && (r.toolCalls != [] ==>
            && LoopTail(w, iteration, max) == ToolBlock(w, iteration) + LoopTail(w, iteration + 1, max)
            && ToolsUsed(w, iteration, max) == NamesOf(r.toolCalls) + ToolsUsed(w, iteration + 1, max)
            && LastIteration(w, iteration, max) == LastIteration(w, iteration + 1, max))
      && (r.toolCalls == [] ==>
            && LoopTail(w, iteration, max) == (if r.isError then [] else [AssistantMessage(StripThink(w, r.content), [])])
            && ToolsUsed(w, iteration, max) == [])
  {
    hide ToolBlock, NamesOf, AssistantMessage, StripThink;
  }

  method RunAgentLoop(w: World, initial: seq<Message>, maxIterations: int)
    returns (finalContent: Option<Reply>, toolsUsed: seq<string>, messages: seq<Message>)
    ensures messages == initial + LoopTail(w, 0, maxIterations)
    ensures toolsUsed == ToolsUsed(w, 0, maxIterations)
    ensures finalContent == FinalContent(w, maxIterations)
  {
    hide LoopTail, ToolsUsed, LastIteration, Results, NamesOf, AssistantMessage, StripThink, ReplyText;
    messages, toolsUsed, finalContent := initial, [], None;
    var iteration := 0;
    while iteration < maxIterations
      invariant 0 <= iteration && finalContent == None
      invariant iteration > 0 ==> iteration <= maxIterations
      invariant initial + LoopTail(w, 0, maxIterations) == messages + LoopTail(w, iteration, maxIterations)
      invariant ToolsUsed(w, 0, maxIterations) == toolsUsed + ToolsUsed(w, iteration, maxIterations)
      invariant LastIteration(w, 0, maxIterations) == LastIteration(w, iteration, maxIterations)
    {
      LoopUnfolds(w, iteration, maxIterations);
      iteration := iteration + 1;
      var r := w.llm(iteration - 1);
      if r.toolCalls != [] {
        ghost var before, usedBefore := messages, toolsUsed;
        messages := messages + [AssistantMessage(r.content, r.toolCalls)];
        messages, toolsUsed := RunTools(w, iteration - 1, messages, toolsUsed);
        assert messages == before + ToolBlock(w, iteration - 1);
        Associate(before, ToolBlock(w, iteration - 1), LoopTail(w, iteration, maxIterations));
        Associate(usedBefore, NamesOf(r.toolCalls), ToolsUsed(w, iteration, maxIterations));
      } else {
        finalContent := ReplyText(w, r);
        if r.isError {
          break;
        }
        messages := messages + [AssistantMessage(StripThink(w, r.content), [])];
        break;
      }
    }
    LoopUnfolds(w, iteration, maxIterations);
    if finalContent == None && iteration >= maxIterations {
      finalContent := Some(LimitReached(maxIterations));
    }
  }

  /** The names of the calls a message makes, and of the call it answers. */
  function CalledNames(m: Message): seq<string> {
    if m.role.Assistant? then NamesOf(m.toolCalls) else []
  }

  function AnsweredName(m: Message): seq<string> {
    if m.role.Tool? then [m.name] else []
  }

  lemma {:induction false} NamesInResults(w: World, iteration: nat, n: nat)
    requires n <= |w.llm(iteration).toolCalls|
    ensures FlatMap(CalledNames, Results(w, iteration, n)) == []
    ensures FlatMap(AnsweredName, Results(w, iteration, n)) == NamesOf(w.llm(iteration).toolCalls[..n])
  {
    hide FlatMap, NamesOf;
    var calls := w.llm(iteration).toolCalls;
    NamesSnoc(calls, n);
    if n == 0 {
      FlatMapCons(CalledNames, Plain(Tool, NoContent), []);
      FlatMapCons(AnsweredName, Plain(Tool, NoContent), []);
    } else {
      var last := ResultMessage(calls[n - 1], w.execute(iteration, n - 1));
      NamesInResults(w, iteration, n - 1);
      FlatMapAppend(CalledNames, Results(w, iteration, n - 1), [last]);
      FlatMapAppend(AnsweredName, Results(w, iteration, n - 1), [last]);
      FlatMapCons(CalledNames, last, []);
      FlatMapCons(AnsweredName, last, []);
    }
  }

  lemma {:induction false} NamesSnoc(calls: seq<ToolCall>, n: nat)
    requires n <= |calls|
    ensures n == 0 ==> NamesOf(calls[..n]) == []
    ensures n > 0 ==> NamesOf(calls[..n]) == NamesOf(calls[..n - 1]) + [calls[n - 1].name]
  {
    assert n > 0 ==> calls[..n][..n - 1] == calls[..n - 1];
  }

  lemma {:induction false} NamesInBlock(w: World, iteration: nat)
    ensures var names := NamesOf(w.llm(iteration).toolCalls);
      FlatMap(CalledNames, ToolBlock(w, iteration)) == names == FlatMap(AnsweredName, ToolBlock(w, iteration))
  {
    hide FlatMap, NamesOf, Results;
    var calls := w.llm(iteration).toolCalls;
    var head, results := AssistantMessage(w.llm(iteration).content, calls), Results(w, iteration, |calls|);
    NamesInResults(w, iteration, |calls|);
    assert calls[..|calls|] == calls;
    FlatMapCons(CalledNames, head, results);
    FlatMapCons(AnsweredName, head, results);
    assert NamesOf(calls) + [] == NamesOf(calls) && [] + NamesOf(calls) == NamesOf(calls);
  }

  /** The tools used are the names of the calls made and of the results appended, both in order. */
  lemma {:induction false} ToolsUsedAreCallsMade(w: World, iteration: nat, max: int)
    ensures var tail := LoopTail(w, iteration, max);
      ToolsUsed(w, iteration, max) == FlatMap(CalledNames, tail) == FlatMap(AnsweredName, tail)
    decreases max - iteration
  {
    hide FlatMap, ToolBlock, NamesOf;
    var r := w.llm(iteration);
    FlatMapCons(CalledNames, AssistantMessage(StripThink(w, r.content), []), []);
    FlatMapCons(AnsweredName, AssistantMessage(StripThink(w, r.content), []), []);
    if iteration < max && r.toolCalls != [] {
      ToolsUsedAreCallsMade(w, iteration + 1, max);
      NamesInBlock(w, iteration);
      FlatMapAppend(CalledNames, ToolBlock(w, iteration), LoopTail(w, iteration + 1, max));
      FlatMapAppend(AnsweredName, ToolBlock(w, iteration), LoopTail(w, iteration + 1, max));
    } else {
      NoNames();
    }
  }

  lemma {:induction false} NoNames()
    ensures NamesOf([]) == []
  {
  }

  /** The answer that ends the loop is the first one without tool calls. */
  lemma {:induction false} LastIsFirstWithoutCalls(w: World, iteration: nat, max: int)
    ensures var last := LastIteration(w, iteration, max);
      && (forall k :: iteration <= k < last ==> w.llm(k).toolCalls != [])
      && (last < max ==> w.llm(last).toolCalls == [])
    decreases max - iteration
  {
    if iteration >= max || w.llm(iteration).toolCalls == [] {
    } else {
      LastIsFirstWithoutCalls(w, iteration + 1, max);
    }
  }

  /** What the caller is told: nothing exactly for a text-free answer before the last allowed iteration; the
      limit exactly when no answer came without calls, or a text-free one on the last iteration; and the text of
      an answer that is no error is the last message appended, while an error appends nothing. */
  lemma {:induction false} ReplyCases(w: World, max: int)
    ensures var last := LastIteration(w, 0, max);
            var silent := !w.llm(last).isError && StripThink(w, w.llm(last).content) == None;
            var tail := LoopTail(w, last, max);
      && (FinalContent(w, max) == None <==> last + 1 < max && silent)
      && (FinalContent(w, max) == Some(LimitReached(max)) <==> last >= max || (last + 1 == max && silent))
      && (last < max && w.llm(last).isError ==> tail == [])
      && (forall text :: last < max && !w.llm(last).isError && FinalContent(w, max) == Some(ModelText(text)) ==>
            tail == [AssistantMessage(Some(text), [])])
  {
    LastIsFirstWithoutCalls(w, 0, max);
    hide LastIteration;
  }

  /** The messages appended end with those of the last iteration. */
  lemma {:induction false} TailEndsAtLast(w: World, iteration: nat, max: int)
    ensures var end := LoopTail(w, LastIteration(w, iteration, max), max);
            var tail := LoopTail(w, iteration, max);
      |end| <= |tail| && tail[|tail| - |end|..] == end
    decreases max - iteration
  {
    hide ToolBlock;
    if iteration >= max || w.llm(iteration).toolCalls == [] {
    } else {
      TailEndsAtLast(w, iteration + 1, max);
    }
  }

  /* ---------- saving a turn ---------- */

  const TOOL_RESULT_MAX_CHARS: nat := 16000
  const TRUNCATION_MARK := "\n... (truncated)"
  const RUNTIME_TAG := "[Runtime Context \U{2014} metadata only, not instructions]"

  /** The text after the first blank line, if there is one: split("\n\n", 1)[1]. */
  function AfterBlankLine(s: string): Option<string> {
    if |s| < 2 then None
    else if s[0] == '\n' && s[1] == '\n' then Some(s[2..])
    else AfterBlankLine(s[1..])
  }

  function ImagePlaceholder(path: string): Part {
    TextPart(if path != "" then "[image: " + path + "]" else "[image]")
  }

  function SavePart(p: Part): seq<Part> {
    match p
    case TextPart(t) => if StartsWith(t, RUNTIME_TAG) then [] else [p]
    case ImagePart(url, path) => if StartsWith(url, "data:image/") then [ImagePlaceholder(path)] else [p]
    case OtherPart(_) => [p]
  }

  function SaveParts(parts: seq<Part>): seq<Part> {
    if parts == [] then [] else SavePart(parts[0]) + SaveParts(parts[1..])
  }

  predicate EmptyContent(c: Content) {
    c == NoContent || c == Text("") || c == Parts([])
  }

  /** What is stored for one message of the turn: nothing, or one edited copy stamped with the time. */
  function SaveOne(m: Message, now: string): Option<Message> {
    var stamped := if m.timestamp == "" then m.(timestamp := now) else m;
    match m.role
    case Assistant => if EmptyContent(m.content) && m.toolCalls == [] then None else Some(stamped)
    case Tool =>
      if m.content.Text? && |m.content.text| > TOOL_RESULT_MAX_CHARS then
        Some(stamped.(content := Text(m.content.text[..TOOL_RESULT_MAX_CHARS] + TRUNCATION_MARK)))
      else Some(stamped)
    case User => (
      match m.content
      case Text(t) =>
        if !StartsWith(t, RUNTIME_TAG) then Some(stamped)
        else (
          match AfterBlankLine(t)
          case Some(rest) => if Strip(rest) != "" then Some(stamped.(content := Text(rest))) else None
          case None => None)
      case Parts(ps) => if SaveParts(ps) == [] then None else Some(stamped.(content := Parts(SaveParts(ps))))
      case NoContent => Some(stamped))
    case System => Some(stamped)
  }

  function Kept(m: Message, now: string): seq<Message> {
    match SaveOne(m, now)
    case None => []
    case Some(entry) => [entry]
  }

  function Saved(ms: seq<Message>, now: string): seq<Message> {
    FlatMap(m => Kept(m, now), ms)
  }

  lemma {:induction false} SavedCons(m: Message, rest: seq<Message>, now: string)
    ensures Saved([m] + rest, now) == Kept(m, now) + Saved(rest, now)
    ensures Saved([m], now) == Kept(m, now) && Saved([], now) == []
  {
    FlatMapCons(x => Kept(x, now), m, rest);
  }

  lemma {:induction false} SavedAppend(a: seq<Message>, b: seq<Message>, now: string)
    ensures Saved(a + b, now) == Saved(a, now) + Saved(b, now)
  {
    FlatMapAppend(m => Kept(m, now), a, b);
  }

  /** Results are never dropped when a turn is saved, and keep their ids. */
  lemma {:induction false} SavedResults(results: seq<Message>, now: string)
    requires forall i :: 0 <= i < |results| ==> results[i].role.Tool?
    ensures |Saved(results, now)| == |results|
    ensures forall i :: 0 <= i < |results| ==>
      Saved(results, now)[i].role.Tool? && Saved(results, now)[i].toolCallId == results[i].toolCallId
  {
    hide Saved;
    if results == [] {
      SavedCons(Plain(Tool, NoContent), [], now);
    } else {
      assert results == [results[0]] + results[1..];
      SavedCons(results[0], results[1..], now);
      SavedResults(results[1..], now);
    }
  }

  lemma {:induction false} KeptCalls(m: Message, now: string)
    requires m.role.Assistant? && m.toolCalls != []
    ensures |Kept(m, now)| == 1 && Kept(m, now)[0].role.Assistant? && Kept(m, now)[0].toolCalls == m.toolCalls
  {
  }

  /** One assistant message with calls and the results of exactly those calls, in order. */
  predicate AnsweredBlock(block: seq<Message>) {
    && |block| > 0 && block[0].role.Assistant? && |block| == 1 + |block[0].toolCalls|
    && forall i :: 1 <= i < |block| ==> block[i].role.Tool? && block[i].toolCallId == block[0].toolCalls[i - 1].id
  }

  lemma {:induction false} AnsweredBlockIsPaired(block: seq<Message>)
    requires AnsweredBlock(block)
    ensures Paired(block)
    ensures CallIds(block) == IdsOf(block[0].toolCalls) && ResultIds(block) == IdsOf(block[0].toolCalls)
  {
    forall i | 1 <= i < |block|
      ensures PairedAt(block, i)
    {
      assert Declares(block[0], block[i].toolCallId);
    }
    ResultIdsOfResults(block[0].toolCalls, block[1..]);
    assert block == [block[0]] + block[1..];
    IdsCons(block[0], block[1..]);
  }

  lemma {:induction false} SavedBlock(w: World, iteration: nat, now: string)
    requires w.llm(iteration).toolCalls != []
    ensures AnsweredBlock(Saved(ToolBlock(w, iteration), now))
  {
    hide Saved, Kept, Results;
    var r := w.llm(iteration);
    var opening, results := AssistantMessage(r.content, r.toolCalls), Results(w, iteration, |r.toolCalls|);
    SavedCons(opening, results, now);
    KeptCalls(opening, now);
    SavedResults(results, now);
  }

  lemma {:induction false} ResultIdsOfResults(calls: seq<ToolCall>, results: seq<Message>)
    requires |results| == |calls|
    requires forall k :: 0 <= k < |calls| ==> results[k].role.Tool? && results[k].toolCallId == calls[k].id
    ensures ResultIds(results) == IdsOf(calls) && CallIds(results) == []
  {
    if calls == [] {
      IdsCons(Plain(Tool, NoContent), []);
    } else {
      ResultIdsOfResults(calls[1..], results[1..]);
      assert results == [results[0]] + results[1..];
      IdsCons(results[0], results[1..]);
      assert IdsOf(calls) == [calls[0].id] + IdsOf(calls[1..]);
    }
  }

  lemma {:induction false} KeptPlain(m: Message, now: string)
    requires !m.role.Tool?
    ensures |Kept(m, now)| <= 1
    ensures Kept(m, now) != [] ==> Kept(m, now)[0].role == m.role && Kept(m, now)[0].toolCalls == m.toolCalls
  {
  }

  /** A single message without calls makes no call and gives no result, saved or not. */
  lemma {:induction false} SavedSingle(m: Message, now: string)
    requires !m.role.Tool? && m.toolCalls == []
    ensures var saved := Saved([m], now); Paired(saved) && CallIds(saved) == [] && ResultIds(saved) == []
  {
    var kept := Kept(m, now);
    KeptPlain(m, now);
    SavedCons(m, [], now);
    if kept != [] {
      IdsCons(kept[0], []);
      assert kept == [kept[0]];
    } else {
      IdsCons(m, []);
    }
  }

  /** A saved loop tail is paired, and its results answer its calls one for one, in order. */
  lemma {:induction false} SavedTailPaired(w: World, iteration: nat, max: int, now: string)
    ensures var saved := Saved(LoopTail(w, iteration, max), now); Paired(saved) && CallIds(saved) == ResultIds(saved)
    decreases max - iteration
  {
    var r := w.llm(iteration);
    if iteration < max && r.toolCalls != [] {
      var block, rest := ToolBlock(w, iteration), LoopTail(w, iteration + 1, max);
      SavedTailPaired(w, iteration + 1, max, now);
      SavedBlock(w, iteration, now);
      AnsweredBlockIsPaired(Saved(block, now));
      SavedAppend(block, rest, now);
      PairedAppend(Saved(block, now), Saved(rest, now));
      IdsAppend(Saved(block, now), Saved(rest, now));
    } else if iteration < max && !r.isError {
      SavedSingle(AssistantMessage(StripThink(w, r.content), []), now);
    } else {
      SavedCons(Plain(Tool, NoContent), [], now);
      IdsCons(Plain(Tool, NoContent), []);
    }
  }

  /* ---------- building the prompt ---------- */

  function RuntimeContext(time: string, channel: string, chatId: string): string {
    RUNTIME_TAG + "\n" + "Current Time: " + time +
    (if channel != "" && chatId != "" then "\n" + "Channel: " + channel + "\n" + "Chat ID: " + chatId else "")
  }

  /** The user's text alone, or the readable images followed by the text. */
  function UserContent(text: string, images: seq<Part>): Content {
    if images == [] then Text(text) else Parts(images + [TextPart(text)])
  }

  function Merge(context: string, content: Content): Content {
    match content
    case Text(t) => Text(context + "\n\n" + t)
    case Parts(ps) => Parts([TextPart(context)] + ps)
    case NoContent => Parts([TextPart(context)])
  }

  function BuildMessages(
    system: string, history: seq<Message>, context: string, text: string, images: seq<Part>, role: Role): seq<Message>
  {
    [Plain(System, Text(system))] + history + [Plain(role, Merge(context, UserContent(text, images)))]
  }

  /** What one inbound message brings: its text and images, the runtime context, the role it is given
      (assistant for a subagent's report), and everything the loop asks the outside world. */
  datatype TurnInput = TurnInput(
    world: World, maxIterations: int, context: string, text: string, images: seq<Part>, role: Role, now: string)
  {
    function Opening(): Message {
      Plain(role, Merge(context, UserContent(text, images)))
    }

    predicate Valid() {
      role.User? || role.Assistant?
    }
  }

  /** The messages a turn adds to the session. */
  function SavedTurn(t: TurnInput): seq<Message> {
    Saved([t.Opening()] + LoopTail(t.world, 0, t.maxIterations), t.now)
  }

  /** Skipping 1 + |history| messages of the final list leaves exactly the new turn. */
  lemma {:induction false} SkipLeavesTheTurn(t: TurnInput, system: string, history: seq<Message>)
    ensures var all := BuildMessages(system, history, t.context, t.text, t.images, t.role)
                       + LoopTail(t.world, 0, t.maxIterations);
      1 + |history| <= |all| && Saved(all[1 + |history|..], t.now) == SavedTurn(t)
  {
  }

  /** Every turn the agent can save is paired, and its results answer its calls one for one in order,
      whatever the model and the tools answer. */
  lemma {:induction false} TurnIsPaired(t: TurnInput)
    requires t.Valid()
    ensures Paired(SavedTurn(t)) && CallIds(SavedTurn(t)) == ResultIds(SavedTurn(t))
  {
    var opening, tail := [t.Opening()], LoopTail(t.world, 0, t.maxIterations);
    SavedTailPaired(t.world, 0, t.maxIterations, t.now);
    SavedAppend(opening, tail, t.now);
    SavedSingle(t.Opening(), t.now);
    IdsAppend(Saved(opening, t.now), Saved(tail, t.now));
    PairedAppend(Saved(opening, t.now), Saved(tail, t.now));
  }

  /* ---------- the prompt round trip ---------- */

  predicate HasBlankLine(s: string) {
    exists i :: 0 <= i < |s| - 1 && s[i] == '\n' && s[i + 1] == '\n'
  }

  /** The blank line that ends the runtime context is the first one iff the context neither contains one
      nor ends in a newline. */
  lemma {:induction false} SplitFindsText(context: string, text: string)
    ensures var rest := AfterBlankLine(context + "\n\n" + text);
      rest.Some? && if HasBlankLine(context + "\n") then |rest.value| > |text| else rest.value == text
  {
    var s, c := context + "\n\n" + text, context + "\n";
    if context == "" {
      assert s[2..] == text;
    } else if s[0] == '\n' && s[1] == '\n' {
      assert c[0] == s[0] && c[1] == s[1];
    } else {
      SplitFindsText(context[1..], text);
      assert s[1..] == context[1..] + "\n\n" + text;
      BlankLineInTail(c);
      assert c[1..] == context[1..] + "\n";
      assert c[0] == s[0] && c[1] == s[1];
    }
  }

  lemma {:induction false} BlankLineInTail(c: string)
    requires |c| >= 2
    ensures HasBlankLine(c) <==> (c[0] == '\n' && c[1] == '\n') || HasBlankLine(c[1..])
  {
    var d := c[1..];
    if HasBlankLine(c) && !(c[0] == '\n' && c[1] == '\n') {
      var i :| 0 <= i < |c| - 1 && c[i] == '\n' && c[i + 1] == '\n';
      assert d[i - 1] == '\n' && d[i] == '\n';
    }
    if HasBlankLine(d) {
      var i :| 0 <= i < |d| - 1 && d[i] == '\n' && d[i + 1] == '\n';
      assert c[i + 1] == '\n' && c[i + 2] == '\n';
    }
  }

  lemma {:induction false} BlankLineJoin(a: string, b: string)
    requires b != "" && b[0] != '\n'
    ensures HasBlankLine(a + b) <==> HasBlankLine(a) || HasBlankLine(b)
  {
    var s := a + b;
    if HasBlankLine(s) {
      var i :| 0 <= i < |s| - 1 && s[i] == '\n' && s[i + 1] == '\n';
      if i + 1 < |a| {
        assert a[i] == '\n' && a[i + 1] == '\n';
      } else {
        assert b[i - |a|] == '\n' && b[i - |a| + 1] == '\n';
      }
    }
    if HasBlankLine(a) {
      var i :| 0 <= i < |a| - 1 && a[i] == '\n' && a[i + 1] == '\n';
      assert s[i] == '\n' && s[i + 1] == '\n';
    }
    if HasBlankLine(b) {
      var i :| 0 <= i < |b| - 1 && b[i] == '\n' && b[i + 1] == '\n';
      assert s[|a| + i] == '\n' && s[|a| + i + 1] == '\n';
    }
  }

  /** A caption without newlines in front of a value adds no blank line. */
  lemma {:induction false} BlankLineLabel(caption: string, value: string)
    requires caption != "" && '\n' !in caption
    ensures HasBlankLine(caption + value) <==> HasBlankLine(value)
  {
    var s := caption + value;
    assert forall k :: 0 <= k < |caption| ==> s[k] in caption;
    if HasBlankLine(s) {
      var i :| 0 <= i < |s| - 1 && s[i] == '\n' && s[i + 1] == '\n';
      assert value[i - |caption|] == '\n' && value[i - |caption| + 1] == '\n';
    }
    if HasBlankLine(value) {
      var i :| 0 <= i < |value| - 1 && value[i] == '\n' && value[i + 1] == '\n';
      assert s[|caption| + i] == '\n' && s[|caption| + i + 1] == '\n';
    }
  }

  /** The routing fields put no blank line into the runtime context. */
  predicate CleanRoute(channel: string, chatId: string) {
    channel == "" || chatId == "" || (!HasBlankLine(channel + "\n") && !HasBlankLine(chatId + "\n"))
  }

  lemma {:induction false} TagHasNoNewline()
    ensures '\n' !in RUNTIME_TAG && |RUNTIME_TAG| > 0
  {
    assert '\n' !in "[Runtime Context \U{2014} ";
    assert '\n' !in "[Runtime Context \U{2014} metadata only, ";
  }

  lemma {:induction false} OneNewline()
    ensures !HasBlankLine("\n")
  {
  }

  lemma {:induction false} ContextBlankLine(time: string, channel: string, chatId: string)
    requires '\n' !in time
    ensures HasBlankLine(RuntimeContext(time, channel, chatId) + "\n") <==> !CleanRoute(channel, chatId)
  {
    hide HasBlankLine;
    var head := RUNTIME_TAG + "\n";
    var clock := "Current Time: " + time + "\n";
    TagHasNoNewline();
    BlankLineLabel(RUNTIME_TAG, "\n");
    BlankLineLabel("Current Time: " + time, "\n");
    BlankLineJoin(head, clock);
    OneNewline();
    var context := RuntimeContext(time, channel, chatId) + "\n";
    if channel == "" || chatId == "" {
      assert context == head + clock;
    } else {
      var route := "Channel: " + (channel + "\n");
      var chat := "Chat ID: " + (chatId + "\n");
      BlankLineLabel("Channel: ", channel + "\n");
      BlankLineLabel("Chat ID: ", chatId + "\n");
      BlankLineJoin(head + clock, route);
      BlankLineJoin(head + clock + route, chat);
      assert context == head + clock + route + chat;
    }
  }

  lemma {:induction false} StripEmpty(s: string)
    ensures Strip(s) == "" <==> IsBlank(s)
  {
    var left := LStrip(s);
    if left != "" {
      assert s[|s| - |left|] == left[0];
      assert left[0..] == left;
    }
  }

  /** The first blank line of a text lies behind a part without one that does not end in a newline. */
  lemma {:induction false} BlankLineBehind(a: string, b: string)
    requires !HasBlankLine(a) && (a != "" ==> a[|a| - 1] != '\n')
    ensures AfterBlankLine(a + b) == AfterBlankLine(b)
  {
    if a == "" {
      assert a + b == b;
    } else {
      var s := a + b;
      if |a| >= 2 {
        BlankLineInTail(a);
        assert s[0] == a[0] && s[1] == a[1] && !(a[0] == '\n' && a[1] == '\n');
      } else {
        assert !HasBlankLine(a[1..]) && s[0] == a[0];
      }
      BlankLineBehind(a[1..], b);
      assert s[1..] == a[1..] + b;
    }
  }

  /** What follows the first blank line of a text also follows it when the text goes on. */
  lemma {:induction false} BlankLineWithin(a: string, b: string)
    requires HasBlankLine(a)
    ensures AfterBlankLine(a).Some? && AfterBlankLine(a + b) == Some(AfterBlankLine(a).value + b)
  {
    var s := a + b;
    assert s[0] == a[0] && s[1] == a[1];
    if a[0] == '\n' && a[1] == '\n' {
      assert s[2..] == a[2..] + b;
    } else {
      BlankLineInTail(a);
      BlankLineWithin(a[1..], b);
      assert s[1..] == a[1..] + b;
    }
  }

  lemma {:induction false} BlankJoin(a: string, b: string)
    ensures IsBlank(a + b) <==> IsBlank(a) && IsBlank(b)
  {
    assert forall i :: 0 <= i < |a| ==> (a + b)[i] == a[i];
    assert forall i :: 0 <= i < |b| ==> (a + b)[|a| + i] == b[i];
  }

  /** Behind the first blank line of the prompt, the routing fields leave only whitespace. */
  predicate BlankBehindRoute(channel: string, chatId: string) {
    channel == "" || chatId == "" ||
    (!HasBlankLine(channel + "\n") && BlankBehind(chatId + "\n\n"))
  }

  predicate BlankBehind(s: string) {
    AfterBlankLine(s).Some? && IsBlank(AfterBlankLine(s).value)
  }

  function BeforeChannel(time: string): string {
    RUNTIME_TAG + "\n" + "Current Time: " + time + "\n" + "Channel: "
  }

  lemma {:induction false} BeforeChannelIsPlain(time: string)
    requires '\n' !in time
    ensures !HasBlankLine(BeforeChannel(time)) && BeforeChannel(time)[|BeforeChannel(time)| - 1] == ' '
  {
    TagHasNoNewline();
    var clock := "Current Time: " + time + "\n";
    BlankLineLabel(RUNTIME_TAG, "\n");
    BlankLineLabel("Current Time: " + time, "\n");
    BlankLineJoin(RUNTIME_TAG + "\n", clock);
    BlankLineJoin(RUNTIME_TAG + "\n" + clock, "Channel: ");
    assert BeforeChannel(time) == RUNTIME_TAG + "\n" + clock + "Channel: ";
  }

  /** With both routing fields, what follows the first blank line is blank exactly when the text is and the
      fields leave only whitespace there. */
  lemma {:induction false} RoutedRest(before: string, channel: string, chatId: string, text: string)
    requires !HasBlankLine(before) && before != "" && before[|before| - 1] != '\n'
    ensures var rest := AfterBlankLine(before + (channel + "\n") + "Chat ID: " + (chatId + "\n\n") + text);
      rest.Some? && (IsBlank(rest.value) <==>
        IsBlank(text) && !HasBlankLine(channel + "\n") && BlankBehind(chatId + "\n\n"))
  {
    var first, second := channel + "\n", chatId + "\n\n";
    var behind := "Chat ID: " + second + text;
    assert before + first + "Chat ID: " + second + text == before + (first + behind);
    assert second[|chatId|] == '\n' && second[|chatId| + 1] == '\n';
    hide AfterBlankLine;
    BlankLineBehind(before, first + behind);
    if HasBlankLine(first) {
      BlankLineWithin(first, behind);
      BlankJoin(AfterBlankLine(first).value, behind);
      assert !IsSpace(behind[0]);
    } else {
      BlankLineJoin(first, "Chat ID: ");
      BlankLineBehind(first + "Chat ID: ", second + text);
      assert first + behind == first + "Chat ID: " + (second + text);
      BlankLineWithin(second, text);
      BlankJoin(AfterBlankLine(second).value, text);
    }
  }

  lemma {:induction false} RoutedPrompt(time: string, channel: string, chatId: string, text: string)
    requires channel != "" && chatId != ""
    ensures RuntimeContext(time, channel, chatId) + "\n\n" + text
         == BeforeChannel(time) + (channel + "\n") + "Chat ID: " + (chatId + "\n\n") + text
  {
    assert RuntimeContext(time, channel, chatId) + "\n\n"
        == BeforeChannel(time) + (channel + "\n") + "Chat ID: " + (chatId + "\n\n");
  }

  lemma {:induction false} RestIsBlankIff(time: string, channel: string, chatId: string, text: string)
    requires '\n' !in time
    ensures var rest := AfterBlankLine(RuntimeContext(time, channel, chatId) + "\n\n" + text);
      rest.Some? && (IsBlank(rest.value) <==> IsBlank(text) && BlankBehindRoute(channel, chatId))
  {
    hide AfterBlankLine, HasBlankLine, BlankBehind, IsBlank;
    var context := RuntimeContext(time, channel, chatId);
    if channel == "" || chatId == "" {
      ContextBlankLine(time, channel, chatId);
      SplitFindsText(context, text);
    } else {
      BeforeChannelIsPlain(time);
      RoutedRest(BeforeChannel(time), channel, chatId, text);
      RoutedPrompt(time, channel, chatId, text);
    }
  }

  lemma {:induction false} SavedPrompt(time: string, channel: string, chatId: string, text: string, now: string)
    ensures var context := RuntimeContext(time, channel, chatId);
            var rest := AfterBlankLine(context + "\n\n" + text);
            var stored := SaveOne(Plain(User, Merge(context, UserContent(text, []))), now);
      stored == if rest.None? || IsBlank(rest.value) then None
                else Some(Plain(User, Text(rest.value)).(timestamp := now))
  {
    hide AfterBlankLine, Strip, IsBlank;
    var merged := RuntimeContext(time, channel, chatId) + "\n\n" + text;
    assert merged[..|RUNTIME_TAG|] == RUNTIME_TAG;
    if AfterBlankLine(merged).Some? {
      StripEmpty(AfterBlankLine(merged).value);
    }
  }

  /** What is stored for a user's text sent through the merged prompt: a non-blank text itself, exactly when the
      channel and chat id are free of blank lines; and nothing, exactly when the text is blank and the fields
      leave only whitespace behind the first blank line. */
  lemma {:induction false} PromptRoundTrip(time: string, channel: string, chatId: string, text: string, now: string)
    requires '\n' !in time
    ensures var sent := Plain(User, Merge(RuntimeContext(time, channel, chatId), UserContent(text, [])));
            var stored := SaveOne(sent, now);
      && (!IsBlank(text) ==>
            (stored == Some(Plain(User, Text(text)).(timestamp := now)) <==> CleanRoute(channel, chatId)))
      && (stored == None <==> IsBlank(text) && BlankBehindRoute(channel, chatId))
      && (CleanRoute(channel, chatId) ==> BlankBehindRoute(channel, chatId))
  {
    hide AfterBlankLine, HasBlankLine, Strip, RuntimeContext, BlankBehindRoute, CleanRoute, IsBlank, SaveOne;
    var context := RuntimeContext(time, channel, chatId);
    ContextBlankLine(time, channel, chatId);
    SplitFindsText(context, text);
    RestIsBlankIff(time, channel, chatId, text);
    SavedPrompt(time, channel, chatId, text, now);
    CleanIsBlank(channel, chatId);
  }

  lemma {:induction false} CleanIsBlank(channel: string, chatId: string)
    ensures CleanRoute(channel, chatId) ==> BlankBehindRoute(channel, chatId)
  {
    SplitFindsText(chatId, "");
    assert chatId + "\n\n" + "" == chatId + "\n\n";
    hide AfterBlankLine, HasBlankLine;
  }

  predicate IsEmbeddedImage(p: Part) {
    p.ImagePart? && StartsWith(p.url, "data:image/")
  }

  predicate EmbeddedImages(parts: seq<Part>) {
    forall i :: 0 <= i < |parts| ==> IsEmbeddedImage(parts[i])
  }

  function Placeholders(images: seq<Part>): (texts: seq<Part>)
    requires EmbeddedImages(images)
    ensures |texts| == |images|
  {
    if images == [] then [] else
      assert IsEmbeddedImage(images[0]);
      [ImagePlaceholder(images[0].path)] + Placeholders(images[1..])
  }

  lemma {:induction false} SaveImage(image: Part)
    requires IsEmbeddedImage(image)
    ensures SavePart(image) == [ImagePlaceholder(image.path)]
  {
  }

  lemma {:induction false} SaveImages(images: seq<Part>, text: string)
    requires EmbeddedImages(images)
    ensures SaveParts(images + [TextPart(text)]) == Placeholders(images) + SavePart(TextPart(text))
  {
    hide SavePart, SaveParts, ImagePlaceholder;
    var parts := images + [TextPart(text)];
    SavePartsCons(parts);
    if images == [] {
      assert parts[1..] == [];
    } else {
      SaveImage(images[0]);
      assert IsEmbeddedImage(images[0]);
      SaveImages(images[1..], text);
      assert parts[1..] == images[1..] + [TextPart(text)];
    }
  }

  lemma {:induction false} SavePartsCons(parts: seq<Part>)
    requires parts != []
    ensures SaveParts(parts) == SavePart(parts[0]) + SaveParts(parts[1..])
    ensures SaveParts([]) == []
  {
    hide SavePart;
  }

  /** With images, the context part disappears, each image becomes its placeholder, and the text survives
      exactly when it does not itself open with the context tag. */
  lemma {:induction false} MultimodalRoundTrip(
    time: string, channel: string, chatId: string, text: string, images: seq<Part>, now: string)
    requires images != [] && EmbeddedImages(images)
    ensures var sent := Plain(User, Merge(RuntimeContext(time, channel, chatId), UserContent(text, images)));
            var rest := if StartsWith(text, RUNTIME_TAG) then [] else [TextPart(text)];
      SaveOne(sent, now) == Some(Plain(User, Parts(Placeholders(images) + rest)).(timestamp := now))
  {
    var context := RuntimeContext(time, channel, chatId);
    assert StartsWith(context, RUNTIME_TAG);
    SavePartsOfPrompt(context, text, images);
  }

  lemma {:induction false} SavePartsOfPrompt(context: string, text: string, images: seq<Part>)
    requires EmbeddedImages(images) && StartsWith(context, RUNTIME_TAG)
    ensures SaveParts([TextPart(context)] + (images + [TextPart(text)]))
         == Placeholders(images) + SavePart(TextPart(text))
  {
    var parts := [TextPart(context)] + (images + [TextPart(text)]);
    SaveImages(images, text);
    assert parts[1..] == images + [TextPart(text)];
    assert SavePart(parts[0]) == [];
  }

  /** A message delivered in the assistant role (a subagent's report) keeps its runtime context when saved. */
  lemma {:induction false} SubagentReportKeepsContext(
    time: string, channel: string, chatId: string, text: string, now: string)
    ensures var sent := Plain(Assistant, Merge(RuntimeContext(time, channel, chatId), UserContent(text, [])));
      SaveOne(sent, now) == Some(sent.(timestamp := now))
  {
  }
}
