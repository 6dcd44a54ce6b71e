/** What a turn shows the model and what it leaves in the session, message by message
    (nanobot/agent/loop.py and nanobot/agent/context.py). */
module TurnRecord {
  import opened Prelude
  import opened Chat
  import opened AgentTurns

  /** The text of a message's content, when there is one. */
  function TextOf(text: Option<string>): Content {
    match text
    case None => NoContent
    case Some(s) => Text(s)
  }

  /** A tool result is stored whole up to 16000 characters; of a longer one the first 16000 and a mark are. */
  function Stored(result: string): string {
    if |result| <= 16000 then result else result[..16000] + "\n... (truncated)"
  }

  /** How many messages the iterations before `i` append when each of them asks for tools. */
  function Before(w: World, i: nat): nat {
    if i == 0 then 0 else Before(w, i - 1) + 1 + |w.llm(i - 1).toolCalls|
  }

  /** From `at` on, the messages are the i-th answer, as it came, and the result of each of its calls. */
  predicate ShowsIteration(ms: seq<Message>, at: int, w: World, i: nat, now: string, result: string -> string) {
    var r := w.llm(i);
    && 0 <= at && at + |r.toolCalls| < |ms|
    && ms[at] == Message(Assistant, TextOf(r.content), r.toolCalls, "", "", now)
    && forall k :: 0 <= k < |r.toolCalls| ==>
         ms[at + 1 + k] == Message(Tool, Text(result(w.execute(i, k))), [], r.toolCalls[k].id, r.toolCalls[k].name, now)
  }

  /** The answer that ends the loop, when it did not run out of iterations. */
  function Ending(w: World, max: int): Option<Response> {
    var last := LastIteration(w, 0, max);
    if last < max then Some(w.llm(last)) else None
  }

  /** The text of the ending answer without its think blocks; None for an empty or error answer. */
  function EndingText(w: World, r: Response): Option<string> {
    match r.content
    case None => None
    case Some(s) => if s == "" then None else w.withoutThink(s)
  }

  /* ---------- what the loop appends ---------- */

  lemma {:induction false} TailFrom(w: World, i: nat, max: int)
    requires i <= LastIteration(w, 0, max)
    ensures LastIteration(w, i, max) == LastIteration(w, 0, max)
    ensures |LoopTail(w, 0, max)| >= Before(w, i) && LoopTail(w, 0, max)[Before(w, i)..] == LoopTail(w, i, max)
  {
    hide ToolBlock, LoopTail, LastIteration, ShowsIteration;
    if i > 0 {
      var tail, block, at := LoopTail(w, 0, max), ToolBlock(w, i - 1), Before(w, i - 1);
      TailFrom(w, i - 1, max);
      LastIsFirstWithoutCalls(w, 0, max);
      LoopUnfolds(w, i - 1, max);
      BlockShows(w, i - 1);
      SuffixOfSuffix(tail, at, block, LoopTail(w, i, max));
    }
  }

  lemma {:induction false} SuffixOfSuffix(all: seq<Message>, at: nat, block: seq<Message>, rest: seq<Message>)
    requires at <= |all| && all[at..] == block + rest
    ensures at + |block| <= |all| && all[at + |block|..] == rest
  {
    assert |all[at..]| == |block| + |rest|;
    assert all[at..][|block|..] == all[at + |block|..];
  }

  lemma {:induction false} BlockShows(w: World, i: nat)
    ensures |ToolBlock(w, i)| == 1 + |w.llm(i).toolCalls|
    ensures ShowsIteration(ToolBlock(w, i), 0, w, i, "", r => r)
  {
  }

  /** What the model is shown of an iteration: its answer as it came, and every result whole and as it came,
      each under its own call's id and name. */
  lemma {:induction false} LoopShowsIteration(w: World, max: int, i: nat)
    requires i < LastIteration(w, 0, max)
    ensures ShowsIteration(LoopTail(w, 0, max), Before(w, i), w, i, "", r => r)
  {
    hide ToolBlock, LoopTail, LastIteration, Before, ShowsIteration;
    TailFrom(w, i, max);
    LastIsFirstWithoutCalls(w, 0, max);
    LoopUnfolds(w, i, max);
    BlockShows(w, i);
    ShowsWithin(LoopTail(w, 0, max), Before(w, i), ToolBlock(w, i), LoopTail(w, i + 1, max), w, i, "", r => r);
  }

  /** A block that shows an iteration still does where it stands in a longer list. */
  lemma {:induction false} ShowsWithin(
    ms: seq<Message>, at: nat, block: seq<Message>, rest: seq<Message>, w: World, i: nat, now: string,
    result: string -> string)
    requires at <= |ms| && ms[at..] == block + rest && ShowsIteration(block, 0, w, i, now, result)
    ensures ShowsIteration(ms, at, w, i, now, result)
  {
    assert |ms[at..]| >= |block|;
    forall k | 0 <= k < |block|
      ensures ms[at + k] == block[k]
    {
      assert ms[at..][k] == block[k];
    }
    assert ms[at + 0] == block[0];
  }

  /** Behind the iterations stands the text of the ending answer, unless it is an error, and nothing else. */
  lemma {:induction false} LoopEndsWith(w: World, max: int)
    ensures var tail, at := LoopTail(w, 0, max), Before(w, LastIteration(w, 0, max));
            var r := Ending(w, max);
      if r.None? || r.value.isError then |tail| == at
      else |tail| == at + 1 && tail[at] == Message(Assistant, TextOf(EndingText(w, r.value)), [], "", "", "")
  {
    var last := LastIteration(w, 0, max);
    TailFrom(w, last, max);
    LastIsFirstWithoutCalls(w, 0, max);
    LoopUnfolds(w, last, max);
    assert LoopTail(w, 0, max)[Before(w, last)..] == LoopTail(w, last, max);
    if last < max && !w.llm(last).isError {
      assert LoopTail(w, 0, max)[Before(w, last)..][0] == LoopTail(w, 0, max)[Before(w, last)];
    }
  }

  /** What the caller is told: the ending text; for an error without one the apology; the limit when no answer
      ended the loop or the last allowed one was silent; and nothing for an earlier silent answer. */
  lemma {:induction false} ReplyIs(w: World, max: int)
    ensures FinalContent(w, max) ==
      match Ending(w, max)
      case None => Some(LimitReached(max))
      case Some(r) => (
        match EndingText(w, r)
        case Some(text) => Some(if r.isError && text == "" then Apology else ModelText(text))
        case None =>
          if r.isError then Some(Apology)
          else if LastIteration(w, 0, max) == max - 1 then Some(LimitReached(max)) else None)
  {
    LastIsFirstWithoutCalls(w, 0, max);
    hide LastIteration;
  }

  /* ---------- what the session keeps ---------- */

  lemma {:induction false} AnswerKept(text: Option<string>, calls: seq<ToolCall>, now: string)
    requires calls != []
    ensures Kept(AssistantMessage(text, calls), now) == [Message(Assistant, TextOf(text), calls, "", "", now)]
  {
  }

  lemma {:induction false} ResultKept(call: ToolCall, result: string, now: string)
    ensures Kept(ResultMessage(call, result), now)
         == [Message(Tool, Text(Stored(result)), [], call.id, call.name, now)]
  {
  }

  lemma {:induction false} ResultsKept(w: World, i: nat, n: nat, now: string)
    requires n <= |w.llm(i).toolCalls|
    ensures var saved, calls := Saved(Results(w, i, n), now), w.llm(i).toolCalls;
      && |saved| == n
      && forall k :: 0 <= k < n ==>
           saved[k] == Message(Tool, Text(Stored(w.execute(i, k))), [], calls[k].id, calls[k].name, now)
  {
    hide Saved, Kept, ResultMessage, Stored;
    if n == 0 {
      SavedCons(Plain(Tool, NoContent), [], now);
    } else {
      var last := ResultMessage(w.llm(i).toolCalls[n - 1], w.execute(i, n - 1));
      ResultsKept(w, i, n - 1, now);
      SavedAppend(Results(w, i, n - 1), [last], now);
      SavedCons(last, [], now);
      ResultKept(w.llm(i).toolCalls[n - 1], w.execute(i, n - 1), now);
    }
  }

  lemma {:induction false} BlockKept(w: World, i: nat, now: string)
    requires w.llm(i).toolCalls != []
    ensures var saved := Saved(ToolBlock(w, i), now);
      |saved| == 1 + |w.llm(i).toolCalls| && ShowsIteration(saved, 0, w, i, now, Stored)
  {
    hide Saved, Kept, Results, AssistantMessage, Stored;
    var r := w.llm(i);
    var head, results := AssistantMessage(r.content, r.toolCalls), Results(w, i, |r.toolCalls|);
    SavedCons(head, results, now);
    AnswerKept(r.content, r.toolCalls, now);
    ResultsKept(w, i, |r.toolCalls|, now);
  }

  lemma {:induction false} SavedFrom(w: World, i: nat, max: int, now: string)
    requires i <= LastIteration(w, 0, max)
    ensures var saved := Saved(LoopTail(w, 0, max), now);
      |saved| >= Before(w, i) && saved[Before(w, i)..] == Saved(LoopTail(w, i, max), now)
  {
    hide ToolBlock, LoopTail, LastIteration, ShowsIteration, Saved, Stored;
    if i > 0 {
      var saved, block, at := Saved(LoopTail(w, 0, max), now), Saved(ToolBlock(w, i - 1), now), Before(w, i - 1);
      SavedFrom(w, i - 1, max, now);
      TailFrom(w, i - 1, max);
      LastIsFirstWithoutCalls(w, 0, max);
      LoopUnfolds(w, i - 1, max);
      BlockKept(w, i - 1, now);
      SavedAppend(ToolBlock(w, i - 1), LoopTail(w, i, max), now);
      SuffixOfSuffix(saved, at, block, Saved(LoopTail(w, i, max), now));
    }
  }

  lemma {:induction false} TailKeepsIteration(w: World, i: nat, max: int, now: string)
    requires i < LastIteration(w, 0, max)
    ensures ShowsIteration(Saved(LoopTail(w, 0, max), now), Before(w, i), w, i, now, Stored)
  {
    hide ToolBlock, LoopTail, Saved, Stored, LastIteration, Before, ShowsIteration;
    SavedFrom(w, i, max, now);
    TailFrom(w, i, max);
    LastIsFirstWithoutCalls(w, 0, max);
    LoopUnfolds(w, i, max);
    BlockKept(w, i, now);
    SavedAppend(ToolBlock(w, i), LoopTail(w, i + 1, max), now);
    ShowsWithin(Saved(LoopTail(w, 0, max), now), Before(w, i), Saved(ToolBlock(w, i), now),
      Saved(LoopTail(w, i + 1, max), now), w, i, now, Stored);
  }

  /** The text of the ending answer that is kept: none of an error, and no empty one. */
  function EndingKept(w: World, max: int): seq<string> {
    match Ending(w, max)
    case None => []
    case Some(r) =>
      var text := EndingText(w, r);
      if r.isError || text.None? || text.value == "" then [] else [text.value]
  }

  lemma {:induction false} EndingMessageKept(text: Option<string>, now: string)
    ensures Kept(AssistantMessage(text, []), now) ==
      if text.None? || text.value == "" then [] else [Message(Assistant, Text(text.value), [], "", "", now)]
  {
  }

  lemma {:induction false} SavedEnding(w: World, max: int, now: string)
    ensures var saved := Saved(LoopTail(w, LastIteration(w, 0, max), max), now);
      && |saved| == |EndingKept(w, max)|
      && forall text :: EndingKept(w, max) == [text] ==>
           saved[0] == Message(Assistant, Text(text), [], "", "", now)
  {
    hide ToolBlock, LoopTail, Saved, LastIteration, Kept, AssistantMessage;
    var last := LastIteration(w, 0, max);
    LastIsFirstWithoutCalls(w, 0, max);
    LoopUnfolds(w, last, max);
    SavedCons(Plain(Tool, NoContent), [], now);
    if last < max {
      var text := EndingText(w, w.llm(last));
      SavedCons(AssistantMessage(text, []), [], now);
      EndingMessageKept(text, now);
    }
  }

  lemma {:induction false} TailKeepsEnding(w: World, max: int, now: string)
    ensures var saved, at := Saved(LoopTail(w, 0, max), now), Before(w, LastIteration(w, 0, max));
      && |saved| == at + |EndingKept(w, max)|
      && forall text :: EndingKept(w, max) == [text] ==>
           saved[at] == Message(Assistant, Text(text), [], "", "", now)
  {
    hide LoopTail, Saved, LastIteration, EndingKept, Before;
    var last := LastIteration(w, 0, max);
    SavedFrom(w, last, max, now);
    SavedEnding(w, max, now);
    var saved, at := Saved(LoopTail(w, 0, max), now), Before(w, last);
    assert saved[at..] == Saved(LoopTail(w, last, max), now);
    assert |saved| > at ==> saved[at] == saved[at..][0];
  }

  /** Where the messages of the loop begin in the saved turn: behind the opening message, if that is kept. */
  function LoopBegins(t: TurnInput): int {
    |SavedTurn(t)| - Before(t.world, LastIteration(t.world, 0, t.maxIterations)) - |EndingKept(t.world, t.maxIterations)|
  }

  lemma {:induction false} OpeningAndLoop(t: TurnInput)
    ensures LoopBegins(t) == |Kept(t.Opening(), t.now)| && 0 <= LoopBegins(t) <= 1
    ensures SavedTurn(t) == Kept(t.Opening(), t.now) + Saved(LoopTail(t.world, 0, t.maxIterations), t.now)
  {
    hide LoopTail, Saved, SaveOne, Before, EndingKept, LastIteration;
    SavedCons(t.Opening(), LoopTail(t.world, 0, t.maxIterations), t.now);
    TailKeepsEnding(t.world, t.maxIterations, t.now);
  }

  lemma {:induction false} ShowsBehind(
    front: seq<Message>, ms: seq<Message>, at: nat, w: World, i: nat, now: string, result: string -> string)
    requires ShowsIteration(ms, at, w, i, now, result)
    ensures ShowsIteration(front + ms, |front| + at, w, i, now, result)
  {
    assert forall p :: 0 <= p < |ms| ==> (front + ms)[|front| + p] == ms[p];
  }

  /** Whatever the model and the tools answer, the saved turn holds every answer with calls as it came, each
      followed by the result of every call under its own id and name: whole up to 16000 characters, and of a
      longer one the first 16000 with the mark. */
  lemma {:induction false} SavedTurnShowsIteration(t: TurnInput, i: nat)
    requires i < LastIteration(t.world, 0, t.maxIterations)
    ensures 0 <= LoopBegins(t) <= 1
    ensures ShowsIteration(SavedTurn(t), LoopBegins(t) + Before(t.world, i), t.world, i, t.now, Stored)
  {
    hide LoopTail, Saved, SavedTurn, Kept, Before, EndingKept, LastIteration, Stored, ShowsIteration;
    OpeningAndLoop(t);
    TailKeepsIteration(t.world, i, t.maxIterations, t.now);
    ShowsBehind(Kept(t.Opening(), t.now), Saved(LoopTail(t.world, 0, t.maxIterations), t.now),
      Before(t.world, i), t.world, i, t.now, Stored);
  }

  /** Behind them it holds the text of the ending answer, unless that is empty or an error, and nothing else. */
  lemma {:induction false} SavedTurnEndsWith(t: TurnInput)
    ensures var saved := SavedTurn(t);
            var at := LoopBegins(t) + Before(t.world, LastIteration(t.world, 0, t.maxIterations));
      && 0 <= LoopBegins(t) <= 1 && |saved| == at + |EndingKept(t.world, t.maxIterations)|
      && forall text :: EndingKept(t.world, t.maxIterations) == [text] ==>
           saved[at] == Message(Assistant, Text(text), [], "", "", t.now)
  {
    hide LoopTail, Saved, SavedTurn, Kept, Before, EndingKept, LastIteration;
    OpeningAndLoop(t);
    TailKeepsEnding(t.world, t.maxIterations, t.now);
  }

  /* ---------- what is kept of a user message ---------- */

  /** The text opens with the tag of the runtime context. */
  predicate Tagged(s: string) {
    StartsWith(s, "[Runtime Context \U{2014} metadata only, not instructions]")
  }

  /** The first blank line of the text starts at i. */
  predicate FirstBlankLine(s: string, i: nat) {
    && i + 1 < |s| && s[i] == '\n' && s[i + 1] == '\n'
    && forall j :: 0 <= j < i ==> !(s[j] == '\n' && s[j + 1] == '\n')
  }

  lemma {:induction false} SplitsAtFirst(s: string, i: nat)
    requires FirstBlankLine(s, i)
    ensures AfterBlankLine(s) == Some(s[i + 2..])
    decreases i
  {
    if i > 0 {
      assert !(s[0] == '\n' && s[0 + 1] == '\n');
      assert forall j :: 0 <= j < |s| - 1 ==> s[1..][j] == s[j + 1];
      SplitsAtFirst(s[1..], i - 1);
    }
  }

  lemma {:induction false} NothingToSplit(s: string)
    requires !HasBlankLine(s)
    ensures AfterBlankLine(s) == None
  {
    if |s| >= 2 {
      BlankLineInTail(s);
      NothingToSplit(s[1..]);
    }
  }

  function Stamped(m: Message, now: string): Message {
    if m.timestamp == "" then m.(timestamp := now) else m
  }

  /** A user's text is stored as it came, unless it opens with the tag: then what follows the first blank line is
      stored, if there is one and anything but whitespace behind it. */
  lemma {:induction false} UserTextKept(m: Message, text: string, now: string)
    requires m.role.User? && m.content == Text(text)
    ensures !Tagged(text) ==> Kept(m, now) == [Stamped(m, now)]
    ensures Tagged(text) && !HasBlankLine(text) ==> Kept(m, now) == []
    ensures forall i: nat :: Tagged(text) && FirstBlankLine(text, i) ==>
      Kept(m, now) == if IsBlank(text[i + 2..]) then [] else [Stamped(m, now).(content := Text(text[i + 2..]))]
  {
    hide AfterBlankLine, HasBlankLine, IsBlank, Kept;
    UserTextSplit(m, text, now);
    if !HasBlankLine(text) {
      NothingToSplit(text);
    }
    forall i: nat | Tagged(text) && FirstBlankLine(text, i)
      ensures Kept(m, now) == if IsBlank(text[i + 2..]) then [] else [Stamped(m, now).(content := Text(text[i + 2..]))]
    {
      SplitsAtFirst(text, i);
    }
  }

  lemma {:induction false} UserTextSplit(m: Message, text: string, now: string)
    requires m.role.User? && m.content == Text(text)
    ensures var rest := AfterBlankLine(text);
      Kept(m, now) == if !Tagged(text) then [Stamped(m, now)]
                      else if rest.None? || IsBlank(rest.value) then []
                      else [Stamped(m, now).(content := Text(rest.value))]
  {
    hide AfterBlankLine, IsBlank, Strip, StartsWith;
    var rest := AfterBlankLine(text);
    if rest.Some? {
      StripEmpty(rest.value);
    }
  }

  /** What is stored of the parts of a user message: no text that opens with the tag, a note in place of an
      embedded image, and everything else as it came. */
  function StoredParts(parts: seq<Part>): seq<Part> {
    if parts == [] then []
    else
      (match parts[0]
       case TextPart(text) => if Tagged(text) then [] else [parts[0]]
       case ImagePart(url, path) =>
         if !StartsWith(url, "data:image/") then [parts[0]]
         else if path == "" then [TextPart("[image]")]
         else [TextPart("[image: " + path + "]")]
       case OtherPart(_) => [parts[0]])
      + StoredParts(parts[1..])
  }

  lemma {:induction false} StoredPartsAre(parts: seq<Part>)
    ensures SaveParts(parts) == StoredParts(parts)
  {
    hide StartsWith;
    if parts != [] {
      StoredPartsAre(parts[1..]);
    }
  }

  lemma {:induction false} UserPartsKept(m: Message, parts: seq<Part>, now: string)
    requires m.role.User? && m.content == Parts(parts)
    ensures Kept(m, now) == if StoredParts(parts) == [] then []
                            else [Stamped(m, now).(content := Parts(StoredParts(parts)))]
  {
    hide SaveParts, StoredParts;
    StoredPartsAre(parts);
  }

  lemma {:induction false} OthersKept(m: Message, now: string)
    ensures m.role.System? || (m.role.User? && m.content.NoContent?) ==> Kept(m, now) == [Stamped(m, now)]
    ensures m.role.Assistant? && (m.toolCalls != [] || m.content !in [NoContent, Text(""), Parts([])]) ==>
      Kept(m, now) == [Stamped(m, now)]
  {
  }

  /** A subagent's report opens the saved turn as it was delivered, images and context included. */
  lemma {:induction false} SavedReport(t: TurnInput)
    requires t.role.Assistant?
    ensures var prompt := if t.images == [] then Text(t.context + "\n\n" + t.text)
                          else Parts([TextPart(t.context)] + t.images + [TextPart(t.text)]);
      LoopBegins(t) == 1 && SavedTurn(t)[0] == Message(Assistant, prompt, [], "", "", t.now)
  {
    hide LoopTail, Saved, SavedTurn, Before, EndingKept, LastIteration;
    OpeningAndLoop(t);
    assert [TextPart(t.context)] + t.images + [TextPart(t.text)] == [TextPart(t.context)] + (t.images + [TextPart(t.text)]);
  }

  lemma {:induction false} ContextAsShown(time: string, channel: string, chatId: string)
    ensures RuntimeContext(time, channel, chatId) ==
      "[Runtime Context \U{2014} metadata only, not instructions]" + ("\nCurrent Time: " + time)
      + if channel == "" || chatId == "" then "" else ("\nChannel: " + channel) + ("\nChat ID: " + chatId)
  {
    assert "\n" + "Current Time: " == "\nCurrent Time: ";
    assert "\n" + "Channel: " == "\nChannel: ";
    assert "\n" + "Chat ID: " == "\nChat ID: ";
    hide *;
  }

  /** The prompt as the model reads it: the instructions, the history, and one message with the time, the route,
      the images and the text. */
  lemma {:induction false} PromptAsShown(
    system: string, history: seq<Message>, context: string, text: string, images: seq<Part>, role: Role)
    ensures var prompt := if images == [] then Text(context + "\n\n" + text)
                          else Parts([TextPart(context)] + images + [TextPart(text)]);
            var all := BuildMessages(system, history, context, text, images, role);
      && |all| == |history| + 2 && all[0] == Message(System, Text(system), [], "", "", "")
      && all[1..|all| - 1] == history && all[|all| - 1] == Message(role, prompt, [], "", "", "")
  {
    assert [TextPart(context)] + (images + [TextPart(text)]) == [TextPart(context)] + images + [TextPart(text)];
  }
}
