/** Reassembling a Codex response from its event stream (nanobot/providers/openai_codex_provider.py).
    Framing follows section 9.2.6 ("Interpreting an event stream") of the WHATWG HTML Living Standard,
    except that every data line is stripped of all surrounding whitespace. */
module CodexStream {
  import opened Prelude

  /* ---------- event framing ---------- */

  const DATA := "data:"

  /** The stripped values of the data lines of one block, in order. */
  function DataLines(block: seq<string>): seq<string> {
    if block == [] then []
    else (if StartsWith(block[0], DATA) then [Strip(block[0][5..])] else []) + DataLines(block[1..])
  }

  function Join(lines: seq<string>): string {
    if lines == [] then "" else if |lines| == 1 then lines[0] else lines[0] + "\n" + Join(lines[1..])
  }

  /** What a finished block yields: nothing without data, for blank data, and for the end marker. */
  function Payload(block: seq<string>): seq<string> {
    var lines := DataLines(block);
    var data := Strip(Join(lines));
    if lines == [] || data == "" || data == "[DONE]" then [] else [data]
  }

  /** The payloads of a line stream, given the lines of the block read so far; an unfinished block is lost. */
  function Payloads(block: seq<string>, lines: seq<string>): seq<string>
    decreases |lines|
  {
    if lines == [] then []
    else if lines[0] == "" then Payload(block) + Payloads([], lines[1..])
    else Payloads(block + [lines[0]], lines[1..])
  }

  /** The payloads that decode; the others are dropped. */
  function Decoded<T>(decode: string -> Option<T>, payloads: seq<string>): seq<T> {
    if payloads == [] then []
    else
      var rest := Decoded(decode, payloads[1..]);
      match decode(payloads[0])
      case None => rest
      case Some(e) => [e] + rest
  }

  lemma {:induction false} DecodedAppend<T>(decode: string -> Option<T>, a: seq<string>, b: seq<string>)
    ensures Decoded(decode, a + b) == Decoded(decode, a) + Decoded(decode, b)
  {
    hide Decoded;
    if a == [] {
      DecodedOne(decode, "");
      assert a + b == b;
    } else {
      DecodedCons(decode, a);
      DecodedCons(decode, a + b);
      DecodedAppend(decode, a[1..], b);
      assert (a + b)[1..] == a[1..] + b;
    }
  }

  lemma {:induction false} DecodedCons<T>(decode: string -> Option<T>, payloads: seq<string>)
    requires payloads != []
    ensures Decoded(decode, payloads)
         == (if decode(payloads[0]).Some? then [decode(payloads[0]).value] else []) + Decoded(decode, payloads[1..])
  {
  }

  lemma {:induction false} DecodedOne<T>(decode: string -> Option<T>, data: string)
    ensures Decoded(decode, [data]) == match decode(data) case None => [] case Some(e) => [e]
    ensures Decoded(decode, []) == []
  {
    assert [data][1..] == [];
  }

  method IterSse<T>(decode: string -> Option<T>, lines: seq<string>) returns (events: seq<T>)
    ensures events == Decoded(decode, Payloads([], lines))
  {
    hide Decoded, Payload;
    events := [];
    ghost var read: seq<string> := [];
    DecodedOne(decode, "");
    var buffer: seq<string> := [];
    for i := 0 to |lines|
      invariant Payloads([], lines) == read + Payloads(buffer, lines[i..]) && events == Decoded(decode, read)
    {
      assert lines[i..][1..] == lines[i + 1..];
      if lines[i] == "" {
        if buffer != [] {
          var found := DecodeBlock(decode, buffer);
          DecodedAppend(decode, read, Payload(buffer));
          events, read, buffer := events + found, read + Payload(buffer), [];
        } else {
          EmptyBlock();
        }
      } else {
        buffer := buffer + [lines[i]];
      }
    }
    assert lines[|lines|..] == [] && read + [] == read;
  }

  method DecodeBlock<T>(decode: string -> Option<T>, block: seq<string>) returns (events: seq<T>)
    ensures events == Decoded(decode, Payload(block))
  {
    var lines := DataLines(block);
    var data := Strip(Join(lines));
    hide Decoded, DataLines, Strip, Join;
    DecodedOne(decode, data);
    if lines == [] || data == "" || data == "[DONE]" {
      return [];
    }
    match decode(data) {
      case None => return [];
      case Some(e) => return [e];
    }
  }

  lemma {:induction false} EmptyBlock()
    ensures Payload([]) == []
  {
  }

  predicate NoEmptyLine(block: seq<string>) {
    forall i :: 0 <= i < |block| ==> block[i] != ""
  }

  lemma {:induction false} ReadBlock(sofar: seq<string>, block: seq<string>, rest: seq<string>)
    requires NoEmptyLine(block)
    ensures Payloads(sofar, block + [""] + rest) == Payload(sofar + block) + Payloads([], rest)
    decreases |block|
  {
    hide Payload;
    var lines := block + [""] + rest;
    if block == [] {
      assert lines[1..] == rest;
      assert sofar + block == sofar;
    } else {
      assert lines[1..] == block[1..] + [""] + rest;
      ReadBlock(sofar + [block[0]], block[1..], rest);
      assert sofar + [block[0]] + block[1..] == sofar + block;
    }
  }

  /** Blocks separated by empty lines. */
  function Stream(blocks: seq<seq<string>>): seq<string> {
    if blocks == [] then [] else blocks[0] + [""] + Stream(blocks[1..])
  }

  /** A well-formed stream yields the payload of each block in order; trailing lines without an empty line
      after them are discarded. */
  lemma {:induction false} StreamIsReadBlockwise(blocks: seq<seq<string>>, unfinished: seq<string>)
    requires forall i :: 0 <= i < |blocks| ==> NoEmptyLine(blocks[i])
    requires NoEmptyLine(unfinished)
    ensures Payloads([], Stream(blocks) + unfinished) == FlatMap(Payload, blocks)
  {
    hide Payload;
    if blocks == [] {
      assert Stream(blocks) + unfinished == unfinished;
      UnfinishedIsLost([], unfinished);
    } else {
      StreamIsReadBlockwise(blocks[1..], unfinished);
      var rest := Stream(blocks[1..]) + unfinished;
      assert Stream(blocks) + unfinished == blocks[0] + [""] + rest;
      ReadBlock([], blocks[0], rest);
      assert [] + blocks[0] == blocks[0];
    }
  }

  lemma {:induction false} UnfinishedIsLost(sofar: seq<string>, lines: seq<string>)
    requires NoEmptyLine(lines)
    ensures Payloads(sofar, lines) == []
    decreases |lines|
  {
    if lines == [] {
    } else {
      UnfinishedIsLost(sofar + [lines[0]], lines[1..]);
    }
  }

  /** Text without whitespace at either end. */
  predicate Trimmed(s: string) {
    s != "" && !IsSpace(s[0]) && !IsSpace(s[|s| - 1])
  }

  /** Stripping shortens a text unless it is empty or has no whitespace at either end. */
  lemma {:induction false} StripFacts(s: string)
    ensures |Strip(s)| <= |s|
    ensures |Strip(s)| == |s| ==> Strip(s) == s
    ensures Strip(s) == s <==> s == "" || Trimmed(s)
    ensures Strip(" " + s) == Strip(s)
  {
    hide Strip, Trimmed;
    StripSpaced(s);
    StripLength(s);
  }

  lemma {:induction false} StripSpaced(s: string)
    ensures Strip(" " + s) == Strip(s)
  {
    hide RStrip;
    assert (" " + s)[1..] == s && (" " + s)[0] == ' ';
    assert LStrip(" " + s) == LStrip(s);
  }

  lemma {:induction false} StripLength(s: string)
    ensures |Strip(s)| <= |s|
    ensures |Strip(s)| == |s| ==> Strip(s) == s
    ensures Strip(s) == s <==> s == "" || Trimmed(s)
  {
    var l := LStrip(s);
    if s != "" && Strip(s) == s {
      assert l == s;
      assert Trimmed(s);
    }
  }

  /** One data line per line of the text. */
  function Encode(lines: seq<string>): (block: seq<string>)
    ensures |block| == |lines| && NoEmptyLine(block)
  {
    if lines == [] then [] else ["data: " + lines[0]] + Encode(lines[1..])
  }

  lemma {:induction false} DataLine(text: string)
    ensures StartsWith("data: " + text, DATA) && Strip(("data: " + text)[5..]) == Strip(text)
  {
    var l := "data: " + text;
    StripFacts(text);
    hide Strip;
    assert l[5..] == " " + text && l[..5] == DATA;
  }

  function StripAll(lines: seq<string>): (out: seq<string>)
    ensures |out| == |lines|
  {
    if lines == [] then [] else [Strip(lines[0])] + StripAll(lines[1..])
  }

  lemma {:induction false} DecodeLines(lines: seq<string>)
    ensures DataLines(Encode(lines)) == StripAll(lines)
  {
    hide Strip, StartsWith;
    if lines == [] {
    } else {
      DataLine(lines[0]);
      DecodeLines(lines[1..]);
      assert Encode(lines)[1..] == Encode(lines[1..]);
    }
  }

  predicate AllStripped(lines: seq<string>) {
    forall i :: 0 <= i < |lines| ==> Strip(lines[i]) == lines[i]
  }

  lemma {:induction false} AllStrippedCons(lines: seq<string>)
    requires lines != []
    ensures AllStripped(lines) <==> Strip(lines[0]) == lines[0] && AllStripped(lines[1..])
  {
    hide Strip;
    assert forall i :: 1 <= i < |lines| ==> lines[i] == lines[1..][i - 1];
  }

  lemma {:induction false} JoinLength(lines: seq<string>)
    requires lines != []
    ensures |Join(lines)| == |lines[0]| + if |lines| == 1 then 0 else 1 + |Join(lines[1..])|
  {
  }

  lemma {:induction false} StripAllCons(lines: seq<string>)
    requires lines != []
    ensures StripAll(lines)[0] == Strip(lines[0]) && StripAll(lines)[1..] == StripAll(lines[1..])
  {
    hide Strip;
  }

  /** Stripping the lines shortens the joined text unless every line is stripped already. */
  lemma {:induction false} JoinStripped(lines: seq<string>)
    ensures |Join(StripAll(lines))| <= |Join(lines)|
    ensures |Join(StripAll(lines))| == |Join(lines)| <==> AllStripped(lines)
  {
    hide *;
    if lines == [] {
      NoLines();
    } else {
      AllStrippedCons(lines);
      StripAllCons(lines);
      StripFacts(lines[0]);
      JoinLength(lines);
      JoinLength(StripAll(lines));
      if |lines| == 1 {
        NoLines();
        assert lines[1..] == [];
      } else {
        JoinStripped(lines[1..]);
      }
    }
  }

  lemma {:induction false} NoLines()
    ensures AllStripped([]) && StripAll([]) == [] && Join([]) == ""
  {
  }

  lemma {:induction false} StrippedStays(lines: seq<string>)
    requires AllStripped(lines)
    ensures StripAll(lines) == lines
  {
    if lines == [] {
    } else {
      hide Strip, StripAll, AllStripped;
      AllStrippedCons(lines);
      StripAllCons(lines);
      StrippedStays(lines[1..]);
      assert StripAll(lines) == [lines[0]] + lines[1..];
    }
  }

  lemma {:induction false} JoinEnds(lines: seq<string>)
    requires lines != [] && AllStripped(lines)
    ensures Trimmed(Join(lines)) <==> lines[0] != "" && lines[|lines| - 1] != ""
  {
    hide Strip;
    StripFacts(lines[0]);
    StripFacts(lines[|lines| - 1]);
    JoinFirst(lines);
    JoinLast(lines);
  }

  lemma {:induction false} JoinFirst(lines: seq<string>)
    requires lines != []
    ensures lines[0] != "" ==> Join(lines) != "" && Join(lines)[0] == lines[0][0]
    ensures lines[0] == "" && |lines| > 1 ==> Join(lines) != "" && Join(lines)[0] == '\n'
  {
  }

  lemma {:induction false} JoinLast(lines: seq<string>)
    requires lines != []
    ensures var last, text := lines[|lines| - 1], Join(lines);
      && (last != "" ==> text != "" && text[|text| - 1] == last[|last| - 1])
      && (last == "" && |lines| > 1 ==> text != "" && text[|text| - 1] == '\n')
  {
    hide Join;
    JoinUnfolds(lines);
    if |lines| > 1 {
      JoinLast(lines[1..]);
      JoinUnfolds(lines[1..]);
    }
  }

  lemma {:induction false} JoinUnfolds(lines: seq<string>)
    requires lines != []
    ensures |lines| == 1 ==> Join(lines) == lines[0]
    ensures |lines| > 1 ==> Join(lines) == lines[0] + "\n" + Join(lines[1..])
  {
  }

  /** Framing round trip: a text sent one line per data line is received as it was exactly when no line has
      whitespace at its ends, the first and the last are not empty, and it is not the end marker. */
  lemma {:induction false} FramingRoundTripIff(lines: seq<string>)
    ensures Payloads([], Encode(lines) + [""]) == [Join(lines)] <==>
      && lines != [] && AllStripped(lines) && lines[0] != "" && lines[|lines| - 1] != ""
      && Join(lines) != "[DONE]"
  {
    hide Strip, DataLines, Encode, Join, AllStripped;
    FramedText(lines);
    var text, data := Join(lines), Strip(Join(StripAll(lines)));
    JoinStripped(lines);
    if AllStripped(lines) {
      StrippedStays(lines);
    }
    StripFacts(Join(StripAll(lines)));
    StripFacts(text);
    if lines != [] && AllStripped(lines) {
      JoinEnds(lines);
      assert data == text <==> text == "" || Trimmed(text);
      assert Trimmed(text) ==> text != "";
    }
  }

  /** What arrives of a text sent one line per data line. */
  lemma {:induction false} FramedText(lines: seq<string>)
    ensures var data := Strip(Join(StripAll(lines)));
      Payloads([], Encode(lines) + [""]) == if lines == [] || data == "" || data == "[DONE]" then [] else [data]
  {
    hide Strip, DataLines, Encode, Join, StripAll;
    DecodeLines(lines);
    ReadBlock([], Encode(lines), []);
    assert [] + Encode(lines) == Encode(lines);
    assert Encode(lines) + [""] + [] == Encode(lines) + [""];
  }

  /* ---------- reassembly ---------- */

  /** An output item; the empty string stands for a missing value. */
  datatype Item = Item(isCall: bool, callId: string, id: string, name: string, arguments: string)

  datatype Event =
    | ItemAdded(item: Item)
    | TextDelta(text: string)
    | ArgumentsDelta(callId: string, delta: string)
    | ArgumentsDone(callId: string, arguments: string)
    | ItemDone(item: Item)
    | Completed(status: string)
    | Failed
    | Other

  datatype Buffer = Buffer(id: string, name: string, arguments: string)

  /** A finished call: its raw argument text is decoded as JSON afterwards. */
  datatype Call = Call(callId: string, itemId: string, name: string, arguments: string)
  {
    /** The id the agent sees. */
    function Id(): string {
      callId + "|" + itemId
    }
  }

  datatype Response = Response(content: string, buffers: map<string, Buffer>, calls: seq<Call>, finish: string)

  const EMPTY := Response("", map[], [], "stop")

  function FinishReason(status: string): string {
    if status == "incomplete" then "length"
    else if status == "failed" || status == "cancelled" then "error"
    else "stop"
  }

  function Finished(r: Response, item: Item): Call {
    if item.callId in r.buffers then
      var b := r.buffers[item.callId];
      Call(item.callId, OrElse(b.id, OrElse(item.id, "fc_0")), OrElse(b.name, item.name),
           OrElse(b.arguments, OrElse(item.arguments, "{}")))
    else
      Call(item.callId, OrElse(item.id, "fc_0"), item.name, OrElse(item.arguments, "{}"))
  }

  /** One event; error events are handled by the caller. */
  function Step(r: Response, e: Event): Response {
    match e
    case ItemAdded(item) =>
      if item.isCall && item.callId != "" then
        r.(buffers := r.buffers[item.callId := Buffer(OrElse(item.id, "fc_0"), item.name, item.arguments)])
      else r
    case TextDelta(text) => r.(content := r.content + text)
    case ArgumentsDelta(id, delta) =>
      if id != "" && id in r.buffers then
        r.(buffers := r.buffers[id := r.buffers[id].(arguments := r.buffers[id].arguments + delta)])
      else r
    case ArgumentsDone(id, arguments) =>
      if id != "" && id in r.buffers then r.(buffers := r.buffers[id := r.buffers[id].(arguments := arguments)]) else r
    case ItemDone(item) =>
      if item.isCall && item.callId != "" then r.(calls := r.calls + [Finished(r, item)]) else r
    case Completed(status) => r.(finish := FinishReason(status))
    case Failed => r
    case Other => r
  }

  function Fold(events: seq<Event>): Response {
    if events == [] then EMPTY else Step(Fold(events[..|events| - 1]), events[|events| - 1])
  }

  /** None stands for the error raised on an error event. */
  method ConsumeSse(events: seq<Event>) returns (r: Option<Response>)
    ensures r == if Failed in events then None else Some(Fold(events))
  {
    hide Finished;
    var content, calls, buffers, finish := "", [], map[], "stop";
    for i := 0 to |events|
      invariant Failed !in events[..i]
      invariant Response(content, buffers, calls, finish) == Fold(events[..i])
    {
      assert events[..i + 1][..i] == events[..i];
      match events[i] {
        case ItemAdded(item) =>
          if item.isCall && item.callId != "" {
            buffers := buffers[item.callId := Buffer(OrElse(item.id, "fc_0"), item.name, item.arguments)];
          }
        case TextDelta(text) => content := content + text;
        case ArgumentsDelta(id, delta) =>
          if id != "" && id in buffers {
            buffers := buffers[id := buffers[id].(arguments := buffers[id].arguments + delta)];
          }
        case ArgumentsDone(id, arguments) =>
          if id != "" && id in buffers {
            buffers := buffers[id := buffers[id].(arguments := arguments)];
          }
        case ItemDone(item) =>
          if item.isCall && item.callId != "" {
            calls := calls + [Finished(Response(content, buffers, calls, finish), item)];
          }
        case Completed(status) => finish := FinishReason(status);
        case Failed => return None;
        case Other =>
      }
    }
    assert events[..|events|] == events;
    return Some(Response(content, buffers, calls, finish));
  }

  /** Every call that is read has a call id and an item id. */
  lemma {:induction false} EmittedIds(events: seq<Event>)
    ensures forall id :: id in Fold(events).buffers ==> Fold(events).buffers[id].id != ""
    ensures forall k :: 0 <= k < |Fold(events).calls| ==>
      Fold(events).calls[k].callId != "" && Fold(events).calls[k].itemId != ""
  {
    if events == [] {
    } else {
      EmittedIds(events[..|events| - 1]);
    }
  }

  /* ---------- calls do not disturb each other ---------- */

  /** The event concerns the call c. */
  predicate Concerns(e: Event, c: string) {
    match e
    case ItemAdded(item) => item.isCall && item.callId == c
    case ItemDone(item) => item.isCall && item.callId == c
    case ArgumentsDelta(id, _) => id == c
    case ArgumentsDone(id, _) => id == c
    case _ => false
  }

  /** The substream of one call. */
  function Substream(events: seq<Event>, c: string): seq<Event> {
    if events == [] then []
    else
      var last := |events| - 1;
      Substream(events[..last], c) + if Concerns(events[last], c) then [events[last]] else []
  }

  function CallsOf(calls: seq<Call>, c: string): seq<Call> {
    if calls == [] then []
    else
      var last := |calls| - 1;
      CallsOf(calls[..last], c) + if calls[last].callId == c then [calls[last]] else []
  }

  lemma {:induction false} CallsOfSnoc(calls: seq<Call>, call: Call, c: string)
    ensures CallsOf(calls + [call], c) == CallsOf(calls, c) + if call.callId == c then [call] else []
  {
  }

  predicate SameBuffer(a: Response, b: Response, c: string) {
    (c in a.buffers <==> c in b.buffers) && (c in a.buffers ==> a.buffers[c] == b.buffers[c])
  }

  /** The calls an event finishes: at most one. */
  function Emitted(r: Response, e: Event): seq<Call> {
    if e.ItemDone? && e.item.isCall && e.item.callId != "" then [Finished(r, e.item)] else []
  }

  lemma {:induction false} StepEmits(r: Response, e: Event)
    ensures Step(r, e).calls == r.calls + Emitted(r, e)
  {
  }

  lemma {:induction false} StepConcerning(a: Response, b: Response, e: Event, c: string)
    requires SameBuffer(a, b, c) && Concerns(e, c)
    ensures SameBuffer(Step(a, e), Step(b, e), c) && Emitted(a, e) == Emitted(b, e)
    ensures forall i :: 0 <= i < |Emitted(a, e)| ==> Emitted(a, e)[i].callId == c
  {
  }

  lemma {:induction false} StepNotConcerning(r: Response, e: Event, c: string)
    requires !Concerns(e, c)
    ensures SameBuffer(Step(r, e), r, c)
    ensures forall i :: 0 <= i < |Emitted(r, e)| ==> Emitted(r, e)[i].callId != c
  {
  }

  /** The calls with id c, and c's buffer, are those of c's own substream: the other calls, the text and the
      status events do not touch them. */
  lemma {:induction false} CallsAreIndependent(events: seq<Event>, c: string)
    ensures CallsOf(Fold(events).calls, c) == Fold(Substream(events, c)).calls
    ensures SameBuffer(Fold(events), Fold(Substream(events, c)), c)
  {
    if events == [] {
    } else {
      var last := |events| - 1;
      var e := events[last];
      var before := Fold(events[..last]);
      var sub := Substream(events[..last], c);
      CallsAreIndependent(events[..last], c);
      StepEmits(before, e);
      StepEmits(Fold(sub), e);
      hide Step, Concerns;
      if Concerns(e, c) {
        assert (sub + [e])[..|sub|] == sub;
        StepConcerning(before, Fold(sub), e, c);
      } else {
        assert sub + [] == sub;
        StepNotConcerning(before, e, c);
      }
      if Emitted(before, e) != [] {
        CallsOfSnoc(before.calls, Emitted(before, e)[0], c);
      } else {
        assert before.calls + [] == before.calls;
        assert Fold(sub).calls + [] == Fold(sub).calls;
      }
    }
  }

  /* ---------- text and status ---------- */

  function TextOf(e: Event): string {
    if e.TextDelta? then e.text else ""
  }

  /** The text is the concatenation of the text deltas. */
  lemma {:induction false} ContentIsAllText(events: seq<Event>)
    ensures Fold(events).content == FlatMap(TextOf, events)
  {
    if events == [] {
    } else {
      hide OrElse;
      var last := |events| - 1;
      ContentIsAllText(events[..last]);
      assert events == events[..last] + [events[last]];
      FlatMapAppend(TextOf, events[..last], [events[last]]);
      FlatMapCons(TextOf, events[last], []);
    }
  }

  /** The finish reason is told by the status of the last completion event: "length" when the answer is
      incomplete, "error" when it failed or was cancelled, "stop" otherwise. */
  lemma {:induction false} FinishIsLastCompletion(events: seq<Event>, i: nat)
    requires i < |events| && events[i].Completed?
    requires forall j :: i < j < |events| ==> !events[j].Completed?
    ensures var status, finish := events[i].status, Fold(events).finish;
      && finish in ["stop", "length", "error"]
      && (finish == "length" <==> status == "incomplete")
      && (finish == "error" <==> status == "failed" || status == "cancelled")
    decreases |events|
  {
    hide OrElse;
    var last := |events| - 1;
    if i < last {
      assert forall j :: 0 <= j < last ==> events[..last][j] == events[j];
      FinishIsLastCompletion(events[..last], i);
    }
  }

  /** And "stop" without one. */
  lemma {:induction false} StopsWithoutCompletion(events: seq<Event>)
    requires forall i :: 0 <= i < |events| ==> !events[i].Completed?
    ensures Fold(events).finish == "stop"
  {
    hide OrElse, Finished;
    if events != [] {
      StopsWithoutCompletion(events[..|events| - 1]);
    }
  }

  /* ---------- how arguments are assembled ---------- */

  /** No event restarts or overwrites c's buffer. */
  predicate OnlyDeltas(events: seq<Event>, c: string) {
    forall i :: 0 <= i < |events| ==>
      !(events[i].ItemAdded? && Concerns(events[i], c)) && !(events[i].ArgumentsDone? && events[i].callId == c)
  }

  function DeltaOf(e: Event, c: string): string {
    if e.ArgumentsDelta? && e.callId == c then e.delta else ""
  }

  function Deltas(events: seq<Event>, c: string): string {
    FlatMap(e => DeltaOf(e, c), events)
  }

  lemma {:induction false} DeltasSnoc(events: seq<Event>, e: Event, c: string)
    ensures Deltas(events + [e], c) == Deltas(events, c) + DeltaOf(e, c)
  {
    FlatMapAppend(x => DeltaOf(x, c), events, [e]);
    FlatMapCons(x => DeltaOf(x, c), e, []);
  }

  lemma {:induction false} StepDelta(r: Response, e: Event, c: string)
    requires c != "" && c in r.buffers && OnlyDeltas([e], c)
    ensures c in Step(r, e).buffers
    ensures Step(r, e).buffers[c] == r.buffers[c].(arguments := r.buffers[c].arguments + DeltaOf(e, c))
  {
    hide OrElse, Finished;
    assert [e][0] == e;
    assert r.buffers[c].arguments + "" == r.buffers[c].arguments;
  }

  /** After a state in which c has a buffer, deltas only append to its arguments. */
  lemma {:induction false} DeltasAppend(before: seq<Event>, more: seq<Event>, c: string)
    requires c != "" && c in Fold(before).buffers && OnlyDeltas(more, c)
    ensures c in Fold(before + more).buffers
    ensures Fold(before + more).buffers[c] ==
      Fold(before).buffers[c].(arguments := Fold(before).buffers[c].arguments + Deltas(more, c))
    decreases |more|
  {
    hide OrElse, Finished;
    if more == [] {
      assert before + more == before;
      assert Deltas([], c) == "";
      assert Fold(before).buffers[c].arguments + "" == Fold(before).buffers[c].arguments;
    } else {
      var last := |more| - 1;
      var rest, e := more[..last], more[last];
      DeltasAppend(before, rest, c);
      assert before + more == before + rest + [e];
      FoldSnoc(before + rest, e);
      assert OnlyDeltas([e], c);
      StepDelta(Fold(before + rest), e, c);
      hide Step, Fold, Deltas, DeltaOf;
      assert more == rest + [e];
      DeltasSnoc(rest, e, c);
      AppendAssociates(Fold(before).buffers[c].arguments, Deltas(rest, c), DeltaOf(e, c));
    }
  }

  lemma {:induction false} AppendAssociates(a: string, b: string, c: string)
    ensures a + b + c == a + (b + c)
  {
  }

  lemma {:induction false} FoldSnoc(events: seq<Event>, e: Event)
    ensures Fold(events + [e]) == Step(Fold(events), e)
  {
  }

  /** An added item, any deltas interleaved with whatever else, and the finished item yield one call whose
      arguments are the initial ones followed by the deltas in order. */
  lemma {:induction false} AddedDeltasDone(before: seq<Event>, added: Item, more: seq<Event>, done: Item)
    requires added.isCall && done.isCall && added.callId == done.callId != ""
    requires OnlyDeltas(more, added.callId)
    ensures var events := before + [ItemAdded(added)] + more;
      Fold(events + [ItemDone(done)]).calls == Fold(events).calls +
        [Call(added.callId, OrElse(added.id, "fc_0"), OrElse(added.name, done.name),
              OrElse(added.arguments + Deltas(more, added.callId), OrElse(done.arguments, "{}")))]
  {
    FoldSnoc(before, ItemAdded(added));
    DeltasAppend(before + [ItemAdded(added)], more, added.callId);
    FoldSnoc(before + [ItemAdded(added)] + more, ItemDone(done));
  }

  /** A done event replaces what was collected; later deltas append to it. */
  lemma {:induction false} DoneOverrides(before: seq<Event>, c: string, arguments: string, more: seq<Event>)
    requires c != "" && c in Fold(before).buffers && OnlyDeltas(more, c)
    ensures var after := Fold(before + [ArgumentsDone(c, arguments)] + more);
      c in after.buffers && after.buffers[c] == Fold(before).buffers[c].(arguments := arguments + Deltas(more, c))
  {
    FoldSnoc(before, ArgumentsDone(c, arguments));
    DeltasAppend(before + [ArgumentsDone(c, arguments)], more, c);
  }

  /** No event starts or restarts c's buffer. */
  predicate NeverAdded(events: seq<Event>, c: string) {
    forall i :: 0 <= i < |events| ==> !(events[i].ItemAdded? && events[i].item.isCall && events[i].item.callId == c)
  }

  lemma {:induction false} BufferKeepsName(before: seq<Event>, more: seq<Event>, c: string)
    requires NeverAdded(more, c)
    ensures var a, b := Fold(before).buffers, Fold(before + more).buffers;
      && (c in b <==> c in a)
      && (c in a ==> b[c].id == a[c].id && b[c].name == a[c].name)
    decreases |more|
  {
    hide OrElse, Finished;
    if more == [] {
      assert before + more == before;
    } else {
      var last := |more| - 1;
      BufferKeepsName(before, more[..last], c);
      assert before + more == before + more[..last] + [more[last]];
      FoldSnoc(before + more[..last], more[last]);
    }
  }

  /** A call that is finished without having been added is what the finished item says, with the defaults. */
  lemma {:induction false} UnannouncedCall(events: seq<Event>, done: Item)
    requires done.isCall && done.callId != "" && NeverAdded(events, done.callId)
    ensures Fold(events + [ItemDone(done)]).calls == Fold(events).calls +
      [Call(done.callId, if done.id == "" then "fc_0" else done.id, done.name,
            if done.arguments == "" then "{}" else done.arguments)]
  {
    hide Fold, NeverAdded;
    BufferKeepsName([], events, done.callId);
    assert [] + events == events;
    NothingRead();
    FoldSnoc(events, ItemDone(done));
  }

  lemma {:induction false} NothingRead()
    ensures Fold([]) == EMPTY
  {
  }

  /** A call that was added, then given its arguments outright, then more deltas, is finished with exactly those,
      under the id and name it was added with, where these are not empty. */
  lemma {:induction false} OverriddenCall(
    before: seq<Event>, added: Item, middle: seq<Event>, arguments: string, more: seq<Event>, done: Item)
    requires added.isCall && done.isCall && added.callId == done.callId != ""
    requires NeverAdded(middle, added.callId) && OnlyDeltas(more, added.callId)
    ensures var c := added.callId;
            var events := before + [ItemAdded(added)] + middle + [ArgumentsDone(c, arguments)] + more;
            var all := arguments + Deltas(more, c);
      Fold(events + [ItemDone(done)]).calls == Fold(events).calls +
        [Call(c, if added.id == "" then "fc_0" else added.id, if added.name == "" then done.name else added.name,
              if all != "" then all else if done.arguments != "" then done.arguments else "{}")]
  {
    var c, start := added.callId, before + [ItemAdded(added)];
    FoldSnoc(before, ItemAdded(added));
    BufferKeepsName(start, middle, c);
    DoneOverrides(start + middle, c, arguments, more);
    hide Deltas;
    FoldSnoc(start + middle + [ArgumentsDone(c, arguments)] + more, ItemDone(done));
  }

  /** The id of the call that an event finishes. */
  function FinishedId(e: Event): seq<string> {
    if e.ItemDone? && e.item.isCall && e.item.callId != "" then [e.item.callId] else []
  }

  /** The calls read are those that were finished, in order. */
  lemma {:induction false} CallsAreFinished(events: seq<Event>)
    ensures FlatMap((c: Call) => [c.callId], Fold(events).calls) == FlatMap(FinishedId, events)
  {
    var id := (c: Call) => [c.callId];
    if events == [] {
    } else {
      var last := |events| - 1;
      var before := Fold(events[..last]);
      CallsAreFinished(events[..last]);
      StepEmits(before, events[last]);
      assert events == events[..last] + [events[last]];
      hide Step, FlatMap, OrElse;
      FlatMapAppend(FinishedId, events[..last], [events[last]]);
      FlatMapCons(FinishedId, events[last], []);
      FlatMapAppend(id, before.calls, Emitted(before, events[last]));
      if Emitted(before, events[last]) != [] {
        FlatMapCons(id, Emitted(before, events[last])[0], []);
        assert Emitted(before, events[last]) == [Emitted(before, events[last])[0]];
      } else {
        FlatMapCons(id, Finished(before, Item(true, "", "", "", "")), []);
      }
    }
  }
}
