/** Translating a history for a provider without breaking the links between calls and results
    (nanobot/providers/litellm_provider.py and nanobot/providers/openai_codex_provider.py). */
module ProviderLinks {
  import opened Prelude
  import opened Chat
  import opened SessionHistory
  import Codex = CodexStream

  /* ---------- LiteLLM: short ids ---------- */

  /** The character classes and the hash that the normalisation uses. */
  datatype Hashing = Hashing(isAlnum: char -> bool, sha1Hex: string -> string)
  {
    /** A hexadecimal digest: forty alphanumeric characters. */
    ghost predicate Valid() {
      forall s :: |sha1Hex(s)| == 40 && AllAlnum(sha1Hex(s))
    }

    predicate AllAlnum(s: string) {
      forall i :: 0 <= i < |s| ==> isAlnum(s[i])
    }

    /** An id every provider accepts: nine alphanumeric characters. */
    predicate Safe(id: string) {
      |id| == 9 && AllAlnum(id)
    }

    function Normalize(id: string): string {
      if Safe(id) then id else if |sha1Hex(id)| <= 9 then sha1Hex(id) else sha1Hex(id)[..9]
    }
  }

  /** A missing id stays missing. */
  function ShortId(h: Hashing, id: string): string {
    if id == "" then "" else h.Normalize(id)
  }

  function SanitizeCall(h: Hashing, c: ToolCall): ToolCall {
    c.(id := ShortId(h, c.id))
  }

  function SanitizeCalls(h: Hashing, calls: seq<ToolCall>): (out: seq<ToolCall>)
    ensures |out| == |calls|
    ensures forall k :: 0 <= k < |calls| ==> out[k] == SanitizeCall(h, calls[k])
  {
    seq(|calls|, k requires 0 <= k < |calls| => SanitizeCall(h, calls[k]))
  }

  function SanitizeMessage(h: Hashing, m: Message): Message {
    m.(toolCalls := SanitizeCalls(h, m.toolCalls),
       toolCallId := ShortId(h, m.toolCallId))
  }

  function Sanitize(h: Hashing, ms: seq<Message>): (out: seq<Message>)
    ensures |out| == |ms|
    ensures forall i :: 0 <= i < |ms| ==> out[i] == SanitizeMessage(h, ms[i])
  {
    seq(|ms|, i requires 0 <= i < |ms| => SanitizeMessage(h, ms[i]))
  }

  /** The memo agrees with the function it caches. */
  ghost predicate MemoOf(memo: map<string, string>, h: Hashing) {
    forall id :: id in memo ==> memo[id] == ShortId(h, id)
  }

  method MapId(h: Hashing, memo: map<string, string>, id: string) returns (memo': map<string, string>, short: string)
    requires MemoOf(memo, h)
    ensures MemoOf(memo', h) && short == ShortId(h, id)
  {
    if id == "" {
      return memo, id;
    }
    memo' := if id in memo then memo else memo[id := h.Normalize(id)];
    short := memo'[id];
  }

  method MapCalls(h: Hashing, memo: map<string, string>, calls: seq<ToolCall>)
    returns (memo': map<string, string>, out: seq<ToolCall>)
    requires MemoOf(memo, h)
    ensures MemoOf(memo', h) && out == SanitizeCalls(h, calls)
  {
    memo', out := memo, [];
    for k := 0 to |calls|
      invariant MemoOf(memo', h) && out == SanitizeCalls(h, calls)[..k]
    {
      var short;
      memo', short := MapId(h, memo', calls[k].id);
      out := out + [calls[k].(id := short)];
    }
  }

  /** Rewrites the list in place, message by message, with one memo for the whole list. */
  method SanitizeMessages(h: Hashing, ms: seq<Message>) returns (out: seq<Message>)
    ensures out == Sanitize(h, ms)
  {
    var memo: map<string, string> := map[];
    out := ms;
    for i := 0 to |ms|
      invariant MemoOf(memo, h) && |out| == |ms|
      invariant out[..i] == Sanitize(h, ms)[..i] && out[i..] == ms[i..]
    {
      var m := out[i];
      assert m == ms[i];
      var calls;
      memo, calls := MapCalls(h, memo, m.toolCalls);
      m := m.(toolCalls := calls);
      if m.toolCallId != "" {
        var short;
        memo, short := MapId(h, memo, m.toolCallId);
        m := m.(toolCallId := short);
      }
      ghost var before := out;
      out := out[i := m];
      assert out[..i + 1] == before[..i] + [m];
    }
  }

  lemma {:induction false} NormalizedIsSafe(h: Hashing, id: string)
    requires h.Valid()
    ensures h.Safe(h.Normalize(id)) && h.Normalize(h.Normalize(id)) == h.Normalize(id)
  {
  }

  lemma {:induction false} SanitizedDeclares(h: Hashing, m: Message, id: string)
    requires Declares(m, id)
    ensures Declares(SanitizeMessage(h, m), ShortId(h, id))
  {
  }

  /** Shortening never orphans a result, whatever the hash does; every id that remains is safe to send. */
  lemma {:induction false} SanitizeKeepsLinks(h: Hashing, ms: seq<Message>)
    requires Legal(ms)
    ensures Legal(Sanitize(h, ms))
    ensures h.Valid() ==> forall i :: 0 <= i < |ms| && IsResult(ms[i]) ==>
      IsResult(Sanitize(h, ms)[i]) && h.Safe(Sanitize(h, ms)[i].toolCallId)
  {
    var out := Sanitize(h, ms);
    forall i | 0 <= i < |out| && IsResult(out[i])
      ensures DeclaredBetween(out, 0, i, out[i].toolCallId)
    {
      assert IsResult(ms[i]);
      var j :| 0 <= j < i && Declares(ms[j], ms[i].toolCallId);
      SanitizedDeclares(h, ms[j], ms[i].toolCallId);
      assert Declares(out[j], out[i].toolCallId);
    }
    if h.Valid() {
      forall i | 0 <= i < |ms| && IsResult(ms[i])
        ensures IsResult(out[i]) && h.Safe(out[i].toolCallId)
      {
        NormalizedIsSafe(h, ms[i].toolCallId);
      }
    }
  }

  /** The shortening does not identify any two ids of the list. */
  ghost predicate NoCollision(h: Hashing, ms: seq<Message>) {
    forall i, j, k :: 0 <= i < |ms| && 0 <= j < |ms| && 0 <= k < |ms[j].toolCalls| ==>
      h.Normalize(ms[i].toolCallId) == h.Normalize(ms[j].toolCalls[k].id) ==> ms[i].toolCallId == ms[j].toolCalls[k].id
  }

  /** Without a collision, an orphan stays visible: shortening links nothing that was not linked. */
  lemma {:induction false} SanitizeAddsNoLinks(h: Hashing, ms: seq<Message>)
    requires h.Valid() && NoCollision(h, ms)
    ensures Legal(Sanitize(h, ms)) <==> Legal(ms)
  {
    var out := Sanitize(h, ms);
    if Legal(ms) {
      SanitizeKeepsLinks(h, ms);
    }
    if Legal(out) {
      forall i | 0 <= i < |ms| && IsResult(ms[i])
        ensures DeclaredBetween(ms, 0, i, ms[i].toolCallId)
      {
        NormalizedIsSafe(h, ms[i].toolCallId);
        assert IsResult(out[i]);
        var j :| 0 <= j < i && Declares(out[j], out[i].toolCallId);
        var k :| 0 <= k < |out[j].toolCalls| && out[j].toolCalls[k].id == out[i].toolCallId;
        assert ms[j].toolCalls[k].id != "" && ms[j].toolCalls[k].id == ms[i].toolCallId;
        assert Declares(ms[j], ms[i].toolCallId);
      }
    }
  }

  /* ---------- Codex: call id and item id ---------- */

  /** The text before and after the first bar, if there is one. */
  function SplitBar(s: string): (r: (string, Option<string>))
    ensures r.1 == None ==> r.0 == s && '|' !in s
    ensures r.1.Some? ==> s == r.0 + "|" + r.1.value && '|' !in r.0
  {
    if s == "" then ("", None)
    else if s[0] == '|' then ("", Some(s[1..]))
    else
      var (a, b) := SplitBar(s[1..]);
      assert s == [s[0]] + s[1..];
      ([s[0]] + a, b)
  }

  /** _split_tool_call_id: a missing id reads as "call_0"; an empty item id counts as none. */
  function SplitToolCallId(id: string): (string, Option<string>) {
    if id == "" then ("call_0", None)
    else
      var (call, item) := SplitBar(id);
      (call, if item == Some("") then None else item)
  }

  lemma {:induction false} SplitFirstBar(c: string, rest: string)
    ensures SplitBar(c + "|" + rest) == (c, Some(rest)) <==> '|' !in c
  {
    if c != "" && c[0] != '|' {
      SplitFirstBar(c[1..], rest);
      assert (c + "|" + rest)[1..] == c[1..] + "|" + rest;
      assert c == [c[0]] + c[1..];
    } else if c == "" {
      assert "|" + rest == [ '|' ] + rest && ("" + "|" + rest)[1..] == rest;
    }
  }

  /** An id built from a call id and an item id splits back into them exactly when the call id has no bar. */
  lemma {:induction false} SplitsBackIff(call: string, item: string)
    requires item != ""
    ensures SplitToolCallId(call + "|" + item) == (call, Some(item)) <==> '|' !in call
  {
    SplitFirstBar(call, item);
  }

  datatype InputPart = InputText(text: string) | InputImage(url: string)

  datatype InputItem =
    | UserInput(parts: seq<InputPart>)
    | AssistantText(text: string, position: nat)
    | FunctionCall(id: string, callId: string, name: string, arguments: string)
    | FunctionOutput(callId: string, output: Content)

  function Digits(n: nat): (s: string)
    ensures s != "" && '|' !in s
  {
    if n < 10 then ["0123456789"[n]] else Digits(n / 10) + ["0123456789"[n % 10]]
  }

  /** The call id under which a call of the idx-th message is sent. */
  function SentId(c: ToolCall, idx: nat): (id: string)
    ensures id != ""
  {
    OrElse(SplitToolCallId(c.id).0, "call_" + Digits(idx))
  }

  function ConvertCall(c: ToolCall, idx: nat): InputItem {
    var item := SplitToolCallId(c.id).1;
    FunctionCall(
      if item.Some? then item.value else "fc_" + Digits(idx), SentId(c, idx), c.name, OrElse(c.arguments, "{}"))
  }

  /** Text and images with a url; anything else in the content is left out. */
  function ConvertPart(p: Part): seq<InputPart> {
    match p
    case TextPart(text) => [InputText(text)]
    case ImagePart(url, _) => if url != "" then [InputImage(url)] else []
    case OtherPart(_) => []
  }

  /** A user message always has a part: an empty text when nothing of it can be sent. */
  function ConvertUser(content: Content): (parts: seq<InputPart>)
    ensures parts != []
  {
    match content
    case Text(text) => [InputText(text)]
    case NoContent => [InputText("")]
    case Parts(parts) =>
      var converted := FlatMap(ConvertPart, parts);
      if converted != [] then converted else [InputText("")]
  }

  method ConvertUserMessage(content: Content) returns (item: InputItem)
    ensures item == UserInput(ConvertUser(content))
  {
    if content.Text? {
      return UserInput([InputText(content.text)]);
    }
    if content.Parts? {
      var converted: seq<InputPart> := [];
      FlatMapCons(ConvertPart, TextPart(""), []);
      for i := 0 to |content.parts|
        invariant converted == FlatMap(ConvertPart, content.parts[..i])
      {
        assert content.parts[..i + 1] == content.parts[..i] + [content.parts[i]];
        FlatMapAppend(ConvertPart, content.parts[..i], [content.parts[i]]);
        FlatMapCons(ConvertPart, content.parts[i], []);
        match content.parts[i] {
          case TextPart(text) => converted := converted + [InputText(text)];
          case ImagePart(url, _) =>
            if url != "" {
              converted := converted + [InputImage(url)];
            }
          case OtherPart(_) =>
        }
      }
      assert content.parts[..|content.parts|] == content.parts;
      if converted != [] {
        return UserInput(converted);
      }
    }
    return UserInput([InputText("")]);
  }

  function ConvertCalls(calls: seq<ToolCall>, idx: nat): (items: seq<InputItem>)
    ensures |items| == |calls|
    ensures forall k :: 0 <= k < |calls| ==> items[k] == ConvertCall(calls[k], idx)
  {
    seq(|calls|, k requires 0 <= k < |calls| => ConvertCall(calls[k], idx))
  }

  function ConvertOne(m: Message, idx: nat): seq<InputItem> {
    match m.role
    case System => []
    case User => [UserInput(ConvertUser(m.content))]
    case Assistant =>
      (if m.content.Text? && m.content.text != "" then [AssistantText(m.content.text, idx)] else [])
      + ConvertCalls(m.toolCalls, idx)
    case Tool => [FunctionOutput(SplitToolCallId(m.toolCallId).0, m.content)]
  }

  /** The first `n` messages, converted. */
  function Convert(ms: seq<Message>, n: nat): seq<InputItem>
    requires n <= |ms|
  {
    if n == 0 then [] else Convert(ms, n - 1) + ConvertOne(ms[n - 1], n - 1)
  }

  /** The text of the last system message among the first `n`, empty when there is none or it is not text. */
  function LastSystemText(ms: seq<Message>, n: nat): string
    requires n <= |ms|
  {
    if n == 0 then ""
    else if !ms[n - 1].role.System? then LastSystemText(ms, n - 1)
    else if ms[n - 1].content.Text? then ms[n - 1].content.text else ""
  }

  /** What a whole list is sent as: the instructions and the input items. */
  function SystemPrompt(ms: seq<Message>): string {
    LastSystemText(ms, |ms|)
  }

  function InputItems(ms: seq<Message>): seq<InputItem> {
    Convert(ms, |ms|)
  }

  method AppendAssistant(items: seq<InputItem>, m: Message, idx: nat) returns (items': seq<InputItem>)
    requires m.role.Assistant?
    ensures items' == items + ConvertOne(m, idx)
  {
    hide ConvertCall;
    ghost var head := if m.content.Text? && m.content.text != "" then [AssistantText(m.content.text, idx)] else [];
    items' := items;
    if m.content.Text? && m.content.text != "" {
      items' := items' + [AssistantText(m.content.text, idx)];
    }
    assert items' == items + head;
    for k := 0 to |m.toolCalls|
      invariant items' == items + (head + ConvertCalls(m.toolCalls, idx)[..k])
    {
      items' := items' + [ConvertCall(m.toolCalls[k], idx)];
    }
  }

  lemma {:induction false} ConvertedSimple(m: Message, idx: nat)
    ensures m.role.System? ==> ConvertOne(m, idx) == []
    ensures m.role.User? ==> ConvertOne(m, idx) == [UserInput(ConvertUser(m.content))]
    ensures m.role.Tool? ==> ConvertOne(m, idx) == [FunctionOutput(SplitToolCallId(m.toolCallId).0, m.content)]
  {
  }

  /** One pass over the messages. */
  method ConvertMessages(ms: seq<Message>) returns (system: string, items: seq<InputItem>)
    ensures system == SystemPrompt(ms) && items == InputItems(ms)
  {
    hide SplitToolCallId, ConvertOne, ConvertUser;
    system, items := "", [];
    for idx := 0 to |ms|
      invariant system == LastSystemText(ms, idx) && items == Convert(ms, idx)
    {
      var m := ms[idx];
      ConvertedSimple(m, idx);
      match m.role {
        case System =>
          system := if m.content.Text? then m.content.text else "";
          assert items + [] == items;
        case User =>
          var item := ConvertUserMessage(m.content);
          items := items + [item];
        case Assistant => items := AppendAssistant(items, m, idx);
        case Tool => items := items + [FunctionOutput(SplitToolCallId(m.toolCallId).0, m.content)];
      }
    }
  }

  predicate CallIn(items: seq<InputItem>, callId: string) {
    exists j :: 0 <= j < |items| && items[j].FunctionCall? && items[j].callId == callId
  }

  /** Every function output follows a function call with the same call id. */
  predicate LinkedItems(items: seq<InputItem>) {
    forall i :: 0 <= i < |items| && items[i].FunctionOutput? ==> CallIn(items[..i], items[i].callId)
  }

  predicate StartsWithBar(id: string) {
    id != "" && id[0] == '|'
  }

  lemma {:induction false} SplitNonEmpty(id: string)
    requires id != ""
    ensures SplitToolCallId(id).0 == "" <==> StartsWithBar(id)
  {
  }

  /** The idx-th message sends a call under this call id. */
  predicate SendsCall(m: Message, idx: nat, callId: string) {
    m.role.Assistant? && exists k :: 0 <= k < |m.toolCalls| && SentId(m.toolCalls[k], idx) == callId
  }

  /** One of the first `n` messages does. */
  predicate SentBefore(ms: seq<Message>, n: nat, callId: string)
    requires n <= |ms|
  {
    exists j :: 0 <= j < n && SendsCall(ms[j], j, callId)
  }

  lemma {:induction false} CallInConverted(calls: seq<ToolCall>, idx: nat, callId: string)
    ensures CallIn(ConvertCalls(calls, idx), callId) <==>
      exists k :: 0 <= k < |calls| && SentId(calls[k], idx) == callId
  {
    hide SplitToolCallId, Digits, SentId;
    assert forall k :: 0 <= k < |calls| ==> ConvertCalls(calls, idx)[k].callId == SentId(calls[k], idx);
  }

  lemma {:induction false} CallInOne(m: Message, idx: nat, callId: string)
    ensures CallIn(ConvertOne(m, idx), callId) <==> SendsCall(m, idx, callId)
  {
    hide SplitToolCallId, SentId, ConvertUser, ConvertCalls;
    if m.role.Assistant? {
      var head := if m.content.Text? && m.content.text != "" then [AssistantText(m.content.text, idx)] else [];
      CallInAppend(head, ConvertCalls(m.toolCalls, idx), callId);
      CallInConverted(m.toolCalls, idx, callId);
    }
  }

  /** The converted calls are the calls of the messages, under the ids they are sent with. */
  lemma {:induction false} CallInConvert(ms: seq<Message>, n: nat, callId: string)
    requires n <= |ms|
    ensures CallIn(Convert(ms, n), callId) <==> SentBefore(ms, n, callId)
  {
    hide ConvertOne, SendsCall;
    if n == 0 {
    } else {
      CallInConvert(ms, n - 1, callId);
      CallInAppend(Convert(ms, n - 1), ConvertOne(ms[n - 1], n - 1), callId);
      CallInOne(ms[n - 1], n - 1, callId);
    }
  }

  lemma {:induction false} CallInAppend(a: seq<InputItem>, b: seq<InputItem>, callId: string)
    ensures CallIn(a + b, callId) <==> CallIn(a, callId) || CallIn(b, callId)
  {
    assert forall t :: 0 <= t < |a| ==> (a + b)[t] == a[t];
    assert forall t :: 0 <= t < |b| ==> (a + b)[|a| + t] == b[t];
  }

  /** A call declared by an id without a leading bar is sent under the part before the bar. */
  lemma {:induction false} DeclaredIsSent(m: Message, idx: nat, id: string)
    requires Declares(m, id) && id != "" && !StartsWithBar(id)
    ensures SendsCall(m, idx, SplitToolCallId(id).0)
  {
    SplitNonEmpty(id);
    hide SplitToolCallId, Digits;
    var k :| 0 <= k < |m.toolCalls| && m.toolCalls[k].id == id;
    assert SentId(m.toolCalls[k], idx) == SplitToolCallId(id).0;
  }

  /** It appears among the converted items. */
  lemma {:induction false} DeclaredCallConverted(ms: seq<Message>, n: nat, j: nat, id: string)
    requires j < n <= |ms| && Declares(ms[j], id) && id != "" && !StartsWithBar(id)
    ensures CallIn(Convert(ms, n), SplitToolCallId(id).0)
  {
    hide SplitToolCallId, Convert, CallIn, SendsCall, Declares, StartsWithBar;
    DeclaredIsSent(ms[j], j, id);
    CallInConvert(ms, n, SplitToolCallId(id).0);
  }

  /** Every result among the first `n` messages finds a call sent before it. */
  predicate ResultsFindCalls(ms: seq<Message>, n: nat)
    requires n <= |ms|
  {
    forall i :: 0 <= i < n && ms[i].role.Tool? ==> SentBefore(ms, i, SplitToolCallId(ms[i].toolCallId).0)
  }

  /** Appending items without outputs keeps the links; appending one output needs its call in front. */
  lemma {:induction false} LinkedAppend(before: seq<InputItem>, added: seq<InputItem>)
    ensures (forall k :: 0 <= k < |added| ==> !added[k].FunctionOutput?) ==>
      (LinkedItems(before + added) <==> LinkedItems(before))
    ensures |added| == 1 && added[0].FunctionOutput? ==>
      (LinkedItems(before + added) <==> LinkedItems(before) && CallIn(before, added[0].callId))
  {
    var all := before + added;
    assert forall i :: 0 <= i < |before| ==> all[i] == before[i] && all[..i] == before[..i];
    assert forall i :: |before| <= i < |all| ==> all[i] == added[i - |before|];
    assert all[..|before|] == before;
    if LinkedItems(all) {
      forall i | 0 <= i < |before| && before[i].FunctionOutput?
        ensures CallIn(before[..i], before[i].callId)
      {
        assert CallIn(all[..i], all[i].callId);
      }
      if |added| == 1 && added[0].FunctionOutput? {
        assert CallIn(all[..|before|], all[|before|].callId);
      }
    }
  }

  /** One message more keeps the list linked, unless it is a result without a call before it. */
  lemma {:induction false} LinkedStep(ms: seq<Message>, i: nat)
    requires i < |ms|
    ensures LinkedItems(Convert(ms, i + 1)) <==>
      LinkedItems(Convert(ms, i)) && (ms[i].role.Tool? ==> SentBefore(ms, i, SplitToolCallId(ms[i].toolCallId).0))
  {
    hide SplitToolCallId, LinkedItems, SentBefore;
    LinkedAppend(Convert(ms, i), ConvertOne(ms[i], i));
    hide Convert;
    if ms[i].role.Tool? {
      CallInConvert(ms, i, SplitToolCallId(ms[i].toolCallId).0);
    } else {
      NoOutputsInOne(ms[i], i);
    }
  }

  lemma {:induction false} NoOutputsInOne(m: Message, idx: nat)
    requires !m.role.Tool?
    ensures forall t :: 0 <= t < |ConvertOne(m, idx)| ==> !ConvertOne(m, idx)[t].FunctionOutput?
  {
    hide SplitToolCallId, SentId, ConvertUser;
  }

  /** Any list converts to linked items exactly when every result finds its call among those sent before it. */
  lemma {:induction false} ConversionLinksIff(ms: seq<Message>, n: nat)
    requires n <= |ms|
    ensures LinkedItems(Convert(ms, n)) <==> ResultsFindCalls(ms, n)
  {
    hide *;
    if n == 0 {
      NothingConverted(ms);
    } else {
      ConversionLinksIff(ms, n - 1);
      LinkedStep(ms, n - 1);
      ResultsFindCallsStep(ms, n - 1);
    }
  }

  lemma {:induction false} ResultsFindCallsStep(ms: seq<Message>, i: nat)
    requires i < |ms|
    ensures ResultsFindCalls(ms, i + 1) <==>
      ResultsFindCalls(ms, i) && (ms[i].role.Tool? ==> SentBefore(ms, i, SplitToolCallId(ms[i].toolCallId).0))
  {
    hide SentBefore, SplitToolCallId;
  }

  lemma {:induction false} NothingConverted(ms: seq<Message>)
    ensures Convert(ms, 0) == [] && LinkedItems([]) && ResultsFindCalls(ms, 0)
  {
  }

  /** A result whose link survives the conversion: with an id, it does not start with a bar; without one, which
      reads as "call_0", some call before it is sent under that id. */
  predicate KeepsLink(ms: seq<Message>, i: nat)
    requires i < |ms|
  {
    if ms[i].toolCallId == "" then SentBefore(ms, i, "call_0") else !StartsWithBar(ms[i].toolCallId)
  }

  predicate AllKeepLinks(ms: seq<Message>) {
    forall i :: 0 <= i < |ms| && ms[i].role.Tool? ==> KeepsLink(ms, i)
  }

  lemma {:induction false} ResultIsDeclared(ms: seq<Message>, i: nat)
    requires Legal(ms) && i < |ms| && IsResult(ms[i])
    ensures DeclaredBetween(ms, 0, i, ms[i].toolCallId)
  {
  }

  /** A linked result keeps its link exactly under that condition. */
  lemma {:induction false} LinkedResult(ms: seq<Message>, i: nat)
    requires i < |ms| && (ms[i].toolCallId != "" ==> DeclaredBetween(ms, 0, i, ms[i].toolCallId))
    ensures SentBefore(ms, i, SplitToolCallId(ms[i].toolCallId).0) <==> KeepsLink(ms, i)
  {
    var id := ms[i].toolCallId;
    if id != "" {
      SplitNonEmpty(id);
      hide SplitToolCallId, Digits;
      if !StartsWithBar(id) {
        var j :| 0 <= j < i && Declares(ms[j], id);
        DeclaredIsSent(ms[j], j, id);
      }
    }
  }

  /** A history without orphans converts to linked items exactly when no result id starts with a bar, whose call
      gets a fallback call id while the result keeps the empty one, and every result without an id follows a
      call sent as "call_0". */
  lemma {:induction false} ConversionKeepsLinksIff(ms: seq<Message>)
    requires Legal(ms)
    ensures LinkedItems(InputItems(ms)) <==> AllKeepLinks(ms)
  {
    hide LinkedItems, SentBefore, KeepsLink, SplitToolCallId;
    ConversionLinksIff(ms, |ms|);
    forall i | 0 <= i < |ms| && ms[i].role.Tool?
      ensures SentBefore(ms, i, SplitToolCallId(ms[i].toolCallId).0) <==> KeepsLink(ms, i)
    {
      if IsResult(ms[i]) {
        ResultIsDeclared(ms, i);
      }
      LinkedResult(ms, i);
    }
  }

  /** The part of a result's id before the bar names no other call: ids like c|1 and c|2 do not meet. */
  predicate SentIdsIdentify(ms: seq<Message>) {
    forall i, j, k :: 0 <= j < i < |ms| && IsResult(ms[i]) && ms[j].role.Assistant? && 0 <= k < |ms[j].toolCalls| ==>
      SentId(ms[j].toolCalls[k], j) == SplitToolCallId(ms[i].toolCallId).0 ==> ms[j].toolCalls[k].id == ms[i].toolCallId
  }

  /** Then an orphan stays visible: the converted items are linked exactly when the history has no orphan and
      every link survives. */
  lemma {:induction false} ConversionAddsNoLinks(ms: seq<Message>)
    requires SentIdsIdentify(ms)
    ensures LinkedItems(InputItems(ms)) <==> Legal(ms) && AllKeepLinks(ms)
  {
    if Legal(ms) {
      ConversionKeepsLinksIff(ms);
    }
    if LinkedItems(InputItems(ms)) {
      hide SplitToolCallId, SentId, LinkedItems;
      ConversionLinksIff(ms, |ms|);
      forall i | 0 <= i < |ms| && IsResult(ms[i])
        ensures DeclaredBetween(ms, 0, i, ms[i].toolCallId)
      {
        var j :| 0 <= j < i && SendsCall(ms[j], j, SplitToolCallId(ms[i].toolCallId).0);
        var k :| 0 <= k < |ms[j].toolCalls|
              && SentId(ms[j].toolCalls[k], j) == SplitToolCallId(ms[i].toolCallId).0;
        assert ms[j].toolCalls[k].id == ms[i].toolCallId;
        assert Declares(ms[j], ms[i].toolCallId);
      }
    }
  }

  /** Without that condition an orphan can be linked: a call and a result that share only the part before the
      bar meet in the converted items. */
  lemma {:induction false} CollapsedIdsLink(c: string, one: string, other: string, call: Message, answer: Message)
    requires c != "" && '|' !in c && one != "" && other != "" && one != other
    requires call.role.Assistant? && |call.toolCalls| == 1 && call.toolCalls[0].id == c + "|" + one
    requires answer.role.Tool? && answer.toolCallId == c + "|" + other
    ensures !Legal([call, answer]) && LinkedItems(InputItems([call, answer]))
  {
    var ms := [call, answer];
    SplitsBackIff(c, one);
    SplitsBackIff(c, other);
    hide SplitToolCallId, Digits;
    assert SentId(call.toolCalls[0], 0) == c;
    assert SendsCall(ms[0], 0, c);
    ConversionLinksIff(ms, 2);
    assert (c + "|" + one)[|c| + 1..] == one && (c + "|" + other)[|c| + 1..] == other;
    assert !Declares(ms[0], answer.toolCallId);
    assert !DeclaredBetween(ms, 0, 1, ms[1].toolCallId);
  }

  /** What the order of calls and results is about. */
  datatype Trace = Called(name: string, arguments: string) | Answered(callId: string)

  function TraceOf(i: InputItem): seq<Trace> {
    match i
    case FunctionCall(_, _, name, arguments) => [Called(name, arguments)]
    case FunctionOutput(callId, _) => [Answered(callId)]
    case _ => []
  }

  function CalledAll(calls: seq<ToolCall>): seq<Trace> {
    if calls == [] then []
    else [Called(calls[0].name, OrElse(calls[0].arguments, "{}"))] + CalledAll(calls[1..])
  }

  function TraceOfMessage(m: Message): seq<Trace> {
    match m.role
    case Assistant => CalledAll(m.toolCalls)
    case Tool => [Answered(SplitToolCallId(m.toolCallId).0)]
    case _ => []
  }

  /** The calls and the outputs are those of the messages, in order: calls with their names and arguments,
      outputs under the call id part of the result's id. */
  lemma {:induction false} CallsAndOutputsInOrder(ms: seq<Message>, n: nat)
    requires n <= |ms|
    ensures FlatMap(TraceOf, Convert(ms, n)) == FlatMap(TraceOfMessage, ms[..n])
  {
    hide FlatMap, ConvertOne, TraceOfMessage;
    FlatMapCons(TraceOf, AssistantText("", 0), []);
    FlatMapCons(TraceOfMessage, Plain(User, NoContent), []);
    if n == 0 {
      assert ms[..0] == [];
    } else {
      CallsAndOutputsInOrder(ms, n - 1);
      FlatMapAppend(TraceOf, Convert(ms, n - 1), ConvertOne(ms[n - 1], n - 1));
      TraceOfOne(ms[n - 1], n - 1);
      assert ms[..n] == ms[..n - 1] + [ms[n - 1]];
      FlatMapAppend(TraceOfMessage, ms[..n - 1], [ms[n - 1]]);
      FlatMapCons(TraceOfMessage, ms[n - 1], []);
    }
  }

  lemma {:induction false} TraceOfOne(m: Message, idx: nat)
    ensures FlatMap(TraceOf, ConvertOne(m, idx)) == TraceOfMessage(m)
  {
    hide SplitToolCallId, SentId, ConvertCalls, FlatMap, ConvertUser, CalledAll;
    FlatMapCons(TraceOf, AssistantText("", 0), []);
    if m.role.Assistant? {
      TraceOfAssistant(m, idx);
    } else if !m.role.System? {
      FlatMapCons(TraceOf, ConvertOne(m, idx)[0], []);
    }
  }

  lemma {:induction false} TraceOfAssistant(m: Message, idx: nat)
    requires m.role.Assistant?
    ensures FlatMap(TraceOf, ConvertOne(m, idx)) == CalledAll(m.toolCalls)
  {
    hide SplitToolCallId, SentId, ConvertCalls, FlatMap, ConvertUser, CalledAll;
    var head := if m.content.Text? && m.content.text != "" then [AssistantText(m.content.text, idx)] else [];
    FlatMapAppend(TraceOf, head, ConvertCalls(m.toolCalls, idx));
    FlatMapCons(TraceOf, AssistantText(if m.content.Text? then m.content.text else "", idx), []);
    TraceOfCalls(m.toolCalls, idx);
  }

  lemma {:induction false} TraceOfCalls(calls: seq<ToolCall>, idx: nat)
    ensures FlatMap(TraceOf, ConvertCalls(calls, idx)) == CalledAll(calls)
  {
    hide SplitToolCallId, SentId;
    if calls == [] {
    } else {
      TraceOfCalls(calls[1..], idx);
      assert ConvertCalls(calls, idx)[1..] == ConvertCalls(calls[1..], idx);
    }
  }

  /** Whatever a session holds, what both providers are sent has no orphan, up to the links that the Codex
      conversion drops. */
  lemma {:induction false} SentHistoryIsLinked(h: Hashing, ms: seq<Message>, offset: nat, maxMessages: int)
    ensures var history := History(ms, offset, maxMessages);
      && Legal(Sanitize(h, history))
      && (LinkedItems(InputItems(history)) <==> AllKeepLinks(history))
  {
    hide History, LinkedItems, AllKeepLinks;
    var history := History(ms, offset, maxMessages);
    HistoryIsLegal(ms, offset, maxMessages);
    SanitizeKeepsLinks(h, history);
    ConversionKeepsLinksIff(history);
  }

  /* ---------- from the stream and back ---------- */

  /** A call read from a stream, stored under its joined id and sent again, is the same call exactly when its
      call id has no bar. */
  lemma {:induction false} StreamedCallReturnsIff(events: seq<Codex.Event>, k: nat, idx: nat)
    requires k < |Codex.Fold(events).calls|
    ensures var c := Codex.Fold(events).calls[k];
            var sent := ConvertCall(ToolCall(c.Id(), c.name, c.arguments), idx);
      sent == FunctionCall(c.itemId, c.callId, c.name, OrElse(c.arguments, "{}")) <==> '|' !in c.callId
  {
    var c := Codex.Fold(events).calls[k];
    Codex.EmittedIds(events);
    SplitsBackIff(c.callId, c.itemId);
    var (call, item) := SplitToolCallId(c.Id());
    assert c.Id() != "" && '|' !in call;
    hide SplitToolCallId, Digits;
    assert '|' !in SentId(ToolCall(c.Id(), c.name, c.arguments), idx);
  }
}
