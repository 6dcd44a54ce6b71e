/** What a history becomes for a provider, message by message
    (nanobot/providers/openai_codex_provider.py and nanobot/providers/litellm_provider.py). */
module ProviderTexts {
  import opened Prelude
  import opened Chat
  import opened ProviderLinks

  /* ---------- Codex ---------- */

  /** The number that decimal digits spell. */
  function ValueOf(s: string): nat {
    if s == "" then 0
    else
      var c := s[|s| - 1];
      10 * ValueOf(s[..|s| - 1]) + if '0' <= c <= '9' then (c - '0') as nat else 0
  }

  predicate AllDigits(s: string) {
    forall i :: 0 <= i < |s| ==> '0' <= s[i] <= '9'
  }

  lemma {:induction false} DigitsSpell(n: nat)
    ensures ValueOf(Digits(n)) == n && AllDigits(Digits(n)) && (|Digits(n)| > 1 ==> Digits(n)[0] != '0')
  {
    hide ValueOf, AllDigits;
    var s := Digits(n);
    if n >= 10 {
      DigitsSpell(n / 10);
      assert s == Digits(n / 10) + [s[|s| - 1]];
      OneMoreDigit(Digits(n / 10), n % 10);
    } else {
      assert s == "" + [s[0]];
      OneMoreDigit("", n);
    }
  }

  lemma {:induction false} OneMoreDigit(s: string, d: nat)
    requires d < 10 && (s == "" || AllDigits(s))
    ensures ValueOf(s + ["0123456789"[d]]) == 10 * ValueOf(s) + d && AllDigits(s + ["0123456789"[d]])
    ensures ValueOf("") == 0
  {
    assert (s + ["0123456789"[d]])[..|s|] == s;
  }

  /** How an id reads: the text before its first bar and the text behind it; a missing id reads as call_0. */
  predicate IdReads(id: string, call: string, item: string) {
    if id == "" then call == "call_0" && item == ""
    else if '|' !in id then call == id && item == ""
    else '|' !in call && id == call + "|" + item
  }

  /** The item of the k-th call of the idx-th message: its ids as they read, else numbered by the message; its
      name; and its arguments, an empty object when there are none. */
  ghost predicate IsCallItem(c: ToolCall, idx: nat, item: InputItem) {
    && item.FunctionCall? && item.name == c.name
    && item.arguments == (if c.arguments == "" then "{}" else c.arguments)
    && exists call, own ::
         && IdReads(c.id, call, own)
         && item.callId == (if call != "" then call else "call_" + Digits(idx))
         && item.id == (if own != "" then own else "fc_" + Digits(idx))
  }

  lemma {:induction false} SplitReads(id: string)
    ensures var (call, own) := SplitToolCallId(id);
      IdReads(id, call, if own.Some? then own.value else "") && own != Some("")
  {
    if id != "" {
      var (call, own) := SplitBar(id);
      if own.Some? {
        assert id[|call|] == '|';
      }
    }
  }

  lemma {:induction false} CallItemIs(c: ToolCall, idx: nat)
    ensures IsCallItem(c, idx, ConvertCall(c, idx))
  {
    SplitReads(c.id);
    hide SplitToolCallId, IdReads, Digits;
  }

  /** What can be sent of the parts of a user message: texts, and images with a url, in order. */
  function Sendable(parts: seq<Part>): seq<InputPart> {
    if parts == [] then []
    else
      (match parts[0]
       case TextPart(text) => [InputText(text)]
       case ImagePart(url, _) => if url == "" then [] else [InputImage(url)]
       case OtherPart(_) => [])
      + Sendable(parts[1..])
  }

  lemma {:induction false} SendableIs(parts: seq<Part>)
    ensures Sendable(parts) == FlatMap(ConvertPart, parts)
  {
    if parts != [] {
      SendableIs(parts[1..]);
    }
  }

  /** The items are those of one message. */
  ghost predicate ShowsMessage(items: seq<InputItem>, m: Message, idx: nat) {
    match m.role
    case System => items == []
    case User =>
      items == [UserInput(
        match m.content
        case Text(text) => [InputText(text)]
        case NoContent => [InputText("")]
        case Parts(parts) => if Sendable(parts) == [] then [InputText("")] else Sendable(parts))]
    case Assistant =>
      var text := if m.content.Text? && m.content.text != "" then 1 else 0;
      && |items| == text + |m.toolCalls|
      && (text == 1 ==> items[0] == AssistantText(m.content.text, idx))
      && forall k :: 0 <= k < |m.toolCalls| ==> IsCallItem(m.toolCalls[k], idx, items[text + k])
    case Tool =>
      |items| == 1 && items[0].FunctionOutput? && items[0].output == m.content
      && exists own :: IdReads(m.toolCallId, items[0].callId, own)
  }

  lemma {:induction false} UserShows(m: Message, idx: nat)
    requires m.role.User?
    ensures ShowsMessage(ConvertOne(m, idx), m, idx)
  {
    hide ConvertPart, Sendable;
    if m.content.Parts? {
      SendableIs(m.content.parts);
    }
  }

  lemma {:induction false} AssistantShows(m: Message, idx: nat)
    requires m.role.Assistant?
    ensures ShowsMessage(ConvertOne(m, idx), m, idx)
  {
    hide IsCallItem, ConvertCall, ConvertUser, SplitToolCallId, Sendable;
    forall k | 0 <= k < |m.toolCalls|
      ensures IsCallItem(m.toolCalls[k], idx, ConvertCall(m.toolCalls[k], idx))
    {
      CallItemIs(m.toolCalls[k], idx);
    }
  }

  lemma {:induction false} OneShows(m: Message, idx: nat)
    ensures ShowsMessage(ConvertOne(m, idx), m, idx)
  {
    hide ShowsMessage, ConvertOne;
    match m.role {
      case User => UserShows(m, idx);
      case Assistant => AssistantShows(m, idx);
      case _ => OthersShow(m, idx);
    }
  }

  lemma {:induction false} OthersShow(m: Message, idx: nat)
    requires m.role.System? || m.role.Tool?
    ensures ShowsMessage(ConvertOne(m, idx), m, idx)
  {
    hide IsCallItem, ConvertCall, ConvertUser, SplitToolCallId, Sendable, IdReads;
    SplitReads(m.toolCallId);
  }

  /** The items are those of the messages, one message after the other. */
  ghost predicate ShowsAll(items: seq<InputItem>, ms: seq<Message>)
    decreases |ms|
  {
    if ms == [] then items == []
    else
      var last := |ms| - 1;
      exists k :: 0 <= k <= |items| && ShowsAll(items[..k], ms[..last]) && ShowsMessage(items[k..], ms[last], last)
  }

  lemma {:induction false} PrefixShows(ms: seq<Message>, n: nat)
    requires n <= |ms|
    ensures ShowsAll(Convert(ms, n), ms[..n])
  {
    hide ShowsMessage, ConvertOne;
    if n > 0 {
      PrefixShows(ms, n - 1);
      OneShows(ms[n - 1], n - 1);
      var before, piece := Convert(ms, n - 1), ConvertOne(ms[n - 1], n - 1);
      var items := Convert(ms, n);
      assert items[..|before|] == before && items[|before|..] == piece;
      assert ms[..n][..n - 1] == ms[..n - 1];
    }
  }

  /** Every message of any history is sent in full and in order: texts, images, calls under the ids they read
      as, and results under the id of their call. */
  lemma {:induction false} HistoryIsSent(ms: seq<Message>)
    ensures ShowsAll(InputItems(ms), ms)
  {
    PrefixShows(ms, |ms|);
    assert ms[..|ms|] == ms;
  }

  lemma {:induction false} LastSystemTextIs(ms: seq<Message>, n: nat, i: nat)
    requires i < n <= |ms| && ms[i].role.System? && forall j :: i < j < n ==> !ms[j].role.System?
    ensures LastSystemText(ms, n) == match ms[i].content case Text(text) => text case _ => ""
  {
    if i < n - 1 {
      LastSystemTextIs(ms, n - 1, i);
    }
  }

  /** The instructions are the text of the last system message, */
  lemma {:induction false} InstructionsAreLast(ms: seq<Message>, i: nat)
    requires i < |ms| && ms[i].role.System? && forall j :: i < j < |ms| ==> !ms[j].role.System?
    ensures SystemPrompt(ms) == match ms[i].content case Text(text) => text case _ => ""
  {
    LastSystemTextIs(ms, |ms|, i);
  }

  lemma {:induction false} NoSystemText(ms: seq<Message>, n: nat)
    requires n <= |ms| && forall j :: 0 <= j < n ==> !ms[j].role.System?
    ensures LastSystemText(ms, n) == ""
  {
    if n > 0 {
      NoSystemText(ms, n - 1);
    }
  }

  /** and empty without one. */
  lemma {:induction false} NoInstructions(ms: seq<Message>)
    requires forall j :: 0 <= j < |ms| ==> !ms[j].role.System?
    ensures SystemPrompt(ms) == ""
  {
    NoSystemText(ms, |ms|);
  }

  /* ---------- LiteLLM ---------- */

  /** Only ids change, and only to nine letters and digits: one that is so already stays, any other becomes the
      start of its digest, and a missing one stays missing. */
  predicate IsShort(h: Hashing, id: string, short: string) {
    if id == "" then short == ""
    else if |id| == 9 && forall i :: 0 <= i < |id| ==> h.isAlnum(id[i]) then short == id
    else |short| == 9 && |h.sha1Hex(id)| >= 9 && short == h.sha1Hex(id)[..9]
  }

  predicate SameCall(h: Hashing, c: ToolCall, sent: ToolCall) {
    sent == c.(id := sent.id) && IsShort(h, c.id, sent.id)
  }

  lemma {:induction false} ShortIdIs(h: Hashing, id: string)
    requires h.Valid()
    ensures IsShort(h, id, ShortId(h, id))
  {
  }

  lemma {:induction false} OnlyIdsChange(h: Hashing, ms: seq<Message>, i: nat)
    requires h.Valid() && i < |ms|
    ensures var sent := Sanitize(h, ms);
      && |sent| == |ms|
      && sent[i] == ms[i].(toolCalls := sent[i].toolCalls, toolCallId := sent[i].toolCallId)
      && IsShort(h, ms[i].toolCallId, sent[i].toolCallId)
      && |sent[i].toolCalls| == |ms[i].toolCalls|
      && forall k :: 0 <= k < |ms[i].toolCalls| ==> SameCall(h, ms[i].toolCalls[k], sent[i].toolCalls[k])
  {
    hide IsShort, ShortId;
    ShortIdIs(h, ms[i].toolCallId);
    forall k | 0 <= k < |ms[i].toolCalls|
      ensures SameCall(h, ms[i].toolCalls[k], SanitizeCall(h, ms[i].toolCalls[k]))
    {
      ShortIdIs(h, ms[i].toolCalls[k].id);
    }
  }
}
