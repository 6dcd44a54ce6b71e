/** The message vocabulary shared by the agent loop, the session store and the providers. */
module Chat {
  import opened Prelude

  datatype Role = System | User | Assistant | Tool

  /** One entry of an assistant message's tool_calls; the empty id stands for a missing one. */
  datatype ToolCall = ToolCall(id: string, name: string, arguments: string)

  datatype Part = TextPart(text: string) | ImagePart(url: string, path: string) | OtherPart(body: string)

  datatype Content = NoContent | Text(text: string) | Parts(parts: seq<Part>)

  /** A persisted or outgoing message; an empty toolCallId, name or timestamp stands for an absent key. */
  datatype Message = Message(
    role: Role, content: Content, toolCalls: seq<ToolCall>,
    toolCallId: string, name: string, timestamp: string)

  function Plain(role: Role, content: Content): Message {
    Message(role, content, [], "", "", "")
  }

  predicate NamesCall(calls: seq<ToolCall>, id: string) {
    exists k :: 0 <= k < |calls| && calls[k].id == id
  }

  predicate Declares(m: Message, id: string) {
    m.role.Assistant? && NamesCall(m.toolCalls, id)
  }

  /** A tool result that must be linked: results without an id are never checked. */
  predicate IsResult(m: Message) {
    m.role.Tool? && m.toolCallId != ""
  }

  predicate DeclaredBetween(ms: seq<Message>, lo: int, hi: int, id: string)
    requires 0 <= lo && hi <= |ms|
  {
    exists j :: lo <= j < hi && Declares(ms[j], id)
  }

  /** In the suffix that starts at `start`, every result follows the assistant message that declared its call. */
  predicate LegalFrom(ms: seq<Message>, start: int)
    requires 0 <= start <= |ms|
  {
    forall i :: start <= i < |ms| && IsResult(ms[i]) ==> DeclaredBetween(ms, start, i, ms[i].toolCallId)
  }

  /** No orphan tool result anywhere in the list. */
  predicate Legal(ms: seq<Message>) {
    LegalFrom(ms, 0)
  }

  lemma {:induction false} LegalSuffix(ms: seq<Message>, start: nat)
    requires start <= |ms|
    ensures Legal(ms[start..]) <==> LegalFrom(ms, start)
  {
    var tail := ms[start..];
    if LegalFrom(ms, start) {
      forall i | 0 <= i < |tail| && IsResult(tail[i])
        ensures DeclaredBetween(tail, 0, i, tail[i].toolCallId)
      {
        var j :| start <= j < start + i && Declares(ms[j], ms[start + i].toolCallId);
        assert tail[j - start] == ms[j];
      }
    }
    if Legal(tail) {
      forall i | start <= i < |ms| && IsResult(ms[i])
        ensures DeclaredBetween(ms, start, i, ms[i].toolCallId)
      {
        assert tail[i - start] == ms[i];
        var j :| 0 <= j < i - start && Declares(tail[j], ms[i].toolCallId);
        assert ms[start + j] == tail[j];
      }
    }
  }

  /** A result sits directly behind its assistant message: only other results come in between. */
  predicate PairedAt(ms: seq<Message>, i: int)
    requires 0 <= i < |ms|
  {
    exists j :: 0 <= j < i && Declares(ms[j], ms[i].toolCallId)
                && forall k :: j < k < i ==> ms[k].role.Tool?
  }

  /** Every result stands in the block of the assistant message that declared its call. */
  predicate Paired(ms: seq<Message>) {
    forall i :: 0 <= i < |ms| && IsResult(ms[i]) ==> PairedAt(ms, i)
  }

  lemma {:induction false} PairedAppend(a: seq<Message>, b: seq<Message>)
    requires Paired(a) && Paired(b)
    ensures Paired(a + b)
  {
    var all := a + b;
    forall i | 0 <= i < |all| && IsResult(all[i])
      ensures PairedAt(all, i)
    {
      if i < |a| {
        assert a[i] == all[i];
        var j :| 0 <= j < i && Declares(a[j], a[i].toolCallId) && forall k :: j < k < i ==> a[k].role.Tool?;
        assert all[j] == a[j];
      } else {
        var n := i - |a|;
        assert b[n] == all[i];
        var j :| 0 <= j < n && Declares(b[j], b[n].toolCallId) && forall k :: j < k < n ==> b[k].role.Tool?;
        assert all[|a| + j] == b[j];
        assert forall k :: |a| + j < k < i ==> all[k] == b[k - |a|];
      }
    }
  }

  /** A paired list may be cut at any message that is not a tool message without leaving an orphan. */
  lemma {:induction false} PairedCut(ms: seq<Message>, start: nat)
    requires Paired(ms) && start <= |ms|
    requires start == |ms| || !ms[start].role.Tool?
    ensures LegalFrom(ms, start)
  {
    forall i | start <= i < |ms| && IsResult(ms[i])
      ensures DeclaredBetween(ms, start, i, ms[i].toolCallId)
    {
      assert PairedAt(ms, i);
      var j :| 0 <= j < i && Declares(ms[j], ms[i].toolCallId) && forall k :: j < k < i ==> ms[k].role.Tool?;
      assert !ms[start].role.Tool?;
      if j < start {
        assert false;
      }
    }
  }

  function IdsOf(calls: seq<ToolCall>): (ids: seq<string>)
    ensures |ids| == |calls|
  {
    seq(|calls|, k requires 0 <= k < |calls| => calls[k].id)
  }

  function CallIdsOf(m: Message): seq<string> {
    if m.role.Assistant? then IdsOf(m.toolCalls) else []
  }

  function ResultIdsOf(m: Message): seq<string> {
    if m.role.Tool? then [m.toolCallId] else []
  }

  /** The ids of the calls made, in order. */
  function CallIds(ms: seq<Message>): seq<string> {
    FlatMap(CallIdsOf, ms)
  }

  /** The ids the results name, in order. */
  function ResultIds(ms: seq<Message>): seq<string> {
    FlatMap(ResultIdsOf, ms)
  }

  lemma {:induction false} IdsCons(m: Message, rest: seq<Message>)
    ensures CallIds([m] + rest) == CallIdsOf(m) + CallIds(rest)
    ensures ResultIds([m] + rest) == ResultIdsOf(m) + ResultIds(rest)
    ensures CallIds([m]) == CallIdsOf(m) && ResultIds([m]) == ResultIdsOf(m)
    ensures CallIds([]) == [] && ResultIds([]) == []
  {
    FlatMapCons(CallIdsOf, m, rest);
    FlatMapCons(ResultIdsOf, m, rest);
  }

  lemma {:induction false} IdsAppend(a: seq<Message>, b: seq<Message>)
    ensures CallIds(a + b) == CallIds(a) + CallIds(b)
    ensures ResultIds(a + b) == ResultIds(a) + ResultIds(b)
  {
    FlatMapAppend(CallIdsOf, a, b);
    FlatMapAppend(ResultIdsOf, a, b);
  }
}
