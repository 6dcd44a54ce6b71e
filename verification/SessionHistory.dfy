/** The history window a session hands to the model (nanobot/session/manager.py). */
module SessionHistory {
  import opened Prelude
  import opened Chat

  /** The smallest index from which no result is an orphan. */
  ghost function LegalStart(ms: seq<Message>, from: nat := 0): (start: nat)
    requires from <= |ms|
    ensures from <= start <= |ms| && LegalFrom(ms, start)
    ensures forall s :: from <= s < start ==> !LegalFrom(ms, s)
    decreases |ms| - from
  {
    if LegalFrom(ms, from) then from else LegalStart(ms, from + 1)
  }

  /** One left-to-right scan computes the smallest legal start. */
  method FindLegalStart(ms: seq<Message>) returns (start: nat)
    ensures start <= |ms| && LegalFrom(ms, start)
    ensures forall s :: 0 <= s < start ==> !LegalFrom(ms, s)
    ensures start == LegalStart(ms)
  {
    var declared: set<string> := {};
    start := 0;
    for i := 0 to |ms|
      invariant start <= i
      invariant forall id :: id in declared <==> id != "" && DeclaredBetween(ms, start, i, id)
      invariant forall k :: start <= k < i && IsResult(ms[k]) ==> DeclaredBetween(ms, start, k, ms[k].toolCallId)
      invariant forall s :: 0 <= s < start ==> !LegalFrom(ms, s)
    {
      if ms[i].role.Assistant? {
        var calls := ms[i].toolCalls;
        for c := 0 to |calls|
          invariant forall id :: id in declared <==>
            id != "" && (DeclaredBetween(ms, start, i, id) || NamesCall(calls[..c], id))
        {
          assert calls[..c + 1] == calls[..c] + [calls[c]];
          if calls[c].id != "" {
            declared := declared + {calls[c].id};
          }
        }
        assert calls[..|calls|] == calls;
        assert forall id :: NamesCall(calls, id) <==> Declares(ms[i], id);
      } else if ms[i].role.Tool? {
        if ms[i].toolCallId != "" && ms[i].toolCallId !in declared {
          OrphanRulesOut(ms, start, i);
          // The source rescans messages[start:i + 1] here; with start == i + 1 that slice is empty.
          start := i + 1;
          declared := {};
        }
      }
    }
  }

  /** An orphan at `i` in the window from `start` is an orphan in every window from `start` up to `i`. */
  lemma {:induction false} OrphanRulesOut(ms: seq<Message>, start: nat, i: nat)
    requires start <= i < |ms| && IsResult(ms[i])
    requires !DeclaredBetween(ms, start, i, ms[i].toolCallId)
    ensures forall s :: start <= s <= i ==> !LegalFrom(ms, s)
  {
    forall s | start <= s <= i
      ensures !LegalFrom(ms, s)
    {
      assert !DeclaredBetween(ms, s, i, ms[i].toolCallId);
    }
  }

  /** Python's ms[-n:]: all of it for n == 0, the last n for n > 0, all but the first -n for n < 0. */
  function Tail(ms: seq<Message>, n: int): (w: seq<Message>)
    ensures |w| <= |ms| && w == ms[|ms| - |w|..]
    ensures n == 0 || n >= |ms| ==> |w| == |ms|
    ensures 0 < n <= |ms| ==> |w| == n
    ensures n < 0 ==> |w| == Max(|ms| + n, 0)
  {
    if n == 0 then ms
    else if n > 0 then LastN(ms, n)
    else if -n <= |ms| then ms[-n..] else []
  }

  /** ms[offset:], which is empty when the offset is past the end. */
  function Unconsolidated(ms: seq<Message>, offset: nat): seq<Message> {
    if offset <= |ms| then ms[offset..] else []
  }

  function FirstUser(ms: seq<Message>): (k: nat)
    ensures k <= |ms|
    ensures k < |ms| ==> ms[k].role.User?
    ensures forall i :: 0 <= i < k ==> !ms[i].role.User?
  {
    if ms == [] || ms[0].role.User? then 0 else 1 + FirstUser(ms[1..])
  }

  /** Drop leading messages up to the first user message, if there is one. */
  function AlignToUser(ms: seq<Message>): seq<Message> {
    var k := FirstUser(ms);
    if k < |ms| then ms[k..] else ms
  }

  /** The keys get_history copies: role, content, tool_calls, tool_call_id and name. */
  function ForModel(m: Message): Message {
    m.(timestamp := "")
  }

  function Project(ms: seq<Message>): (out: seq<Message>)
    ensures |out| == |ms|
  {
    seq(|ms|, i requires 0 <= i < |ms| => ForModel(ms[i]))
  }

  ghost function History(ms: seq<Message>, offset: nat, maxMessages: int): seq<Message> {
    var window := AlignToUser(Tail(Unconsolidated(ms, offset), maxMessages));
    Project(window[LegalStart(window)..])
  }

  lemma {:induction false} ProjectLegal(ms: seq<Message>)
    ensures Legal(Project(ms)) <==> Legal(ms)
  {
    var out := Project(ms);
    forall i | 0 <= i < |ms| && IsResult(ms[i])
      ensures DeclaredBetween(ms, 0, i, ms[i].toolCallId) <==> DeclaredBetween(out, 0, i, out[i].toolCallId)
    {
      assert forall j :: 0 <= j < i ==> (Declares(ms[j], ms[i].toolCallId) <==> Declares(out[j], ms[i].toolCallId));
    }
    assert forall i :: 0 <= i < |ms| ==> (IsResult(ms[i]) <==> IsResult(out[i]));
  }

  /** Whatever the stored list, offset and limit, the model never sees an orphan tool result. */
  lemma {:induction false} HistoryIsLegal(ms: seq<Message>, offset: nat, maxMessages: int)
    ensures Legal(History(ms, offset, maxMessages))
  {
    var window := AlignToUser(Tail(Unconsolidated(ms, offset), maxMessages));
    LegalSuffix(window, LegalStart(window));
    ProjectLegal(window[LegalStart(window)..]);
  }

  /** The trimmed window is the longest legal suffix of the aligned window. */
  lemma {:induction false} TrimKeepsLongestLegalSuffix(window: seq<Message>, start: nat)
    requires start <= |window| && Legal(window[start..])
    ensures LegalStart(window) <= start
  {
    LegalSuffix(window, start);
  }

  /** What consolidation keeps true of its offset: zero, or the index of a user message. */
  predicate TurnBoundary(ms: seq<Message>, offset: int) {
    offset == 0 || (0 < offset < |ms| && ms[offset].role.User?)
  }

  /** With paired blocks and a turn-boundary offset, the unlimited window needs no trimming at all. */
  lemma {:induction false} FullWindowNeedsNoTrim(ms: seq<Message>, offset: nat)
    requires Paired(ms) && TurnBoundary(ms, offset)
    ensures LegalStart(AlignToUser(ms[offset..])) == 0
    ensures History(ms, offset, 0) == Project(AlignToUser(ms[offset..]))
    ensures offset > 0 ==> History(ms, offset, 0) == Project(ms[offset..])
  {
    var rest := ms[offset..];
    var k := FirstUser(rest);
    var cut := if k < |rest| then offset + k else offset;
    assert AlignToUser(rest) == ms[cut..];
    if cut == 0 {
      forall i | 0 <= i < |ms| && IsResult(ms[i])
        ensures DeclaredBetween(ms, 0, i, ms[i].toolCallId)
      {
        assert PairedAt(ms, i);
      }
    } else {
      PairedCut(ms, cut);
    }
    LegalSuffix(ms, cut);
    assert Tail(rest, 0) == rest;
    assert ms[cut..][0..] == ms[cut..];
  }

  lemma {:induction false} FirstUserAppend(a: seq<Message>, b: seq<Message>)
    ensures FirstUser(a + b) == if FirstUser(a) < |a| then FirstUser(a) else |a| + FirstUser(b)
  {
    if a == [] {
      assert a + b == b;
    } else if !a[0].role.User? {
      assert (a + b)[1..] == a[1..] + b;
      FirstUserAppend(a[1..], b);
    }
  }

  /** A new turn that opens with the user's message is shown in full, behind the history shown before it;
      only an old window without any user message gives way. */
  lemma {:induction false} HistoryGrows(ms: seq<Message>, offset: nat, turn: seq<Message>)
    requires Paired(ms) && Paired(turn) && TurnBoundary(ms, offset)
    requires turn != [] && turn[0].role.User?
    ensures History(ms + turn, offset, 0) ==
      (if FirstUser(ms[offset..]) < |ms| - offset then History(ms, offset, 0) else []) + Project(turn)
  {
    hide *;
    GrownBoundary(ms, offset, turn);
    PairedAppend(ms, turn);
    FullWindowNeedsNoTrim(ms, offset);
    FullWindowNeedsNoTrim(ms + turn, offset);
    AlignAppend(ms[offset..], turn);
    ProjectAppend(AlignToUser(ms[offset..]), turn);
  }

  lemma {:induction false} GrownBoundary(ms: seq<Message>, offset: nat, turn: seq<Message>)
    requires TurnBoundary(ms, offset)
    ensures offset <= |ms| && TurnBoundary(ms + turn, offset) && (ms + turn)[offset..] == ms[offset..] + turn
  {
    assert offset > 0 ==> (ms + turn)[offset] == ms[offset];
  }

  lemma {:induction false} AlignAppend(rest: seq<Message>, turn: seq<Message>)
    requires turn != [] && turn[0].role.User?
    ensures AlignToUser(rest + turn) == if FirstUser(rest) < |rest| then AlignToUser(rest) + turn else turn
  {
    FirstUserAppend(rest, turn);
  }

  lemma {:induction false} ProjectAppend(a: seq<Message>, b: seq<Message>)
    ensures Project(a + b) == Project(a) + Project(b)
  {
  }

  /* ---------- what archiving a prefix does to the window ---------- */

  /** Where the window begins in the stored list, before it is aligned. */
  function WindowStart(ms: seq<Message>, offset: nat, maxMessages: nat): (start: nat)
    requires offset <= |ms|
    ensures offset <= start <= |ms|
  {
    if maxMessages == 0 || |ms| - offset <= maxMessages then offset else |ms| - maxMessages
  }

  /** `cut` is the first user message of the window. */
  predicate FirstUserAt(ms: seq<Message>, offset: nat, maxMessages: nat, cut: nat)
    requires offset <= |ms|
  {
    && WindowStart(ms, offset, maxMessages) <= cut < |ms| && ms[cut].role.User?
    && forall i :: WindowStart(ms, offset, maxMessages) <= i < cut ==> !ms[i].role.User?
  }

  lemma {:induction false} WindowIsSuffix(ms: seq<Message>, offset: nat, maxMessages: nat)
    requires offset <= |ms|
    ensures Tail(Unconsolidated(ms, offset), maxMessages) == ms[WindowStart(ms, offset, maxMessages)..]
  {
  }

  lemma {:induction false} AlignedAt(window: seq<Message>, k: nat)
    requires k < |window| && window[k].role.User? && forall i :: 0 <= i < k ==> !window[i].role.User?
    ensures AlignToUser(window) == window[k..]
  {
  }

  lemma {:induction false} AlignedWindow(ms: seq<Message>, offset: nat, maxMessages: nat, cut: nat)
    requires offset <= |ms| && FirstUserAt(ms, offset, maxMessages, cut)
    ensures AlignToUser(Tail(Unconsolidated(ms, offset), maxMessages)) == ms[cut..]
  {
    hide Tail, Unconsolidated, AlignToUser;
    var w := WindowStart(ms, offset, maxMessages);
    WindowIsSuffix(ms, offset, maxMessages);
    assert forall i :: 0 <= i <= cut - w ==> ms[w..][i] == ms[w + i];
    AlignedAt(ms[w..], cut - w);
    assert ms[w..][cut - w..] == ms[cut..];
  }

  /** A window is shown from its first user message on. */
  lemma {:induction false} ShownFromFirstUser(ms: seq<Message>, offset: nat, maxMessages: nat, cut: nat)
    requires Paired(ms) && offset <= |ms| && FirstUserAt(ms, offset, maxMessages, cut)
    ensures History(ms, offset, maxMessages) == Project(ms[cut..])
  {
    AlignedWindow(ms, offset, maxMessages, cut);
    PairedCut(ms, cut);
    LegalSuffix(ms, cut);
    hide LegalStart, Project, Tail, Unconsolidated, AlignToUser, Legal, Paired;
    LegalStartOfLegal(ms[cut..]);
    assert ms[cut..][0..] == ms[cut..];
  }

  lemma {:induction false} LegalStartOfLegal(ms: seq<Message>)
    requires Legal(ms)
    ensures LegalStart(ms) == 0
  {
  }

  /** Archiving a chunk leaves what the model sees as it was exactly when the part of the chunk that lies in
      the window holds no user message, for every non-negative limit. */
  lemma {:induction false} ArchivingKeepsHistoryIff(ms: seq<Message>, offset: nat, end: nat, maxMessages: nat)
    requires Paired(ms) && offset < end < |ms| && ms[end].role.User?
    ensures History(ms, end, maxMessages) == History(ms, offset, maxMessages) <==>
      forall i :: WindowStart(ms, offset, maxMessages) <= i < end ==> !ms[i].role.User?
  {
    hide History;
    var w := WindowStart(ms, offset, maxMessages);
    if w >= end {
      SameWindow(ms, offset, end, maxMessages);
    } else {
      ShownFromFirstUser(ms, end, maxMessages, end);
      var k := FirstUser(ms[w..end]);
      assert k < end - w ==> ms[w..end][k] == ms[w + k];
      assert forall i :: w <= i < w + k ==> ms[i] == ms[w..end][i - w];
      ShownFromFirstUser(ms, offset, maxMessages, w + k);
    }
  }

  lemma {:induction false} SameWindow(ms: seq<Message>, offset: nat, end: nat, maxMessages: nat)
    requires offset < end <= |ms| && end <= WindowStart(ms, offset, maxMessages)
    ensures History(ms, end, maxMessages) == History(ms, offset, maxMessages)
  {
    var w := WindowStart(ms, offset, maxMessages);
    assert Tail(Unconsolidated(ms, offset), maxMessages) == ms[w..] == Tail(Unconsolidated(ms, end), maxMessages);
  }

  lemma {:induction false} NoToolsIsPaired(ms: seq<Message>)
    requires forall i :: 0 <= i < |ms| ==> !ms[i].role.Tool?
    ensures Paired(ms)
  {
  }

  /** Archiving one exchange of two shortens the history to the second. */
  lemma {:induction false} ArchivingChangesHistory(ask: Message, answer: Message, again: Message)
    requires ask.role.User? && again.role.User? && answer.role.Assistant?
    ensures var ms := [ask, answer, again];
      && |History(ms, 0, 0)| == 3 && History(ms, 2, 0) == Project([again])
      && History(ms, 2, 500) != History(ms, 0, 500)
  {
    hide History, Paired;
    var ms := [ask, answer, again];
    assert Paired(ms) by {
      NoToolsIsPaired(ms);
    }
    assert ms[2..] == [again] && ms[0..] == ms;
    ShownFromFirstUser(ms, 0, 0, 0);
    ShownFromFirstUser(ms, 2, 0, 2);
    ArchivingKeepsHistoryIff(ms, 0, 2, 500);
    assert ms[0].role.User?;
  }
}
