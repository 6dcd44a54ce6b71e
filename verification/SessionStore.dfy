/** Sessions, their JSONL files and the manager's cache (nanobot/session/manager.py). */
module SessionStore {
  import opened Prelude
  import opened Chat
  import opened SessionHistory

  /** The persistent part of a session. */
  datatype SessionValue = SessionValue(messages: seq<Message>, metadata: map<string, string>, lastConsolidated: nat)

  const EMPTY_SESSION := SessionValue([], map[], 0)

  /** One line of a session file. Corrupt is text that is not JSON; Fatal is JSON that is not an object, or bytes
      that are not UTF-8: both end every reading of the file, not just that of the line. */
  datatype Line =
    | EmptyLine
    | Meta(metadata: map<string, string>, lastConsolidated: nat)
    | Record(message: Message)
    | Corrupt
    | Fatal

  function Records(ms: seq<Message>): (lines: seq<Line>)
    ensures |lines| == |ms|
    ensures forall i :: 0 <= i < |ms| ==> lines[i] == Record(ms[i])
  {
    seq(|ms|, i requires 0 <= i < |ms| => Record(ms[i]))
  }

  /** What save writes: the metadata line, then one line per message. */
  function FileOf(s: SessionValue): seq<Line> {
    [Meta(s.metadata, s.lastConsolidated)] + Records(s.messages)
  }

  /** Reading line by line; the accumulator is the session read so far. */
  function ReadLines(lines: seq<Line>, acc: SessionValue): SessionValue {
    if lines == [] then acc
    else
      match lines[0]
      case Meta(metadata, offset) => ReadLines(lines[1..], acc.(metadata := metadata, lastConsolidated := offset))
      case Record(m) => ReadLines(lines[1..], acc.(messages := acc.messages + [m]))
      case _ => ReadLines(lines[1..], acc)
  }

  /** Recovery skips lines that are not JSON, and gives up on a fatal line or when nothing is left. */
  function Repair(lines: seq<Line>): Option<SessionValue> {
    if Fatal in lines then None
    else
      var s := ReadLines(lines, EMPTY_SESSION);
      if s.messages == [] && s.metadata == map[] then None else Some(s)
  }

  function Load(lines: seq<Line>): Option<SessionValue> {
    if Corrupt in lines || Fatal in lines then Repair(lines) else Some(ReadLines(lines, EMPTY_SESSION))
  }

  lemma {:induction false} ReadRecords(ms: seq<Message>, acc: SessionValue)
    ensures ReadLines(Records(ms), acc) == acc.(messages := acc.messages + ms)
  {
    if ms == [] {
      assert acc.messages + ms == acc.messages;
    } else {
      ReadRecords(ms[1..], acc.(messages := acc.messages + [ms[0]]));
      assert Records(ms)[1..] == Records(ms[1..]);
      assert acc.messages + [ms[0]] + ms[1..] == acc.messages + ms;
    }
  }

  /** What was saved is what is loaded. */
  lemma {:induction false} SaveLoadRoundTrip(s: SessionValue)
    ensures Load(FileOf(s)) == Some(s)
  {
    FileIsReadable(s);
    ReadFile(s);
  }

  lemma {:induction false} FileIsReadable(s: SessionValue)
    ensures Corrupt !in FileOf(s) && Fatal !in FileOf(s)
  {
  }

  lemma {:induction false} ReadFile(s: SessionValue)
    ensures ReadLines(FileOf(s), EMPTY_SESSION) == s
  {
    ReadRecords(s.messages, SessionValue([], s.metadata, s.lastConsolidated));
    assert FileOf(s)[1..] == Records(s.messages);
    assert [] + s.messages == s.messages;
  }

  /* ---------- what a repair does to the offset ---------- */

  /** A line that no longer says what was written: blank, not JSON, or fatal. A line merged into the damaged one
      before it counts as blank. */
  predicate Damaged(line: Line) {
    line.EmptyLine? || line.Corrupt? || line.Fatal?
  }

  /** The saved message lines with some of them damaged. */
  predicate DamagedRecords(ms: seq<Message>, lines: seq<Line>) {
    |lines| == |ms| && forall i :: 0 <= i < |ms| ==> lines[i] == Record(ms[i]) || Damaged(lines[i])
  }

  /** The saved metadata line, possibly damaged. */
  predicate DamagedHead(s: SessionValue, head: Line) {
    head == Meta(s.metadata, s.lastConsolidated) || Damaged(head)
  }

  /** What get_or_create makes of a file. */
  function Reloaded(file: seq<Line>): SessionValue {
    if Load(file).Some? then Load(file).value else EMPTY_SESSION
  }

  function Survivors(lines: seq<Line>): seq<Message> {
    if lines == [] then []
    else (if lines[0].Record? then [lines[0].message] else []) + Survivors(lines[1..])
  }

  lemma {:induction false} ReadDamaged(ms: seq<Message>, lines: seq<Line>, acc: SessionValue)
    requires DamagedRecords(ms, lines)
    ensures ReadLines(lines, acc) == acc.(messages := acc.messages + Survivors(lines))
  {
    if ms == [] {
      assert acc.messages + Survivors(lines) == acc.messages;
    } else {
      var next := if lines[0].Record? then acc.(messages := acc.messages + [lines[0].message]) else acc;
      ReadDamaged(ms[1..], lines[1..], next);
      assert next.messages + Survivors(lines[1..]) == acc.messages + Survivors(lines);
    }
  }

  lemma {:induction false} SurvivorsCons(line: Line, rest: seq<Line>)
    ensures Survivors([line] + rest) == (if line.Record? then [line.message] else []) + Survivors(rest)
    ensures Survivors([]) == []
  {
  }

  lemma {:induction false} SurvivorsAppend(a: seq<Line>, b: seq<Line>)
    ensures Survivors(a + b) == Survivors(a) + Survivors(b)
  {
    hide Survivors;
    if a == [] {
      SurvivorsCons(EmptyLine, []);
      assert a + b == b;
    } else {
      SurvivorsAppend(a[1..], b);
      SurvivorsCons(a[0], a[1..]);
      SurvivorsCons(a[0], a[1..] + b);
      assert a == [a[0]] + a[1..] && a + b == [a[0]] + (a[1..] + b);
    }
  }

  lemma {:induction false} SurvivorCount(lines: seq<Line>)
    ensures |Survivors(lines)| <= |lines|
    ensures |Survivors(lines)| == |lines| <==> forall i :: 0 <= i < |lines| ==> lines[i].Record?
  {
    if lines == [] {
    } else {
      SurvivorCount(lines[1..]);
      assert (forall i :: 0 <= i < |lines| ==> lines[i].Record?) <==>
             lines[0].Record? && forall i :: 0 <= i < |lines[1..]| ==> lines[1..][i].Record?;
    }
  }

  lemma {:induction false} DropInside(x: seq<Message>, y: seq<Message>, k: nat)
    requires |x| <= k
    ensures Unconsolidated(x + y, k) == y <==> |x| == k || y == []
  {
    if |x| < k && y != [] {
      assert |Unconsolidated(x + y, k)| < |y|;
    }
  }

  lemma {:induction false} AllRecords(lines: seq<Line>)
    requires forall i :: 0 <= i < |lines| ==> lines[i].Record? || Damaged(lines[i])
    ensures |Survivors(lines)| <= |lines|
    ensures |Survivors(lines)| == |lines| <==> forall i :: 0 <= i < |lines| ==> !Damaged(lines[i])
  {
    hide Survivors;
    SurvivorCount(lines);
    if i :| 0 <= i < |lines| && Damaged(lines[i]) {
      assert !lines[i].Record?;
    }
  }

  /** When the file of a session is damaged in any lines, its metadata line included, the reloaded session
      shows exactly the surviving unconsolidated messages iff
      - with a fatal line, which voids the whole file, none survived;
      - with a lost metadata line, which resets the offset, no archived message survived to be shown again;
      - otherwise no archived message was lost, which would shift the window under the old offset, or no
        unconsolidated one survived. */
  lemma {:induction false} ReloadKeepsWindowIff(s: SessionValue, head: Line, lines: seq<Line>)
    requires s.lastConsolidated <= |s.messages|
    requires DamagedHead(s, head) && DamagedRecords(s.messages, lines)
    ensures var file := [head] + lines;
            var v := Reloaded(file);
            var consolidated, rest := lines[..s.lastConsolidated], lines[s.lastConsolidated..];
      && (Fatal !in file ==> v.messages == Survivors(lines))
      && (Unconsolidated(v.messages, v.lastConsolidated) == Survivors(rest) <==>
            if Fatal in file then Survivors(rest) == []
            else if Damaged(head) then Survivors(consolidated) == []
            else (forall i :: 0 <= i < |consolidated| ==> !Damaged(consolidated[i])) || Survivors(rest) == [])
  {
    hide Reloaded, Survivors, Damaged, Unconsolidated;
    ReloadedShows(s, head, lines);
    var consolidated, rest := lines[..s.lastConsolidated], lines[s.lastConsolidated..];
    assert lines == consolidated + rest;
    SurvivorsAppend(consolidated, rest);
    AllRecords(consolidated);
    DropInside(Survivors(consolidated), Survivors(rest), s.lastConsolidated);
    DropInside([], Survivors(consolidated) + Survivors(rest), 0);
    assert [] + (Survivors(consolidated) + Survivors(rest)) == Survivors(consolidated) + Survivors(rest);
    NothingDrops(Survivors(rest));
  }

  lemma {:induction false} NothingDrops(y: seq<Message>)
    ensures forall k: nat :: Unconsolidated([], k) == []
    ensures forall x :: x + y == y <==> x == []
  {
    assert [] + y == y;
    forall x: seq<Message> | x != []
      ensures x + y != y
    {
      assert |x + y| > |y|;
    }
  }

  lemma {:induction false} ReloadedShows(s: SessionValue, head: Line, lines: seq<Line>)
    requires DamagedHead(s, head) && DamagedRecords(s.messages, lines)
    ensures var file := [head] + lines;
            var v := Reloaded(file);
      if Fatal in file then v == EMPTY_SESSION
      else
        && v.messages == Survivors(lines)
        && (Survivors(lines) != [] ==> v.lastConsolidated == if Damaged(head) then 0 else s.lastConsolidated)
  {
    hide Reloaded, Survivors, Damaged, DamagedRecords;
    ReloadDamaged(s, head, lines);
  }

  /** What a damaged file is reloaded as: nothing with a fatal line; otherwise the surviving messages, under the
      metadata and the offset of the first line if that survived, and nothing when neither is left. */
  lemma {:induction false} ReloadDamaged(s: SessionValue, head: Line, lines: seq<Line>)
    requires DamagedHead(s, head) && DamagedRecords(s.messages, lines)
    ensures var file, kept := [head] + lines, Survivors(lines);
            var (metadata, offset) := if Damaged(head) then (map[], 0) else (s.metadata, s.lastConsolidated);
      Reloaded(file) ==
        if Fatal in file || (Corrupt in file && kept == [] && metadata == map[]) then SessionValue([], map[], 0)
        else SessionValue(kept, metadata, offset)
  {
    var file := [head] + lines;
    assert file[1..] == lines;
    var start := if head.Meta? then SessionValue([], s.metadata, s.lastConsolidated) else EMPTY_SESSION;
    ReadDamaged(s.messages, lines, start);
    assert [] + Survivors(lines) == Survivors(lines);
    assert ReadLines(file, EMPTY_SESSION) == start.(messages := Survivors(lines));
  }

  /** The two ways a damaged line moves the window: behind a lost metadata line everything archived is shown
      again; behind a lost archived message the first unconsolidated one is no longer shown. */
  lemma {:induction false} DamageMovesWindow(a: Message, b: Message, metadata: map<string, string>)
    ensures var v := Reloaded([Corrupt, Record(a), Record(b)]);
      v.messages == [a, b] && v.metadata == map[] && Unconsolidated(v.messages, v.lastConsolidated) == [a, b]
    ensures var v := Reloaded([Meta(metadata, 1), Corrupt, Record(b)]);
      v.messages == [b] && Unconsolidated(v.messages, v.lastConsolidated) == []
  {
    hide Load;
    DamagedPair(Corrupt, Record(a), Record(b));
    DamagedPair(Meta(metadata, 1), Corrupt, Record(b));
  }

  lemma {:induction false} DamagedPair(head: Line, first: Line, second: Line)
    requires Corrupt in [head, first, second] && second.Record?
    requires (head.Meta? || head == Corrupt) && (first.Record? || first == Corrupt)
    ensures var v := Reloaded([head, first, second]);
      && v.messages == (if first.Record? then [first.message] else []) + [second.message]
      && (v.metadata, v.lastConsolidated) == if head.Meta? then (head.metadata, head.lastConsolidated) else (map[], 0)
  {
    var start := if head.Meta? then SessionValue([], head.metadata, head.lastConsolidated) else EMPTY_SESSION;
    assert [head, first, second][1..] == [first, second];
    assert [first, second][1..] == [second] && [second][1..] == [];
    var next := if first.Record? then start.(messages := [first.message]) else start;
    assert start.messages + (if first.Record? then [first.message] else []) == next.messages;
    assert ReadLines([second], next) == next.(messages := next.messages + [second.message]);
    assert ReadLines([first, second], start) == ReadLines([second], next);
    assert ReadLines([head, first, second], EMPTY_SESSION) == ReadLines([first, second], start);
  }

  /* ---------- sessions and their manager ---------- */

  class Session {
    const key: string
    var messages: seq<Message>
    var metadata: map<string, string>
    var lastConsolidated: nat

    constructor (key: string, value: SessionValue)
      ensures this.key == key && Value() == value
    {
      this.key := key;
      messages, metadata, lastConsolidated := value.messages, value.metadata, value.lastConsolidated;
    }

    function Value(): SessionValue
      reads this
    {
      SessionValue(messages, metadata, lastConsolidated)
    }

    /** The message is stamped with the time unless it brings its own. */
    method AddMessage(m: Message, now: string)
      modifies this
      ensures |messages| == |old(messages)| + 1 && messages[..|old(messages)|] == old(messages)
      ensures var last := messages[|messages| - 1];
        last == m.(timestamp := last.timestamp) && last.timestamp == if m.timestamp != "" then m.timestamp else now
      ensures metadata == old(metadata) && lastConsolidated == old(lastConsolidated)
    {
      messages := messages + [if m.timestamp == "" then m.(timestamp := now) else m];
    }

    method GetHistory(maxMessages: int) returns (out: seq<Message>)
      ensures out == History(messages, lastConsolidated, maxMessages)
      ensures Legal(out)
    {
      var sliced := Tail(Unconsolidated(messages, lastConsolidated), maxMessages);
      sliced := DropLeadingNonUser(sliced);
      var start := FindLegalStart(sliced);
      if start > 0 {
        sliced := sliced[start..];
      }
      out := CopyForModel(sliced);
      HistoryIsLegal(messages, lastConsolidated, maxMessages);
    }

    method Clear()
      modifies this
      ensures Value() == old(Value()).(messages := [], lastConsolidated := 0)
    {
      messages := [];
      lastConsolidated := 0;
    }
  }

  /** The first loop of get_history: cut at the first user message, if any. */
  method DropLeadingNonUser(ms: seq<Message>) returns (sliced: seq<Message>)
    ensures sliced == AlignToUser(ms)
  {
    sliced := ms;
    for i := 0 to |ms|
      invariant forall k :: 0 <= k < i ==> !ms[k].role.User?
      invariant sliced == ms
    {
      if ms[i].role.User? {
        sliced := ms[i..];
        break;
      }
    }
  }

  /** The last loop of get_history: copy the keys the model may see. */
  method CopyForModel(ms: seq<Message>) returns (out: seq<Message>)
    ensures out == Project(ms)
  {
    out := [];
    for k := 0 to |ms|
      invariant out == Project(ms)[..k]
    {
      out := out + [ForModel(ms[k])];
    }
  }

  /** The manager's in-memory cache and the files, both by session key. */
  class SessionManager {
    var cache: map<string, Session>
    var files: map<string, seq<Line>>

    constructor (files: map<string, seq<Line>>)
      ensures cache == map[] && this.files == files
    {
      cache := map[];
      this.files := files;
    }

    ghost predicate Valid()
      reads this
    {
      forall k :: k in cache ==> cache[k].key == k
    }

    /** The cached object, or a new object holding what the file holds. */
    method GetOrCreate(key: string) returns (s: Session)
      requires Valid()
      modifies this`cache
      ensures Valid() && s.key == key
      ensures cache == old(cache)[key := s]
      ensures key in old(cache) ==> s == old(cache)[key]
      ensures key !in old(cache) ==>
        fresh(s) && s.Value() ==
          if key in files then Reloaded(files[key]) else EMPTY_SESSION
    {
      if key in cache {
        s := cache[key];
        assert cache == cache[key := s];
        return;
      }
      var value := EMPTY_SESSION;
      if key in files {
        match Load(files[key]) {
          case Some(loaded) => value := loaded;
          case None =>
        }
      }
      s := new Session(key, value);
      cache := cache[key := s];
    }

    /** Write the object's current value to its file, and make it the cached object. */
    method Save(s: Session)
      requires Valid()
      modifies this
      ensures Valid()
      ensures files == old(files)[s.key := FileOf(s.Value())]
      ensures cache == old(cache)[s.key := s]
    {
      files := files[s.key := FileOf(s.Value())];
      cache := cache[s.key := s];
    }

    method Invalidate(key: string)
      requires Valid()
      modifies this`cache
      ensures Valid() && cache == old(cache) - {key}
    {
      cache := cache - {key};
    }
  }
}
