/** Splitting a long message into chunks that fit a channel's limit (nanobot/utils/helpers.py). */
module MessageSplit {
  import opened Prelude

  /** str.rfind: the last position of the character, -1 when absent. */
  function RFind(s: string, c: char): (pos: int)
    ensures -1 <= pos < |s|
    ensures pos >= 0 ==> s[pos] == c
    ensures forall i :: pos < i < |s| ==> s[i] != c
  {
    if s == "" then -1
    else if s[|s| - 1] == c then |s| - 1
    else RFind(s[..|s| - 1], c)
  }

  /** Where the source cuts a text longer than the limit: the last newline after the first character, else the
      last such space, else the limit itself. */
  function CutPosition(s: string, max: nat): (pos: nat)
    requires 1 <= max < |s|
    ensures 1 <= pos <= max
  {
    var newline := RFind(s[..max], '\n');
    var space := RFind(s[..max], ' ');
    if newline > 0 then newline else if space > 0 then space else max
  }

  /** What is left after one chunk: the text behind the cut without its leading whitespace. */
  function Rest(s: string, max: nat): (rest: string)
    requires 1 <= max < |s|
    ensures |rest| < |s|
  {
    LStrip(s[CutPosition(s, max)..])
  }

  function Split(s: string, max: nat): seq<string>
    requires max >= 1
    decreases |s|
  {
    if s == "" then []
    else if |s| <= max then [s]
    else [s[..CutPosition(s, max)]] + Split(Rest(s, max), max)
  }

  predicate NoneWithin(s: string, c: char, lo: nat, hi: nat)
    requires hi <= |s|
  {
    forall i :: lo <= i < hi ==> s[i] != c
  }

  /** The rule for a cut: a break is used only if no better one exists, and a word is cut only if the window
      holds no break after its first character. */
  predicate IsProperCut(s: string, max: nat, pos: nat)
    requires 1 <= max < |s|
  {
    || (1 <= pos < max && s[pos] == '\n' && NoneWithin(s, '\n', pos + 1, max))
    || (1 <= pos < max && s[pos] == ' ' && NoneWithin(s, ' ', pos + 1, max) && NoneWithin(s, '\n', 1, max))
    || (pos == max && NoneWithin(s, ' ', 1, max) && NoneWithin(s, '\n', 1, max))
  }

  /** The cut obeys the rule, and is the only position that does. */
  lemma {:induction false} CutIsTheProperOne(s: string, max: nat, pos: nat)
    requires 1 <= max < |s|
    ensures IsProperCut(s, max, pos) <==> pos == CutPosition(s, max)
  {
    var window := s[..max];
    var newline, space := RFind(window, '\n'), RFind(window, ' ');
    assert forall i :: 0 <= i < max ==> window[i] == s[i];
  }

  /** Try a newline first, then a space, then a hard break. */
  method FindCut(rest: string, max: nat) returns (pos: nat)
    requires 1 <= max < |rest|
    ensures IsProperCut(rest, max, pos)
  {
    hide RFind, NoneWithin;
    var cut := rest[..max];
    var found := RFind(cut, '\n');
    if found <= 0 {
      found := RFind(cut, ' ');
    }
    if found <= 0 {
      found := max;
    }
    pos := found;
    CutIsTheProperOne(rest, max, pos);
  }

  lemma {:induction false} SplitUnfolds(s: string, max: nat)
    requires max >= 1
    ensures Split("", max) == []
    ensures s != "" && |s| <= max ==> Split(s, max) == [s]
    ensures |s| > max ==>
      Split(s, max) == [s[..CutPosition(s, max)]] + Split(LStrip(s[CutPosition(s, max)..]), max)
  {
    hide CutPosition, LStrip;
  }

  method SplitMessage(content: string, max: nat) returns (chunks: seq<string>)
    requires max >= 1
    ensures chunks == Split(content, max)
  {
    hide CutPosition, LStrip, IsProperCut, Split;
    SplitUnfolds(content, max);
    if content == "" {
      return [];
    }
    if |content| <= max {
      return [content];
    }
    chunks := [];
    var rest := content;
    while rest != ""
      invariant Split(content, max) == chunks + Split(rest, max)
      decreases |rest|
    {
      SplitUnfolds(rest, max);
      if |rest| <= max {
        return chunks + [rest];
      }
      var pos := FindCut(rest, max);
      CutIsTheProperOne(rest, max, pos);
      chunks := chunks + [rest[..pos]];
      rest := LStrip(rest[pos..]);
    }
  }

  /** chunk, gap, chunk, gap, and so on. */
  function Weave(chunks: seq<string>, gaps: seq<string>): string
    requires |chunks| == |gaps|
  {
    if chunks == [] then "" else chunks[0] + gaps[0] + Weave(chunks[1..], gaps[1..])
  }

  /** What is dropped behind one chunk. */
  function Gap(s: string, max: nat): (gap: string)
    requires 1 <= max < |s|
    ensures IsBlank(gap)
  {
    LeadingSpace(s[CutPosition(s, max)..])
  }

  function LeadingSpace(s: string): (gap: string)
    ensures IsBlank(gap) && s == gap + LStrip(s)
  {
    hide LStrip, IsBlank;
    s[..|s| - |LStrip(s)|]
  }

  lemma {:induction false} GapJoins(s: string, max: nat)
    requires 1 <= max < |s|
    ensures s[..CutPosition(s, max)] + Gap(s, max) + Rest(s, max) == s
  {
    hide LStrip, CutPosition, LeadingSpace;
    var pos := CutPosition(s, max);
    assert s == s[..pos] + s[pos..];
  }

  function Gaps(s: string, max: nat): (gaps: seq<string>)
    requires max >= 1
    ensures |gaps| == |Split(s, max)|
    decreases |s|
  {
    if s == "" then []
    else if |s| <= max then [""]
    else [Gap(s, max)] + Gaps(Rest(s, max), max)
  }

  /** The chunks in order, separated by whitespace only, are the text; each is non-empty and fits. */
  lemma {:induction false} SplitIsFaithful(s: string, max: nat)
    requires max >= 1
    ensures Weave(Split(s, max), Gaps(s, max)) == s
    ensures forall i :: 0 <= i < |Gaps(s, max)| ==> IsBlank(Gaps(s, max)[i])
    ensures forall i :: 0 <= i < |Split(s, max)| ==> 1 <= |Split(s, max)[i]| <= max
    decreases |s|
  {
    hide CutPosition, Rest, Gap;
    if s == "" {
    } else if |s| <= max {
      assert Split(s, max) == [s] && Gaps(s, max) == [""];
      WeaveCons(s, "", [], []);
    } else {
      var next := Rest(s, max);
      SplitIsFaithful(next, max);
      GapJoins(s, max);
      WeaveCons(s[..CutPosition(s, max)], Gap(s, max), Split(next, max), Gaps(next, max));
    }
  }

  lemma {:induction false} WeaveCons(chunk: string, gap: string, chunks: seq<string>, gaps: seq<string>)
    requires |chunks| == |gaps|
    ensures Weave([chunk] + chunks, [gap] + gaps) == chunk + gap + Weave(chunks, gaps)
    ensures Weave([chunk], [gap]) == chunk + gap
  {
    assert ([chunk] + chunks)[1..] == chunks && ([gap] + gaps)[1..] == gaps;
    assert [chunk] + [] == [chunk] && [gap] + [] == [gap];
    assert [chunk][1..] == [] && [gap][1..] == [];
  }

  /** The text that is left when the i-th chunk is cut. */
  function Remaining(s: string, max: nat, i: nat): string
    requires max >= 1 && i < |Split(s, max)|
    decreases i
  {
    if i == 0 then s else Remaining(Rest(s, max), max, i - 1)
  }

  /** Every chunk but the last ends at the proper cut of the text that was left; the last one is that text,
      or nothing but whitespace follows it. */
  lemma {:induction false} EveryCutIsProper(s: string, max: nat, i: nat)
    requires max >= 1 && i < |Split(s, max)|
    ensures var rest, chunk := Remaining(s, max, i), Split(s, max)[i];
      if |rest| <= max then chunk == rest && i == |Split(s, max)| - 1
      else IsProperCut(rest, max, |chunk|) && chunk == rest[..|chunk|]
    decreases i
  {
    hide CutPosition, Rest, IsProperCut;
    if |s| > max {
      CutIsTheProperOne(s, max, CutPosition(s, max));
      if i > 0 {
        assert Split(s, max) == [s[..CutPosition(s, max)]] + Split(Rest(s, max), max);
        EveryCutIsProper(Rest(s, max), max, i - 1);
      }
    }
  }

  /** With a limit of zero the loop would not progress: the cut is empty, so is the search result, and a text
      that does not start with whitespace stays as it is. */
  lemma {:induction false} ZeroLimitMakesNoProgress(s: string)
    requires s != "" && !IsSpace(s[0])
    ensures var newline, space := RFind(s[..0], '\n'), RFind(s[..0], ' ');
            var pos := if newline > 0 then newline else if space > 0 then space else 0;
      LStrip(s[pos..]) == s
  {
    assert s[0..] == s;
  }
}
