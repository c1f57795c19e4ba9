/** The turns of a replay, segment by segment: which there are, what they hold and how their ids are written. */
module ReplayTurns {
  import opened Common
  import opened Ids
  import opened AcpProtocol
  import opened Replay
  import opened Spellings
  import T = Translator

  /** The turn of a segment, if some frame of the segment yields an item. */
  ghost predicate IsTurn(part: seq<Turn>, text: string, segment: seq<Frame>) {
    if Yields(segment) then |part| == 1 && TurnIdText(part[0].id) == text && part[0].items == T.Translate(segment)
    else part == []
  }

  lemma TurnOfSegment(id: TurnId, segment: seq<Frame>)
    ensures IsTurn(TurnOf(id, segment), TurnIdText(id), segment)
  {
    hide T.Translate, Yields;
    HasItemsIff(segment);
  }

  /** A replay without user chunks is one turn. */
  lemma OneTurn(frames: seq<Frame>)
    requires Boundaries(frames) == []
    ensures IsTurn(TurnsOf(frames), "turn-acp-0", frames)
  {
    hide T.Translate, TurnOf, Decimal;
    TurnOfSegment(NumberedId(0), frames);
    DecimalReads(0);
    TurnIdTexts(0);
  }

  /** What comes before the first user chunk, and then what each user chunk begins: numbered by
      their place, but for the last, which is numbered by the turns before it. */
  ghost predicate AreTurns(parts: seq<seq<Turn>>, frames: seq<Frame>, b: seq<nat>, k: nat)
    requires Cuts(frames, b) && k < |b|
  {
    && |parts| == k + 1
    && (if b[0] > 0 then IsTurn(parts[0], "turn-acp-pre-0", frames[..b[0]]) else parts[0] == [])
    && forall i :: 0 <= i < k ==> IsTurn(parts[i + 1], "turn-acp-" + Decimal(i), frames[b[i]..b[i + 1]])
  }

  lemma {:induction false} ClosedTurns(frames: seq<Frame>, b: seq<nat>, k: nat) returns (parts: seq<seq<Turn>>)
    requires Cuts(frames, b) && k < |b|
    ensures AreTurns(parts, frames, b, k) && Closed(frames, b, k) == Flatten(parts)
  {
    hide TurnOf, T.Translate, IsTurn, Decimal;
    if k == 0 {
      ClosedFirst(frames, b);
      TurnOfSegment(PrefaceId(0), frames[..b[0]]);
      DecimalReads(0);
      TurnIdTexts(0);
      assert "turn-acp-pre-" + "0" == "turn-acp-pre-0";
      parts := [Closed(frames, b, 0)];
      FlattenAppend([], Closed(frames, b, 0));
      assert [] + [Closed(frames, b, 0)] == parts && [] + Closed(frames, b, 0) == Closed(frames, b, 0);
    } else {
      var before := ClosedTurns(frames, b, k - 1);
      ClosedLast(frames, b, k - 1);
      var last := TurnOf(NumberedId(k - 1), frames[b[k - 1]..b[k]]);
      TurnOfSegment(NumberedId(k - 1), frames[b[k - 1]..b[k]]);
      TurnIdTexts(k - 1);
      FlattenAppend(before, last);
      parts := before + [last];
      assert parts[k] == last && forall i :: 0 <= i < |before| ==> parts[i] == before[i];
    }
  }

  /** The turns of a replay with user chunks. */
  lemma TurnsAre(frames: seq<Frame>) returns (parts: seq<seq<Turn>>, last: seq<Turn>)
    requires Boundaries(frames) != []
    ensures var b := Boundaries(frames);
            && AreTurns(parts, frames, b, |b| - 1)
            && IsTurn(last, "turn-acp-" + Decimal(|Flatten(parts)|), frames[b[|b| - 1]..])
            && TurnsOf(frames) == Flatten(parts) + last
  {
    hide TurnOf, T.Translate, IsTurn, Decimal, AreTurns, Closed;
    var b := Boundaries(frames);
    parts := ClosedTurns(frames, b, |b| - 1);
    var n := |Closed(frames, b, |b| - 1)|;
    last := TurnOf(NumberedId(n), frames[b[|b| - 1]..]);
    TurnOfSegment(NumberedId(n), frames[b[|b| - 1]..]);
    TurnIdTexts(n);
  }
}
