/**
 Keeping the last bytes of a terminal's output (crates/acp-bridge/src/acp_client.rs,
 `truncate_utf8_tail`), against the encoding of section 4 of RFC 3629.
 */
module Utf8Tail {
  import opened Common
  import opened Framing

  predicate InRange(b: byte, low: byte, high: byte) {
    low <= b <= high
  }

  predicate IsTail(b: byte) {
    InRange(b, 0x80, 0xBF)
  }

  /** One encoded character. */
  predicate IsChar(c: seq<byte>) {
    || (|c| == 1 && c[0] <= 0x7F)
    || (|c| == 2 && InRange(c[0], 0xC2, 0xDF) && IsTail(c[1]))
    || (|c| == 3 && IsTail(c[2]) && (
          || (c[0] == 0xE0 && InRange(c[1], 0xA0, 0xBF))
          || (InRange(c[0], 0xE1, 0xEC) && IsTail(c[1]))
          || (c[0] == 0xED && InRange(c[1], 0x80, 0x9F))
          || (InRange(c[0], 0xEE, 0xEF) && IsTail(c[1]))))
    || (|c| == 4 && IsTail(c[2]) && IsTail(c[3]) && (
          || (c[0] == 0xF0 && InRange(c[1], 0x90, 0xBF))
          || (InRange(c[0], 0xF1, 0xF3) && IsTail(c[1]))
          || (c[0] == 0xF4 && InRange(c[1], 0x80, 0x8F))))
  }

  /** `text` is the encoding of these characters. */
  predicate Spells(chars: seq<seq<byte>>, text: seq<byte>) {
    && (forall c :: c in chars ==> IsChar(c))
    && Flatten(chars) == text
  }

  /** `str::is_char_boundary`, which looks at a single byte. */
  predicate IsCharBoundary(text: seq<byte>, i: nat) {
    i == 0 || i == |text| || (i < |text| && !IsTail(text[i]))
  }

  lemma CharShape(c: seq<byte>)
    requires IsChar(c)
    ensures 1 <= |c| <= 4
    ensures !IsTail(c[0])
    ensures forall i :: 1 <= i < |c| ==> IsTail(c[i])
  {
  }

  lemma SpellsFront(chars: seq<seq<byte>>, text: seq<byte>)
    requires Spells(chars, text) && chars != []
    ensures var front := chars[..|chars| - 1];
            Spells(front, Flatten(front)) && text == Flatten(front) + chars[|chars| - 1] && IsChar(chars[|chars| - 1])
  {
    var front := chars[..|chars| - 1];
    assert forall c :: c in front ==> c in chars;
    assert chars[|chars| - 1] in chars;
  }

  /** The single-byte test finds exactly the positions where a character starts or the text ends. */
  lemma {:induction false} BoundaryIsCharStart(chars: seq<seq<byte>>, text: seq<byte>, i: nat)
    requires Spells(chars, text)
    ensures IsCharBoundary(text, i) <==> exists k :: 0 <= k <= |chars| && |Flatten(chars[..k])| == i
  {
    assert chars[..|chars|] == chars;
    if chars == [] {
      assert |Flatten(chars[..0])| == 0;
    } else {
      var front, last := chars[..|chars| - 1], chars[|chars| - 1];
      SpellsFront(chars, text);
      CharShape(last);
      hide IsChar;
      var before := Flatten(front);
      assert forall k :: 0 <= k <= |front| ==> front[..k] == chars[..k];
      if i < |before| {
        BoundaryIsCharStart(front, before, i);
        assert IsCharBoundary(text, i) <==> IsCharBoundary(before, i);
        assert |Flatten(chars[..|chars|])| > i;
      } else if i == |before| {
        assert |Flatten(chars[..|front|])| == i;
        assert text[i] == last[0];
      } else if i < |text| {
        assert text[i] == last[i - |before|];
        forall k | 0 <= k <= |chars|
          ensures |Flatten(chars[..k])| != i
        {
          if k < |chars| {
            PrefixNoLonger(front, k);
          }
        }
      } else {
        forall k | 0 <= k <= |chars|
          ensures |Flatten(chars[..k])| <= |text|
        {
          PrefixNoLonger(chars, k);
        }
        assert |Flatten(chars[..|chars|])| == |text|;
      }
    }
  }

  lemma PrefixNoLonger(chars: seq<seq<byte>>, k: nat)
    requires k <= |chars|
    ensures |Flatten(chars[..k])| <= |Flatten(chars)|
    ensures Flatten(chars) == Flatten(chars[..k]) + Flatten(chars[k..])
  {
    FlattenConcat(chars[..k], chars[k..]);
    assert chars[..k] + chars[k..] == chars;
  }

  /** From any position the next boundary is at most three bytes away. */
  lemma {:induction false} NextBoundary(chars: seq<seq<byte>>, text: seq<byte>, i: nat) returns (b: nat)
    requires Spells(chars, text) && i <= |text|
    ensures i <= b <= i + 3 && b <= |text| && IsCharBoundary(text, b)
  {
    if i == |text| {
      b := i;
    } else {
      var front, last := chars[..|chars| - 1], chars[|chars| - 1];
      SpellsFront(chars, text);
      CharShape(last);
      hide IsChar;
      var before := Flatten(front);
      if i <= |before| {
        b := NextBoundary(front, before, i);
        if b < |before| {
          assert text[b] == before[b];
        } else {
          assert text[b] == last[0];
        }
      } else {
        b := |text|;
      }
    }
  }

  /** Where a tail of whole characters starts decides which characters were dropped. */
  lemma TailAt(chars: seq<seq<byte>>, text: seq<byte>, start: nat) returns (dropped: nat)
    requires Spells(chars, text) && IsCharBoundary(text, start) && start <= |text|
    ensures dropped <= |chars| && |Flatten(chars[..dropped])| == start
    ensures text[start..] == Flatten(chars[dropped..])
  {
    BoundaryIsCharStart(chars, text, start);
    dropped :| 0 <= dropped <= |chars| && |Flatten(chars[..dropped])| == start;
    PrefixNoLonger(chars, dropped);
  }

  /** No earlier character start leaves a tail within the limit. */
  lemma KeepsMost(chars: seq<seq<byte>>, text: seq<byte>, limit: nat, start: nat)
    requires Spells(chars, text) && |text| - limit <= start <= |text|
    requires |text| > limit
    requires forall i :: |text| - limit <= i < start ==> !IsCharBoundary(text, i)
    ensures forall k :: 0 <= k <= |chars| && |Flatten(chars[..k])| < start ==> |Flatten(chars[k..])| > limit
  {
    forall k | 0 <= k <= |chars| && |Flatten(chars[..k])| < start
      ensures |Flatten(chars[k..])| > limit
    {
      PrefixNoLonger(chars, k);
      BoundaryIsCharStart(chars, text, |Flatten(chars[..k])|);
    }
  }

  /** Dropping fewer characters leaves more bytes. */
  lemma StrictlyLonger(chars: seq<seq<byte>>, text: seq<byte>, j: nat, k: nat)
    requires Spells(chars, text) && j < k <= |chars|
    ensures |Flatten(chars[..j])| < |Flatten(chars[..k])|
  {
    var front := chars[..k - 1];
    assert chars[..k][..k - 1] == front && chars[..k][k - 1] == chars[k - 1];
    assert chars[k - 1] in chars;
    PrefixNoLonger(front, j);
    assert front[..j] == chars[..j];
  }

  /** Cutting at the first boundary within the limit drops no character that could stay. */
  lemma Finish(chars: seq<seq<byte>>, text: seq<byte>, limit: nat, start: nat) returns (dropped: nat)
    requires Spells(chars, text) && |text| - limit <= start <= |text| && |text| > limit
    requires IsCharBoundary(text, start)
    requires forall i :: |text| - limit <= i < start ==> !IsCharBoundary(text, i)
    ensures dropped <= |chars| && Spells(chars[dropped..], text[start..])
    ensures forall k :: 0 <= k < dropped ==> |Flatten(chars[k..])| > limit
  {
    dropped := TailAt(chars, text, start);
    assert forall c :: c in chars[dropped..] ==> c in chars;
    KeepsMost(chars, text, limit, start);
    forall k | 0 <= k < dropped
      ensures |Flatten(chars[k..])| > limit
    {
      StrictlyLonger(chars, text, k, dropped);
    }
  }

  /**
   The tail kept is made of whole characters, as many as fit the limit, so it is valid again
   and at most three bytes shorter than the limit; the flag says whether anything was cut.
   */
  method TruncateUtf8Tail(text: seq<byte>, limit: nat, ghost chars: seq<seq<byte>>)
    returns (cut: bool, kept: seq<byte>, ghost dropped: nat)
    requires Spells(chars, text)
    ensures cut <==> |text| > limit
    ensures dropped <= |chars| && Spells(chars[dropped..], kept)
    ensures |kept| <= limit
    ensures forall k :: 0 <= k < dropped ==> |Flatten(chars[k..])| > limit
    ensures cut ==> limit - |kept| <= 3
    ensures !cut ==> kept == text
  {
    if |text| <= limit {
      assert chars[0..] == chars;
      return false, text, 0;
    }
    if limit == 0 {
      dropped := Finish(chars, text, limit, |text|);
      return true, [], dropped;
    }
    var start := |text| - limit;
    ghost var first := start;
    ghost var bound := NextBoundary(chars, text, first);
    while !IsCharBoundary(text, start)
      invariant first <= start <= bound
      invariant forall i :: first <= i < start ==> !IsCharBoundary(text, i)
      decreases bound - start
    {
      start := start + 1;
    }
    dropped := Finish(chars, text, limit, start);
    cut, kept := true, text[start..];
  }
}
