/**
 * `createParagraphBlocks` of utils/notion.ts: the text is cut into the
 * matches of the global regular expression `/.{1,2000}/g`, each of which
 * becomes one paragraph block. 2000 characters is the limit the Notion API
 * (version 2022-06-28) puts on one rich-text item.
 *
 * Lengths count Unicode scalar values; the regular expression counts UTF-16
 * code units, which differ for characters outside the Basic Multilingual Plane.
 */
module Paragraphs {
  import opened Seqs

  /** The longest text one paragraph block carries. */
  const MaxChunk: nat := 2000

  /** The characters `.` does not match: LF, CR, LINE SEPARATOR, PARAGRAPH SEPARATOR. */
  predicate IsLineTerminator(c: char) {
    c == '\n' || c == '\r' || c == '\U{2028}' || c == '\U{2029}'
  }

  /** The characters that survive into some chunk. */
  predicate Kept(c: char) {
    !IsLineTerminator(c)
  }

  predicate NoTerminator(s: string) {
    forall k | 0 <= k < |s| :: !IsLineTerminator(s[k])
  }

  /**
   * How many characters `.{1,limit}` consumes at the start of `s`: the
   * leading non-terminators, at most `limit` of them.
   */
  function RunLength(s: string, limit: nat): (n: nat)
    ensures n <= limit && n <= |s|
    ensures NoTerminator(s[..n])
    ensures n < limit && n < |s| ==> IsLineTerminator(s[n])
  {
    if |s| == 0 || limit == 0 || IsLineTerminator(s[0]) then 0
    else
      var n := 1 + RunLength(s[1..], limit - 1);
      assert s[..n] == [s[0]] + s[1..][..n - 1];
      n
  }

  /**
   * The successive matches of `/.{1,2000}/g`: a line terminator is skipped,
   * anything else starts a match that runs greedily to the next terminator
   * or to 2000 characters.
   */
  function Chunks(s: string): (r: seq<string>)
    ensures forall k | 0 <= k < |r| :: 1 <= |r[k]| <= MaxChunk && NoTerminator(r[k])
    decreases |s|
  {
    if |s| == 0 then []
    else if IsLineTerminator(s[0]) then Chunks(s[1..])
    else
      var n := RunLength(s, MaxChunk);
      [s[..n]] + Chunks(s[n..])
  }

  /** `parts.join('')` */
  function Concat(parts: seq<string>): string {
    if |parts| == 0 then "" else parts[0] + Concat(parts[1..])
  }

  /** Nothing is lost but the line terminators: the chunks, in order, spell the text without them. */
  lemma {:induction false} ChunksConcat(s: string)
    ensures Concat(Chunks(s)) == Filter(s, Kept)
    decreases |s|
  {
    if |s| > 0 {
      if IsLineTerminator(s[0]) {
        ChunksConcat(s[1..]);
      } else {
        var n := RunLength(s, MaxChunk);
        assert s == s[..n] + s[n..];
        FilterAppend(s[..n], s[n..], Kept);
        FilterAll(s[..n], Kept);
        ChunksConcat(s[n..]);
      }
    }
  }

  /** Text made only of line terminators (the empty text included) gives no blocks. */
  lemma {:induction false} OnlyTerminators(s: string)
    requires forall k | 0 <= k < |s| :: IsLineTerminator(s[k])
    ensures Chunks(s) == []
    decreases |s|
  {
    if |s| > 0 {
      OnlyTerminators(s[1..]);
    }
  }

  /** The run length is decided before the first terminator. */
  lemma {:induction false} RunLengthPrefix(a: string, b: string, limit: nat)
    requires |b| > 0 && IsLineTerminator(b[0])
    ensures RunLength(a + b, limit) == RunLength(a, limit)
    decreases |a|
  {
    if |a| > 0 && limit > 0 && !IsLineTerminator(a[0]) {
      assert (a + b)[1..] == a[1..] + b;
      RunLengthPrefix(a[1..], b, limit - 1);
    }
  }

  /** Lines are chunked independently: a line terminator ends every match. */
  lemma {:induction false} ChunksSplitAtTerminator(a: string, t: char, b: string)
    requires IsLineTerminator(t)
    ensures Chunks(a + [t] + b) == Chunks(a) + Chunks(b)
    decreases |a|
  {
    var s := a + [t] + b;
    if |a| == 0 {
      assert s[1..] == b;
    } else if IsLineTerminator(a[0]) {
      assert s[1..] == a[1..] + [t] + b;
      ChunksSplitAtTerminator(a[1..], t, b);
    } else {
      assert s == a + ([t] + b);
      RunLengthPrefix(a, [t] + b, MaxChunk);
      var n := RunLength(a, MaxChunk);
      assert s[..n] == a[..n];
      assert s[n..] == a[n..] + [t] + b;
      ChunksSplitAtTerminator(a[n..], t, b);
    }
  }

  function Min(x: nat, y: nat): nat {
    if x <= y then x else y
  }

  /**
   * Within one line the matches are greedy: chunk `i` is the window
   * starting at `2000 * i`, so every chunk but the last has exactly 2000
   * characters.
   */
  lemma {:induction false} SingleLineChunks(s: string)
    requires NoTerminator(s)
    ensures |Chunks(s)| == (|s| + MaxChunk - 1) / MaxChunk
    ensures forall i | 0 <= i < |Chunks(s)| ::
      MaxChunk * i < |s| && Chunks(s)[i] == s[MaxChunk * i .. Min(MaxChunk * (i + 1), |s|)]
    decreases |s|
  {
    if |s| > 0 {
      var n := RunLength(s, MaxChunk);
      assert n == Min(MaxChunk, |s|);
      var rest := s[n..];
      SingleLineChunks(rest);
      var r := Chunks(s);
      assert r == [s[..n]] + Chunks(rest);
      if |rest| == 0 {
        assert |r| == 1 && n == |s|;
      } else {
        assert n == MaxChunk && rest == s[MaxChunk..];
        assert (|s| + MaxChunk - 1) / MaxChunk == 1 + (|rest| + MaxChunk - 1) / MaxChunk;
      }
      forall i | 0 <= i < |r|
        ensures MaxChunk * i < |s| && r[i] == s[MaxChunk * i .. Min(MaxChunk * (i + 1), |s|)]
      {
        if i == 0 {
          assert r[0] == s[..n];
        } else {
          assert r[i] == Chunks(rest)[i - 1];
          ChunkWindowShift(s, rest, i);
        }
      }
    }
  }

  /** Window `i - 1` of the text after the first 2000 characters is window `i` of the whole. */
  lemma ChunkWindowShift(s: string, rest: string, i: nat)
    requires |s| > MaxChunk && rest == s[MaxChunk..] && 0 < i && MaxChunk * (i - 1) < |rest|
    ensures MaxChunk * i < |s|
    ensures rest[MaxChunk * (i - 1) .. Min(MaxChunk * i, |rest|)] == s[MaxChunk * i .. Min(MaxChunk * (i + 1), |s|)]
  {
    var lo, hi := MaxChunk * (i - 1), Min(MaxChunk * i, |rest|);
    assert MaxChunk * i == MaxChunk + lo;
    assert Min(MaxChunk * (i + 1), |s|) == MaxChunk + hi;
    assert rest[lo..hi] == s[MaxChunk + lo .. MaxChunk + hi];
  }

  /** 4500 characters on one line give chunks of 2000, 2000 and 500. */
  lemma LongLineExample(s: string)
    requires |s| == 4500 && NoTerminator(s)
    ensures |Chunks(s)| == 3
    ensures |Chunks(s)[0]| == 2000 && |Chunks(s)[1]| == 2000 && |Chunks(s)[2]| == 500
  {
    SingleLineChunks(s);
    assert Min(MaxChunk * 3, |s|) == 4500;
  }

  // ---------------------------------------------------------------------
  // Blocks
  // ---------------------------------------------------------------------

  /** The Notion block types the page body uses, with their text or link. */
  datatype Block =
    | Heading2(text: string)
    | Paragraph(text: string)
    | Divider
    | Bullet(text: string)
    | Image(url: string)
    | Embed(url: string)
    | FileBlock(url: string, name: string)
    | Callout(text: string, emoji: string)

  /** `createParagraphBlocks`: one paragraph block per chunk, in order. */
  function ParagraphBlocks(text: string): (r: seq<Block>)
    ensures |r| == |Chunks(text)|
    ensures forall k | 0 <= k < |r| :: r[k] == Paragraph(Chunks(text)[k])
    ensures forall k | 0 <= k < |r| :: r[k].Paragraph? && 1 <= |r[k].text| <= MaxChunk && NoTerminator(r[k].text)
  {
    var chunks := Chunks(text);
    seq(|chunks|, k requires 0 <= k < |chunks| => Paragraph(chunks[k]))
  }

  /** The text each block shows, in order; dividers and links show none. */
  function BlockTexts(blocks: seq<Block>): (r: seq<string>)
    ensures |r| == |blocks|
  {
    seq(|blocks|, k requires 0 <= k < |blocks| =>
      match blocks[k]
      case Heading2(t) => t
      case Paragraph(t) => t
      case Bullet(t) => t
      case Callout(t, _) => t
      case _ => "")
  }

  /**
   * Read one after another, the paragraph blocks show the text without its
   * line terminators: nothing else is dropped, repeated or reordered.
   */
  lemma {:induction false} ParagraphBlocksSpellText(text: string)
    ensures Concat(BlockTexts(ParagraphBlocks(text))) == Filter(text, Kept)
  {
    assert BlockTexts(ParagraphBlocks(text)) == Chunks(text);
    ChunksConcat(text);
  }

  /** A non-empty line of at most 2000 characters is a single paragraph. */
  lemma {:induction false} ShortLineBlocks(s: string)
    requires 0 < |s| <= MaxChunk && NoTerminator(s)
    ensures ParagraphBlocks(s) == [Paragraph(s)]
  {
    SingleLineChunks(s);
    assert |Chunks(s)| == 1;
    assert Min(MaxChunk, |s|) == |s|;
    assert Chunks(s)[0] == s[0..|s|] == s;
    assert ParagraphBlocks(s)[0] == Paragraph(s);
  }

  /** Two short lines separated by a line terminator give one paragraph each. */
  lemma {:induction false} TwoLineBlocks(a: string, t: char, b: string)
    requires IsLineTerminator(t)
    requires 0 < |a| <= MaxChunk && NoTerminator(a)
    requires 0 < |b| <= MaxChunk && NoTerminator(b)
    ensures ParagraphBlocks(a + [t] + b) == [Paragraph(a), Paragraph(b)]
  {
    ChunksSplitAtTerminator(a, t, b);
    ShortLineBlocks(a);
    ShortLineBlocks(b);
    assert Chunks(a) == [a] && Chunks(b) == [b];
  }
}
