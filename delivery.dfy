/**
 * How one job is rendered as chat messages: a captioned screenshot, the
 * captured text cut into messages of at most `MaxText` characters, and a
 * link message carrying the navigation buttons.
 */
module Delivery {
  import opened Wrappers
  import opened Strings
  import opened Telegram

  /** The longest text the bot puts in one message. */
  const MaxText: nat := 4096

  const NextButton: Button := Button("Next \U{25B6}\U{FE0F}", "next")
  const ClearButton: Button := Button("Clear", "clear")

  /** Python's `s[lo:hi]` for non-negative bounds: out-of-range ends are clamped. */
  function Slice(s: string, lo: nat, hi: nat): (r: string)
    ensures lo <= hi <= |s| ==> r == s[lo..hi]
    ensures lo <= |s| <= hi ==> r == s[lo..]
    ensures |s| <= lo ==> r == []
  {
    var h := if hi < |s| then hi else |s|;
    if lo >= h then [] else s[lo..h]
  }

  /** The slices `text[i:i+MaxText]`, `text[i+MaxText:i+2*MaxText]`, ... up to the end of `text`. */
  function ChunksFrom(text: string, i: nat): seq<string>
    decreases |text| - i
  {
    if i >= |text| then [] else [Slice(text, i, i + MaxText)] + ChunksFrom(text, i + MaxText)
  }

  /**
   * The texts of the chunk messages sent for captured text `text`: the
   * slices from index 0 on, none exactly when the text is empty.
   */
  function Chunks(text: string): (r: seq<string>)
    ensures r == [] <==> text == []
  {
    if text == [] then [] else ChunksFrom(text, 0)
  }

  /** The strings of `ss` joined in order. */
  function Concat(ss: seq<string>): string {
    if ss == [] then [] else ss[0] + Concat(ss[1..])
  }

  lemma {:induction false} ChunksFromConcat(text: string, i: nat)
    requires i <= |text|
    ensures Concat(ChunksFrom(text, i)) == text[i..]
    decreases |text| - i
  {
    if i < |text| {
      var r := ChunksFrom(text, i);
      assert r[1..] == ChunksFrom(text, i + MaxText);
      if i + MaxText < |text| {
        ChunksFromConcat(text, i + MaxText);
        assert text[i..] == text[i..i + MaxText] + text[i + MaxText..];
      } else {
        assert r == [text[i..]];
        assert r[1..] == [];
      }
    }
  }

  /** Joining the chunks in order gives back the captured text exactly. */
  lemma ChunksRebuildText(text: string)
    ensures Concat(Chunks(text)) == text
  {
    if text != [] {
      ChunksFromConcat(text, 0);
    }
  }

  lemma {:induction false} ChunksFromAt(text: string, i: nat, k: nat)
    requires k < |ChunksFrom(text, i)|
    ensures i + k * MaxText < |text|
    ensures ChunksFrom(text, i)[k] == Slice(text, i + k * MaxText, i + (k + 1) * MaxText)
    decreases k
  {
    if k > 0 {
      ChunksFromAt(text, i + MaxText, k - 1);
    }
  }

  /** The `k`-th chunk is the slice `text[k*MaxText:(k+1)*MaxText]`. */
  lemma ChunkAt(text: string, k: nat)
    requires k < |Chunks(text)|
    ensures k * MaxText < |text|
    ensures Chunks(text)[k] == Slice(text, k * MaxText, (k + 1) * MaxText)
  {
    ChunksFromAt(text, 0, k);
  }

  lemma {:induction false} ChunksFromCount(text: string, i: nat)
    requires i <= |text|
    ensures |ChunksFrom(text, i)| == (|text| - i + MaxText - 1) / MaxText
    decreases |text| - i
  {
    if i < |text| {
      if i + MaxText < |text| {
        ChunksFromCount(text, i + MaxText);
      } else {
        assert ChunksFrom(text, i + MaxText) == [];
      }
    }
  }

  /** A text of length L is sent as ceil(L / MaxText) chunks. */
  lemma ChunkCount(text: string)
    ensures |Chunks(text)| == (|text| + MaxText - 1) / MaxText
  {
    if text != [] {
      ChunksFromCount(text, 0);
    }
  }

  /** Every chunk is non-empty and at most `MaxText` long; all but the last are exactly `MaxText` long. */
  lemma ChunkLengths(text: string, k: nat)
    requires k < |Chunks(text)|
    ensures 0 < |Chunks(text)[k]| <= MaxText
    ensures k + 1 < |Chunks(text)| ==> |Chunks(text)[k]| == MaxText
  {
    ChunkAt(text, k);
    ChunkCount(text);
  }

  /**
   * The caption under the screenshot: `"{title} ({idx+1}/{total})"`. It
   * starts with the title and " (", and ends with ")" right after the digits
   * of the total; `CaptionRoundTrip` reads all three parts back.
   */
  function Caption(title: string, idx: int, total: int): (c: string)
    ensures |c| > |title| + 2 && c[..|title| + 2] == title + " ("
    ensures c[|c| - 1] == ')' && IsDigit(c[|c| - 2])
  {
    title + " (" + IntToDecimal(idx + 1) + "/" + IntToDecimal(total) + ")"
  }

  /**
   * Reads a caption back from its end: the title, the 1-based position and
   * the total, or `None` when `c` does not end in `" (<digits>/<digits>)"`.
   */
  function ParseCaption(c: string): Option<(string, nat, nat)> {
    if c == [] || c[|c| - 1] != ')' then None
    else
      var body := c[..|c| - 1];
      var k2 := DigitSuffixLength(body);
      var rest := body[..|body| - k2];
      if k2 == 0 || rest == [] || rest[|rest| - 1] != '/' then None
      else
        var head := rest[..|rest| - 1];
        var k1 := DigitSuffixLength(head);
        var pre := head[..|head| - k1];
        if k1 == 0 || |pre| < 2 || pre[|pre| - 2..] != " (" then None
        else
          Some((pre[..|pre| - 2], DecimalToNat(head[|head| - k1..]), DecimalToNat(body[|body| - k2..])))
  }

  /** Every caption the bot writes carries its title, the 1-based position and the total, recoverably. */
  lemma CaptionRoundTrip(title: string, idx: nat, total: nat)
    ensures ParseCaption(Caption(title, idx, total)) == Some((title, idx + 1, total))
  {
    var d1, d2 := NatToDecimal(idx + 1), NatToDecimal(total);
    var pre := title + " (";
    var head := pre + d1;
    var rest := head + "/";
    var body := rest + d2;
    var c := Caption(title, idx, total);
    assert c == body + ")";
    assert c[..|c| - 1] == body;
    DigitSuffixAfterNonDigit(rest, d2);
    assert body[..|body| - |d2|] == rest;
    assert body[|body| - |d2|..] == d2;
    assert rest[..|rest| - 1] == head;
    DigitSuffixAfterNonDigit(pre, d1);
    assert head[..|head| - |d1|] == pre;
    assert head[|head| - |d1|..] == d1;
    assert pre[|pre| - 2..] == " (";
    assert pre[..|pre| - 2] == title;
    DecimalRoundTrip(idx + 1);
    DecimalRoundTrip(total);
  }

  /** The button row under the link message: "Next" only when another job follows, then "Clear". */
  function Controls(idx: int, total: int): (r: seq<Button>)
    ensures NextButton in r <==> idx + 1 < total
    ensures r != [] && r[|r| - 1] == ClearButton
    ensures multiset(r)[ClearButton] == 1
    ensures forall b :: b in r ==> b == NextButton || b == ClearButton
    ensures |r| <= 2
  {
    (if idx + 1 < total then [NextButton] else []) + [ClearButton]
  }

  /** One plain text message per chunk, in order. */
  function ChunkMessages(chunks: seq<string>): (ms: seq<Content>)
    ensures |ms| == |chunks|
    ensures forall k :: 0 <= k < |chunks| ==> ms[k] == Text(chunks[k], [])
  {
    if chunks == [] then [] else [Text(chunks[0], [])] + ChunkMessages(chunks[1..])
  }

  lemma {:induction false} ChunkMessagesAppend(chunks: seq<string>, c: string)
    ensures ChunkMessages(chunks + [c]) == ChunkMessages(chunks) + [Text(c, [])]
  {
    if chunks != [] {
      assert (chunks + [c])[1..] == chunks[1..] + [c];
      ChunkMessagesAppend(chunks[1..], c);
    }
  }

  /**
   * The messages for job `idx` of `total` with captured text `text` and page
   * location `link`, in send order: the screenshot, the chunks, the link
   * with its buttons.
   */
  function JobMessages(title: string, idx: int, total: int, text: string, link: string): (ms: seq<Content>)
    ensures |ms| == 2 + |Chunks(text)|
    ensures ms[0] == Photo(Caption(title, idx, total))
    ensures forall k :: 0 <= k < |Chunks(text)| ==> ms[k + 1] == Text(Chunks(text)[k], [])
    ensures ms[|ms| - 1] == Text(link, Controls(idx, total))
  {
    [Photo(Caption(title, idx, total))] + ChunkMessages(Chunks(text)) + [Text(link, Controls(idx, total))]
  }
}
