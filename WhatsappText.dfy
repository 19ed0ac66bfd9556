/** Fixed-length line chunking of the chat message (`wrapText` and the first loop
    of `drawWrappedText` in Generate/Whatsapp.js). A `char` is one Unicode scalar
    value; for text inside the Basic Multilingual Plane that is one UTF-16 code
    unit, as JavaScript's `length` and `substr` count them. */
module WhatsappText {

  function Min(a: int, b: int): int {
    if a <= b then a else b
  }

  /** `s.substr(start, length)` for a non-negative start: the characters from
      `start` on, at most `length` of them, and "" past the end. */
  function Substr(s: string, start: nat, length: nat): (r: string)
    ensures |r| <= length
  {
    if start >= |s| then "" else s[start..Min(start + length, |s|)]
  }

  /** The text from position `i` on ("" once `i` has passed the end). */
  function From(s: string, i: nat): string {
    if i <= |s| then s[i..] else ""
  }

  /** Reference definition of the lines: the first `maxChars` characters (or all
      of them when fewer remain), then the lines of the rest. */
  function Chunks(text: string, maxChars: nat): seq<string>
    requires maxChars > 0
    decreases |text|
  {
    if |text| == 0 then []
    else
      var k := Min(maxChars, |text|);
      [text[..k]] + Chunks(text[k..], maxChars)
  }

  /** The lines drawn one after another. */
  function Concat(lines: seq<string>): string {
    if |lines| == 0 then "" else lines[0] + Concat(lines[1..])
  }

  /** Number of lines a text of `length` characters takes: the ceiling of its
      length over `maxChars`. */
  function LineCount(length: nat, maxChars: nat): nat
    requires maxChars > 0
  {
    (length + maxChars - 1) / maxChars
  }

  /** Joining the lines gives back exactly the text: nothing is lost, repeated
      or reordered. */
  lemma {:induction false} ConcatChunks(text: string, maxChars: nat)
    requires maxChars > 0
    ensures Concat(Chunks(text, maxChars)) == text
    decreases |text|
  {
    if |text| > 0 {
      var k := Min(maxChars, |text|);
      var c, rest := Chunks(text, maxChars), Chunks(text[k..], maxChars);
      assert c == [text[..k]] + rest;
      assert c[0] == text[..k] && c[1..] == rest;
      assert Concat(c) == text[..k] + Concat(rest);
      ConcatChunks(text[k..], maxChars);
      assert text == text[..k] + text[k..];
    }
  }

  /** Every line but the last has exactly `maxChars` characters; the last has
      between one and `maxChars`, so no line is empty. */
  lemma {:induction false} ChunkLengths(text: string, maxChars: nat)
    requires maxChars > 0
    ensures forall j :: 0 <= j < |Chunks(text, maxChars)| ==>
      1 <= |Chunks(text, maxChars)[j]| <= maxChars
    ensures forall j :: 0 <= j < |Chunks(text, maxChars)| - 1 ==>
      |Chunks(text, maxChars)[j]| == maxChars
    decreases |text|
  {
    if |text| > 0 {
      var k := Min(maxChars, |text|);
      ChunkLengths(text[k..], maxChars);
      var c, rest := Chunks(text, maxChars), Chunks(text[k..], maxChars);
      assert c == [text[..k]] + rest;
      assert k < maxChars ==> rest == [];
      forall j | 0 < j < |c|
        ensures 1 <= |c[j]| <= maxChars && (j < |c| - 1 ==> |c[j]| == maxChars)
      {
        assert c[j] == rest[j - 1];
      }
    }
  }

  /** The number of lines is the length rounded up to a multiple of `maxChars`:
      none for the empty text, one for a non-empty text of at most `maxChars`. */
  lemma {:induction false} ChunkCount(text: string, maxChars: nat)
    requires maxChars > 0
    ensures |Chunks(text, maxChars)| == LineCount(|text|, maxChars)
    ensures |text| == 0 ==> |Chunks(text, maxChars)| == 0
    ensures 0 < |text| <= maxChars ==> |Chunks(text, maxChars)| == 1
    decreases |text|
  {
    if |text| > 0 {
      var k := Min(maxChars, |text|);
      ChunkCount(text[k..], maxChars);
      if |text| <= maxChars {
        DivUnique(|text| + maxChars - 1, maxChars, 1, |text| - 1);
      } else {
        assert |text[k..]| == |text| - maxChars;
        DivStep(|text| - 1, maxChars);
      }
    }
  }

  lemma MulAtLeast(x: int, m: int)
    requires x >= 1 && m > 0
    ensures x * m >= m
  {
  }

  /** Euclidean division is determined by quotient and remainder. */
  lemma DivUnique(n: int, m: int, a: int, s: int)
    requires m > 0 && 0 <= s < m && n == a * m + s
    ensures n / m == a
  {
    var a', s' := n / m, n % m;
    assert n == a' * m + s';
    assert (a' - a) * m == s - s';
    if a' > a {
      MulAtLeast(a' - a, m);
    } else if a' < a {
      MulAtLeast(a - a', m);
    }
  }

  lemma DivStep(q: nat, m: nat)
    requires m > 0
    ensures (q + m) / m == q / m + 1
  {
    var a, s := q / m, q % m;
    assert q == a * m + s;
    assert q + m == (a + 1) * m + s;
    DivUnique(q + m, m, a + 1, s);
  }

  /** Line `j` is the text from position `j * maxChars`, at most `maxChars` long,
      which is what the source's loop pushes when its index is `j * maxChars`. */
  lemma {:induction false} ChunkAt(text: string, maxChars: nat, j: nat)
    requires maxChars > 0
    requires j < |Chunks(text, maxChars)|
    ensures j * maxChars < |text|
    ensures Chunks(text, maxChars)[j] == Substr(text, j * maxChars, maxChars)
    decreases j
  {
    var k := Min(maxChars, |text|);
    var rest := text[k..];
    assert Chunks(text, maxChars) == [text[..k]] + Chunks(rest, maxChars);
    if j > 0 {
      assert k == maxChars;
      ChunkAt(rest, maxChars, j - 1);
      MulStep(j, maxChars);
      SubstrShift(text, maxChars, (j - 1) * maxChars, maxChars);
    }
  }

  lemma MulStep(j: nat, m: nat)
    requires j > 0
    ensures j * m == (j - 1) * m + m
  {
  }

  /** Cutting `k` characters off the front shifts every `substr` by `k`. */
  lemma SubstrShift(text: string, k: nat, i: nat, length: nat)
    requires k <= |text|
    ensures Substr(text[k..], i, length) == Substr(text, i + k, length)
  {
  }

  /** One step of the source's loop: the line at position `i` is the first line
      of the text from `i`, and the loop goes on with the text from
      `i + maxChars`. */
  lemma ChunksStep(text: string, maxChars: nat, i: nat)
    requires maxChars > 0
    requires i < |text|
    ensures Chunks(From(text, i), maxChars)
         == [Substr(text, i, maxChars)] + Chunks(From(text, i + maxChars), maxChars)
  {
    var rest := From(text, i);
    var k := Min(maxChars, |rest|);
    assert rest[..k] == Substr(text, i, maxChars);
    assert rest[k..] == From(text, i + maxChars);
  }

  /** The loop's invariant: the lines pushed so far followed by the lines of
      the text from `i` are the lines of the whole text. */
  predicate LoopInvariant(text: string, maxChars: nat, i: nat, lines: seq<string>)
    requires maxChars > 0
  {
    lines + Chunks(From(text, i), maxChars) == Chunks(text, maxChars)
  }

  lemma LoopStart(text: string, maxChars: nat)
    requires maxChars > 0
    ensures LoopInvariant(text, maxChars, 0, [])
  {
  }

  lemma LoopStep(text: string, maxChars: nat, i: nat, lines: seq<string>)
    requires maxChars > 0 && i < |text|
    requires LoopInvariant(text, maxChars, i, lines)
    ensures LoopInvariant(text, maxChars, i + maxChars, lines + [Substr(text, i, maxChars)])
  {
    ChunksStep(text, maxChars, i);
    var line, rest := Substr(text, i, maxChars), Chunks(From(text, i + maxChars), maxChars);
    assert (lines + [line]) + rest == lines + ([line] + rest);
  }

  lemma LoopDone(text: string, maxChars: nat, i: nat, lines: seq<string>)
    requires maxChars > 0 && i >= |text|
    requires LoopInvariant(text, maxChars, i, lines)
    ensures lines == Chunks(text, maxChars)
  {
  }

  /** `wrapText(text, maxChars)`: the loop advances `i` by `maxChars` and pushes
      `text.substr(i, maxChars)`. */
  method WrapText(text: string, maxChars: nat) returns (lines: seq<string>)
    requires maxChars > 0
    ensures lines == Chunks(text, maxChars)
    ensures Concat(lines) == text
    ensures |lines| == LineCount(|text|, maxChars)
  {
    lines := [];
    var i: nat := 0;
    LoopStart(text, maxChars);
    while i < |text|
      invariant LoopInvariant(text, maxChars, i, lines)
      decreases |text| - i
    {
      LoopStep(text, maxChars, i, lines);
      lines := lines + [Substr(text, i, maxChars)];
      i := i + maxChars;
    }
    LoopDone(text, maxChars, i, lines);
    ConcatChunks(text, maxChars);
    ChunkCount(text, maxChars);
  }

  /** A `fillText(text, x, y)` call. */
  datatype TextDraw = TextDraw(text: string, x: int, y: int)

  /** `drawWrappedText(ctx, text, x, y, maxChars, lineHeight, ...)`: chunk the
      text with the same loop as `wrapText`, then draw line `index` at
      `(x, y + index * lineHeight)`. The drawing calls are returned in order. */
  method DrawWrappedText(text: string, x: int, y: int, maxChars: nat, lineHeight: int)
    returns (drawn: seq<TextDraw>)
    requires maxChars > 0
    ensures |drawn| == |Chunks(text, maxChars)|
    ensures forall j :: 0 <= j < |drawn| ==>
      drawn[j] == TextDraw(Chunks(text, maxChars)[j], x, y + j * lineHeight)
  {
    var lines := [];
    var i: nat := 0;
    LoopStart(text, maxChars);
    while i < |text|
      invariant LoopInvariant(text, maxChars, i, lines)
      decreases |text| - i
    {
      LoopStep(text, maxChars, i, lines);
      lines := lines + [Substr(text, i, maxChars)];
      i := i + maxChars;
    }
    LoopDone(text, maxChars, i, lines);
    drawn := DrawLines(lines, x, y, lineHeight);
  }

  /** `lines.forEach((line, index) => ctx.fillText(line, x, y + index * lineHeight))`. */
  method DrawLines(lines: seq<string>, x: int, y: int, lineHeight: int) returns (drawn: seq<TextDraw>)
    ensures |drawn| == |lines|
    ensures forall j :: 0 <= j < |lines| ==> drawn[j] == TextDraw(lines[j], x, y + j * lineHeight)
  {
    drawn := [];
    var index := 0;
    while index < |lines|
      invariant 0 <= index <= |lines|
      invariant |drawn| == index
      invariant forall j :: 0 <= j < index ==> drawn[j] == TextDraw(lines[j], x, y + j * lineHeight)
    {
      drawn := drawn + [TextDraw(lines[index], x, y + index * lineHeight)];
      index := index + 1;
    }
  }
}
