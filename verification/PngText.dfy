/**
 * The tEXt chunks a cached preview carries: written just before IEND, read back by a walk over the
 * chunk headers. A PNG here is its signature and its chunks up to IEND (RFC 2083, section 3.2);
 * keyword and value of a tEXt chunk stand on either side of a NUL (section 4.2.7).
 */
module PngText {
  import opened Wrappers
  import opened Blocks

  const SIGNATURE_LEN: nat := 8
  const MAX_TEXT_CHUNK: nat := 65536
  const MAX_KEYWORD: nat := 79
  const TWO_32: nat := 0x1_0000_0000

  const NUL: Byte := 0
  const IEND: Bytes := [73, 69, 78, 68]
  const TEXT: Bytes := [116, 69, 88, 116]

  /** A four-byte big-endian length, modulo 2^32 as the conversion to uint32 makes it. */
  function BE32(n: nat): (b: Bytes)
    ensures |b| == 4 && U32(b) == n % TWO_32
  {
    var m := n % TWO_32;
    var m1 := m % 16777216;
    var m2 := m1 % 65536;
    [(m / 16777216) as Byte, (m1 / 65536) as Byte, (m2 / 256) as Byte, (m2 % 256) as Byte]
  }

  function U32(b: Bytes): nat
    requires |b| == 4
  {
    b[0] as int * 16777216 + b[1] as int * 65536 + b[2] as int * 256 + b[3] as int
  }

  datatype Chunk = Chunk(typ: Bytes, data: Bytes, crc: Bytes) {
    /** A chunk before IEND whose length field holds its length. */
    predicate Valid() {
      |typ| == 4 && typ != IEND && |data| < TWO_32 && |crc| == 4
    }

    function Encode(): Bytes {
      BE32(|data|) + typ + data + crc
    }
  }

  function EncodeAll(chunks: seq<Chunk>): Bytes {
    if chunks == [] then [] else chunks[0].Encode() + EncodeAll(chunks[1..])
  }

  /** data is a signature, chunks, and then IEND and whatever follows its type. */
  ghost predicate Png(data: Bytes, sig: Bytes, chunks: seq<Chunk>, tail: Bytes) {
    && data == sig + EncodeAll(chunks) + tail
    && |sig| == SIGNATURE_LEN
    && (forall c <- chunks :: c.Valid())
    && |tail| >= 8 && tail[4..8] == IEND
  }

  // ----- findIEND -----

  function IendFrom(data: Bytes, off: nat): int
    decreases |data| - off
  {
    if off + 8 > |data| then -1
    else if data[off + 4..off + 8] == IEND then off
    else
      var length := U32(data[off..off + 4]);
      if off + 8 + length + 4 > |data| then -1 else IendFrom(data, off + 8 + length + 4)
  }

  method FindIEND(data: Bytes) returns (iend: int)
    ensures iend == IendFrom(data, SIGNATURE_LEN)
  {
    var off := SIGNATURE_LEN;
    while off + 8 <= |data|
      invariant IendFrom(data, SIGNATURE_LEN) == IendFrom(data, off)
      decreases |data| - off
    {
      var length := U32(data[off..off + 4]);
      if data[off + 4..off + 8] == IEND { return off; }
      if off + 8 + length + 4 > |data| { return -1; }
      off := off + 8 + length + 4;
    }
    return -1;
  }

  /** What a walk that has come to a chunk sees of it. */
  lemma ChunkAt(before: Bytes, c: Chunk, rest: Bytes, data: Bytes)
    requires data == before + c.Encode() + rest && c.Valid()
    ensures var off := |before|;
      && off + 8 + |c.data| + 4 <= |data|
      && U32(data[off..off + 4]) == |c.data|
      && data[off + 4..off + 8] == c.typ
      && data[off + 8..off + 8 + |c.data|] == c.data
      && |before + c.Encode()| == off + 8 + |c.data| + 4
  {
    var off := |before|;
    assert data[off..off + 4] == BE32(|c.data|);
  }

  lemma FirstChunk(before: Bytes, chunks: seq<Chunk>, tail: Bytes)
    requires chunks != []
    ensures before + EncodeAll(chunks) + tail == before + chunks[0].Encode() + (EncodeAll(chunks[1..]) + tail)
    ensures before + EncodeAll(chunks) + tail == before + chunks[0].Encode() + EncodeAll(chunks[1..]) + tail
  {
  }

  lemma IendPastChunk(before: Bytes, c: Chunk, rest: Bytes, data: Bytes)
    requires data == before + c.Encode() + rest && c.Valid()
    ensures IendFrom(data, |before|) == IendFrom(data, |before + c.Encode()|)
  {
    ChunkAt(before, c, rest, data);
  }

  /** The walk passes every chunk and stops at IEND. */
  lemma {:induction false} IendAfterChunks(before: Bytes, chunks: seq<Chunk>, tail: Bytes, data: Bytes)
    requires data == before + EncodeAll(chunks) + tail
    requires (forall c <- chunks :: c.Valid()) && |tail| >= 8 && tail[4..8] == IEND
    ensures IendFrom(data, |before|) == |before| + |EncodeAll(chunks)|
    decreases |chunks|
  {
    if chunks == [] {
      assert data[|before| + 4..|before| + 8] == tail[4..8];
    } else {
      var c := chunks[0];
      FirstChunk(before, chunks, tail);
      IendPastChunk(before, c, EncodeAll(chunks[1..]) + tail, data);
      IendAfterChunks(before + c.Encode(), chunks[1..], tail, data);
    }
  }

  lemma BE32OfU32(b: Bytes)
    requires |b| == 4
    ensures U32(b) < TWO_32 && BE32(U32(b)) == b
  {
    var n := U32(b);
    assert n / 16777216 == b[0] as int && n % 16777216 == b[1] as int * 65536 + b[2] as int * 256 + b[3] as int;
    assert (n % 16777216) / 65536 == b[1] as int;
    assert (n % 16777216) % 65536 == b[2] as int * 256 + b[3] as int;
  }

  lemma ChunkFrom(data: Bytes, off: nat) returns (c: Chunk, next: nat)
    requires off + 8 <= |data| && data[off + 4..off + 8] != IEND
    requires off + 8 + U32(data[off..off + 4]) + 4 <= |data|
    ensures next == off + 8 + U32(data[off..off + 4]) + 4
    ensures c.Valid() && data[off..next] == c.Encode()
  {
    var length := U32(data[off..off + 4]);
    next := off + 8 + length + 4;
    BE32OfU32(data[off..off + 4]);
    c := Chunk(data[off + 4..off + 8], data[off + 8..off + 8 + length], data[off + 8 + length..next]);
  }

  lemma {:induction false} ChunksFrom(data: Bytes, off: nat) returns (chunks: seq<Chunk>)
    requires off <= |data| && IendFrom(data, off) >= 0
    ensures var iend := IendFrom(data, off);
      off <= iend && iend + 8 <= |data| && data[iend + 4..iend + 8] == IEND && data[off..iend] == EncodeAll(chunks)
    ensures forall c <- chunks :: c.Valid()
    decreases |data| - off
  {
    chunks := [];
    if data[off + 4..off + 8] != IEND {
      var c, next := ChunkFrom(data, off);
      var rest := ChunksFrom(data, next);
      chunks := [c] + rest;
      assert data[off..IendFrom(data, off)] == data[off..next] + data[next..IendFrom(data, off)];
    }
  }

  /** findIEND finds an IEND exactly in what is a PNG. */
  lemma IendIffPng(data: Bytes)
    ensures IendFrom(data, SIGNATURE_LEN) >= 0 <==> exists sig, chunks, tail :: Png(data, sig, chunks, tail)
  {
    if IendFrom(data, SIGNATURE_LEN) >= 0 {
      var chunks := ChunksFrom(data, SIGNATURE_LEN);
      PngFrom(data, chunks, IendFrom(data, SIGNATURE_LEN));
    }
    if sig, chunks, tail :| Png(data, sig, chunks, tail) {
      IendAfterChunks(sig, chunks, tail, data);
    }
  }

  lemma PngFrom(data: Bytes, chunks: seq<Chunk>, iend: nat)
    requires SIGNATURE_LEN <= iend && iend + 8 <= |data| && data[iend + 4..iend + 8] == IEND
    requires data[SIGNATURE_LEN..iend] == EncodeAll(chunks) && forall c <- chunks :: c.Valid()
    ensures Png(data, data[..SIGNATURE_LEN], chunks, data[iend..])
  {
    assert data == data[..SIGNATURE_LEN] + data[SIGNATURE_LEN..iend] + data[iend..];
  }

  // ----- textChunk and insertPNGText -----

  type Pair = (Bytes, Bytes)

  datatype TextError = BadKeyword | NoIEND

  function TextData(keyword: Bytes, value: Bytes): Bytes {
    keyword + [NUL] + value
  }

  function TextChunk(crc: Bytes -> Bytes, keyword: Bytes, value: Bytes): Chunk {
    var data := TextData(keyword, value);
    Chunk(TEXT, data, crc(TEXT + data))
  }

  predicate KeywordOk(keyword: Bytes) {
    0 < |keyword| <= MAX_KEYWORD
  }

  ghost predicate KeywordsOk(text: seq<Pair>) {
    forall i :: 0 <= i < |text| ==> KeywordOk(text[i].0)
  }

  function TextChunks(crc: Bytes -> Bytes, text: seq<Pair>): seq<Chunk> {
    if text == [] then [] else [TextChunk(crc, text[0].0, text[0].1)] + TextChunks(crc, text[1..])
  }

  /** textChunk's bytes: length, type, keyword, NUL, value, and the CRC over all but the length. */
  method EncodeTextChunk(crc: Bytes -> Bytes, keyword: Bytes, value: Bytes) returns (r: Result<Bytes, TextError>)
    ensures r.Ok? <==> KeywordOk(keyword)
    ensures r.Ok? ==> r.value == TextChunk(crc, keyword, value).Encode()
    ensures r.Err? ==> r.error == BadKeyword
  {
    if keyword == [] || |keyword| > MAX_KEYWORD { return Err(BadKeyword); }
    var payload := TEXT;
    payload := payload + keyword;
    payload := payload + [NUL];
    payload := payload + value;
    assert payload == TEXT + TextData(keyword, value);
    var chunk := BE32(|payload| - 4);
    chunk := chunk + payload;
    return Ok(chunk + crc(payload));
  }

  lemma {:induction false} EncodeAllAppends(a: seq<Chunk>, b: seq<Chunk>)
    ensures EncodeAll(a + b) == EncodeAll(a) + EncodeAll(b)
  {
    if a == [] {
      assert a + b == b;
    } else {
      assert (a + b)[1..] == a[1..] + b;
      EncodeAllAppends(a[1..], b);
    }
  }

  lemma {:induction false} TextChunksAppends(crc: Bytes -> Bytes, a: seq<Pair>, b: seq<Pair>)
    ensures TextChunks(crc, a + b) == TextChunks(crc, a) + TextChunks(crc, b)
  {
    if a == [] {
      assert a + b == b;
    } else {
      assert (a + b)[1..] == a[1..] + b;
      TextChunksAppends(crc, a[1..], b);
    }
  }

  /** head with the first i pairs' chunks behind it. */
  ghost function Inserted(crc: Bytes -> Bytes, head: Bytes, text: seq<Pair>, i: nat): Bytes
    requires i <= |text|
  {
    head + EncodeAll(TextChunks(crc, text[..i]))
  }

  lemma OneMoreText(crc: Bytes -> Bytes, head: Bytes, text: seq<Pair>, i: nat)
    requires i < |text|
    ensures Inserted(crc, head, text, i + 1) == Inserted(crc, head, text, i) + TextChunk(crc, text[i].0, text[i].1).Encode()
  {
    var kv := text[i];
    assert text[..i + 1] == text[..i] + [kv];
    TextChunksAppends(crc, text[..i], [kv]);
    assert [kv][1..] == [];
    assert TextChunks(crc, [kv]) == [TextChunk(crc, kv.0, kv.1)];
    EncodeAllAppends(TextChunks(crc, text[..i]), TextChunks(crc, [kv]));
  }

  lemma {:induction false} IendInside(data: Bytes, off: nat)
    ensures IendFrom(data, off) <= |data|
    decreases |data| - off
  {
    if off + 8 <= |data| && data[off + 4..off + 8] != IEND {
      var length := U32(data[off..off + 4]);
      if off + 8 + length + 4 <= |data| { IendInside(data, off + 8 + length + 4); }
    }
  }

  /** insertPNGText: the file with one tEXt chunk a pair put in before IEND. */
  method InsertPNGText(crc: Bytes -> Bytes, data: Bytes, text: seq<Pair>) returns (r: Result<Bytes, TextError>)
    ensures r.Ok? <==> IendFrom(data, SIGNATURE_LEN) >= 0 && KeywordsOk(text)
    ensures r.Ok? ==>
      var iend := IendFrom(data, SIGNATURE_LEN);
      iend <= |data| && r.value == data[..iend] + EncodeAll(TextChunks(crc, text)) + data[iend..]
  {
    var iend := FindIEND(data);
    if iend < 0 { return Err(NoIEND); }
    IendInside(data, SIGNATURE_LEN);
    var out := data[..iend];
    for i := 0 to |text|
      invariant out == Inserted(crc, data[..iend], text, i)
      invariant forall j :: 0 <= j < i ==> KeywordOk(text[j].0)
    {
      var chunk := EncodeTextChunk(crc, text[i].0, text[i].1);
      if chunk.Err? { return Err(BadKeyword); }
      OneMoreText(crc, data[..iend], text, i);
      out := out + chunk.value;
    }
    assert text[..|text|] == text;
    return Ok(out + data[iend..]);
  }

  // ----- readPNGText -----

  /** bytes.Cut at the first NUL: what stands before it and after it. */
  function Cut(data: Bytes): Option<Pair> {
    if data == [] then None
    else if data[0] == NUL then Some(([], data[1..]))
    else
      match Cut(data[1..])
      case None => None
      case Some(kv) => Some(([data[0]] + kv.0, kv.1))
  }

  /** A tEXt chunk's value, when it is one with this keyword and no longer than the reader takes. */
  function Value(c: Chunk, keyword: Bytes): Option<Bytes> {
    if c.typ != TEXT || |c.data| > MAX_TEXT_CHUNK then None
    else
      match Cut(c.data)
      case None => None
      case Some(kv) => if kv.0 == keyword then Some(kv.1) else None
  }

  function FirstValue(chunks: seq<Chunk>, keyword: Bytes): Option<Bytes> {
    if chunks == [] then None
    else
      var v := Value(chunks[0], keyword);
      if v.Some? then v else FirstValue(chunks[1..], keyword)
  }

  function ReadFrom(data: Bytes, off: nat, keyword: Bytes): Option<Bytes>
    decreases |data| - off
  {
    if off + 8 > |data| || data[off + 4..off + 8] == IEND then None
    else
      var length, typ := U32(data[off..off + 4]), data[off + 4..off + 8];
      var next := off + 8 + length + 4;
      if typ != TEXT || length > MAX_TEXT_CHUNK then ReadFrom(data, next, keyword)
      else if next > |data| then None
      else
        var v := Value(Chunk(typ, data[off + 8..off + 8 + length], []), keyword);
        if v.Some? then v else ReadFrom(data, next, keyword)
  }

  /** readPNGText: chunk headers and tEXt bodies read in turn, the rest sought over. */
  method ReadPNGText(data: Bytes, keyword: Bytes) returns (r: Option<Bytes>)
    ensures r == ReadFrom(data, SIGNATURE_LEN, keyword)
  {
    var off := SIGNATURE_LEN;
    while true
      invariant ReadFrom(data, SIGNATURE_LEN, keyword) == ReadFrom(data, off, keyword)
      decreases |data| - off
    {
      if off + 8 > |data| { return None; }
      var length, typ := U32(data[off..off + 4]), data[off + 4..off + 8];
      if typ == IEND { return None; }
      var next := off + 8 + length + 4;
      if typ != TEXT || length > MAX_TEXT_CHUNK {
        off := next;
      } else {
        if next > |data| { return None; }
        var body := data[off + 8..off + 8 + length];
        var kv := Cut(body);
        if kv.Some? && kv.value.0 == keyword { return Some(kv.value.1); }
        off := next;
      }
    }
  }

  lemma ReadOneChunk(before: Bytes, c: Chunk, rest: Bytes, data: Bytes, keyword: Bytes)
    requires data == before + c.Encode() + rest && c.Valid()
    ensures ReadFrom(data, |before|, keyword) ==
      if Value(c, keyword).Some? then Value(c, keyword) else ReadFrom(data, |before + c.Encode()|, keyword)
  {
    ChunkAt(before, c, rest, data);
  }

  /** On a PNG the walk finds the first tEXt chunk with the keyword. */
  lemma {:induction false} ReadIsFirstValue(before: Bytes, chunks: seq<Chunk>, tail: Bytes, data: Bytes, keyword: Bytes)
    requires data == before + EncodeAll(chunks) + tail
    requires (forall c <- chunks :: c.Valid()) && |tail| >= 8 && tail[4..8] == IEND
    ensures ReadFrom(data, |before|, keyword) == FirstValue(chunks, keyword)
    decreases |chunks|
  {
    if chunks == [] {
      assert data[|before| + 4..|before| + 8] == tail[4..8];
    } else {
      var c := chunks[0];
      FirstChunk(before, chunks, tail);
      ReadOneChunk(before, c, EncodeAll(chunks[1..]) + tail, data, keyword);
      ReadIsFirstValue(before + c.Encode(), chunks[1..], tail, data, keyword);
    }
  }

  lemma {:induction false} CutAtFirstNul(keyword: Bytes, value: Bytes)
    requires NUL !in keyword
    ensures Cut(TextData(keyword, value)) == Some((keyword, value))
  {
    if keyword != [] {
      assert TextData(keyword, value)[1..] == TextData(keyword[1..], value);
      CutAtFirstNul(keyword[1..], value);
      assert [keyword[0]] + keyword[1..] == keyword;
    } else {
      assert TextData(keyword, value)[1..] == value;
    }
  }

  lemma {:induction false} CutHasNoNul(data: Bytes)
    ensures Cut(data).Some? ==> NUL !in Cut(data).value.0
  {
    if data != [] && data[0] != NUL {
      CutHasNoNul(data[1..]);
    }
  }

  /** A text chunk reads back as the value it was written with exactly when its keyword holds no NUL and it is not too long. */
  lemma TextReadsBackIff(crc: Bytes -> Bytes, keyword: Bytes, value: Bytes)
    ensures Value(TextChunk(crc, keyword, value), keyword) == Some(value) <==>
      NUL !in keyword && |keyword| + 1 + |value| <= MAX_TEXT_CHUNK
  {
    CutHasNoNul(TextData(keyword, value));
    if NUL !in keyword {
      CutAtFirstNul(keyword, value);
    }
  }

  /** A pair whose chunk is as long as its length field says: any but one of 4 GiB. */
  predicate Writable(kv: Pair) {
    KeywordOk(kv.0) && |TextData(kv.0, kv.1)| < TWO_32
  }

  ghost predicate AllWritable(text: seq<Pair>) {
    forall i :: 0 <= i < |text| ==> Writable(text[i])
  }

  ghost predicate NoNuls(text: seq<Pair>) {
    forall i :: 0 <= i < |text| ==> NUL !in text[i].0
  }

  /** The value of the first pair with this keyword that is not longer than the reader takes. */
  function FirstPair(text: seq<Pair>, keyword: Bytes): Option<Bytes> {
    if text == [] then None
    else if text[0].0 == keyword && |TextData(text[0].0, text[0].1)| <= MAX_TEXT_CHUNK then Some(text[0].1)
    else FirstPair(text[1..], keyword)
  }

  lemma {:induction false} FirstValueOfTexts(crc: Bytes -> Bytes, text: seq<Pair>, keyword: Bytes)
    requires NoNuls(text)
    ensures FirstValue(TextChunks(crc, text), keyword) == FirstPair(text, keyword)
  {
    if text != [] {
      CutAtFirstNul(text[0].0, text[0].1);
      FirstValueOfTexts(crc, text[1..], keyword);
    }
  }

  lemma {:induction false} FirstValueAppends(a: seq<Chunk>, b: seq<Chunk>, keyword: Bytes)
    ensures FirstValue(a + b, keyword) == if FirstValue(a, keyword).Some? then FirstValue(a, keyword) else FirstValue(b, keyword)
  {
    if a == [] {
      assert a + b == b;
    } else {
      assert (a + b)[1..] == a[1..] + b;
      FirstValueAppends(a[1..], b, keyword);
    }
  }

  lemma {:induction false} TextChunksAreValid(crc: Bytes -> Bytes, text: seq<Pair>)
    requires AllWritable(text) && (forall b :: |crc(b)| == 4)
    ensures forall c <- TextChunks(crc, text) :: c.Valid() && c.crc == crc(c.typ + c.data)
  {
    if text != [] {
      TextChunksAreValid(crc, text[1..]);
    }
  }

  /** Putting text into a PNG gives a PNG with the same chunks and the text after them, before the same IEND. */
  lemma InsertKeepsPng(crc: Bytes -> Bytes, data: Bytes, sig: Bytes, chunks: seq<Chunk>, tail: Bytes, text: seq<Pair>)
    requires Png(data, sig, chunks, tail)
    requires AllWritable(text) && (forall b :: |crc(b)| == 4)
    ensures var iend := IendFrom(data, SIGNATURE_LEN);
      && 0 <= iend <= |data|
      && Png(data[..iend] + EncodeAll(TextChunks(crc, text)) + data[iend..], sig, chunks + TextChunks(crc, text), tail)
  {
    IendAfterChunks(sig, chunks, tail, data);
    var iend := IendFrom(data, SIGNATURE_LEN);
    var head, more := EncodeAll(chunks), TextChunks(crc, text);
    SplitAt(data, sig + head, tail, iend);
    EncodeAllAppends(chunks, more);
    TextChunksAreValid(crc, text);
    SameBytes(sig, head, EncodeAll(more), tail);
  }

  lemma SplitAt(data: Bytes, head: Bytes, tail: Bytes, at: nat)
    requires data == head + tail && at == |head|
    ensures at <= |data| && data[..at] == head && data[at..] == tail
  {
  }

  lemma SameBytes(a: Bytes, b: Bytes, c: Bytes, d: Bytes)
    ensures a + b + c + d == a + (b + c) + d
  {
  }

  /**
   * Reading the file back gives, for a keyword it had before, what it gave before, and for any
   * other the first value put in for it that the reader takes.
   */
  lemma InsertReadRoundTrip(crc: Bytes -> Bytes, data: Bytes, sig: Bytes, chunks: seq<Chunk>, tail: Bytes,
                            text: seq<Pair>, keyword: Bytes)
    requires Png(data, sig, chunks, tail)
    requires AllWritable(text) && NoNuls(text) && (forall b :: |crc(b)| == 4)
    ensures var iend := IendFrom(data, SIGNATURE_LEN);
      && 0 <= iend <= |data|
      && var out := data[..iend] + EncodeAll(TextChunks(crc, text)) + data[iend..];
         var was := ReadFrom(data, SIGNATURE_LEN, keyword);
         ReadFrom(out, SIGNATURE_LEN, keyword) == if was.Some? then was else FirstPair(text, keyword)
  {
    InsertKeepsPng(crc, data, sig, chunks, tail, text);
    var iend := IendFrom(data, SIGNATURE_LEN);
    var out := data[..iend] + EncodeAll(TextChunks(crc, text)) + data[iend..];
    ReadIsFirstValue(sig, chunks, tail, data, keyword);
    ReadIsFirstValue(sig, chunks + TextChunks(crc, text), tail, out, keyword);
    FirstValueAppends(chunks, TextChunks(crc, text), keyword);
    FirstValueOfTexts(crc, text, keyword);
  }
}
