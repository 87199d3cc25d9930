/**
 Reading a JPEG's size from its frame header (apps/extension/editor/editor.js:236-240,257-280), against the
 marker syntax of sections B.1.1 and B.2.2 of ITU-T T.81.
 */
module JpegScanner {
  import opened Basics

  newtype Octet = x: int | 0 <= x < 256

  type Word = x: int | 0 <= x < 65536

  const MAX_IMAGE_BYTES: nat := 10485760

  datatype Dimensions = Dimensions(width: Word, height: Word)

  // ---------- the scanner ----------

  function Uint16(s: seq<Octet>, i: nat): Word
    requires i + 1 < |s|
  {
    256 * (s[i] as int) + (s[i + 1] as int)
  }

  predicate Standalone(marker: Octet) { marker == 0xd8 || marker == 0x01 || 0xd0 <= marker <= 0xd7 }

  predicate StartOfFrame(marker: Octet) {
    0xc0 <= marker <= 0xc3 || 0xc5 <= marker <= 0xc7 || 0xc9 <= marker <= 0xcb || 0xcd <= marker <= 0xcf
  }

  // Table B.1: SOF0 to SOF15 without DHT (C4), JPG (C8) and DAC (CC) start a frame; TEM, RST0 to RST7 and SOI stand
  // alone, and a scanner that meets EOI or SOS has missed the frame.
  lemma MarkersAre(m: Octet)
    ensures StartOfFrame(m) <==> m in {0xc0, 0xc1, 0xc2, 0xc3, 0xc5, 0xc6, 0xc7, 0xc9, 0xca, 0xcb, 0xcd, 0xce, 0xcf}
    ensures Standalone(m) <==> m in {0x01, 0xd0, 0xd1, 0xd2, 0xd3, 0xd4, 0xd5, 0xd6, 0xd7, 0xd8}
    ensures m in {0xd9, 0xda} ==> forall t, passed :: AfterMarker(m, t, passed) == Stop(None)
  {
  }

  // The number of 0xff bytes at the front.
  function Fills(s: seq<Octet>): nat { FillsFrom(s, 0) }

  function FillsFrom(s: seq<Octet>, i: nat): nat
    decreases if i < |s| then |s| - i else 0
  {
    if i < |s| && s[i] == 0xff then FillsFrom(s, i + 1) else i
  }

  lemma {:induction false} FillsAre(s: seq<Octet>, i: nat)
    requires i <= |s| && forall j | 0 <= j < i :: s[j] == 0xff
    ensures var n := FillsFrom(s, i); i <= n <= |s| && (n < |s| ==> s[n] != 0xff) && forall j | 0 <= j < n :: s[j] == 0xff
    decreases |s| - i
  {
    if i >= |s| || s[i] != 0xff {
    } else {
      FillsAre(s, i + 1);
    }
  }

  // They are the only number of that kind.
  lemma FillsUnique(s: seq<Octet>, n: nat)
    requires n <= |s| && (n < |s| ==> s[n] != 0xff) && forall j | 0 <= j < n :: s[j] == 0xff
    ensures Fills(s) == n
  {
    FillsAre(s, 0);
  }

  // What the scanner does at one position: it ends, or moves on.
  datatype Move = Stop(result: Option<Dimensions>) | Skip(count: nat)

  function AfterMarker(marker: Octet, t: seq<Octet>, passed: nat): (m: Move)
    ensures m.Skip? ==> passed <= m.count <= passed + |t|
  {
    if marker == 0x00 then Stop(None)
    else if Standalone(marker) then Skip(passed)
    else if marker == 0xd9 || marker == 0xda || |t| < 2 then Stop(None)
    else
      var length := Uint16(t, 0);
      if length < 2 || length > |t| then Stop(None)
      else if StartOfFrame(marker) then
        Stop(if length < 11 || t[7] == 0 || length != 8 + 3 * (t[7] as int) then None
             else Some(Dimensions(Uint16(t, 5), Uint16(t, 3))))
      else Skip(passed + length)
  }

  function Step(s: seq<Octet>): (m: Move)
    requires s != []
    ensures m.Skip? ==> 0 < m.count <= |s|
  {
    if s[0] != 0xff then Skip(1)
    else
      var n := Fills(s);
      if n >= |s| then Stop(None) else AfterMarker(s[n], s[n + 1..], n + 1)
  }

  // The move at each position, and the scan that follows them.
  function Moves(bytes: seq<Octet>): seq<Move> { seq(|bytes|, i requires 0 <= i < |bytes| => Step(bytes[i..])) }

  function Walk(moves: seq<Move>, offset: nat): Option<Dimensions>
    decreases if offset < |moves| then |moves| - offset else 0
  {
    if offset >= |moves| then None
    else match moves[offset]
         case Stop(r) => r
         case Skip(k) => if k > 0 then Walk(moves, offset + k) else None
  }

  function Scan(s: seq<Octet>): Option<Dimensions> { Walk(Moves(s), 0) }

  // The scan depends on what lies ahead only.
  lemma {:induction false} WalkAhead(moves: seq<Move>, k: nat, offset: nat)
    requires k <= |moves|
    ensures Walk(moves[k..], offset) == Walk(moves, k + offset)
    decreases if offset < |moves| then |moves| - offset else 0
  {
    if k + offset >= |moves| {
    } else {
      var m := moves[k + offset];
      if m.Skip? && m.count > 0 { WalkAhead(moves, k, offset + m.count); }
    }
  }

  lemma MovesAhead(bytes: seq<Octet>, k: nat)
    requires k <= |bytes|
    ensures Moves(bytes[k..]) == Moves(bytes)[k..]
  {
    forall i | 0 <= i < |bytes| - k ensures bytes[k..][i..] == bytes[k + i..] { }
  }

  lemma ScanMoves(s: seq<Octet>)
    requires s != []
    ensures Scan(s) == match Step(s) case Stop(r) => r case Skip(k) => Scan(s[k..])
  {
    assert s[0..] == s;
    var m := Step(s);
    if m.Skip? {
      MovesAhead(s, m.count);
      WalkAhead(Moves(s), m.count, 0);
    }
  }

  // The whole branch: an image that starts with SOI, cut at ten megabytes.
  function JpegDimensions(file: seq<Octet>): Option<Dimensions> {
    var bytes := file[..Min(|file|, MAX_IMAGE_BYTES)];
    if |bytes| >= 4 && bytes[0] == 0xff && bytes[1] == 0xd8 then Scan(bytes[2..]) else None
  }

  // The fill bytes before a marker.
  method SkipFill(bytes: seq<Octet>, start: nat) returns (offset: nat)
    requires start <= |bytes|
    ensures start <= offset <= |bytes| && offset - start == Fills(bytes[start..])
  {
    offset := start;
    while offset < |bytes| && bytes[offset] == 0xff
      invariant start <= offset <= |bytes| && forall i | start <= i < offset :: bytes[i] == 0xff
    {
      offset := offset + 1;
    }
    FillsUnique(bytes[start..], offset - start);
  }

  lemma Slices(bytes: seq<Octet>, start: nat, k: nat)
    requires start + k <= |bytes|
    ensures bytes[start..][k..] == bytes[start + k..]
  {
  }

  // The body of the loop, on the offset.
  method ReadStep(bytes: seq<Octet>, start: nat) returns (m: Move)
    requires start < |bytes|
    ensures m == Step(bytes[start..])
  {
    if bytes[start] != 0xff { return Skip(1); }
    var offset := SkipFill(bytes, start);
    if offset >= |bytes| { return Stop(None); }
    var marker := bytes[offset];
    offset := offset + 1;
    ghost var t := bytes[offset..];
    Slices(bytes, start, offset - start);
    if marker == 0x00 { return Stop(None); }
    if Standalone(marker) { return Skip(offset - start); }
    if marker == 0xd9 || marker == 0xda { return Stop(None); }
    if offset + 2 > |bytes| { return Stop(None); }
    var length := Uint16(bytes, offset);
    assert Uint16(t, 0) == length;
    if length < 2 || offset + length > |bytes| { return Stop(None); }
    if StartOfFrame(marker) {
      if length < 11 || offset + 7 >= |bytes| { return Stop(None); }
      var components := bytes[offset + 7];
      if components == 0 || length != 8 + (components as int) * 3 || offset + length > |bytes| { return Stop(None); }
      return Stop(Some(Dimensions(Uint16(bytes, offset + 5), Uint16(bytes, offset + 3))));
    }
    m := Skip(offset - start + length);
  }

  // The loop over the offset reads within bounds and ends on every input.
  method ScanFrom(bytes: seq<Octet>, start: nat) returns (r: Option<Dimensions>)
    requires start <= |bytes|
    ensures r == Walk(Moves(bytes), start)
  {
    var offset := start;
    while offset < |bytes|
      invariant start <= offset <= |bytes|
      invariant Walk(Moves(bytes), start) == Walk(Moves(bytes), offset)
    {
      var m := ReadStep(bytes, offset);
      assert m == Moves(bytes)[offset];
      if m.Stop? { return m.result; }
      offset := offset + m.count;
    }
    r := None;
  }

  method ReadJpegDimensions(file: seq<Octet>) returns (r: Option<Dimensions>)
    ensures r == JpegDimensions(file)
  {
    var bytes := file[..Min(|file|, MAX_IMAGE_BYTES)];
    if !(|bytes| >= 4 && bytes[0] == 0xff && bytes[1] == 0xd8) { return None; }
    r := ScanFrom(bytes, 2);
    MovesAhead(bytes, 2);
    WalkAhead(Moves(bytes), 2, 0);
  }

  // ---------- the syntax ----------

  // What may come before the frame header: a marker is preceded by one or more 0xff bytes; between segments
  // the scanner also passes over bytes that are not markers.
  datatype Item = Junk(value: Octet)
                | Marker(fills: nat, marker: Octet)
                | Segment(fills: nat, marker: Octet, parameters: seq<Octet>)

  predicate ItemOk(i: Item) {
    match i
    case Junk(v) => v != 0xff
    case Marker(n, m) => n > 0 && Standalone(m)
    case Segment(n, m, p) =>
      n > 0 && |p| + 2 < 65536 && m !in {0x00, 0xd9, 0xda, 0xff} && !Standalone(m) && !StartOfFrame(m)
  }

  // A frame header with its component specifications, three bytes each.
  datatype Frame = Frame(fills: nat, marker: Octet, precision: Octet, y: Word, x: Word, components: Octet, specifications: seq<Octet>)

  predicate FrameOk(f: Frame) {
    f.fills > 0 && StartOfFrame(f.marker) && f.components > 0 && |f.specifications| == 3 * (f.components as int)
  }

  function High(w: Word): Octet { (w / 256) as Octet }

  function Low(w: Word): Octet { (w % 256) as Octet }

  function Fill(n: nat): seq<Octet> { seq(n, _ => 0xff) }

  function EncodeItem(i: Item): seq<Octet>
    requires ItemOk(i)
  {
    match i
    case Junk(v) => [v]
    case Marker(n, m) => Fill(n) + [m]
    case Segment(n, m, p) => Fill(n) + [m] + [High(|p| + 2), Low(|p| + 2)] + p
  }

  function EncodeItems(items: seq<Item>): seq<Octet>
    requires forall i | i in items :: ItemOk(i)
  {
    if items == [] then [] else EncodeItem(items[0]) + EncodeItems(items[1..])
  }

  function EncodeFrame(f: Frame): seq<Octet>
    requires FrameOk(f)
  {
    Fill(f.fills) + [f.marker] + FrameBody(f)
  }

  function FrameBody(f: Frame): seq<Octet>
    requires FrameOk(f)
  {
    var length := 8 + 3 * (f.components as int);
    [High(length), Low(length), f.precision, High(f.y), Low(f.y), High(f.x), Low(f.x), f.components] + f.specifications
  }

  function EncodeImage(items: seq<Item>, f: Frame, tail: seq<Octet>): seq<Octet>
    requires (forall i | i in items :: ItemOk(i)) && FrameOk(f)
  {
    EncodeItems(items) + EncodeFrame(f) + tail
  }

  lemma Assoc(a: seq<Octet>, b: seq<Octet>, c: seq<Octet>)
    ensures (a + b) + c == a + (b + c)
  {
  }

  lemma OneMore(item: Item, more: seq<Item>, f: Frame, tail: seq<Octet>)
    requires ItemOk(item) && (forall i | i in more :: ItemOk(i)) && FrameOk(f)
    ensures (forall i | i in [item] + more :: ItemOk(i))
    ensures EncodeImage([item] + more, f, tail) == EncodeItem(item) + EncodeImage(more, f, tail)
  {
    assert ([item] + more)[1..] == more;
    Assoc(EncodeItem(item), EncodeItems(more), EncodeFrame(f));
    Assoc(EncodeItem(item), EncodeItems(more) + EncodeFrame(f), tail);
  }

  // ---------- every image of that syntax is read ----------

  lemma FillsOf(n: nat, m: Octet, rest: seq<Octet>)
    requires m != 0xff
    ensures var s := Fill(n) + [m] + rest; Fills(s) == n && s[n] == m && s[n + 1..] == rest
  {
    var s := Fill(n) + [m] + rest;
    FillsUnique(s, n);
  }

  // The scanner passes over exactly one item in one move.
  lemma ItemIsOneMove(i: Item, rest: seq<Octet>)
    requires ItemOk(i)
    ensures var s := EncodeItem(i) + rest; s != [] && Step(s) == Skip(|EncodeItem(i)|)
  {
    match i
    case Junk(v) =>
    case Marker(n, m) => FillsOf(n, m, rest);
    case Segment(n, m, p) => SegmentIsOneMove(n, m, p, rest);
  }

  lemma SegmentIsOneMove(n: nat, m: Octet, p: seq<Octet>, rest: seq<Octet>)
    requires ItemOk(Segment(n, m, p))
    ensures Step(EncodeItem(Segment(n, m, p)) + rest) == Skip(n + 1 + |p| + 2)
  {
    var size := [High(|p| + 2), Low(|p| + 2)];
    var t := size + p + rest;
    Assoc(Fill(n) + [m], size, p);
    Assoc(Fill(n) + [m], size + p, rest);
    FillsOf(n, m, t);
    assert Uint16(t, 0) == |p| + 2;
  }

  lemma ItemIsPassed(i: Item, rest: seq<Octet>)
    requires ItemOk(i)
    ensures Scan(EncodeItem(i) + rest) == Scan(rest)
  {
    var s := EncodeItem(i) + rest;
    ItemIsOneMove(i, rest);
    ScanMoves(s);
    assert s[|EncodeItem(i)|..] == rest;
  }

  lemma FrameIsRead(f: Frame, tail: seq<Octet>)
    requires FrameOk(f)
    ensures Scan(EncodeFrame(f) + tail) == Some(Dimensions(f.x, f.y))
  {
    var t := FrameBody(f) + tail;
    assert EncodeFrame(f) + tail == Fill(f.fills) + [f.marker] + t;
    FillsOf(f.fills, f.marker, t);
    assert Uint16(t, 0) == 8 + 3 * (f.components as int);
    assert Uint16(t, 5) == f.x && Uint16(t, 3) == f.y;
    ScanMoves(EncodeFrame(f) + tail);
  }

  lemma {:induction false} ImageIsRead(items: seq<Item>, f: Frame, tail: seq<Octet>)
    requires (forall i | i in items :: ItemOk(i)) && FrameOk(f)
    ensures Scan(EncodeImage(items, f, tail)) == Some(Dimensions(f.x, f.y))
  {
    if items == [] {
      assert EncodeImage(items, f, tail) == EncodeFrame(f) + tail;
      FrameIsRead(f, tail);
    } else {
      ImageIsRead(items[1..], f, tail);
      assert items == [items[0]] + items[1..];
      OneMore(items[0], items[1..], f, tail);
      ItemIsPassed(items[0], EncodeImage(items[1..], f, tail));
    }
  }

  // ---------- and nothing else is ----------

  lemma SplitFills(s: seq<Octet>)
    requires s != [] && s[0] == 0xff && Fills(s) < |s|
    ensures Fills(s) > 0 && s == Fill(Fills(s)) + [s[Fills(s)]] + s[Fills(s) + 1..]
  {
    FillsAre(s, 0);
    SplitAfter(s, Fills(s));
  }

  lemma SplitAfter(s: seq<Octet>, n: nat)
    requires n < |s| && forall i | 0 <= i < n :: s[i] == 0xff
    ensures s == Fill(n) + [s[n]] + s[n + 1..]
  {
    assert Fill(n) == s[..n];
  }

  // The parameters of a segment, or the rest of a frame header, read back as they are written.
  lemma SegmentBody(t: seq<Octet>)
    requires |t| >= 2 && 2 <= Uint16(t, 0) <= |t|
    ensures var length := Uint16(t, 0); t == [High(length), Low(length)] + t[2..length] + t[length..]
  {
    var length := Uint16(t, 0);
    assert t[..2] == [High(length), Low(length)];
  }

  lemma FrameFields(t: seq<Octet>, n: nat, m: Octet) returns (f: Frame)
    requires |t| >= 11 && 11 <= Uint16(t, 0) <= |t| && t[7] > 0 && Uint16(t, 0) == 8 + 3 * (t[7] as int)
    requires n > 0 && StartOfFrame(m)
    ensures FrameOk(f) && f.fills == n && f.marker == m && f.x == Uint16(t, 5) && f.y == Uint16(t, 3)
    ensures t == FrameBody(f) + t[Uint16(t, 0)..]
  {
    var length := Uint16(t, 0);
    f := Frame(n, m, t[2], Uint16(t, 3), Uint16(t, 5), t[7], t[8..length]);
    assert t[..8] == [High(length), Low(length), t[2], t[3], t[4], t[5], t[6], t[7]];
    assert FrameBody(f) == t[..8] + t[8..length];
  }

  // Whatever the scanner passes over in one move is an item.
  lemma SkippedIsItem(s: seq<Octet>) returns (item: Item)
    requires s != [] && Step(s).Skip?
    ensures ItemOk(item) && s == EncodeItem(item) + s[Step(s).count..]
  {
    var rest := s[Step(s).count..];
    if s[0] != 0xff {
      item := Junk(s[0]);
      assert s == [s[0]] + s[1..];
    } else {
      var n := Fills(s);
      var m, t := s[n], s[n + 1..];
      SplitFills(s);
      if Standalone(m) {
        item := Marker(n, m);
      } else {
        FillsAre(s, 0);
        item := SegmentItem(s, n, m, t);
      }
    }
  }

  lemma SegmentItem(s: seq<Octet>, n: nat, m: Octet, t: seq<Octet>) returns (item: Item)
    requires s == Fill(n) + [m] + t && n > 0 && m != 0xff && !Standalone(m)
    requires AfterMarker(m, t, n + 1).Skip?
    ensures ItemOk(item) && s == EncodeItem(item) + s[AfterMarker(m, t, n + 1).count..]
  {
    var length := Uint16(t, 0);
    var parameters := t[2..length];
    item := Segment(n, m, parameters);
    SegmentBody(t);
    var head := Fill(n) + [m];
    var rest := t[length..];
    Assoc(head, [High(length), Low(length)] + parameters, rest);
    Assoc(head, [High(length), Low(length)], parameters);
    assert |EncodeItem(item)| == n + 1 + length;
    assert s[n + 1 + length..] == rest;
  }

  // Where it stops with a size there is a frame header with that size.
  lemma StoppedAtFrame(s: seq<Octet>) returns (f: Frame, tail: seq<Octet>)
    requires s != [] && Step(s).Stop? && Step(s).result.Some?
    ensures FrameOk(f) && s == EncodeFrame(f) + tail && Step(s).result == Some(Dimensions(f.x, f.y))
  {
    var n := Fills(s);
    var m, t := s[n], s[n + 1..];
    SplitFills(s);
    f := FrameFields(t, n, m);
    tail := t[Uint16(t, 0)..];
    Assoc(Fill(n) + [m], FrameBody(f), tail);
  }

  lemma {:induction false} ReadIsImage(s: seq<Octet>) returns (items: seq<Item>, f: Frame, tail: seq<Octet>)
    requires Scan(s).Some?
    ensures (forall i | i in items :: ItemOk(i)) && FrameOk(f)
    ensures s == EncodeImage(items, f, tail) && Scan(s) == Some(Dimensions(f.x, f.y))
    decreases |s|
  {
    ScanMoves(s);
    if Step(s).Stop? {
      f, tail := StoppedAtFrame(s);
      items := [];
      assert EncodeImage(items, f, tail) == EncodeFrame(f) + tail;
    } else {
      var item := SkippedIsItem(s);
      var rest := s[Step(s).count..];
      var more;
      more, f, tail := ReadIsImage(rest);
      assert s == EncodeItem(item) + EncodeImage(more, f, tail);
      OneMore(item, more, f, tail);
      items := [item] + more;
    }
  }

  const SOI: seq<Octet> := [0xff, 0xd8]

  // The scanner reports a size exactly for the images whose syntax reaches a frame header, and reports that
  // header's X and Y.
  lemma ScannerReadsExactlyTheSyntax(file: seq<Octet>, d: Dimensions)
    requires |file| <= MAX_IMAGE_BYTES
    ensures JpegDimensions(file) == Some(d) <==>
      exists items: seq<Item>, f: Frame, tail: seq<Octet> ::
        (forall i | i in items :: ItemOk(i)) && FrameOk(f) && file == SOI + EncodeImage(items, f, tail) && d == Dimensions(f.x, f.y)
  {
    assert file[..|file|] == file;
    if JpegDimensions(file) == Some(d) {
      var items, f, tail := ReadIsImage(file[2..]);
      assert file == SOI + EncodeImage(items, f, tail);
    }
    if items: seq<Item>, f: Frame, tail: seq<Octet> :|
        (forall i | i in items :: ItemOk(i)) && FrameOk(f) && file == SOI + EncodeImage(items, f, tail) && d == Dimensions(f.x, f.y) {
      ImageIsRead(items, f, tail);
      assert file[2..] == EncodeImage(items, f, tail);
    }
  }

  // A longer file is read as well when its frame header ends within ten megabytes, whatever follows.
  lemma {:induction false} HeaderWithinTheLimitIsRead(items: seq<Item>, f: Frame, tail: seq<Octet>)
    requires (forall i | i in items :: ItemOk(i)) && FrameOk(f)
    requires |SOI + EncodeItems(items) + EncodeFrame(f)| <= MAX_IMAGE_BYTES
    ensures JpegDimensions(SOI + EncodeImage(items, f, tail)) == Some(Dimensions(f.x, f.y))
  {
    var head, body := SOI + EncodeItems(items) + EncodeFrame(f), EncodeItems(items) + EncodeFrame(f);
    var file := SOI + EncodeImage(items, f, tail);
    var cut := Min(|file|, MAX_IMAGE_BYTES);
    Assoc(SOI, EncodeItems(items), EncodeFrame(f));
    Assoc(SOI, body, tail);
    CutAfter(head, tail, cut);
    var less := tail[..cut - |head|];
    Assoc(SOI, body, less);
    assert file[..cut] == SOI + EncodeImage(items, f, less);
    assert (SOI + EncodeImage(items, f, less))[2..] == EncodeImage(items, f, less);
    ImageIsRead(items, f, less);
  }

  lemma CutAfter(head: seq<Octet>, tail: seq<Octet>, cut: nat)
    requires |head| <= cut <= |head + tail|
    ensures (head + tail)[..cut] == head + tail[..cut - |head|]
  {
  }
}
