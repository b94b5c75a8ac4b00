/** The sliding-window text chunker: windows over the stripped text, chunks for the windows that are not
    blank, identifiers. What counts as white space is the parameter `blank`. */
module Chunker {

  // ---- Stripping ----

  /** How many characters at the front are white space. */
  function Lead(s: string, blank: set<char>): (n: nat)
    ensures n <= |s| && (forall i | 0 <= i < n :: s[i] in blank) && (n < |s| ==> s[n] !in blank)
  {
    if s == "" || s[0] !in blank then 0 else 1 + Lead(s[1..], blank)
  }

  /** Where the text ends when trailing white space is cut. */
  function Tail(s: string, blank: set<char>): (n: nat)
    ensures n <= |s| && (forall i | n <= i < |s| :: s[i] in blank) && (n > 0 ==> s[n - 1] !in blank)
  {
    if s == "" || s[|s| - 1] !in blank then |s| else Tail(s[..|s| - 1], blank)
  }

  lemma LeadBeforeTail(s: string, blank: set<char>)
    ensures Lead(s, blank) == |s| ==> Tail(s, blank) == 0
    ensures Lead(s, blank) < |s| ==> Lead(s, blank) < Tail(s, blank)
  {
  }

  function Strip(s: string, blank: set<char>): string {
    LeadBeforeTail(s, blank);
    if Lead(s, blank) == |s| then "" else s[Lead(s, blank)..Tail(s, blank)]
  }

  /** Stripping cuts white space only: every other character is at its place behind the stripped prefix. */
  lemma StripKeepsVisible(s: string, blank: set<char>, i: nat)
    requires i < |s| && s[i] !in blank
    ensures Lead(s, blank) <= i < Lead(s, blank) + |Strip(s, blank)| && Strip(s, blank)[i - Lead(s, blank)] == s[i]
  {
    LeadBeforeTail(s, blank);
  }

  lemma StripIsSlice(s: string, blank: set<char>)
    ensures Lead(s, blank) + |Strip(s, blank)| <= |s|
    ensures Strip(s, blank) == s[Lead(s, blank)..Lead(s, blank) + |Strip(s, blank)|]
  {
    LeadBeforeTail(s, blank);
  }

  lemma StripEnds(s: string, blank: set<char>)
    requires Strip(s, blank) != ""
    ensures Strip(s, blank)[0] !in blank && Strip(s, blank)[|Strip(s, blank)| - 1] !in blank
  {
    LeadBeforeTail(s, blank);
  }

  lemma StripIdempotent(s: string, blank: set<char>)
    ensures Strip(Strip(s, blank), blank) == Strip(s, blank)
  {
    var t := Strip(s, blank);
    if t != "" {
      StripEnds(s, blank);
      LeadBeforeTail(t, blank);
      assert Lead(t, blank) == 0 && Tail(t, blank) == |t|;
    }
  }

  // ---- Windows ----

  datatype Window = Window(start: nat, end: nat)

  datatype Config = Config(size: nat, overlap: nat) {
    predicate Fits() { overlap < size }
    function Stride(): nat requires Fits() { size - overlap }
  }

  datatype Result<T> = Ok(value: T) | ValueError

  function MakeConfig(size: int, overlap: int): (r: Result<Config>)
    ensures r.Ok? <==> 0 <= overlap < size
    ensures r.Ok? ==> r.value.Fits() && r.value.size == size && r.value.overlap == overlap
  {
    if size <= 0 || overlap < 0 || overlap >= size then ValueError else Ok(Config(size, overlap))
  }

  /** The windows the loop visits from `start` on in a text of length `n`. */
  function Windows(n: nat, cfg: Config, start: nat): (ws: seq<Window>)
    requires cfg.Fits() && start < n
    decreases n - start
  {
    var end := if start + cfg.size < n then start + cfg.size else n;
    [Window(start, end)] + if end == n then [] else Windows(n, cfg, start + cfg.Stride())
  }

  function CeilDiv(a: int, b: nat): int
    requires b > 0
  {
    if a <= 0 then 0 else (a + b - 1) / b
  }

  lemma MulAtLeast(k: int, b: nat)
    requires k >= 1
    ensures k * b >= b
  {
    assert k * b == (k - 1) * b + b;
  }

  lemma DivUnique(x: int, b: nat, q: int, r: int)
    requires b > 0 && x == q * b + r && 0 <= r < b
    ensures x / b == q
  {
    var q' := x / b;
    assert x == q' * b + x % b;
    assert q * b - q' * b == (q - q') * b == -((q' - q) * b);
    if q > q' {
      MulAtLeast(q - q', b);
    } else if q < q' {
      MulAtLeast(q' - q, b);
    }
  }

  lemma CeilDivStep(a: int, b: nat)
    requires a > 0 && b > 0
    ensures CeilDiv(a, b) == 1 + CeilDiv(a - b, b)
  {
    if a <= b {
      DivUnique(a + b - 1, b, 1, a - 1);
    } else {
      var q, r := (a - 1) / b, (a - 1) % b;
      assert a - 1 == q * b + r;
      assert (q + 1) * b == q * b + b;
      DivUnique(a + b - 1, b, q + 1, r);
      assert a - b + b - 1 == a - 1;
    }
  }

  lemma {:induction false} WindowsCounted(n: nat, cfg: Config, start: nat)
    requires cfg.Fits() && start < n
    ensures |Windows(n, cfg, start)| == 1 + CeilDiv(n - cfg.size - start, cfg.Stride())
    decreases n - start
  {
    if start + cfg.size < n {
      CeilDivStep(n - cfg.size - start, cfg.Stride());
      hide CeilDiv;
      WindowsCounted(n, cfg, start + cfg.Stride());
    }
  }

  lemma {:induction false} WindowsInside(n: nat, cfg: Config, start: nat, i: nat)
    requires cfg.Fits() && start < n && i < |Windows(n, cfg, start)|
    ensures var w := Windows(n, cfg, start)[i]; start <= w.start < w.end <= n && w.end - w.start <= cfg.size
    decreases n - start
  {
    if i > 0 {
      WindowsInside(n, cfg, start + cfg.Stride(), i - 1);
    }
  }

  /** A window with a successor is full, and the successor starts one stride later. */
  lemma {:induction false} WindowsStride(n: nat, cfg: Config, start: nat, i: nat)
    requires cfg.Fits() && start < n && i + 1 < |Windows(n, cfg, start)|
    ensures var ws := Windows(n, cfg, start);
            ws[i].end - ws[i].start == cfg.size && ws[i + 1].start == ws[i].start + cfg.Stride()
    decreases n - start
  {
    var rest := Windows(n, cfg, start + cfg.Stride());
    if i > 0 {
      WindowsStride(n, cfg, start + cfg.Stride(), i - 1);
    } else {
      assert rest[0].start == start + cfg.Stride();
    }
  }

  lemma {:induction false} WindowsEnd(n: nat, cfg: Config, start: nat)
    requires cfg.Fits() && start < n
    ensures var ws := Windows(n, cfg, start); ws != [] && ws[0].start == start && ws[|ws| - 1].end == n
    decreases n - start
  {
    if start + cfg.size < n {
      WindowsEnd(n, cfg, start + cfg.Stride());
      var rest := Windows(n, cfg, start + cfg.Stride());
      assert Windows(n, cfg, start) == [Window(start, start + cfg.size)] + rest;
    }
  }

  /** A text longer than a window takes exactly 1 + ceil((n - size) / (size - overlap)) windows; neighbours share
      exactly `overlap` characters; a text that fits takes one. */
  lemma WindowCount(n: nat, cfg: Config)
    requires cfg.Fits() && n > 0
    ensures var ws := Windows(n, cfg, 0);
            && (n > cfg.size ==> |ws| == 1 + (n - cfg.size + cfg.Stride() - 1) / cfg.Stride())
            && (n <= cfg.size ==> ws == [Window(0, n)])
            && ws[|ws| - 1].end == n
            && forall i | 0 <= i < |ws| - 1 :: ws[i].end - ws[i + 1].start == cfg.overlap
  {
    WindowsCounted(n, cfg, 0);
    WindowsEnd(n, cfg, 0);
    forall i | 0 <= i < |Windows(n, cfg, 0)| - 1
      ensures Windows(n, cfg, 0)[i].end - Windows(n, cfg, 0)[i + 1].start == cfg.overlap
    {
      WindowsStride(n, cfg, 0, i);
    }
  }

  predicate WindowsFit(text: string, ws: seq<Window>) {
    forall i | 0 <= i < |ws| :: ws[i].start < ws[i].end <= |text|
  }

  lemma AllWindowsFit(text: string, cfg: Config, start: nat)
    requires cfg.Fits() && start < |text|
    ensures WindowsFit(text, Windows(|text|, cfg, start))
  {
    forall i | 0 <= i < |Windows(|text|, cfg, start)|
      ensures Windows(|text|, cfg, start)[i].start < Windows(|text|, cfg, start)[i].end <= |text|
    {
      WindowsInside(|text|, cfg, start, i);
    }
  }

  /** What a window adds to the ones before it: its text without the first `skip` characters. */
  function Rebuild(text: string, ws: seq<Window>, skip: nat): string
    requires WindowsFit(text, ws)
  {
    if ws == [] then ""
    else
      var w := ws[0];
      (if w.start + skip <= w.end then text[w.start + skip..w.end] else "") + Rebuild(text, ws[1..], skip)
  }

  lemma {:induction false} RebuildRest(text: string, cfg: Config, start: nat)
    requires cfg.Fits() && start + cfg.overlap <= |text| && start < |text|
    ensures WindowsFit(text, Windows(|text|, cfg, start))
    ensures Rebuild(text, Windows(|text|, cfg, start), cfg.overlap) == text[start + cfg.overlap..]
    decreases |text| - start
  {
    AllWindowsFit(text, cfg, start);
    hide WindowsFit;
    var ws := Windows(|text|, cfg, start);
    if start + cfg.size < |text| {
      var next := start + cfg.Stride();
      RebuildRest(text, cfg, next);
      assert ws[1..] == Windows(|text|, cfg, next);
      assert text[start + cfg.overlap..start + cfg.size] + text[next + cfg.overlap..] == text[start + cfg.overlap..];
    } else {
      assert ws[1..] == [];
    }
  }

  lemma SplitAt(text: string, k: nat)
    requires k <= |text|
    ensures text[0..k] + text[k..] == text && text[0..|text|] == text
  {
  }

  /** Nothing is lost between windows: the first one and what each later one adds spell the text. */
  lemma WindowsRebuildText(text: string, cfg: Config)
    requires cfg.Fits() && text != ""
    ensures var ws := Windows(|text|, cfg, 0);
            && WindowsFit(text, ws) && ws != [] && WindowsFit(text, ws[1..])
            && text[ws[0].start..ws[0].end] + Rebuild(text, ws[1..], cfg.overlap) == text
  {
    AllWindowsFit(text, cfg, 0);
    NextWindow(|text|, cfg, 0);
    hide Windows;
    if cfg.size < |text| {
      RebuildRest(text, cfg, cfg.Stride());
      hide Rebuild, WindowsFit;
      SplitAt(text, cfg.size);
    } else {
      SplitAt(text, |text|);
    }
  }

  /** Every position lies in some window. */
  lemma {:induction false} WindowsCover(n: nat, cfg: Config, start: nat, p: nat) returns (i: nat)
    requires cfg.Fits() && start <= p < n
    ensures i < |Windows(n, cfg, start)| && Windows(n, cfg, start)[i].start <= p < Windows(n, cfg, start)[i].end
    decreases n - start
  {
    if p < start + cfg.size || start + cfg.size >= n {
      i := 0;
    } else {
      i := WindowsCover(n, cfg, start + cfg.Stride(), p);
      i := i + 1;
    }
  }

  // ---- Identifiers ----

  function DigitOf(d: nat): char
    requires d < 10
  {
    ['0', '1', '2', '3', '4', '5', '6', '7', '8', '9'][d]
  }

  lemma DigitInjective(c: nat, d: nat)
    requires c < 10 && d < 10 && DigitOf(c) == DigitOf(d)
    ensures c == d
  {
  }

  function Decimal(n: nat): (s: string)
    ensures s != "" && forall i | 0 <= i < |s| :: s[i] != '_'
  {
    (if n < 10 then "" else Decimal(n / 10)) + [DigitOf(n % 10)]
  }

  lemma {:induction false} DecimalInjective(m: nat, n: nat)
    requires Decimal(m) == Decimal(n)
    ensures m == n
  {
    var a, b := Decimal(m), Decimal(n);
    assert a[|a| - 1] == DigitOf(m % 10) && b[|b| - 1] == DigitOf(n % 10);
    DigitInjective(m % 10, n % 10);
    hide DigitOf;
    assert a[..|a| - 1] == (if m < 10 then "" else Decimal(m / 10));
    assert b[..|b| - 1] == (if n < 10 then "" else Decimal(n / 10));
    if m >= 10 && n >= 10 {
      DecimalInjective(m / 10, n / 10);
    }
  }

  const INFIX: string := "_chunk_"

  function ChunkId(document: string, index: nat): string {
    document + INFIX + Decimal(index)
  }

  /** Two chunks have the same id only if they are the same chunk of the same document. */
  lemma ChunkIdInjective(a: string, i: nat, b: string, j: nat)
    requires ChunkId(a, i) == ChunkId(b, j)
    ensures a == b && i == j
  {
    var s, x, y := ChunkId(a, i), Decimal(i), Decimal(j);
    var m, n := |s| - |x| - 1, |s| - |y| - 1;
    assert s[m] == '_' && s[n] == '_';
    assert s[m + 1..] == x && s[n + 1..] == y;
    assert m == n;
    DecimalInjective(i, j);
    assert a == s[..|s| - |x| - |INFIX|];
    assert b == s[..|s| - |y| - |INFIX|];
  }

  // ---- What an identifier says ----

  /** The value of a string of decimal digits. */
  function ValueOf(s: string): int {
    if s == "" then 0 else 10 * ValueOf(s[..|s| - 1]) + (s[|s| - 1] as int - '0' as int)
  }

  /** A chunk's id is its document's id, the infix and its index in decimal: digits only, no leading zero, and read as a
      number they are the index. */
  lemma ChunkIdReadsBack(document: string, index: nat)
    ensures var id, k := ChunkId(document, index), |document| + 7;
            && |id| > k && id[..|document|] == document && id[|document|..k] == "_chunk_"
            && (forall i | k <= i < |id| :: '0' <= id[i] <= '9') && (|id| > k + 1 ==> id[k] != '0')
            && ValueOf(id[k..]) == index
  {
    DecimalReads(index);
    IdParts(document, Decimal(index));
    hide Decimal, ValueOf;
    var id, k := ChunkId(document, index), |document| + 7;
    forall i | k <= i < |id| ensures '0' <= id[i] <= '9' {
      assert id[i] == id[k..][i - k];
    }
    assert id[k] == id[k..][0];
  }

  lemma IdParts(document: string, s: string)
    ensures var id, k := document + INFIX + s, |document| + 7;
            |id| == k + |s| && id[..|document|] == document && id[|document|..k] == "_chunk_" && id[k..] == s
  {
    assert (document + INFIX)[..|document|] == document;
  }

  lemma DigitReads(d: nat)
    requires d < 10
    ensures '0' <= DigitOf(d) <= '9' && DigitOf(d) as int - '0' as int == d
  {
  }

  lemma DecimalSplits(n: nat)
    ensures var s := Decimal(n);
            && s != "" && s[|s| - 1] == DigitOf(n % 10)
            && s[..|s| - 1] == if n < 10 then "" else Decimal(n / 10)
  {
    hide DigitOf;
  }

  lemma {:induction false} DecimalReads(n: nat)
    ensures var s := Decimal(n);
            && (forall i | 0 <= i < |s| :: '0' <= s[i] <= '9') && ValueOf(s) == n
            && (|s| > 1 ==> s[0] != '0') && (n > 0 ==> s[0] != '0')
  {
    DecimalSplits(n);
    DigitReads(n % 10);
    hide DigitOf, Decimal;
    var s := Decimal(n);
    var front := s[..|s| - 1];
    assert s == front + [s[|s| - 1]];
    if n >= 10 {
      DecimalReads(n / 10);
    }
  }

  // ---- Chunks ----

  datatype Document = Document(id: string, content: string)

  datatype Chunk = Chunk(id: string, documentId: string, index: nat, content: string, startChar: nat, endChar: nat)

  /** One chunk for each window that is not blank, numbered from `index`. */
  function Emit(id: string, text: string, ws: seq<Window>, index: nat, blank: set<char>): seq<Chunk>
    requires WindowsFit(text, ws)
  {
    if ws == [] then []
    else
      var w := ws[0];
      var content := Strip(text[w.start..w.end], blank);
      if content == "" then Emit(id, text, ws[1..], index, blank)
      else [Chunk(ChunkId(id, index), id, index, content, w.start, w.end)] + Emit(id, text, ws[1..], index + 1, blank)
  }

  /** All chunks of a document. */
  function Chunks(doc: Document, cfg: Config, blank: set<char>): seq<Chunk>
    requires cfg.Fits()
  {
    var text := Strip(doc.content, blank);
    if text == "" then []
    else
      AllWindowsFit(text, cfg, 0);
      Emit(doc.id, text, Windows(|text|, cfg, 0), 0, blank)
  }

  /** A chunk shows the part of the text its positions name, without the white space around it. */
  ghost predicate ShowsText(c: Chunk, text: string, blank: set<char>) {
    && c.startChar < c.endChar <= |text| && c.content != ""
    && c.content == Strip(text[c.startChar..c.endChar], blank)
  }

  lemma {:induction false} EmittedChunk(id: string, text: string, ws: seq<Window>, index: nat, blank: set<char>, i: nat)
    requires WindowsFit(text, ws)
    requires i < |Emit(id, text, ws, index, blank)|
    ensures var c := Emit(id, text, ws, index, blank)[i];
            c.index == index + i && c.documentId == id && c.id == ChunkId(id, index + i) && ShowsText(c, text, blank)
  {
    hide Strip, ChunkId;
    var w := ws[0];
    var content := Strip(text[w.start..w.end], blank);
    if content == "" {
      EmittedChunk(id, text, ws[1..], index, blank, i);
    } else if i > 0 {
      EmittedChunk(id, text, ws[1..], index + 1, blank, i - 1);
    }
  }

  lemma {:induction false} EmittedForWindow(id: string, text: string, ws: seq<Window>, index: nat,
      blank: set<char>, k: nat) returns (i: nat)
    requires WindowsFit(text, ws)
    requires k < |ws| && Strip(text[ws[k].start..ws[k].end], blank) != ""
    ensures i < |Emit(id, text, ws, index, blank)|
    ensures Emit(id, text, ws, index, blank)[i].startChar == ws[k].start
              && Emit(id, text, ws, index, blank)[i].endChar == ws[k].end
  {
    hide Strip, ChunkId;
    var w := ws[0];
    var skip := Strip(text[w.start..w.end], blank) == "";
    if k == 0 {
      i := 0;
    } else {
      i := EmittedForWindow(id, text, ws[1..], if skip then index else index + 1, blank, k - 1);
      i := if skip then i else i + 1;
    }
  }

  /** The chunks are numbered from 0 without gaps, carry their ids, and show the text they name. */
  lemma ChunksAreNumbered(doc: Document, cfg: Config, blank: set<char>, i: nat)
    requires cfg.Fits() && i < |Chunks(doc, cfg, blank)|
    ensures var c := Chunks(doc, cfg, blank)[i];
            c.index == i && c.documentId == doc.id && c.id == ChunkId(doc.id, i)
                && ShowsText(c, Strip(doc.content, blank), blank)
  {
    hide Strip, ChunkId, Emit;
    var text := Strip(doc.content, blank);
    AllWindowsFit(text, cfg, 0);
    EmittedChunk(doc.id, text, Windows(|text|, cfg, 0), 0, blank, i);
  }

  /** The windows that are not blank, in order. */
  function VisibleWindows(text: string, ws: seq<Window>, blank: set<char>): seq<Window>
    requires WindowsFit(text, ws)
  {
    if ws == [] then []
    else
      var rest := VisibleWindows(text, ws[..|ws| - 1], blank);
      var w := ws[|ws| - 1];
      if exists p :: w.start <= p < w.end && text[p] !in blank then rest + [w] else rest
  }

  lemma BlankIff(s: string, blank: set<char>)
    ensures Strip(s, blank) == "" <==> forall p | 0 <= p < |s| :: s[p] in blank
  {
    if Strip(s, blank) != "" {
      StripEnds(s, blank);
      StripIsSlice(s, blank);
    }
  }

  lemma WindowVisible(text: string, w: Window, blank: set<char>)
    requires w.start < w.end <= |text|
    ensures Strip(text[w.start..w.end], blank) != "" <==> exists p :: w.start <= p < w.end && text[p] !in blank
  {
    var s := text[w.start..w.end];
    BlankIff(s, blank);
    if p :| w.start <= p < w.end && text[p] !in blank {
      assert s[p - w.start] == text[p];
    }
    hide Strip;
    if p :| 0 <= p < |s| && s[p] !in blank {
      assert text[w.start + p] == s[p];
    }
  }

  lemma {:induction false} EmitOneMore(id: string, text: string, ws: seq<Window>, index: nat, blank: set<char>)
    requires ws != [] && WindowsFit(text, ws)
    ensures var n := |ws| - 1;
            var w, front := ws[n], Emit(id, text, ws[..n], index, blank);
            var content := Strip(text[w.start..w.end], blank);
            var k := index + |front|;
            Emit(id, text, ws, index, blank) ==
            front + if content == "" then [] else [Chunk(ChunkId(id, k), id, k, content, w.start, w.end)]
  {
    hide Strip, ChunkId;
    var n := |ws| - 1;
    if n > 0 {
      var w := ws[0];
      var skip := Strip(text[w.start..w.end], blank) == "";
      assert ws[1..][..n - 1] == ws[..n][1..];
      EmitOneMore(id, text, ws[1..], if skip then index else index + 1, blank);
    }
  }

  lemma {:induction false} EmittedWindows(id: string, text: string, ws: seq<Window>, index: nat, blank: set<char>)
    requires WindowsFit(text, ws)
    ensures var cs, vs := Emit(id, text, ws, index, blank), VisibleWindows(text, ws, blank);
            |cs| == |vs| && forall i | 0 <= i < |cs| :: cs[i].startChar == vs[i].start && cs[i].endChar == vs[i].end
  {
    hide Strip, ChunkId, Emit;
    if ws == [] {
      EmitNone(id, text, index, blank);
    } else {
      EmittedWindows(id, text, ws[..|ws| - 1], index, blank);
      EmitOneMore(id, text, ws, index, blank);
      WindowVisible(text, ws[|ws| - 1], blank);
    }
  }

  /** One chunk for each window of the stripped text that shows anything, in the order of the windows, and no other. */
  lemma ChunksAreTheVisibleWindows(doc: Document, cfg: Config, blank: set<char>)
    requires cfg.Fits() && Strip(doc.content, blank) != ""
    ensures var text := Strip(doc.content, blank);
            && WindowsFit(text, Windows(|text|, cfg, 0))
            && var cs, vs := Chunks(doc, cfg, blank), VisibleWindows(text, Windows(|text|, cfg, 0), blank);
               |cs| == |vs| && forall i | 0 <= i < |cs| :: cs[i].startChar == vs[i].start && cs[i].endChar == vs[i].end
  {
    hide Strip, Emit, Windows, VisibleWindows;
    ChunksAreEmitted(doc, cfg, blank);
    var text := Strip(doc.content, blank);
    EmittedWindows(doc.id, text, Windows(|text|, cfg, 0), 0, blank);
  }

  /** Where the content of a chunk begins in the document: behind the white space cut from the document, at
      the chunk's start, behind the white space cut from the window. */
  function Offset(c: Chunk, doc: Document, blank: set<char>): nat
    requires c.startChar <= c.endChar <= |Strip(doc.content, blank)|
  {
    Lead(doc.content, blank) + c.startChar + Lead(Strip(doc.content, blank)[c.startChar..c.endChar], blank)
  }

  /** Nothing visible is lost: every character of the document that is not white space is in some chunk, at
      the place its positions give. */
  lemma NothingVisibleIsLost(doc: Document, cfg: Config, blank: set<char>, q: nat) returns (i: nat)
    requires cfg.Fits() && q < |doc.content| && doc.content[q] !in blank
    ensures i < |Chunks(doc, cfg, blank)|
    ensures var c := Chunks(doc, cfg, blank)[i];
            && c.startChar <= c.endChar <= |Strip(doc.content, blank)|
            && Offset(c, doc, blank) <= q < Offset(c, doc, blank) + |c.content|
            && c.content[q - Offset(c, doc, blank)] == doc.content[q]
  {
    hide Strip, Lead, Windows, WindowsFit, Emit;
    var text := Strip(doc.content, blank);
    var p := q - Lead(doc.content, blank);
    StripKeepsVisible(doc.content, blank, q);
    ChunksAreEmitted(doc, cfg, blank);
    hide Chunks;
    var ws := Windows(|text|, cfg, 0);
    var k := WindowsCover(|text|, cfg, 0, p);
    WindowsInside(|text|, cfg, 0, k);
    VisibleInWindow(doc.content, blank, ws[k].start, ws[k].end, q);
    i := EmittedForWindow(doc.id, text, ws, 0, blank, k);
    ChunksAreNumbered(doc, cfg, blank, i);
  }

  lemma ChunksAreEmitted(doc: Document, cfg: Config, blank: set<char>)
    requires cfg.Fits() && Strip(doc.content, blank) != ""
    ensures var text := Strip(doc.content, blank);
            var ws := Windows(|text|, cfg, 0);
            WindowsFit(text, ws) && Chunks(doc, cfg, blank) == Emit(doc.id, text, ws, 0, blank)
  {
    hide Strip, Windows, WindowsFit, Emit;
    AllWindowsFit(Strip(doc.content, blank), cfg, 0);
  }

  /** A visible character inside a window is in the stripped window, at its place. */
  lemma VisibleInWindow(s: string, blank: set<char>, start: nat, end: nat, q: nat)
    requires q < |s| && s[q] !in blank && start < end <= |Strip(s, blank)|
    requires Lead(s, blank) + start <= q < Lead(s, blank) + end
    ensures var window := Strip(s, blank)[start..end];
            var at := Lead(s, blank) + start + Lead(window, blank);
            at <= q < at + |Strip(window, blank)| && Strip(window, blank)[q - at] == s[q]
  {
    hide Strip, Lead;
    StripKeepsVisible(s, blank, q);
    StripKeepsVisible(Strip(s, blank)[start..end], blank, q - Lead(s, blank) - start);
  }

  /** Nothing is made up: a chunk's content stands in the document at its offset. */
  lemma ChunkContentIsInDocument(doc: Document, cfg: Config, blank: set<char>, i: nat)
    requires cfg.Fits() && i < |Chunks(doc, cfg, blank)|
    ensures var c := Chunks(doc, cfg, blank)[i];
            && c.startChar <= c.endChar <= |Strip(doc.content, blank)|
            && Offset(c, doc, blank) + |c.content| <= |doc.content|
            && c.content == doc.content[Offset(c, doc, blank)..Offset(c, doc, blank) + |c.content|]
  {
    hide Chunks, Strip, Lead;
    ChunksAreNumbered(doc, cfg, blank, i);
    var c := Chunks(doc, cfg, blank)[i];
    StrippedTwice(doc.content, blank, c.startChar, c.endChar);
  }

  lemma StrippedTwice(s: string, blank: set<char>, start: nat, end: nat)
    requires start <= end <= |Strip(s, blank)|
    ensures var window := Strip(s, blank)[start..end];
            var at := Lead(s, blank) + start + Lead(window, blank);
            at + |Strip(window, blank)| <= |s| && Strip(window, blank) == s[at..at + |Strip(window, blank)|]
  {
    hide Strip, Lead;
    var text := Strip(s, blank);
    var window := text[start..end];
    StripIsSlice(s, blank);
    StripIsSlice(window, blank);
    var lead, skip := Lead(s, blank), Lead(window, blank);
    SliceOfSlice(s, lead, lead + |text|, start, end);
    SliceOfSlice(s, lead + start, lead + end, skip, skip + |Strip(window, blank)|);
  }

  lemma SliceOfSlice(s: string, a: nat, b: nat, c: nat, d: nat)
    requires a <= b <= |s| && c <= d <= b - a
    ensures s[a..b][c..d] == s[a + c..a + d]
  {
    forall i | 0 <= i < d - c ensures s[a..b][c..d][i] == s[a + c..a + d][i] {
      assert s[a..b][c..d][i] == s[a..b][c + i];
    }
  }

  /** A document has chunks exactly when something in it is visible. */
  lemma HasChunksIff(doc: Document, cfg: Config, blank: set<char>)
    requires cfg.Fits()
    ensures Chunks(doc, cfg, blank) != [] <==> exists q :: 0 <= q < |doc.content| && doc.content[q] !in blank
  {
    if Chunks(doc, cfg, blank) != [] {
      StripEnds(doc.content, blank);
      StripIsSlice(doc.content, blank);
      assert doc.content[Lead(doc.content, blank)] !in blank;
    }
    if q: nat :| q < |doc.content| && doc.content[q] !in blank {
      var i := NothingVisibleIsLost(doc, cfg, blank, q);
    }
  }

  // ---- Many documents ----

  function AllChunks(docs: seq<Document>, cfg: Config, blank: set<char>): seq<Chunk>
    requires cfg.Fits()
  {
    if docs == [] then [] else AllChunks(docs[..|docs| - 1], cfg, blank) + Chunks(docs[|docs| - 1], cfg, blank)
  }

  ghost predicate DistinctIds(cs: seq<Chunk>) {
    forall i, j | 0 <= i < j < |cs| :: cs[i].id != cs[j].id
  }

  /** No two documents with chunks share an id. */
  ghost predicate DistinctDocuments(docs: seq<Document>, cfg: Config, blank: set<char>)
    requires cfg.Fits()
  {
    forall i, j | 0 <= i < j < |docs| && Chunks(docs[i], cfg, blank) != [] && Chunks(docs[j], cfg, blank) != [] ::
        docs[i].id != docs[j].id
  }

  /** Each chunk of the collection is a chunk of one of the documents. */
  lemma {:induction false} ChunkComesFrom(docs: seq<Document>, cfg: Config, blank: set<char>,
      i: nat) returns (d: nat, k: nat)
    requires cfg.Fits() && i < |AllChunks(docs, cfg, blank)|
    ensures d < |docs| && k < |Chunks(docs[d], cfg, blank)|
              && AllChunks(docs, cfg, blank)[i].id == ChunkId(docs[d].id, k)
  {
    hide Chunks, ChunkId;
    var before := AllChunks(docs[..|docs| - 1], cfg, blank);
    if i < |before| {
      d, k := ChunkComesFrom(docs[..|docs| - 1], cfg, blank, i);
    } else {
      d, k := |docs| - 1, i - |before|;
      ChunksAreNumbered(docs[d], cfg, blank, k);
    }
  }

  lemma {:induction false} FirstChunkIsThere(docs: seq<Document>, cfg: Config, blank: set<char>,
      d: nat) returns (i: nat)
    requires cfg.Fits() && d < |docs| && Chunks(docs[d], cfg, blank) != []
    ensures i < |AllChunks(docs, cfg, blank)| && AllChunks(docs, cfg, blank)[i].id == ChunkId(docs[d].id, 0)
  {
    hide Chunks, ChunkId;
    if d < |docs| - 1 {
      i := FirstChunkIsThere(docs[..|docs| - 1], cfg, blank, d);
    } else {
      i := |AllChunks(docs[..|docs| - 1], cfg, blank)|;
      ChunksAreNumbered(docs[d], cfg, blank, 0);
    }
  }

  lemma AllChunksSplit(docs: seq<Document>, cfg: Config, blank: set<char>)
    requires cfg.Fits() && docs != []
    ensures AllChunks(docs, cfg, blank) == AllChunks(docs[..|docs| - 1], cfg, blank) + Chunks(docs[|docs| - 1], cfg,
              blank)
  {
  }

  /** A new document's chunks have ids the earlier chunks do not have. */
  lemma NewIdIsNew(docs: seq<Document>, cfg: Config, blank: set<char>, i: nat, k: nat)
    requires cfg.Fits() && docs != [] && DistinctDocuments(docs, cfg, blank)
    requires i < |AllChunks(docs[..|docs| - 1], cfg, blank)| && k < |Chunks(docs[|docs| - 1], cfg, blank)|
    ensures AllChunks(docs[..|docs| - 1], cfg, blank)[i].id != Chunks(docs[|docs| - 1], cfg, blank)[k].id
  {
    hide Chunks, ChunkId, AllChunks, ShowsText;
    var n := |docs| - 1;
    ChunksAreNumbered(docs[n], cfg, blank, k);
    var d, m := ChunkComesFrom(docs[..n], cfg, blank, i);
    if AllChunks(docs[..n], cfg, blank)[i].id == Chunks(docs[n], cfg, blank)[k].id {
      ChunkIdInjective(docs[d].id, m, docs[n].id, k);
    }
  }

  /** The chunks of one document have distinct ids. */
  lemma IdsOfOneDocument(doc: Document, cfg: Config, blank: set<char>, i: nat, j: nat)
    requires cfg.Fits() && i < j < |Chunks(doc, cfg, blank)|
    ensures Chunks(doc, cfg, blank)[i].id != Chunks(doc, cfg, blank)[j].id
  {
    hide Chunks, ChunkId, ShowsText;
    ChunksAreNumbered(doc, cfg, blank, i);
    ChunksAreNumbered(doc, cfg, blank, j);
    if ChunkId(doc.id, i) == ChunkId(doc.id, j) {
      ChunkIdInjective(doc.id, i, doc.id, j);
    }
  }

  lemma {:induction false} DistinctDocumentsGiveDistinctIds(docs: seq<Document>, cfg: Config, blank: set<char>)
    requires cfg.Fits() && DistinctDocuments(docs, cfg, blank)
    ensures DistinctIds(AllChunks(docs, cfg, blank))
  {
    hide Chunks;
    if docs != [] {
      var n := |docs| - 1;
      DistinctDocumentsGiveDistinctIds(docs[..n], cfg, blank);
      AllChunksSplit(docs, cfg, blank);
      hide AllChunks;
      var all, before := AllChunks(docs, cfg, blank), AllChunks(docs[..n], cfg, blank);
      forall i, j | 0 <= i < j < |all| ensures all[i].id != all[j].id {
        if i < |before| <= j {
          NewIdIsNew(docs, cfg, blank, i, j - |before|);
        } else if |before| <= i {
          IdsOfOneDocument(docs[n], cfg, blank, i - |before|, j - |before|);
        }
      }
    }
  }

  lemma {:induction false} SharedIdClashes(docs: seq<Document>, cfg: Config, blank: set<char>, d: nat, e: nat)
    requires cfg.Fits() && d < e < |docs| && docs[d].id == docs[e].id
    requires Chunks(docs[d], cfg, blank) != [] && Chunks(docs[e], cfg, blank) != []
    ensures !DistinctIds(AllChunks(docs, cfg, blank))
  {
    hide Chunks, ChunkId;
    var n := |docs| - 1;
    var before, all := AllChunks(docs[..n], cfg, blank), AllChunks(docs, cfg, blank);
    if e < n {
      SharedIdClashes(docs[..n], cfg, blank, d, e);
      var i, j :| 0 <= i < j < |before| && before[i].id == before[j].id;
      assert all[i].id == all[j].id;
    } else {
      var i := FirstChunkIsThere(docs[..n], cfg, blank, d);
      ChunksAreNumbered(docs[n], cfg, blank, 0);
      assert all[i].id == all[|before|].id;
    }
  }

  /** The ids of a whole collection are distinct exactly when no two documents that have chunks share an id. */
  lemma CollectionIdsDistinctIff(docs: seq<Document>, cfg: Config, blank: set<char>)
    requires cfg.Fits()
    ensures DistinctIds(AllChunks(docs, cfg, blank)) <==> DistinctDocuments(docs, cfg, blank)
  {
    hide Chunks, AllChunks, DistinctIds;
    if DistinctDocuments(docs, cfg, blank) {
      DistinctDocumentsGiveDistinctIds(docs, cfg, blank);
    } else {
      var d, e :| 0 <= d < e < |docs| && Chunks(docs[d], cfg, blank) != [] && Chunks(docs[e], cfg, blank) != []
          && docs[d].id == docs[e].id;
      SharedIdClashes(docs, cfg, blank, d, e);
    }
  }

  // ---- The loop ----

  /** A document that fits into one window is one chunk. */
  lemma ShortDocument(doc: Document, cfg: Config, blank: set<char>)
    requires cfg.Fits() && 0 < |Strip(doc.content, blank)| <= cfg.size
    ensures var text := Strip(doc.content, blank);
            Chunks(doc, cfg, blank) == [Chunk(ChunkId(doc.id, 0), doc.id, 0, text, 0, |text|)]
  {
    hide Strip, ChunkId;
    var text := Strip(doc.content, blank);
    StripIdempotent(doc.content, blank);
    assert text[0..|text|] == text;
    AllWindowsFit(text, cfg, 0);
    NextWindow(|text|, cfg, 0);
    EmitStep(doc.id, text, Windows(|text|, cfg, 0), 0, blank, []);
    hide Windows;
  }

  /** The window at `start` and the ones behind it. */
  lemma NextWindow(n: nat, cfg: Config, start: nat)
    requires cfg.Fits() && start < n
    ensures var ws := Windows(n, cfg, start);
            var end := if start + cfg.size < n then start + cfg.size else n;
            && ws != [] && ws[0] == Window(start, end)
            && ws[1..] == if end == n then [] else Windows(n, cfg, start + cfg.Stride())
  {
  }

  /** What the first window emits comes before what the others emit. */
  lemma EmitStep(id: string, text: string, ws: seq<Window>, index: nat, blank: set<char>, done: seq<Chunk>)
    requires ws != [] && WindowsFit(text, ws)
    ensures var content := Strip(text[ws[0].start..ws[0].end], blank);
            var chunk := Chunk(ChunkId(id, index), id, index, content, ws[0].start, ws[0].end);
            var here := if content == "" then [] else [chunk];
            WindowsFit(text, ws[1..])
            && done + Emit(id, text, ws, index, blank) == done + here + Emit(id, text, ws[1..], index + |here|, blank)
  {
    hide Strip, ChunkId;
  }

  lemma EmitNone(id: string, text: string, index: nat, blank: set<char>)
    ensures Emit(id, text, [], index, blank) == []
  {
  }

  class SimpleTextChunker {
    const cfg: Config
    const blank: set<char>

    constructor (cfg: Config, blank: set<char>)
      requires cfg.Fits()
      ensures this.cfg == cfg && this.blank == blank
    {
      this.cfg, this.blank := cfg, blank;
    }

    method ChunkDocument(doc: Document) returns (chunks: seq<Chunk>)
      requires cfg.Fits()
      ensures chunks == Chunks(doc, cfg, blank)
    {
      hide Strip, ChunkId, Emit, Windows;
      var text := Strip(doc.content, blank);
      if text == "" {
        return [];
      }
      if |text| <= cfg.size {
        ShortDocument(doc, cfg, blank);
        return [Chunk(ChunkId(doc.id, 0), doc.id, 0, text, 0, |text|)];
      }
      ChunksAreEmitted(doc, cfg, blank);
      chunks := SlideOver(doc.id, text);
    }

    /** The loop over the windows of a text. */
    method SlideOver(id: string, text: string) returns (chunks: seq<Chunk>)
      requires cfg.Fits() && text != "" && WindowsFit(text, Windows(|text|, cfg, 0))
      ensures chunks == Emit(id, text, Windows(|text|, cfg, 0), 0, blank)
    {
      hide Strip, ChunkId, Emit, Windows, WindowsFit;
      chunks := [];
      var start, index := 0, 0;
      ghost var ws := Windows(|text|, cfg, 0);
      ghost var all := Emit(id, text, ws, 0, blank);
      while start < |text|
        invariant start < |text|
        invariant ws == Windows(|text|, cfg, start) && WindowsFit(text, ws)
        invariant chunks + Emit(id, text, ws, index, blank) == all
        decreases |text| - start
      {
        var end := if start + cfg.size < |text| then start + cfg.size else |text|;
        var content := Strip(text[start..end], blank);
        NextWindow(|text|, cfg, start);
        EmitStep(id, text, ws, index, blank, chunks);
        ws := ws[1..];
        if content != "" {
          chunks := chunks + [Chunk(ChunkId(id, index), id, index, content, start, end)];
          index := index + 1;
        }
        if end == |text| {
          break;
        }
        start := start + cfg.Stride();
      }
      EmitNone(id, text, index, blank);
    }

    method ChunkDocuments(docs: seq<Document>) returns (all: seq<Chunk>)
      requires cfg.Fits()
      ensures all == AllChunks(docs, cfg, blank)
    {
      all := [];
      for i := 0 to |docs|
        invariant all == AllChunks(docs[..i], cfg, blank)
      {
        var chunks := ChunkDocument(docs[i]);
        assert docs[..i + 1][..i] == docs[..i];
        all := all + chunks;
      }
      assert docs[..|docs|] == docs;
    }
  }
}
