/** What the generation loops write: QR images and redirect pages, saved in
    an abstract working directory that maps paths to file contents. */
module Artifacts {
  import opened Ranges
  import opened Decimal
  import opened Catalog
  import opened Redirect

  datatype ErrorCorrection = L | M | Q | H

  /** The arguments passed to qrcode.QRCode(...), qr.make(fit=...) and
      qr.make_image(fill_color=..., back_color=...). */
  datatype QrParams = QrParams(version: nat, errorCorrection: ErrorCorrection,
                               boxSize: nat, border: nat, fit: bool,
                               fill: string, back: string)

  /** The one parameter record every script uses. */
  const StandardQr := QrParams(1, L, 10, 4, true, "black", "white")

  /** A saved file: a QR image stands for the encoder's rendering of `data`
      with `params`; a page is the text written to an .html file. */
  datatype File = QrImage(data: string, params: QrParams) | Page(html: string)

  /** One file save, in the order the script performs them. */
  datatype Write = Write(path: string, file: File)

  /** The directory contents after performing `journal` on `files`, in
      order; a later save to a path overwrites an earlier one. */
  function Replay(files: map<string, File>, journal: seq<Write>): map<string, File>
    decreases |journal|
  {
    if journal == [] then files
    else
      var w := journal[|journal| - 1];
      Replay(files, journal[..|journal| - 1])[w.path := w.file]
  }

  /** The working directory. `files` is what is on disk, `journal` every
      save made so far, `origin` what was on disk before the first of them. */
  class Workspace {
    ghost var origin: map<string, File>
    var files: map<string, File>
    var journal: seq<Write>

    ghost predicate Valid()
      reads this
    {
      files == Replay(origin, journal)
    }

    constructor (existing: map<string, File>)
      ensures Valid() && origin == existing && files == existing && journal == []
    {
      origin := existing;
      files := existing;
      journal := [];
    }

    /** img.save(path) or open(path, "w").write(...): creates or overwrites. */
    method Store(path: string, file: File)
      requires Valid()
      modifies this
      ensures Valid() && origin == old(origin)
      ensures files == old(files)[path := file]
      ensures journal == old(journal) + [Write(path, file)]
    {
      journal := journal + [Write(path, file)];
      files := files[path := file];
      assert journal[..|journal| - 1] == old(journal);
    }
  }

  // ----------------------------------------------------- specification

  /** The saves made for index `i`: the QR image, then the redirect page
      when `i` has a destination URL. */
  function StepWrites(c: Category, i: int, urls: map<int, string>): seq<Write>
  {
    [Write(QrPath(c, i), QrImage(CanonicalUrl(c, i), StandardQr))]
    + if i in urls then [Write(HtmlPath(c, i), Page(RedirectHtml(urls[i])))] else []
  }

  /** The saves of the loop `for i in range(lo, hi + 1)`, in order. */
  function Plan(c: Category, lo: int, hi: int, urls: map<int, string>): seq<Write>
    decreases hi - lo
  {
    if hi < lo then [] else Plan(c, lo, hi - 1, urls) + StepWrites(c, hi, urls)
  }

  /** The saves of visiting the indices `idx` in order. */
  function StepsOver(c: Category, idx: seq<int>, urls: map<int, string>): seq<Write>
    decreases |idx|
  {
    if idx == [] then [] else StepsOver(c, idx[..|idx| - 1], urls) + StepWrites(c, idx[|idx| - 1], urls)
  }

  function StepFiles(c: Category, i: int, urls: map<int, string>): map<string, File>
  {
    map[QrPath(c, i) := QrImage(CanonicalUrl(c, i), StandardQr)]
    + if i in urls then map[HtmlPath(c, i) := Page(RedirectHtml(urls[i]))] else map[]
  }

  /** The files the loop over [lo, hi] leaves on disk. */
  function Outputs(c: Category, lo: int, hi: int, urls: map<int, string>): map<string, File>
    decreases hi - lo
  {
    if hi < lo then map[] else Outputs(c, lo, hi - 1, urls) + StepFiles(c, hi, urls)
  }

  /** The indices of [lo, hi] that have a destination URL. */
  function UrlIndices(urls: map<int, string>, lo: int, hi: int): set<int>
  {
    set i | i in urls && lo <= i <= hi
  }

  // ------------------------------------------------------------ loops

  /** One QR save: the image of index i's canonical URL, to its QR path. */
  method SaveQr(ws: Workspace, c: Category, i: int)
    requires ws.Valid()
    modifies ws
    ensures ws.Valid() && ws.origin == old(ws.origin)
    ensures ws.files == old(ws.files) + map[QrPath(c, i) := QrImage(CanonicalUrl(c, i), StandardQr)]
    ensures ws.journal == old(ws.journal) + [Write(QrPath(c, i), QrImage(CanonicalUrl(c, i), StandardQr))]
  {
    var url := CanonicalUrl(c, i);
    ws.Store(QrPath(c, i), QrImage(url, StandardQr));
  }

  /** One redirect page: generate_html(url) written to index i's HTML path. */
  method SaveRedirect(ws: Workspace, c: Category, i: int, url: string)
    requires ws.Valid()
    modifies ws
    ensures ws.Valid() && ws.origin == old(ws.origin)
    ensures ws.files == old(ws.files) + map[HtmlPath(c, i) := Page(RedirectHtml(url))]
    ensures ws.journal == old(ws.journal) + [Write(HtmlPath(c, i), Page(RedirectHtml(url)))]
  {
    ws.Store(HtmlPath(c, i), Page(RedirectHtml(url)));
  }

  /** One iteration of the loop of main in 20241113 and 20250108: the QR
      image of index i, then its redirect page if it has a destination URL. */
  method SaveStep(ws: Workspace, c: Category, i: int, urls: map<int, string>)
    requires ws.Valid()
    modifies ws
    ensures ws.Valid() && ws.origin == old(ws.origin)
    ensures ws.files == old(ws.files) + StepFiles(c, i, urls)
    ensures ws.journal == old(ws.journal) + StepWrites(c, i, urls)
  {
    SaveQr(ws, c, i);
    if i in urls {
      SaveRedirect(ws, c, i, urls[i]);
    }
    StepEffect(old(ws.files), old(ws.journal), ws.files, ws.journal, c, i, urls);
  }

  /** The loop of main in 20241113 and 20250108: every index of
      [start, end] in ascending order. */
  method Generate(ws: Workspace, c: Category, start: int, end: int, urls: map<int, string>)
    requires ws.Valid()
    modifies ws
    ensures ws.Valid() && ws.origin == old(ws.origin)
    ensures ws.journal == old(ws.journal) + Plan(c, start, end, urls)
    ensures ws.files == old(ws.files) + Outputs(c, start, end, urls)
  {
    var i := start;
    while i <= end
      invariant start <= i && (i <= end + 1 || i == start)
      invariant ws.Valid() && ws.origin == old(ws.origin)
      invariant ws.journal == old(ws.journal) + Plan(c, start, i - 1, urls)
      invariant ws.files == old(ws.files) + Outputs(c, start, i - 1, urls)
    {
      ghost var files, journal := ws.files, ws.journal;
      SaveStep(ws, c, i, urls);
      Advance(old(ws.files), old(ws.journal), files, journal, ws.files, ws.journal, c, start, i, urls);
      i := i + 1;
    }
  }

  /** The loop of main in 20241112: QR images only. */
  method GenerateQrOnly(ws: Workspace, c: Category, start: int, end: int)
    requires ws.Valid()
    modifies ws
    ensures ws.Valid() && ws.origin == old(ws.origin)
    ensures ws.journal == old(ws.journal) + Plan(c, start, end, map[])
    ensures ws.files == old(ws.files) + Outputs(c, start, end, map[])
  {
    var i := start;
    while i <= end
      invariant start <= i && (i <= end + 1 || i == start)
      invariant ws.Valid() && ws.origin == old(ws.origin)
      invariant ws.journal == old(ws.journal) + Plan(c, start, i - 1, map[])
      invariant ws.files == old(ws.files) + Outputs(c, start, i - 1, map[])
    {
      ghost var files, journal := ws.files, ws.journal;
      SaveQr(ws, c, i);
      StepEffect(files, journal, ws.files, ws.journal, c, i, map[]);
      Advance(old(ws.files), old(ws.journal), files, journal, ws.files, ws.journal, c, start, i, map[]);
      i := i + 1;
    }
  }

  /** One more iteration extends the run's saves and outputs by index i's. */
  lemma Advance(files0: map<string, File>, journal0: seq<Write>,
                files: map<string, File>, journal: seq<Write>,
                files': map<string, File>, journal': seq<Write>,
                c: Category, start: int, i: int, urls: map<int, string>)
    requires start <= i
    requires files == files0 + Outputs(c, start, i - 1, urls) && journal == journal0 + Plan(c, start, i - 1, urls)
    requires files' == files + StepFiles(c, i, urls) && journal' == journal + StepWrites(c, i, urls)
    ensures files' == files0 + Outputs(c, start, i, urls) && journal' == journal0 + Plan(c, start, i, urls)
  {
    Associate(files0, Outputs(c, start, i - 1, urls), StepFiles(c, i, urls));
    Append(journal0, Plan(c, start, i - 1, urls), StepWrites(c, i, urls));
  }

  // ------------------------------------------------------------ lemmas

  lemma Associate<K, V>(m: map<K, V>, o: map<K, V>, p: map<K, V>)
    ensures m + o + p == m + (o + p)
  {
  }

  /** The saves of one iteration, as the loop body makes them, are
      StepWrites and leave StepFiles on top of what was there. */
  lemma StepEffect(files: map<string, File>, journal: seq<Write>,
                   files': map<string, File>, journal': seq<Write>,
                   c: Category, i: int, urls: map<int, string>)
    requires var qr := Write(QrPath(c, i), QrImage(CanonicalUrl(c, i), StandardQr));
      if i in urls then
        var page := Write(HtmlPath(c, i), Page(RedirectHtml(urls[i])));
        && files' == files + map[qr.path := qr.file] + map[page.path := page.file]
        && journal' == journal + [qr] + [page]
      else
        files' == files + map[qr.path := qr.file] && journal' == journal + [qr]
    ensures files' == files + StepFiles(c, i, urls)
    ensures journal' == journal + StepWrites(c, i, urls)
  {
  }

  /** A QR path is among the outputs exactly for the indices of the run's
      own category and range, and holds the image of that index's URL. */
  lemma {:induction false} OutputsQr(c: Category, lo: int, hi: int, urls: map<int, string>, d: Category, i: int)
    ensures QrPath(d, i) in Outputs(c, lo, hi, urls) <==> d == c && lo <= i <= hi
    ensures QrPath(d, i) in Outputs(c, lo, hi, urls) ==>
              Outputs(c, lo, hi, urls)[QrPath(d, i)] == QrImage(CanonicalUrl(c, i), StandardQr)
    decreases hi - lo
  {
    if lo <= hi {
      var p := QrPath(d, i);
      OutputsQr(c, lo, hi - 1, urls, d, i);
      UnionAt(Outputs(c, lo, hi - 1, urls), StepFiles(c, hi, urls), p);
      StepFilesAt(c, hi, urls, p);
      QrHtmlDisjoint(d, i, c, hi);
      if !(d == c && i == hi) {
        assert p != QrPath(c, hi) by {
          if p == QrPath(c, hi) { QrPathInjective(d, i, c, hi); }
        }
      }
    }
  }

  /** A redirect page exists exactly for the indices of the range that have
      a destination URL (none for keys outside the range), and it redirects
      to that URL. */
  lemma {:induction false} OutputsHtml(c: Category, lo: int, hi: int, urls: map<int, string>, d: Category, i: int)
    ensures HtmlPath(d, i) in Outputs(c, lo, hi, urls) <==> d == c && lo <= i <= hi && i in urls
    ensures HtmlPath(d, i) in Outputs(c, lo, hi, urls) ==>
              Outputs(c, lo, hi, urls)[HtmlPath(d, i)] == Page(RedirectHtml(urls[i]))
    decreases hi - lo
  {
    if lo <= hi {
      var p := HtmlPath(d, i);
      OutputsHtml(c, lo, hi - 1, urls, d, i);
      UnionAt(Outputs(c, lo, hi - 1, urls), StepFiles(c, hi, urls), p);
      StepFilesAt(c, hi, urls, p);
      QrHtmlDisjoint(c, hi, d, i);
      if !(d == c && i == hi) {
        assert p != HtmlPath(c, hi) by {
          if p == HtmlPath(c, hi) { HtmlPathInjective(d, i, c, hi); }
        }
      }
    }
  }

  /** Membership and lookup in a map union, the right operand winning. */
  lemma UnionAt<K, V>(m: map<K, V>, o: map<K, V>, k: K)
    ensures k in m + o <==> k in m || k in o
    ensures k in o ==> (m + o)[k] == o[k]
    ensures k !in o && k in m ==> (m + o)[k] == m[k]
  {
  }

  /** The files of one iteration, path by path. */
  lemma StepFilesAt(c: Category, i: int, urls: map<int, string>, p: string)
    ensures p in StepFiles(c, i, urls) <==> p == QrPath(c, i) || (i in urls && p == HtmlPath(c, i))
    ensures p == QrPath(c, i) ==> StepFiles(c, i, urls)[p] == QrImage(CanonicalUrl(c, i), StandardQr)
    ensures i in urls && p == HtmlPath(c, i) ==> StepFiles(c, i, urls)[p] == Page(RedirectHtml(urls[i]))
  {
    QrHtmlDisjoint(c, i, c, i);
  }

  /** Nothing else is written. */
  lemma {:induction false} OutputsOnly(c: Category, lo: int, hi: int, urls: map<int, string>, p: string)
    requires p in Outputs(c, lo, hi, urls)
    ensures exists i :: lo <= i <= hi && (p == QrPath(c, i) || (i in urls && p == HtmlPath(c, i)))
    decreases hi - lo
  {
    StepFilesAt(c, hi, urls, p);
    if p !in StepFiles(c, hi, urls) {
      OutputsOnly(c, lo, hi - 1, urls, p);
    }
  }

  /** The loop leaves exactly one file per index plus one per index with a
      destination URL: end - start + 1 QR images, none overwriting another. */
  lemma {:induction false} OutputsCount(c: Category, lo: int, hi: int, urls: map<int, string>)
    requires lo <= hi + 1
    ensures |Outputs(c, lo, hi, urls)| == (hi - lo + 1) + |UrlIndices(urls, lo, hi)|
    decreases hi - lo
  {
    if lo <= hi {
      var before := Outputs(c, lo, hi - 1, urls);
      var step := StepFiles(c, hi, urls);
      OutputsCount(c, lo, hi - 1, urls);
      FreshStep(c, lo, hi, urls);
      DisjointUnionSize(before, step);
      StepFilesSize(c, hi, urls);
      UrlIndicesStep(urls, lo, hi);
    }
  }

  /** Index hi's files are not among those of the indices before it. */
  lemma FreshStep(c: Category, lo: int, hi: int, urls: map<int, string>)
    ensures Outputs(c, lo, hi - 1, urls).Keys !! StepFiles(c, hi, urls).Keys
  {
    OutputsQr(c, lo, hi - 1, urls, c, hi);
    OutputsHtml(c, lo, hi - 1, urls, c, hi);
  }

  lemma StepFilesSize(c: Category, i: int, urls: map<int, string>)
    ensures |StepFiles(c, i, urls)| == if i in urls then 2 else 1
  {
    QrHtmlDisjoint(c, i, c, i);
    var q := map[QrPath(c, i) := QrImage(CanonicalUrl(c, i), StandardQr)];
    if i in urls {
      var h := map[HtmlPath(c, i) := Page(RedirectHtml(urls[i]))];
      DisjointUnionSize(q, h);
    }
  }

  lemma UrlIndicesStep(urls: map<int, string>, lo: int, hi: int)
    requires lo <= hi
    ensures |UrlIndices(urls, lo, hi)| == |UrlIndices(urls, lo, hi - 1)| + if hi in urls then 1 else 0
  {
    if hi in urls {
      assert UrlIndices(urls, lo, hi) == UrlIndices(urls, lo, hi - 1) + {hi};
    } else {
      assert UrlIndices(urls, lo, hi) == UrlIndices(urls, lo, hi - 1);
    }
  }

  lemma DisjointUnionSize<K, V>(a: map<K, V>, b: map<K, V>)
    requires a.Keys !! b.Keys
    ensures |a + b| == |a| + |b|
  {
    assert (a + b).Keys == a.Keys + b.Keys;
    assert |(a + b).Keys| == |a.Keys| + |b.Keys|;
  }

  /** With no destination URLs (20241112) the loop writes exactly
      end - start + 1 files, all of them QR images. */
  lemma QrOnlyCount(c: Category, lo: int, hi: int)
    requires lo <= hi + 1
    ensures |Outputs(c, lo, hi, map[])| == hi - lo + 1
    ensures forall p :: p in Outputs(c, lo, hi, map[]) ==> Outputs(c, lo, hi, map[])[p].QrImage?
  {
    OutputsCount(c, lo, hi, map[]);
    assert UrlIndices(map[], lo, hi) == {};
    forall p | p in Outputs(c, lo, hi, map[])
      ensures Outputs(c, lo, hi, map[])[p].QrImage?
    {
      OutputsOnly(c, lo, hi, map[], p);
      var i :| lo <= i <= hi && p == QrPath(c, i);
      OutputsQr(c, lo, hi, map[], c, i);
    }
  }

  /** Performing the journal of a run gives the files it leaves: replaying
      the saves in order on any directory equals overlaying the outputs. */
  lemma {:induction false} ReplayPlan(m: map<string, File>, c: Category, lo: int, hi: int, urls: map<int, string>)
    ensures Replay(m, Plan(c, lo, hi, urls)) == m + Outputs(c, lo, hi, urls)
    decreases hi - lo
  {
    if lo <= hi {
      var done := Outputs(c, lo, hi - 1, urls);
      ReplayPlan(m, c, lo, hi - 1, urls);
      ReplayConcat(m, Plan(c, lo, hi - 1, urls), StepWrites(c, hi, urls));
      ReplayStep(m + done, c, hi, urls);
      Associate(m, done, StepFiles(c, hi, urls));
    }
  }

  /** Replaying one iteration's saves overlays that iteration's files. */
  lemma ReplayStep(m: map<string, File>, c: Category, i: int, urls: map<int, string>)
    ensures Replay(m, StepWrites(c, i, urls)) == m + StepFiles(c, i, urls)
  {
    var qr := Write(QrPath(c, i), QrImage(CanonicalUrl(c, i), StandardQr));
    ReplaySnoc(m, [], qr);
    if i in urls {
      var page := Write(HtmlPath(c, i), Page(RedirectHtml(urls[i])));
      ReplaySnoc(m, [qr], page);
      assert StepWrites(c, i, urls) == [qr] + [page];
    } else {
      assert StepWrites(c, i, urls) == [] + [qr];
    }
  }

  lemma ReplaySnoc(m: map<string, File>, journal: seq<Write>, w: Write)
    ensures Replay(m, journal + [w]) == Replay(m, journal)[w.path := w.file]
  {
    assert (journal + [w])[..|journal|] == journal;
  }

  lemma {:induction false} ReplayConcat(m: map<string, File>, a: seq<Write>, b: seq<Write>)
    ensures Replay(m, a + b) == Replay(Replay(m, a), b)
    decreases |b|
  {
    if b == [] {
      assert a + b == a;
    } else {
      var init, w := b[..|b| - 1], b[|b| - 1];
      assert a + b == (a + init) + [w];
      ReplaySnoc(m, a + init, w);
      ReplayConcat(m, a, init);
      assert b == init + [w];
      ReplaySnoc(Replay(m, a), init, w);
    }
  }

  /** The saves of a run split at any index: every save for an index up to
      `mid` comes before every save for a larger index (ascending order). */
  lemma {:induction false} PlanSplit(c: Category, lo: int, mid: int, hi: int, urls: map<int, string>)
    requires lo - 1 <= mid <= hi
    ensures Plan(c, lo, hi, urls) == Plan(c, lo, mid, urls) + Plan(c, mid + 1, hi, urls)
    decreases hi - mid
  {
    if mid < hi {
      PlanSplit(c, lo, mid, hi - 1, urls);
      Append(Plan(c, lo, mid, urls), Plan(c, mid + 1, hi - 1, urls), StepWrites(c, hi, urls));
    } else {
      Append(Plan(c, lo, mid, urls), [], []);
    }
  }

  lemma Append<T>(a: seq<T>, b: seq<T>, c: seq<T>)
    ensures (a + b) + c == a + (b + c) && a + [] == a
  {
  }

  /** Index i's saves sit between those of smaller and of larger indices. */
  lemma PlanAt(c: Category, lo: int, i: int, hi: int, urls: map<int, string>)
    requires lo <= i <= hi
    ensures Plan(c, lo, hi, urls) == Plan(c, lo, i - 1, urls) + StepWrites(c, i, urls) + Plan(c, i + 1, hi, urls)
  {
    PlanSplit(c, lo, i, hi, urls);
  }

  /** The loop visits the indices of Python's `range(lo, hi + 1)`, lo to hi
      ascending, saving each one's files in that order. */
  lemma {:induction false} PlanFollowsRange(c: Category, lo: int, hi: int, urls: map<int, string>)
    ensures Plan(c, lo, hi, urls) == StepsOver(c, Range(lo, hi + 1), urls)
    decreases hi - lo
  {
    if lo <= hi {
      PlanFollowsRange(c, lo, hi - 1, urls);
      RangeSnoc(lo, hi);
      var r := Range(lo, hi) + [hi];
      assert r[..|r| - 1] == Range(lo, hi) && r[|r| - 1] == hi;
    }
  }
}
