/** The top level of each script: main of 20250108, 20241113 and 20241112,
    and the module-level loop of det.py. Standard input is the sequence of
    lines `lines`; the working directory is a Workspace. */
module Scripts {
  import opened Ranges
  import opened Wrappers
  import opened Decimal
  import opened Catalog
  import opened Prompts
  import opened Artifacts

  /** main of 20250108: get_user_input, the bulk get_form_urls on the lines
      that follow, then the generation loop. When input ends early the
      script stops with EOFError before writing anything. `asked` is the
      number of lines get_user_input read, `given` the number the URL reader
      read after them, `warned` whether it printed its shortage warning. */
  method RunBulk(ws: Workspace, lines: seq<string>)
    returns (settings: Option<Settings>, urls: Option<map<int, string>>, warned: bool, asked: nat, given: nat)
    requires ws.Valid()
    modifies ws
    ensures ws.Valid() && ws.origin == old(ws.origin)
    ensures asked + given <= |lines|
    ensures settings.None? || urls.None? ==> ws.files == old(ws.files) && ws.journal == old(ws.journal)
    ensures settings.None? <==> RunsOut(lines)
    ensures settings.None? ==> urls.None? && asked == |lines|
    ensures settings.Some? ==> 1 <= settings.value.start <= settings.value.end
                               && Answered(lines, settings.value, asked)
    ensures settings.Some? ==> BulkRead(lines[asked..], settings.value.start, settings.value.end, urls, warned, given)
    ensures settings.Some? && urls.Some? ==>
              && ws.journal == old(ws.journal) + Plan(settings.value.category, settings.value.start,
                                                    settings.value.end, urls.value)
              && ws.files == old(ws.files) + Outputs(settings.value.category, settings.value.start,
                                                   settings.value.end, urls.value)
  {
    settings, asked := GetUserInput(lines);
    if settings.None? {
      return settings, None, false, asked, 0;
    }
    urls, warned, given := BulkUrlsThenFiles(ws, lines[asked..], settings.value);
  }

  /** The part of 20250108's main after get_user_input. */
  method BulkUrlsThenFiles(ws: Workspace, rest: seq<string>, s: Settings)
    returns (urls: Option<map<int, string>>, warned: bool, given: nat)
    requires ws.Valid()
    modifies ws
    ensures ws.Valid() && ws.origin == old(ws.origin)
    ensures given <= |rest|
    ensures BulkRead(rest, s.start, s.end, urls, warned, given)
    ensures urls.None? ==> ws.files == old(ws.files) && ws.journal == old(ws.journal)
    ensures urls.Some? ==>
              && ws.journal == old(ws.journal) + Plan(s.category, s.start, s.end, urls.value)
              && ws.files == old(ws.files) + Outputs(s.category, s.start, s.end, urls.value)
  {
    urls, warned, given := CollectBulk(rest, s.start, s.end);
    if urls.Some? {
      Generate(ws, s.category, s.start, s.end, urls.value);
    }
  }

  /** main of 20241113: get_user_input, the per-index get_form_urls, then
      the generation loop. */
  method RunPerIndex(ws: Workspace, lines: seq<string>)
    returns (settings: Option<Settings>, urls: Option<map<int, string>>, asked: nat, given: nat)
    requires ws.Valid()
    modifies ws
    ensures ws.Valid() && ws.origin == old(ws.origin)
    ensures asked + given <= |lines|
    ensures settings.None? || urls.None? ==> ws.files == old(ws.files) && ws.journal == old(ws.journal)
    ensures settings.None? <==> RunsOut(lines)
    ensures settings.None? ==> urls.None? && asked == |lines|
    ensures settings.Some? ==> 1 <= settings.value.start <= settings.value.end
                               && Answered(lines, settings.value, asked)
    ensures settings.Some? && urls.None? ==>
              given == |lines| - asked < settings.value.end - settings.value.start + 1
    ensures settings.Some? && urls.Some? ==>
              && given == settings.value.end - settings.value.start + 1
              && urls.value == Kept(settings.value.start, lines[asked..][..given])
              && ws.journal == old(ws.journal) + Plan(settings.value.category, settings.value.start,
                                                    settings.value.end, urls.value)
              && ws.files == old(ws.files) + Outputs(settings.value.category, settings.value.start,
                                                   settings.value.end, urls.value)
  {
    settings, asked := GetUserInput(lines);
    if settings.None? {
      return settings, None, asked, 0;
    }
    var s := settings.value;
    urls, given := CollectPerIndex(lines[asked..], s.start, s.end);
    if urls.None? {
      return;
    }
    Generate(ws, s.category, s.start, s.end, urls.value);
  }

  /** main of 20241112: get_user_input, then QR images only. */
  method RunQrOnly(ws: Workspace, lines: seq<string>) returns (settings: Option<Settings>, asked: nat)
    requires ws.Valid()
    modifies ws
    ensures ws.Valid() && ws.origin == old(ws.origin)
    ensures asked <= |lines|
    ensures settings.None? <==> RunsOut(lines)
    ensures settings.None? ==> asked == |lines| && ws.files == old(ws.files) && ws.journal == old(ws.journal)
    ensures settings.Some? ==>
              && 1 <= settings.value.start <= settings.value.end
              && Answered(lines, settings.value, asked)
              && ws.journal == old(ws.journal) + Plan(settings.value.category, settings.value.start,
                                                    settings.value.end, map[])
              && ws.files == old(ws.files) + Outputs(settings.value.category, settings.value.start,
                                                   settings.value.end, map[])
  {
    settings, asked := GetUserInput(lines);
    if settings.Some? {
      var s := settings.value;
      GenerateQrOnly(ws, s.category, s.start, s.end);
    }
  }

  // ----------------------------------------------------------------- det.py

  /** det.py's hard-coded base URL. */
  const DetBase := "https://vdg.phys.sci.osaka-u.ac.jp/BUPPIN/NIM-CAMAC/"

  /** `url = f"{base_url}{i:03}.html"`. */
  function DetUrl(i: int): string
  {
    DetBase + Pad3(i) + ".html"
  }

  /** `img_filename = f"qrcode_{i:03}.png"`, in the working directory itself. */
  function DetPath(i: int): string
  {
    "qrcode_" + Pad3(i) + ".png"
  }

  function DetStep(i: int): Write
  {
    Write(DetPath(i), QrImage(DetUrl(i), StandardQr))
  }

  /** The saves of `for i in range(lo, hi)`, in order. */
  function DetWrites(lo: int, hi: int): seq<Write>
    decreases hi - lo
  {
    if hi <= lo then [] else DetWrites(lo, hi - 1) + [DetStep(hi - 1)]
  }

  /** The files that loop leaves. */
  function DetOutputs(lo: int, hi: int): map<string, File>
    decreases hi - lo
  {
    if hi <= lo then map[] else DetOutputs(lo, hi - 1) + map[DetPath(hi - 1) := DetStep(hi - 1).file]
  }

  /** One iteration of det.py's loop: the image of index i's URL. */
  method SaveDet(ws: Workspace, i: int)
    requires ws.Valid()
    modifies ws
    ensures ws.Valid() && ws.origin == old(ws.origin)
    ensures ws.files == old(ws.files) + map[DetPath(i) := DetStep(i).file]
    ensures ws.journal == old(ws.journal) + [DetStep(i)]
  {
    var url := DetUrl(i);
    ws.Store(DetPath(i), QrImage(url, StandardQr));
  }

  /** det.py's loop over range(lo, hi). */
  method DetLoop(ws: Workspace, lo: int, hi: int)
    requires ws.Valid()
    modifies ws
    ensures ws.Valid() && ws.origin == old(ws.origin)
    ensures ws.journal == old(ws.journal) + DetWrites(lo, hi)
    ensures ws.files == old(ws.files) + DetOutputs(lo, hi)
  {
    if hi <= lo {
      return;
    }
    for i := lo to hi
      invariant ws.Valid() && ws.origin == old(ws.origin)
      invariant ws.journal == old(ws.journal) + DetWrites(lo, i)
      invariant ws.files == old(ws.files) + DetOutputs(lo, i)
    {
      ghost var files, journal := ws.files, ws.journal;
      SaveDet(ws, i);
      DetAdvance(old(ws.files), old(ws.journal), files, journal, ws.files, ws.journal, lo, i);
    }
  }

  /** One more iteration of det.py's loop extends its saves and outputs by
      index i's image. */
  lemma DetAdvance(files0: map<string, File>, journal0: seq<Write>,
                   files: map<string, File>, journal: seq<Write>,
                   files': map<string, File>, journal': seq<Write>, lo: int, i: int)
    requires lo <= i
    requires files == files0 + DetOutputs(lo, i) && journal == journal0 + DetWrites(lo, i)
    requires files' == files + map[DetPath(i) := DetStep(i).file] && journal' == journal + [DetStep(i)]
    ensures files' == files0 + DetOutputs(lo, i + 1) && journal' == journal0 + DetWrites(lo, i + 1)
  {
    Associate(files0, DetOutputs(lo, i), map[DetPath(i) := DetStep(i).file]);
    Append(journal0, DetWrites(lo, i), [DetStep(i)]);
  }

  /** det.py as written: `for i in range(47,48)`. */
  method GenerateDet(ws: Workspace)
    requires ws.Valid()
    modifies ws
    ensures ws.Valid() && ws.origin == old(ws.origin)
    ensures ws.journal == old(ws.journal) + DetWrites(47, 48)
    ensures ws.files == old(ws.files) + DetOutputs(47, 48)
  {
    DetLoop(ws, 47, 48);
  }

  // ---------------------------------------------------------------- lemmas

  /** range(47, 48) visits 47 and nothing else, so det.py saves exactly
      qrcode_047.png, encoding the NIM-CAMAC page 047. */
  lemma DetRun()
    ensures Range(47, 48) == [47]
    ensures DetWrites(47, 48) == [Write("qrcode_047.png",
                                        QrImage("https://vdg.phys.sci.osaka-u.ac.jp/BUPPIN/NIM-CAMAC/047.html", StandardQr))]
    ensures DetOutputs(47, 48) == map["qrcode_047.png" :=
                                      QrImage("https://vdg.phys.sci.osaka-u.ac.jp/BUPPIN/NIM-CAMAC/047.html", StandardQr)]
  {
    assert Pad3(47) == "047" by { Pad3Examples(); }
    assert DetPath(47) == "qrcode_047.png";
    assert DetUrl(47) == "https://vdg.phys.sci.osaka-u.ac.jp/BUPPIN/NIM-CAMAC/047.html";
    assert DetWrites(47, 47) == [] && DetOutputs(47, 47) == map[];
  }

  /** det.py encodes the same URL as the batch scripts do for NIM-CAMAC,
      with the same encoder parameters. */
  lemma DetUrlIsCanonical(i: int)
    ensures DetUrl(i) == CanonicalUrl(NimCamac, i)
    ensures DetStep(i).file == QrImage(CanonicalUrl(NimCamac, i), StandardQr)
  {
    assert DetBase == BaseUrl(NimCamac);
  }

  /** det.py's file sits in the working directory, outside the IMG/ and
      HTML/ trees the batch scripts write. */
  lemma DetPathOutsideTrees(i: int, c: Category, j: int)
    ensures DetPath(i) != QrPath(c, j) && DetPath(i) != HtmlPath(c, j)
  {
    assert DetPath(i)[0] == 'q' && QrPath(c, j)[0] == 'I' && HtmlPath(c, j)[0] == 'H';
  }

  /** For any range, the files of det.py's loop are exactly one image per
      index, under that index's name. */
  lemma {:induction false} DetOutputsAt(lo: int, hi: int, i: int)
    ensures DetPath(i) in DetOutputs(lo, hi) <==> lo <= i < hi
    ensures DetPath(i) in DetOutputs(lo, hi) ==> DetOutputs(lo, hi)[DetPath(i)] == DetStep(i).file
    decreases hi - lo
  {
    if lo < hi {
      DetOutputsAt(lo, hi - 1, i);
      if DetPath(i) == DetPath(hi - 1) {
        Cancel("qrcode_", Pad3(i), Pad3(hi - 1), ".png");
        Pad3Injective(i, hi - 1);
      }
    }
  }

  /** det.py's loop writes nothing but the images of its indices. */
  lemma {:induction false} DetOutputsOnly(lo: int, hi: int, p: string)
    requires p in DetOutputs(lo, hi)
    ensures exists i :: lo <= i < hi && p == DetPath(i)
    decreases hi - lo
  {
    if p != DetPath(hi - 1) {
      DetOutputsOnly(lo, hi - 1, p);
    }
  }

  /** det.py's loop saves one image per index of `range(lo, hi)`, in that
      order. */
  lemma {:induction false} DetWritesFollowRange(lo: int, hi: int)
    ensures |DetWrites(lo, hi)| == |Range(lo, hi)|
    ensures forall k :: 0 <= k < |Range(lo, hi)| ==> DetWrites(lo, hi)[k] == DetStep(Range(lo, hi)[k])
    decreases hi - lo
  {
    if lo < hi {
      DetWritesFollowRange(lo, hi - 1);
      RangeSnoc(lo, hi - 1);
      Pointwise(DetWrites(lo, hi - 1), Range(lo, hi - 1), DetStep, hi - 1);
    }
  }

  /** Extending a list of indices and the list of their images under `f`
      by one more index keeps them in step. */
  lemma Pointwise<T>(ws: seq<T>, r: seq<int>, f: int -> T, i: int)
    requires |ws| == |r| && forall k :: 0 <= k < |r| ==> ws[k] == f(r[k])
    ensures |ws + [f(i)]| == |r + [i]|
    ensures forall k :: 0 <= k < |r| + 1 ==> (ws + [f(i)])[k] == f((r + [i])[k])
  {
  }
}
