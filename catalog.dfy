/** The fixed category list and the names derived from (category, index):
    the canonical URL a QR code encodes and the two output file paths. */
module Catalog {
  import opened Decimal

  /** The five equipment classes, in the order of the selection menu. */
  datatype Category = VME | NimCamac | DET | PC | TARGET

  /** The category as it appears in URLs and directory names. */
  function Name(c: Category): string
  {
    match c
    case VME => "VME"
    case NimCamac => "NIM-CAMAC"
    case DET => "DET"
    case PC => "PC"
    case TARGET => "TARGET"
  }

  /** `categories = ['VME', 'NIM-CAMAC', 'DET', 'PC', 'TARGET']`. */
  const Categories: seq<Category> := [VME, NimCamac, DET, PC, TARGET]

  /** The number shown next to a category in the menu (enumerate from 1). */
  function MenuNumber(c: Category): (n: int)
    ensures 1 <= n <= |Categories| && Categories[n - 1] == c
  {
    match c
    case VME => 1
    case NimCamac => 2
    case DET => 3
    case PC => 4
    case TARGET => 5
  }

  const Host := "https://vdg.phys.sci.osaka-u.ac.jp/BUPPIN/"

  /** `base_url = f"https://vdg.phys.sci.osaka-u.ac.jp/BUPPIN/{category}/"`. */
  function BaseUrl(c: Category): string
  {
    Host + Name(c) + "/"
  }

  /** The page a QR code points at: `f"{base_url}{i:03}.html"`. */
  function CanonicalUrl(c: Category, i: int): string
  {
    BaseUrl(c) + Pad3(i) + ".html"
  }

  /** `Path(f"./IMG/{category}") / f"qrcode_{i:03}.png"` as a string. */
  function QrPath(c: Category, i: int): string
  {
    "IMG/" + Name(c) + "/qrcode_" + Pad3(i) + ".png"
  }

  /** `Path(f"./HTML/{category}") / f"{i:03}.html"` as a string. */
  function HtmlPath(c: Category, i: int): string
  {
    "HTML/" + Name(c) + "/" + Pad3(i) + ".html"
  }

  // ---------------------------------------------------------------- lemmas

  /** The menu numbering and the list agree: entry n is the category numbered n. */
  lemma MenuNumbering(n: int)
    requires 1 <= n <= |Categories|
    ensures MenuNumber(Categories[n - 1]) == n
  {
  }

  /** Any two names wrapped in the same surroundings: equal strings mean the
      inner parts are equal. */
  lemma {:induction false} Cancel(p: string, a: string, b: string, q: string)
    requires p + a + q == p + b + q
    ensures a == b
  {
    var s := p + a + q;
    assert |a| == |b|;
    assert a == s[|p|..|p| + |a|];
    assert b == (p + b + q)[|p|..|p| + |b|];
  }

  /** The five category names begin with five different letters. */
  lemma NameLeads(c: Category, d: Category)
    requires Name(c)[0] == Name(d)[0]
    ensures c == d
  {
  }

  /** Canonical URLs of two (category, index) pairs are equal only when the
      pairs are. */
  lemma CanonicalUrlInjective(c: Category, i: int, d: Category, j: int)
    requires CanonicalUrl(c, i) == CanonicalUrl(d, j)
    ensures c == d && i == j
  {
    assert CanonicalUrl(c, i)[|Host|] == Name(c)[0];
    assert CanonicalUrl(d, j)[|Host|] == Name(d)[0];
    NameLeads(c, d);
    Cancel(BaseUrl(c), Pad3(i), Pad3(j), ".html");
    Pad3Injective(i, j);
  }

  /** No two QR files of a run, nor of two categories, share a path. */
  lemma QrPathInjective(c: Category, i: int, d: Category, j: int)
    requires QrPath(c, i) == QrPath(d, j)
    ensures c == d && i == j
  {
    assert QrPath(c, i)[4] == Name(c)[0];
    assert QrPath(d, j)[4] == Name(d)[0];
    NameLeads(c, d);
    Cancel("IMG/" + Name(c) + "/qrcode_", Pad3(i), Pad3(j), ".png");
    Pad3Injective(i, j);
  }

  /** No two redirect pages share a path. */
  lemma HtmlPathInjective(c: Category, i: int, d: Category, j: int)
    requires HtmlPath(c, i) == HtmlPath(d, j)
    ensures c == d && i == j
  {
    assert HtmlPath(c, i)[5] == Name(c)[0];
    assert HtmlPath(d, j)[5] == Name(d)[0];
    NameLeads(c, d);
    Cancel("HTML/" + Name(c) + "/", Pad3(i), Pad3(j), ".html");
    Pad3Injective(i, j);
  }

  /** QR images and redirect pages live in different trees. */
  lemma QrHtmlDisjoint(c: Category, i: int, d: Category, j: int)
    ensures QrPath(c, i) != HtmlPath(d, j)
  {
    assert QrPath(c, i)[0] == 'I' && HtmlPath(d, j)[0] == 'H';
  }

  /** A worked canonical URL: category DET, index 7. */
  lemma CanonicalUrlExample()
    ensures CanonicalUrl(DET, 7) == "https://vdg.phys.sci.osaka-u.ac.jp/BUPPIN/DET/007.html"
  {
    assert Pad3(7) == "007" by { assert Digits(7) == "7"; }
  }

  /** A worked QR path: category DET, index 7. */
  lemma QrPathExample()
    ensures QrPath(DET, 7) == "IMG/DET/qrcode_007.png"
  {
    assert Pad3(7) == "007" by { assert Digits(7) == "7"; }
  }

  /** A worked redirect-page path: category DET, index 12. */
  lemma HtmlPathExample()
    ensures HtmlPath(DET, 12) == "HTML/DET/012.html"
  {
    assert Pad3(12) == "012" by { assert Digits(12) == "12"; }
  }
}
