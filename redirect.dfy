/** The HTML redirect page written for an index that has a destination URL. */
module Redirect {
  import opened Wrappers
  import opened Decimal

  /** The fixed text of the page. The destination URL is inserted verbatim
      (no escaping of any kind) between each Open/Close pair. */
  const Preamble: string := "<!DOCTYPE html>\n<html lang=\"en\">\n<head>\n<meta charset=\"UTF-8\">\n"
  const MetaOpen: string := "<meta http-equiv=\"refresh\" content=\"0;url="
  const MetaClose: string := "\">"
  const Middle: string := "\n<title>Redirecting...</title>\n</head>\n<body>\n<script type=\"text/javascript\">\n    "
  const ScriptOpen: string := "window.location.href = \""
  const ScriptClose: string := "\""
  const FallbackText: string := "\n</script>\n<p>If you are not redirected automatically, follow this "
  const AnchorOpen: string := "<a href='"
  const AnchorClose: string := "'>"
  const Ending: string := "link to the form</a>.</p>\n</body>\n</html>"

  /** The three constructs that carry the destination. */
  function MetaRefresh(u: string): string { MetaOpen + u + MetaClose }
  function LocationAssignment(u: string): string { ScriptOpen + u + ScriptClose }
  function FallbackAnchor(u: string): string { AnchorOpen + u + AnchorClose }

  /** generate_html(input_url). */
  function RedirectHtml(u: string): string
  {
    Preamble + MetaRefresh(u) + Middle + LocationAssignment(u) + FallbackText + FallbackAnchor(u) + Ending
  }

  /** `t` occurs in `s` starting at position `at`. */
  predicate OccursAt(t: string, s: string, at: int)
  {
    0 <= at && at + |t| <= |s| && s[at..at + |t|] == t
  }

  /** The length of everything on the page that is not the URL. */
  const Fixed: nat := |Preamble| + |MetaOpen| + |MetaClose| + |Middle| + |ScriptOpen| + |ScriptClose|
                      + |FallbackText| + |AnchorOpen| + |AnchorClose| + |Ending|

  /** Where the first copy of the URL starts. */
  const UrlStart: nat := |Preamble| + |MetaOpen|

  /** Reads the destination back out of a page: the inverse of RedirectHtml. */
  function TargetOf(html: string): (r: Option<string>)
    ensures r.Some? ==> RedirectHtml(r.value) == html
  {
    if |html| >= Fixed && (|html| - Fixed) % 3 == 0 then
      var u := html[UrlStart..UrlStart + (|html| - Fixed) / 3];
      if RedirectHtml(u) == html then Some(u) else None
    else None
  }

  // ---------------------------------------------------------------- lemmas

  lemma OccursInConcat(x: string, t: string, y: string)
    ensures OccursAt(t, x + t + y, |x|)
  {
    assert (x + t + y)[|x|..|x| + |t|] == t;
  }

  /** The page is the fixed skeleton plus exactly three copies of the URL,
      so the URL is inserted as is, without any escaping. */
  lemma RedirectHtmlLength(u: string)
    ensures |RedirectHtml(u)| == Fixed + 3 * |u|
  {
  }

  /** The URL appears verbatim in the meta refresh `content="0;url=…"`, in
      the script's `window.location.href = "…"` and in the fallback link
      `<a href='…'>`, in that order. */
  lemma RedirectHtmlEmbeds(u: string)
    ensures OccursAt(MetaRefresh(u), RedirectHtml(u), |Preamble|)
    ensures OccursAt(LocationAssignment(u), RedirectHtml(u), |Preamble| + |MetaRefresh(u)| + |Middle|)
    ensures OccursAt(FallbackAnchor(u), RedirectHtml(u),
                     |Preamble| + |MetaRefresh(u)| + |Middle| + |LocationAssignment(u)| + |FallbackText|)
  {
    var m, l, f := MetaRefresh(u), LocationAssignment(u), FallbackAnchor(u);
    Regroup(Preamble, m, Middle, l, FallbackText, f, Ending);
    OccursInConcat(Preamble, m, Middle + l + FallbackText + f + Ending);
    OccursInConcat(Preamble + m + Middle, l, FallbackText + f + Ending);
    OccursInConcat(Preamble + m + Middle + l + FallbackText, f, Ending);
  }

  /** The page's seven parts, grouped around each of the three inserts. */
  lemma Regroup(a: string, b: string, c: string, d: string, e: string, f: string, g: string)
    ensures a + b + c + d + e + f + g == a + b + (c + d + e + f + g)
    ensures a + b + c + d + e + f + g == (a + b + c) + d + (e + f + g)
    ensures a + b + c + d + e + f + g == (a + b + c + d + e) + f + g
  {
  }

  /** The page regrouped around the first copy of the URL. */
  lemma Lead(a: string, b: string, u: string, c: string, d: string, e: string, f: string, g: string, h: string)
    ensures a + (b + u + c) + d + e + f + g + h == (a + b) + u + (c + d + e + f + g + h)
  {
  }

  /** Every page the generator writes names its destination unambiguously. */
  lemma TargetOfRedirectHtml(u: string)
    ensures TargetOf(RedirectHtml(u)) == Some(u)
  {
    var h := RedirectHtml(u);
    var rest := MetaClose + Middle + LocationAssignment(u) + FallbackText + FallbackAnchor(u) + Ending;
    Lead(Preamble, MetaOpen, u, MetaClose, Middle, LocationAssignment(u), FallbackText, FallbackAnchor(u), Ending);
    assert h == (Preamble + MetaOpen) + u + rest;
    OccursInConcat(Preamble + MetaOpen, u, rest);
    RedirectHtmlLength(u);
    assert (|h| - Fixed) / 3 == |u|;
  }

  /** Different destinations give different pages. */
  lemma RedirectHtmlInjective(u: string, v: string)
    requires RedirectHtml(u) == RedirectHtml(v)
    ensures u == v
  {
    TargetOfRedirectHtml(u);
    TargetOfRedirectHtml(v);
  }
}
