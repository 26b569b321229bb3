/**
 * The pure part of download_resources.py: `normalize_url`, which turns a
 * stylesheet, script or image reference from the original page into an
 * absolute URL, and the local name a downloaded stylesheet or script is
 * stored under and referenced by.
 */
module Resources {
  /** The site every relative reference is resolved against. */
  const SiteBase: string := "https://marquestv.page.tl/"

  /** Python's `s.startswith(p)`. */
  predicate StartsWith(s: string, p: string) {
    |p| <= |s| && s[..|p|] == p
  }

  /** `s` starts with `p` exactly when `s` is `p` followed by something. */
  lemma StartsWithIff(s: string, p: string)
    ensures StartsWith(s, p) <==> exists t :: s == p + t
  {
    if StartsWith(s, p) {
      assert s == p + s[|p|..];
    }
    if exists t :: s == p + t {
      var t :| s == p + t;
      assert s[..|p|] == p;
    }
  }

  /** Python's `s.lstrip('/')`: the string with every leading slash removed. */
  function LStripSlashes(s: string): (r: string)
    ensures |r| <= |s| && s[|s| - |r|..] == r
    ensures forall k :: 0 <= k < |s| - |r| ==> s[k] == '/'
    ensures r == [] || r[0] != '/'
  {
    if s != [] && s[0] == '/' then LStripSlashes(s[1..]) else s
  }

  /** A prefix of `p` is a prefix of everything that starts with `p`. */
  lemma PrefixOfConcat(p: string, s: string, q: string)
    requires StartsWith(p, q)
    ensures StartsWith(p + s, q)
  {
    assert (p + s)[..|p|] == p;
    assert (p + s)[..|q|] == p[..|p|][..|q|];
  }

  /** No string starts with both "//" and "http". */
  lemma SlashesNotHttp(url: string)
    requires StartsWith(url, "//")
    ensures !StartsWith(url, "http")
  {
    assert url[..2][0] == url[0];
  }

  /** `normalize_url` (download_resources.py:24-29). */
  function NormalizeUrl(url: string): (r: string)
    ensures StartsWith(r, "http")
    // A protocol-relative reference gets the https scheme.
    ensures StartsWith(url, "//") ==> r == "https:" + url
    // Anything else not starting with "http" is a path on the site, with its leading slashes dropped.
    ensures !StartsWith(url, "//") && !StartsWith(url, "http") ==> r == SiteBase + LStripSlashes(url)
    // A reference starting with "http" (even "httpx") is kept as it is.
    ensures StartsWith(url, "http") ==> r == url
  {
    if StartsWith(url, "//") then
      SlashesNotHttp(url);
      assert StartsWith("https:", "http");
      PrefixOfConcat("https:", url, "http");
      "https:" + url
    else if !StartsWith(url, "http") then
      assert StartsWith(SiteBase, "http") by {
        assert SiteBase[..4] == "http";
      }
      PrefixOfConcat(SiteBase, LStripSlashes(url), "http");
      SiteBase + LStripSlashes(url)
    else
      url
  }

  /** Normalising twice changes nothing more than normalising once. */
  lemma NormalizeIdempotent(url: string)
    ensures NormalizeUrl(NormalizeUrl(url)) == NormalizeUrl(url)
  {
    var r := NormalizeUrl(url);
    assert r[0] == 'h';
  }

  /** The empty reference resolves to the bare site address. */
  lemma NormalizeEmpty()
    ensures NormalizeUrl("") == SiteBase
  {
    assert !StartsWith("", "//") && !StartsWith("", "http");
  }

  /** A root-relative path loses its leading slash and is resolved against the site. */
  lemma NormalizeRootRelative()
    ensures NormalizeUrl("/a.css") == SiteBase + "a.css"
  {
    var u := "/a.css";
    assert !StartsWith(u, "//") by { assert u[1] == 'a'; }
    assert !StartsWith(u, "http") by { assert u[0] == '/'; }
    assert LStripSlashes(u) == "a.css" by {
      assert u[1..] == "a.css";
    }
  }

  /** A bare `//` is protocol-relative: only the scheme is added. */
  lemma NormalizeProtocolRelative()
    ensures NormalizeUrl("//") == "https://"
  {
    assert StartsWith("//", "//");
  }

  /** The two kinds of resource whose references the script rewrites to local files. */
  datatype Kind = Stylesheet | Script

  /** The local directory a kind is saved in. */
  function Folder(kind: Kind): string {
    match kind
    case Stylesheet => "css"
    case Script => "js"
  }

  /** The name used when the URL's path has an empty basename. */
  function DefaultName(kind: Kind): string {
    match kind
    case Stylesheet => "style.css"
    case Script => "script.js"
  }

  /** `os.path.basename(...) or 'style.css'` (or `'script.js'`). */
  function LocalName(kind: Kind, basename: string): (name: string)
    ensures name != []
    ensures basename != [] ==> name == basename
    ensures basename == [] ==> name == DefaultName(kind)
  {
    if basename == [] then DefaultName(kind) else basename
  }

  /**
   * The tag's new `href` / `src`: the original reference unless the
   * download succeeded; then a non-empty file name directly inside the
   * kind's folder, which is the basename whenever there is one and the
   * kind's default name otherwise.
   */
  function RewrittenReference(kind: Kind, original: string, basename: string, downloaded: bool): (r: string)
    ensures !downloaded ==> r == original
    ensures downloaded ==>
              var prefix := Folder(kind) + "/";
              && StartsWith(r, prefix)
              && |r| > |prefix|
              && (basename != [] ==> r[|prefix|..] == basename)
              && (basename == [] ==> r[|prefix|..] == DefaultName(kind))
  {
    if downloaded then
      var prefix := Folder(kind) + "/";
      var r := prefix + LocalName(kind, basename);
      assert r[..|prefix|] == prefix;
      assert r[|prefix|..] == LocalName(kind, basename);
      r
    else
      original
  }
}
