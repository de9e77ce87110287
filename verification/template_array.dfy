/**
 The list of content templates that `CNP\get_content_template_array` builds
 before its filters run, and the tag that selects the tag-scoped filter.

 The PHP function is a straight run of guarded `array_unshift` calls, each of
 which may also overwrite `$post_type`. Here every guarded call is one `Step`,
 `Steps` lists the eight of them in source order, and `Apply` / `TagAfter`
 run them: a step that fires puts its path at the front of the list, so a
 later step takes priority over an earlier one.
 */
module TemplateArray {
  import opened PageContext

  /** `$content_dir`: every template path is built on it. */
  const ContentDir: string := "ui/"

  /** True when `p` lies under the content directory. */
  predicate UnderContentDir(p: string) {
    |ContentDir| <= |p| && p[..|ContentDir|] == ContentDir
  }

  /** `$content_dir . rel`, the way every path of the list is built. */
  function ContentPath(rel: string): string {
    ContentDir + rel
  }

  lemma ContentPathUnderContentDir(rel: string)
    ensures UnderContentDir(ContentPath(rel))
  {
    assert ContentPath(rel)[..|ContentDir|] == ContentDir;
  }

  /** The universal fallback, the list's only initial element. */
  const DefaultContent: string := ContentPath("default/default-content.php")
  const DefaultArchive: string := ContentPath("default/default-content-archive.php")
  const DefaultSingular: string := ContentPath("default/default-content-singular.php")
  /** The literal already starts with `/`, so the path holds `ui//`. */
  const NotFoundContent: string := ContentPath("/404/404.php")
  /** The literal already starts with `/`, so the path holds `ui//`. */
  const SearchContent: string := ContentPath("/search/search-content.php")
  const FrontPageContent: string := ContentPath("front-page/front-page-content.php")

  const NotFoundTag: string := "404"
  const SearchTag: string := "search"
  const FrontPageTag: string := "front-page"

  /** `ui/{type}/{type}.php` */
  function PostTypeDefault(t: string): string {
    ContentPath(t + "/" + t + ".php")
  }

  /** `ui/{type}/{type}-content-archive.php` */
  function PostTypeArchive(t: string): string {
    ContentPath(t + "/" + t + "-content-archive.php")
  }

  /** `ui/{type}/{type}-content-singular.php` */
  function PostTypeSingular(t: string): string {
    ContentPath(t + "/" + t + "-content-singular.php")
  }

  // The fixed paths spelled out. Each literal has its own small lemma, which
  // keeps every string-equality proof obligation small; `PathLiterals`
  // gathers them for callers.

  lemma DefaultContentLiteral()
    ensures DefaultContent == "ui/default/default-content.php"
  {
  }

  lemma DefaultArchiveLiteral()
    ensures DefaultArchive == "ui/default/default-content-archive.php"
  {
  }

  lemma DefaultSingularLiteral()
    ensures DefaultSingular == "ui/default/default-content-singular.php"
  {
  }

  /**
   The 404 and search paths carry a doubled slash, because their literals
   already begin with `/`.
   */
  lemma DoubledSlashPaths()
    ensures NotFoundContent == "ui//404/404.php"
    ensures SearchContent == "ui//search/search-content.php"
  {
  }

  lemma FrontPagePathLiteral()
    ensures FrontPageContent == "ui/front-page/front-page-content.php"
  {
  }

  /** All six fixed paths, as the caller sees them. */
  lemma PathLiterals()
    ensures DefaultContent == "ui/default/default-content.php"
    ensures DefaultArchive == "ui/default/default-content-archive.php"
    ensures DefaultSingular == "ui/default/default-content-singular.php"
    ensures NotFoundContent == "ui//404/404.php"
    ensures SearchContent == "ui//search/search-content.php"
    ensures FrontPageContent == "ui/front-page/front-page-content.php"
  {
    DefaultContentLiteral();
    DefaultArchiveLiteral();
    DefaultSingularLiteral();
    DoubledSlashPaths();
    FrontPagePathLiteral();
  }

  /** The post-type paths, spelled out for a post type `t`. */
  lemma PostTypePathLiterals(t: string)
    ensures PostTypeDefault(t) == "ui/" + t + "/" + t + ".php"
    ensures PostTypeArchive(t) == "ui/" + t + "/" + t + "-content-archive.php"
    ensures PostTypeSingular(t) == "ui/" + t + "/" + t + "-content-singular.php"
  {
  }

  /**
   One guarded `array_unshift`: when `fires` holds, `path` goes to the front
   of the list and, when `setsTag` carries a value, that value becomes the tag.
   */
  datatype Step = Step(fires: bool, path: string, setsTag: Option<string>)

  /** The number of steps that fire. */
  function FiredCount(steps: seq<Step>): (n: nat)
    ensures n <= |steps|
  {
    if steps == [] then 0
    else FiredCount(steps[..|steps| - 1]) + (if steps[|steps| - 1].fires then 1 else 0)
  }

  /** Some step that fires contributes the path `p`. */
  predicate FiredPath(steps: seq<Step>, p: string) {
    exists i :: 0 <= i < |steps| && steps[i].fires && steps[i].path == p
  }

  /** Some step that fires sets the tag to `t`. */
  predicate FiredTag(steps: seq<Step>, t: string) {
    exists i :: 0 <= i < |steps| && steps[i].fires && steps[i].setsTag == Some(t)
  }

  /**
   Runs the steps in order on the list `init`; each firing step adds exactly
   one element.
   */
  function Apply(steps: seq<Step>, init: seq<string>): (r: seq<string>)
    ensures |r| == |init| + FiredCount(steps)
    decreases |steps|
  {
    if steps == [] then init
    else
      var rest := Apply(steps[..|steps| - 1], init);
      var last := steps[|steps| - 1];
      if last.fires then [last.path] + rest else rest
  }

  /** The list the steps started from stays intact as a suffix. */
  lemma {:induction false} ApplyKeepsSuffix(steps: seq<Step>, init: seq<string>)
    ensures var r := Apply(steps, init);
            |init| <= |r| && r[|r| - |init|..] == init
    decreases |steps|
  {
    if steps != [] {
      var rest := Apply(steps[..|steps| - 1], init);
      ApplyKeepsSuffix(steps[..|steps| - 1], init);
      var r := Apply(steps, init);
      if steps[|steps| - 1].fires {
        assert r == [steps[|steps| - 1].path] + rest;
        assert r[|r| - |init|..] == rest[|rest| - |init|..];
      }
    }
  }

  /** Nothing appears in the list that neither `init` nor a firing step supplied. */
  lemma {:induction false} ApplyContents(steps: seq<Step>, init: seq<string>, p: string)
    ensures p in Apply(steps, init) <==> p in init || FiredPath(steps, p)
    decreases |steps|
  {
    if steps != [] {
      var front := steps[..|steps| - 1];
      var last := steps[|steps| - 1];
      ApplyContents(front, init, p);
      if FiredPath(steps, p) {
        var i :| 0 <= i < |steps| && steps[i].fires && steps[i].path == p;
        if i < |front| {
          assert front[i] == steps[i];
        }
      }
      if FiredPath(front, p) {
        var i :| 0 <= i < |front| && front[i].fires && front[i].path == p;
        assert steps[i] == front[i];
      }
    }
  }

  /**
   The tag after running the steps from the tag `init`: the tag set by the
   last firing step that sets one, otherwise `init` unchanged.
   */
  function TagAfter(steps: seq<Step>, init: string): (r: string)
    ensures r == init || FiredTag(steps, r)
    ensures (forall i :: 0 <= i < |steps| ==> !steps[i].fires || steps[i].setsTag.None?) ==> r == init
    decreases |steps|
  {
    if steps == [] then init
    else
      var front := steps[..|steps| - 1];
      var last := steps[|steps| - 1];
      if last.fires && last.setsTag.Some? then last.setsTag.value
      else
        var r := TagAfter(front, init);
        assert FiredTag(front, r) ==> FiredTag(steps, r) by {
          if FiredTag(front, r) {
            var i :| 0 <= i < |front| && front[i].fires && front[i].setsTag == Some(r);
            assert steps[i] == front[i];
          }
        }
        r
  }

  /**
   The guarded prepends of `get_content_template_array`, in source order:
   the generic archive and singular defaults, the 404 and search templates,
   the three post-type templates, and the front-page template last.
   */
  function Steps(c: Context): (s: seq<Step>)
    ensures |s| == 8
  {
    var t := c.PostType();
    [ Step(c.isArchive || c.isHome || c.isSearch, DefaultArchive, None),
      Step(c.isSingular, DefaultSingular, None),
      Step(c.is404, NotFoundContent, Some(NotFoundTag)),
      Step(c.isSearch, SearchContent, Some(SearchTag)),
      Step(c.HasPost(), PostTypeDefault(t), Some(t)),
      Step(c.HasPost() && c.IsListing(), PostTypeArchive(t), None),
      Step(c.HasPost() && c.isSingular, PostTypeSingular(t), None),
      Step(c.isFrontPage, FrontPageContent, Some(FrontPageTag)) ]
  }

  /** The list handed to the first filter, and the tag that names the second. */
  datatype Resolution = Resolution(templates: seq<string>, tag: string)

  /**
   What `get_content_template_array` has computed just before its filters:
   a non-empty list, at most nine long, every path under `ui/`, ending in the
   universal fallback; and a tag that is empty or one of the four tag values.
   */
  function Resolve(c: Context): (r: Resolution)
    ensures 1 <= |r.templates| <= 9
    ensures r.templates[|r.templates| - 1] == DefaultContent
    ensures r.tag in {"", NotFoundTag, SearchTag, c.PostType(), FrontPageTag}
  {
    var steps := Steps(c);
    var templates := Apply(steps, [DefaultContent]);
    var tag := TagAfter(steps, "");
    ApplyKeepsSuffix(steps, [DefaultContent]);
    assert templates[|templates| - 1..] == [DefaultContent];
    Resolution(templates, tag)
  }

  /** Every path of the built list lies under the content directory. */
  lemma ResolvedPathsUnderContentDir(c: Context)
    ensures forall p :: p in Resolve(c).templates ==> UnderContentDir(p)
  {
    var steps := Steps(c);
    var t := c.PostType();
    ContentPathUnderContentDir("default/default-content.php");
    ContentPathUnderContentDir("default/default-content-archive.php");
    ContentPathUnderContentDir("default/default-content-singular.php");
    ContentPathUnderContentDir("/404/404.php");
    ContentPathUnderContentDir("/search/search-content.php");
    ContentPathUnderContentDir(t + "/" + t + ".php");
    ContentPathUnderContentDir(t + "/" + t + "-content-archive.php");
    ContentPathUnderContentDir(t + "/" + t + "-content-singular.php");
    ContentPathUnderContentDir("front-page/front-page-content.php");
    forall p | p in Resolve(c).templates
      ensures UnderContentDir(p)
    {
      ApplyContents(steps, [DefaultContent], p);
      if p !in [DefaultContent] {
        var i :| 0 <= i < |steps| && steps[i].fires && steps[i].path == p;
        assert i in {0, 1, 2, 3, 4, 5, 6, 7};
      }
    }
  }
}
