/**
 Properties of the list and tag that `get_content_template_array` builds,
 proved against two independent reference definitions: the list read
 most-specific-first, and the tag as a priority chain.
 */
module TemplateArrayProperties {
  import opened PageContext
  import opened TemplateArray

  /** `[p]` when `b` holds, else nothing. */
  function Opt(b: bool, p: string): seq<string> {
    if b then [p] else []
  }

  function Bit(b: bool): nat {
    if b then 1 else 0
  }

  /**
   The expected list, most specific first: front page, the post type's
   singular, archive and default templates, search, 404, the generic singular
   and archive defaults, and the universal fallback.
   */
  function ReferenceTemplates(c: Context): seq<string> {
    var t := c.PostType();
    Opt(c.isFrontPage, FrontPageContent)
    + (Opt(c.HasPost() && c.isSingular, PostTypeSingular(t))
    + (Opt(c.HasPost() && c.IsListing(), PostTypeArchive(t))
    + (Opt(c.HasPost(), PostTypeDefault(t))
    + (Opt(c.isSearch, SearchContent)
    + (Opt(c.is404, NotFoundContent)
    + (Opt(c.isSingular, DefaultSingular)
    + (Opt(c.IsListing() || c.isSearch, DefaultArchive)
    + [DefaultContent])))))))
  }

  /** The expected tag: front page over post type over search over 404. */
  function ReferenceTag(c: Context): string {
    if c.isFrontPage then FrontPageTag
    else if c.HasPost() then c.PostType()
    else if c.isSearch then SearchTag
    else if c.is404 then NotFoundTag
    else ""
  }

  /**
   Nothing else changes: step `k` puts at most its own path at the front and
   leaves the list built by the steps before it intact behind that path.
   */
  lemma StepPrependsOne(steps: seq<Step>, k: nat, init: seq<string>)
    requires k < |steps|
    ensures Apply(steps[..k + 1], init) == Opt(steps[k].fires, steps[k].path) + Apply(steps[..k], init)
  {
    assert steps[..k + 1][..k] == steps[..k];
  }

  /** The tag after one step: the step's tag when it fires and carries one, else `prev`. */
  function TagStep(step: Step, prev: string): string {
    if step.fires && step.setsTag.Some? then step.setsTag.value else prev
  }

  /** Step `k` overwrites the tag exactly when it fires and carries a tag. */
  lemma StepSetsTag(steps: seq<Step>, k: nat, init: string)
    requires k < |steps|
    ensures TagAfter(steps[..k + 1], init) == TagStep(steps[k], TagAfter(steps[..k], init))
  {
    assert steps[..k + 1][..k] == steps[..k];
  }

  /**
   Later steps only prepend: the list as it stood after the first `j` steps
   is a suffix of the list after the first `k` steps, for every `j <= k`.
   */
  lemma {:induction false} EarlierListIsSuffix(steps: seq<Step>, j: nat, k: nat, init: seq<string>)
    requires j <= k <= |steps|
    ensures var earlier := Apply(steps[..j], init);
            var later := Apply(steps[..k], init);
            |earlier| <= |later| && later[|later| - |earlier|..] == earlier
    decreases k - j
  {
    if j < k {
      EarlierListIsSuffix(steps, j, k - 1, init);
      StepPrependsOne(steps, k - 1, init);
      var earlier := Apply(steps[..j], init);
      var mid := Apply(steps[..k - 1], init);
      var later := Apply(steps[..k], init);
      if steps[k - 1].fires {
        assert later[|later| - |mid|..] == mid;
        assert later[|later| - |earlier|..] == mid[|mid| - |earlier|..];
      }
    }
  }

  /** Running eight steps stacks their paths in reverse order on `init`. */
  lemma EightSteps(s: seq<Step>, init: seq<string>)
    requires |s| == 8
    ensures Apply(s, init) ==
              Opt(s[7].fires, s[7].path) + (Opt(s[6].fires, s[6].path) + (Opt(s[5].fires, s[5].path)
              + (Opt(s[4].fires, s[4].path) + (Opt(s[3].fires, s[3].path) + (Opt(s[2].fires, s[2].path)
              + (Opt(s[1].fires, s[1].path) + (Opt(s[0].fires, s[0].path) + init)))))))
  {
    assert s[..8] == s;
    assert s[..0] == [];
    StepPrependsOne(s, 0, init);
    StepPrependsOne(s, 1, init);
    StepPrependsOne(s, 2, init);
    StepPrependsOne(s, 3, init);
    StepPrependsOne(s, 4, init);
    StepPrependsOne(s, 5, init);
    StepPrependsOne(s, 6, init);
    StepPrependsOne(s, 7, init);
  }

  /** The built list is exactly the most-specific-first reference list. */
  lemma ResolveMatchesReference(c: Context)
    ensures Resolve(c).templates == ReferenceTemplates(c)
  {
    EightSteps(Steps(c), [DefaultContent]);
  }

  /** Running eight steps leaves the tag of the last one that sets a tag. */
  lemma EightTagSteps(s: seq<Step>, init: string)
    requires |s| == 8
    ensures TagAfter(s, init) ==
              TagStep(s[7], TagStep(s[6], TagStep(s[5], TagStep(s[4],
              TagStep(s[3], TagStep(s[2], TagStep(s[1], TagStep(s[0], init))))))))
  {
    assert s[..8] == s;
    assert s[..0] == [];
    StepSetsTag(s, 0, init);
    StepSetsTag(s, 1, init);
    StepSetsTag(s, 2, init);
    StepSetsTag(s, 3, init);
    StepSetsTag(s, 4, init);
    StepSetsTag(s, 5, init);
    StepSetsTag(s, 6, init);
    StepSetsTag(s, 7, init);
  }

  /**
   Tag priority: `front-page` when the front-page flag is set; otherwise the
   post type when there is a post; otherwise `search`, then `404`, then empty.
   */
  lemma TagPriority(c: Context)
    ensures Resolve(c).tag == ReferenceTag(c)
  {
    EightTagSteps(Steps(c), "");
  }

  /**
   The list is one longer than the number of guards that held, counting the
   three post-type guards only when there is a post; hence between 1 and 9.
   */
  lemma LengthCountsConditions(c: Context)
    ensures |Resolve(c).templates| ==
              1 + Bit(c.IsListing() || c.isSearch) + Bit(c.isSingular) + Bit(c.is404) + Bit(c.isSearch)
              + Bit(c.HasPost()) * (1 + Bit(c.IsListing()) + Bit(c.isSingular))
              + Bit(c.isFrontPage)
    ensures 1 <= |Resolve(c).templates| <= 9
  {
    ResolveMatchesReference(c);
  }

  /** The front-page flag decides the head and the tag, whatever else holds. */
  lemma FrontPageWins(c: Context)
    requires c.isFrontPage
    ensures Resolve(c).templates[0] == FrontPageContent
    ensures Resolve(c).tag == FrontPageTag
  {
    ResolveMatchesReference(c);
    TagPriority(c);
  }

  /**
   Conversely, without the front-page flag the front-page template is not in
   the list: no post type, whatever its name, builds that path.
   */
  lemma NoFrontPageTemplateOffFrontPage(c: Context)
    requires !c.isFrontPage
    ensures FrontPageContent !in Resolve(c).templates
  {
    ResolveMatchesReference(c);
    PostTypePathsDifferFromFrontPage(c.PostType());
    PathLiterals();
  }

  /** No post-type path equals the front-page template. */
  lemma PostTypePathsDifferFromFrontPage(t: string)
    ensures PostTypeDefault(t) != FrontPageContent
    ensures PostTypeArchive(t) != FrontPageContent
    ensures PostTypeSingular(t) != FrontPageContent
  {
    var f := FrontPageContent;
    FrontPagePathLiteral();
    PostTypePathLiterals(t);
    // Each candidate is "ui/" + t + "/" + ...: only one length of `t` matches
    // the length of the front-page path, and for that length the slash after
    // `t` falls where the front-page path has a letter.
    if |t| == 14 {
      assert PostTypeDefault(t)[17] == '/' && f[17] == 'n';
    }
    if |t| == 6 {
      assert PostTypeArchive(t)[9] == '/' && f[9] == 'p';
    }
  }

  /**
   On a search, the search template and the generic archive default are both
   present, the search template first.
   */
  lemma SearchBeforeArchiveDefault(c: Context)
    requires c.isSearch
    ensures var r := Resolve(c).templates;
            exists i, j :: 0 <= i < j < |r| && r[i] == SearchContent && r[j] == DefaultArchive
  {
    ResolveMatchesReference(c);
    var t := c.PostType();
    var r := Resolve(c).templates;
    var head := Opt(c.isFrontPage, FrontPageContent)
      + Opt(c.HasPost() && c.isSingular, PostTypeSingular(t))
      + Opt(c.HasPost() && c.IsListing(), PostTypeArchive(t))
      + Opt(c.HasPost(), PostTypeDefault(t));
    var i := |head|;
    var j := |r| - 2;
    assert r[i] == SearchContent;
    assert r[j] == DefaultArchive;
  }

  /** A singular view of a post of type `t`, every other flag clear. */
  lemma SingularPostExample(t: string)
    ensures var c := Context(false, false, false, true, false, false, Some(Post(t)));
            Resolve(c) == Resolution(
              [ "ui/" + t + "/" + t + "-content-singular.php",
                "ui/" + t + "/" + t + ".php",
                "ui/default/default-content-singular.php",
                "ui/default/default-content.php" ],
              t)
  {
    var c := Context(false, false, false, true, false, false, Some(Post(t)));
    ResolveMatchesReference(c);
    TagPriority(c);
    PathLiterals();
    PostTypePathLiterals(t);
    assert ReferenceTemplates(c) == [PostTypeSingular(t), PostTypeDefault(t), DefaultSingular, DefaultContent];
  }

  /** An archive of posts of type `t`, every other flag clear. */
  lemma ArchivePostExample(t: string)
    ensures var c := Context(true, false, false, false, false, false, Some(Post(t)));
            Resolve(c) == Resolution(
              [ "ui/" + t + "/" + t + "-content-archive.php",
                "ui/" + t + "/" + t + ".php",
                "ui/default/default-content-archive.php",
                "ui/default/default-content.php" ],
              t)
  {
    var c := Context(true, false, false, false, false, false, Some(Post(t)));
    ResolveMatchesReference(c);
    TagPriority(c);
    PathLiterals();
    PostTypePathLiterals(t);
    assert ReferenceTemplates(c) == [PostTypeArchive(t), PostTypeDefault(t), DefaultArchive, DefaultContent];
  }

  /** A not-found page with no post: the 404 path carries a doubled slash. */
  lemma NotFoundExample()
    ensures var c := Context(false, false, false, false, true, false, None);
            Resolve(c) == Resolution(["ui//404/404.php", "ui/default/default-content.php"], "404")
  {
    var c := Context(false, false, false, false, true, false, None);
    ResolveMatchesReference(c);
    TagPriority(c);
    PathLiterals();
    assert ReferenceTemplates(c) == [NotFoundContent, DefaultContent];
  }

  /** A search with no post: the search path carries a doubled slash. */
  lemma SearchExample()
    ensures var c := Context(false, false, true, false, false, false, None);
            Resolve(c) == Resolution(
              ["ui//search/search-content.php", "ui/default/default-content-archive.php", "ui/default/default-content.php"],
              "search")
  {
    var c := Context(false, false, true, false, false, false, None);
    ResolveMatchesReference(c);
    TagPriority(c);
    PathLiterals();
    assert ReferenceTemplates(c) == [SearchContent, DefaultArchive, DefaultContent];
  }

  /** The front page showing a post of type `t`: the front page overrides the post type. */
  lemma FrontPageWithPostExample(t: string)
    ensures var c := Context(false, false, false, false, false, true, Some(Post(t)));
            Resolve(c) == Resolution(
              [ "ui/front-page/front-page-content.php",
                "ui/" + t + "/" + t + ".php",
                "ui/default/default-content.php" ],
              "front-page")
  {
    var c := Context(false, false, false, false, false, true, Some(Post(t)));
    ResolveMatchesReference(c);
    TagPriority(c);
    PathLiterals();
    PostTypePathLiterals(t);
    assert ReferenceTemplates(c) == [FrontPageContent, PostTypeDefault(t), DefaultContent];
  }
}
