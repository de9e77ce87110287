/**
 The two `apply_filters` calls that end `get_content_template_array`.

 Callbacks registered on a hook are foreign code; the model does not look
 inside them. A `FilterBank` stands for all of them at once: `filter(name, l)`
 is what `apply_filters( name, l )` returns. The model fixes which hook names
 are applied, in which order, and to which list.
 */
module Filters {
  import opened PageContext
  import opened TemplateArray
  import opened TemplateArrayProperties

  /** The global filter, named after the function. */
  const GlobalHook: string := "cnp_get_content_template_array"

  /** The filter scoped by the tag: `cnp_get_{tag}_template_array`. */
  function TagHook(tag: string): string {
    "cnp_get_" + tag + "_template_array"
  }

  /** What `apply_filters` returns, per hook name and input list. */
  type FilterBank = (string, seq<string>) -> seq<string>

  /**
   The hook names passed to `apply_filters`, in call order: the global hook
   always and first, then the tag hook only when the tag is not empty.
   */
  function HooksInvoked(tag: string): (hooks: seq<string>)
    ensures 1 <= |hooks| <= 2 && hooks[0] == GlobalHook
    ensures |hooks| == 2 <==> tag != ""
    ensures forall i :: 1 <= i < |hooks| ==> hooks[i] == TagHook(tag)
  {
    [GlobalHook] + (if tag != "" then [TagHook(tag)] else [])
  }

  /** Applies the hooks in order, each to the list the previous one returned. */
  function RunFilters(hooks: seq<string>, filter: FilterBank, templates: seq<string>): (r: seq<string>)
    ensures (forall h :: h in hooks ==> filter(h, templates) == templates) ==> r == templates
    decreases |hooks|
  {
    if hooks == [] then templates
    else RunFilters(hooks[1..], filter, filter(hooks[0], templates))
  }

  /** Filters compose in order: running `a` then `b` is running `b` on what `a` returned. */
  lemma {:induction false} RunFiltersAppend(a: seq<string>, b: seq<string>, filter: FilterBank, templates: seq<string>)
    ensures RunFilters(a + b, filter, templates) == RunFilters(b, filter, RunFilters(a, filter, templates))
    decreases |a|
  {
    if a == [] {
      assert a + b == b;
    } else {
      assert (a + b)[1..] == a[1..] + b;
      RunFiltersAppend(a[1..], b, filter, filter(a[0], templates));
    }
  }

  /**
   The whole of `get_content_template_array`: the built list, passed through
   the global filter and then, when the tag is not empty, the tag filter.
   With no callbacks registered the caller gets the built list unchanged.
   */
  function GetContentTemplateArray(c: Context, filter: FilterBank): (r: seq<string>)
    ensures var res := Resolve(c);
            var afterGlobal := filter(GlobalHook, res.templates);
            r == if res.tag == "" then afterGlobal else filter(TagHook(res.tag), afterGlobal)
    ensures (forall h, l :: filter(h, l) == l) ==> r == Resolve(c).templates
  {
    var res := Resolve(c);
    var hooks := HooksInvoked(res.tag);
    var afterGlobal := filter(GlobalHook, res.templates);
    assert RunFilters(hooks, filter, res.templates) == RunFilters(hooks[1..], filter, afterGlobal);
    assert res.tag != "" ==>
      RunFilters(hooks[1..], filter, afterGlobal) == RunFilters([], filter, filter(TagHook(res.tag), afterGlobal));
    RunFilters(hooks, filter, res.templates)
  }

  /**
   The tag hook is a different hook from the global one for every tag except
   `content`, whose tag hook name is spelled exactly like the global one.
   */
  lemma TagHookIsGlobalOnlyForContent(tag: string)
    ensures TagHook(tag) == GlobalHook <==> tag == "content"
  {
    var h := TagHook(tag);
    if h == GlobalHook {
      assert GlobalHook == TagHook("content");
      assert |tag| == 7;
      assert tag == h[8..15];
      assert "content" == TagHook("content")[8..15];
    }
  }

  /**
   The global hook is applied first and exactly once, and the tag hook is
   applied afterwards exactly once when the tag is not empty, never when it
   is empty; the tag `content` is the exception, where both calls name the
   global hook.
   */
  lemma HookOrder(tag: string)
    ensures HooksInvoked(tag)[0] == GlobalHook
    ensures tag != "content" ==> multiset(HooksInvoked(tag))[GlobalHook] == 1
    ensures tag != "" && tag != "content" ==>
              multiset(HooksInvoked(tag))[TagHook(tag)] == 1 && HooksInvoked(tag)[1] == TagHook(tag)
    ensures tag == "" ==> HooksInvoked(tag) == [GlobalHook]
    ensures tag == "content" ==> HooksInvoked(tag) == [GlobalHook, GlobalHook]
  {
    TagHookIsGlobalOnlyForContent(tag);
  }

  /**
   For a request: the tag filter runs exactly when the tag that the priority
   chain picks is not empty, and then under that tag's hook name.
   */
  lemma HooksForContext(c: Context)
    ensures var hooks := HooksInvoked(Resolve(c).tag);
            hooks[0] == GlobalHook
            && (|hooks| == 2 <==> ReferenceTag(c) != "")
            && (|hooks| == 2 ==> hooks[1] == TagHook(ReferenceTag(c)))
  {
    TagPriority(c);
  }

  /**
   A post of type `content` off the front page makes both calls name the
   global hook, so callbacks on the global filter run twice.
   */
  lemma ContentPostTypeRunsGlobalFilterTwice(c: Context)
    requires !c.isFrontPage && c.currentPost == Some(Post("content"))
    ensures HooksInvoked(Resolve(c).tag) == [GlobalHook, GlobalHook]
  {
    TagPriority(c);
    HookOrder("content");
  }
}
