# Content template array

A Dafny model of `CNP\get_content_template_array`, a WordPress theme helper.
The helper builds the ordered list of content template paths that `index.php`
hands to `locate_template()`, most specific first. It also derives a "tag"
that names a second, tag-scoped filter.

The function starts from the universal fallback `ui/default/default-content.php`.
It then runs eight guarded `array_unshift` calls in a fixed order. These add,
in turn:

- the generic archive default;
- the generic singular default;
- the 404 template;
- the search template;
- the post type's default, archive and singular templates;
- the front-page template.

Since every call prepends, a later call wins priority. Four of the calls also
overwrite the tag: `404`, `search`, the post type, and `front-page`. The list
then goes through the filter `cnp_get_content_template_array`. When the tag is
not empty, it also goes through `cnp_get_{tag}_template_array`.

The model has four modules:

- `PageContext` (`page_context.dfy`): the request state as an immutable
  `Context`. It holds the six classification flags and the optional current
  `Post`.
- `TemplateArray` (`template_array.dfy`): the path constants and the `Step`
  datatype. A `Step` is one guarded prepend with an optional tag. `Steps(c)`
  lists the eight steps in source order. `Apply` and `TagAfter` run them, and
  `Resolve(c)` gives the list and tag as they stand just before the filters.
- `TemplateArrayProperties` (`properties.dfy`): two independent reference
  definitions and the lemmas that tie the step fold to them.
  `ReferenceTemplates` reads the list most-specific-first.
  `ReferenceTag` is the tag as a priority chain.
- `Filters` (`filters.dfy`): the two `apply_filters` calls. Callbacks are a
  `FilterBank`, an arbitrary total function from (hook name, list) to list.
  The model fixes which hook names are applied, in which order, and to which
  list.

The paths are built the way the code builds them. The code prefixes the
directory `ui/` onto literals. Two of those literals already start with `/`,
so the 404 path is `ui//404/404.php` and the search path is
`ui//search/search-content.php` (`DoubledSlashPaths`). The doc comment at the top of the
source names files such as `book-archive.php` and `content.php`. The code never
produces those files, so the model follows the code there too.

The tag hook for the tag `content` is spelled `cnp_get_content_template_array`.
That is the global hook's name. So a post of type `content` that is not on the
front page sends the list through the global filter twice
(`Filters.TagHookIsGlobalOnlyForContent`,
`Filters.ContentPostTypeRunsGlobalFilterTwice`). The model states this as the
code behaves and does not change it.

Every operation is a pure function of its inputs. Resolving the same context
twice therefore gives the same list, by construction.

## Model

| member | source | states |
|---|---|---|
| `TemplateArray.Apply` | wp-get-content-template-array.php:41-88 | Running the guarded prepends on a list adds exactly one element per step that fires. |
| `TemplateArray.ApplyKeepsSuffix` | wp-get-content-template-array.php:33-88 | The list the prepends started from stays intact as a suffix of the result. |
| `TemplateArray.ApplyContents` | wp-get-content-template-array.php:41-88 | A path is in the result if and only if it was in the starting list or a step that fired contributed it. |
| `TemplateArray.TagAfter` | wp-get-content-template-array.php:38-88 | The tag ends as the start value or as a value that some firing step assigns. If no firing step assigns a tag, it stays at the start value. |
| `TemplateArray.Steps` | wp-get-content-template-array.php:41-88 | The function performs exactly eight guarded prepends. |
| `TemplateArray.Resolve` | wp-get-content-template-array.php:26-88 | Before the filters the list is non-empty and at most nine long, and it always ends with `ui/default/default-content.php`. The tag is `''`, `404`, `search`, the post type or `front-page`. |
| `TemplateArray.ResolvedPathsUnderContentDir` | wp-get-content-template-array.php:33-87 | Every path in the list starts with the content directory `ui/`. |
| `TemplateArray.DoubledSlashPaths` | wp-get-content-template-array.php:47-54 | The 404 path is `ui//404/404.php` and the search path is `ui//search/search-content.php`. |
| `TemplateArray.PathLiterals` | wp-get-content-template-array.php:33-87 | The six fixed paths, spelled out as the caller receives them. |
| `TemplateArray.PostTypePathLiterals` | wp-get-content-template-array.php:59-82 | A post type `T` yields `ui/T/T.php`, `ui/T/T-content-archive.php` and `ui/T/T-content-singular.php`. |
| `TemplateArrayProperties.StepPrependsOne` | wp-get-content-template-array.php:42-87 | Each step puts at most its own path at the front and leaves the list from the earlier steps unchanged behind it. |
| `TemplateArrayProperties.StepSetsTag` | wp-get-content-template-array.php:38-86 | Each step replaces the tag exactly when it fires and carries a tag. Otherwise it leaves the tag unchanged. |
| `TemplateArrayProperties.EarlierListIsSuffix` | wp-get-content-template-array.php:41-88 | Later steps only prepend. The list after any earlier step is a suffix of the list after any later step. |
| `TemplateArrayProperties.EightSteps` | wp-get-content-template-array.php:41-88 | Eight steps stack their paths on the start list in reverse order, so the last step to fire is the head. |
| `TemplateArrayProperties.EightTagSteps` | wp-get-content-template-array.php:38-88 | After eight steps, the tag is the one set by the last step that fires and carries a tag. |
| `TemplateArrayProperties.ResolveMatchesReference` | wp-get-content-template-array.php:33-88 | The built list equals the most-specific-first reading. That reading is: front page, post-type singular, post-type archive, post-type default, search, 404, generic singular, generic archive, then the fallback, each entry present exactly when its guard holds. |
| `TemplateArrayProperties.TagPriority` | wp-get-content-template-array.php:38-88 | The tag is `front-page` when the front-page flag is set. Otherwise it is the post type when there is a post. Otherwise it is `search` on a search, else `404` on not-found, else `''`. |
| `TemplateArrayProperties.LengthCountsConditions` | wp-get-content-template-array.php:34-87 | The list length is one plus the number of guards that held. The three post-type guards count only when there is a post. So the length lies between 1 and 9. |
| `TemplateArrayProperties.FrontPageWins` | wp-get-content-template-array.php:84-88 | With the front-page flag set, the head is `ui/front-page/front-page-content.php` and the tag is `front-page`, whatever the other flags and the post are. |
| `TemplateArrayProperties.NoFrontPageTemplateOffFrontPage` | wp-get-content-template-array.php:57-88 | Without the front-page flag, the front-page template is not in the list. |
| `TemplateArrayProperties.PostTypePathsDifferFromFrontPage` | wp-get-content-template-array.php:59-87 | No post type, whatever its name, builds a path equal to the front-page template. |
| `TemplateArrayProperties.SearchBeforeArchiveDefault` | wp-get-content-template-array.php:41-53 | On a search, the list holds both the search template and the generic archive default, with the search template first. |
| `TemplateArrayProperties.SingularPostExample` | wp-get-content-template-array.php:41-82 | A singular view of type `T` with every other flag clear gives `ui/T/T-content-singular.php`, `ui/T/T.php`, the singular default and the fallback, with tag `T`. |
| `TemplateArrayProperties.ArchivePostExample` | wp-get-content-template-array.php:41-82 | An archive of type `T` with every other flag clear gives `ui/T/T-content-archive.php`, `ui/T/T.php`, the archive default and the fallback, with tag `T`. |
| `TemplateArrayProperties.NotFoundExample` | wp-get-content-template-array.php:47-50 | A not-found page with no post gives `ui//404/404.php` then the fallback, with tag `404`. |
| `TemplateArrayProperties.SearchExample` | wp-get-content-template-array.php:41-54 | A search with no post gives `ui//search/search-content.php`, the archive default and the fallback, with tag `search`. |
| `TemplateArrayProperties.FrontPageWithPostExample` | wp-get-content-template-array.php:57-88 | The front page showing a post of type `T` gives the front-page template, `ui/T/T.php` and the fallback. The tag is `front-page`, overriding `T`. |
| `Filters.HooksInvoked` | wp-get-content-template-array.php:97-108 | The global hook is always applied first. A second hook, named after the tag, follows exactly when the tag is not empty. |
| `Filters.RunFilters` | wp-get-content-template-array.php:97-108 | Callbacks that leave the list alone on every applied hook leave the result equal to the input. |
| `Filters.RunFiltersAppend` | wp-get-content-template-array.php:97-108 | The hooks are applied in order, each to the previous result: running `a` then `b` equals running `b` on the result of `a`. |
| `Filters.GetContentTemplateArray` | wp-get-content-template-array.php:26-111 | The result is the built list passed through the global filter, then through the tag filter when the tag is not empty. With no callbacks registered, the caller gets the built list. |
| `Filters.TagHookIsGlobalOnlyForContent` | wp-get-content-template-array.php:97-107 | The tag hook's name equals the global hook's name if and only if the tag is `content`. |
| `Filters.HookOrder` | wp-get-content-template-array.php:97-108 | The global hook comes first and runs once. For a tag that is neither empty nor `content`, the tag hook runs exactly once and second. An empty tag adds no second call. |
| `Filters.HooksForContext` | wp-get-content-template-array.php:85-108 | For a request, the tag filter runs exactly when the prioritised tag is not empty, and then under that tag's hook name. |
| `Filters.ContentPostTypeRunsGlobalFilterTwice` | wp-get-content-template-array.php:57-108 | A post of type `content` that is not on the front page makes both filter calls name the global hook. |

## Left out

- The WordPress predicates `is_archive`, `is_home`, `is_search`, `is_singular`, `is_404` and `is_front_page`, and `get_post()`, are not modelled. They query ambient request state, so the model takes their answers as fields of `Context`. Any correlations between them in WordPress are not assumed, so every combination of flags is allowed.
- The dispatch inside `apply_filters` is not modelled. What the registered callbacks do is foreign code. It is represented by an arbitrary `FilterBank` function, and a callback that returns something other than an array is not modelled.
- `locate_template()` and the file-existence checks that consume the list are not modelled. They are I/O outside this function.
- The examples in the function's doc comment are not modelled. They name files the code does not produce.
- The other version of this function, which uses a different directory convention, is not part of this model.
- PHP's `empty()` test on the current post is modelled only as "a post is present". A `WP_Post` object is never empty, so a present post always counts.
