/**
 The request state that `get_content_template_array` reads from WordPress.

 The six page-classification predicates (`is_archive`, `is_home`, `is_search`,
 `is_singular`, `is_404`, `is_front_page`) and the result of `get_post()` are
 ambient queries in the PHP function; here they are plain fields of an immutable
 record that the caller supplies.
 */
module PageContext {

  /** `get_post()` returns either a post object or nothing. */
  datatype Option<+T> = None | Some(value: T)

  /** The only part of a `WP_Post` the template builder looks at. */
  datatype Post = Post(postType: string)

  datatype Context = Context(
    isArchive: bool,
    isHome: bool,
    isSearch: bool,
    isSingular: bool,
    is404: bool,
    isFrontPage: bool,
    currentPost: Option<Post>)
  {
    /** True when `get_post()` returned a post (`! empty( $current_post )`). */
    predicate HasPost() {
      currentPost.Some?
    }

    /** The post type of the current post, or the empty string when there is none. */
    function PostType(): string {
      if currentPost.Some? then currentPost.value.postType else ""
    }

    /** A listing of posts that has a post-type archive template: archive or blog home. */
    predicate IsListing() {
      isArchive || isHome
    }
  }
}
