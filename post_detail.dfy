/**
 * The post-detail page: one load on mount, an error text chosen by status
 * first, and the three things it can render.
 */
module PostDetail {
  import opened Wrappers
  import opened Json
  import opened Http
  import PostService
  import PostCard
  import PostEdit

  const NotFoundMessage := "게시글을 찾을 수 없습니다."
  const LoginRequiredMessage := "로그인이 필요합니다."
  const NoIdMessage := "게시글 ID가 없습니다."
  const LoadFailedMessage := "게시글을 불러오는데 실패했습니다."

  /**
   * Load errors: 404, then 401, then the server's message, then the
   * generic text. Status wins over a message here, unlike on the edit and
   * create pages.
   */
  function DetailErrorMessage(e: RequestError): (r: string)
    ensures r != ""
    ensures HasStatus(e, 404) ==> r == NotFoundMessage
    ensures HasStatus(e, 401) ==> r == LoginRequiredMessage
    ensures !HasStatus(e, 404) && !HasStatus(e, 401) && HasMessage(e) ==> r == Message(e)
    ensures !HasStatus(e, 404) && !HasStatus(e, 401) && !HasMessage(e) ==> r == LoadFailedMessage
  {
    if HasStatus(e, 404) then NotFoundMessage
    else if HasStatus(e, 401) then LoginRequiredMessage
    else if HasMessage(e) then Message(e)
    else LoadFailedMessage
  }

  /** What the page renders. */
  datatype View = Loading | ErrorPage(message: string) | PostPage(post: Json)

  class DetailPage {
    const id: Option<string>
    var post: Option<Json>
    var isLoading: bool
    var error: Option<string>

    constructor (id: Option<string>)
      ensures this.id == id && post == None && isLoading && error == None
    {
      this.id := id;
      post, isLoading, error := None, true, None;
    }

    /** Loading first; then an error or a missing (falsy) post renders the error page. */
    function Render(): (r: View)
      reads this
      ensures r == Loading <==> isLoading
      ensures r.ErrorPage? ==> r.message != ""
      ensures !isLoading && error.Some? && error.value != "" ==> r == ErrorPage(error.value)
      ensures !isLoading && !(error.Some? && error.value != "") && (post.None? || !Truthy(post.value)) ==>
        r == ErrorPage(NotFoundMessage)
      ensures r.PostPage? <==> !isLoading && !(error.Some? && error.value != "") && post.Some? && Truthy(post.value)
      ensures r.PostPage? ==> post == Some(r.post)
    {
      if isLoading then Loading
      else if error.Some? && error.value != "" then ErrorPage(error.value)
      else if post.None? || !Truthy(post.value) then ErrorPage(NotFoundMessage)
      else PostPage(post.value)
    }

    /**
     * The effect on mount. The load runs only when the id is given, so with
     * no id nothing happens and the page keeps loading. `response` is what
     * `GET /posts/:id` answers.
     */
    method Mount(response: Result<Json, RequestError>) returns (requested: bool)
      modifies this`post, this`isLoading, this`error
      ensures requested <==> id.Some? && id.value != ""
      ensures !requested ==> post == old(post) && isLoading == old(isLoading) && error == old(error)
      ensures requested ==> !Render().Loading?
      ensures requested && PostService.FetchPostByIdCall(response) == Success(JNull) ==> Render() == ErrorPage(NotFoundMessage)
      ensures requested ==> !isLoading && match PostService.FetchPostByIdCall(response)
        case Success(p) => post == Some(p) && error == None
        case Failure(e) => post == old(post) && error == Some(DetailErrorMessage(e))
    {
      requested := id.Some? && id.value != "";
      if !requested {
        return;
      }
      isLoading := true;
      error := None;
      match PostService.FetchPostByIdCall(response) {
        case Success(p) => post := Some(p);
        case Failure(e) => error := Some(DetailErrorMessage(e));
      }
      isLoading := false;
    }
  }

  /**
   * A fresh page that loads an encoded post, bare or wrapped in `post`,
   * renders that post.
   */
  lemma EncodedPostRendered(p: PostService.Post, wrapped: bool)
    ensures var body := if wrapped then PostService.Wrap(PostService.EncodePost(p)) else PostService.EncodePost(p);
      PostService.FetchPostByIdCall(Success(body)) == Success(PostService.EncodePost(p))
      && Truthy(PostService.EncodePost(p))
  {
    PostService.BothShapesAccepted(p);
  }

  /**
   * A body `{post: null}` loads "successfully": the post is `null`, and a
   * settled page holding it renders the not-found page.
   */
  lemma NullPostNotFound(page: DetailPage)
    requires !page.isLoading && page.error == None && page.post == Some(JNull)
    ensures PostService.FetchPostByIdCall(Success(PostService.Wrap(JNull))) == Success(JNull)
    ensures page.Render() == ErrorPage(NotFoundMessage)
  {
  }

  /**
   * The same rejection can read differently on the detail and edit pages:
   * a 404 carrying a server message shows "not found" here and the
   * server's message when editing.
   */
  lemma StatusBeforeMessage(msg: string)
    requires msg != ""
    ensures var e := RequestError(true, Some(ErrorResponse(404, Some(msg), None)));
      DetailErrorMessage(e) == NotFoundMessage && PostEdit.LoadErrorMessage(e) == msg
  {
  }

  /** The highlighter's language: `||` here, so an empty language becomes the default, unlike on a card. */
  lemma LanguageDefaults(p: PostService.Post)
    requires p.language == Some("")
    ensures PostService.LanguageOrDefault(PostService.EncodePost(p)) == PostService.DefaultLanguage
    ensures PostCard.CardLanguage(p.language) == ""
  {
    PostService.ReadEncodedPost(p);
  }
}
