/**
 * The post-edit page: it loads the post, lets only its author see the
 * form, prefills the form from the post and sends the edited fields.
 * Tag editing and submit validation are those of the creation page.
 */
module PostEdit {
  import opened Wrappers
  import opened Json
  import opened Http
  import opened Users
  import opened PostCreate
  import PostService

  const NoIdMessage := "게시글 ID가 없습니다."
  const NoEditPermissionMessage := "이 게시글을 수정할 권한이 없습니다."
  const LoadFailedMessage := "게시글을 불러오는데 실패했습니다."
  const NoUpdatePermissionMessage := "게시글 수정 권한이 없습니다."
  const UpdateFailedMessage := "게시글 수정에 실패했습니다. 다시 시도해주세요."

  /** `!id` is false: the route gave a non-empty id. */
  predicate IdGiven(id: Option<string>) {
    id.Some? && id.value != ""
  }

  // -------------------------------------------------------------------
  // Who may edit.

  /** The ownership check's verdict; reading `author` of a `null` post throws. */
  datatype Access = Allowed | Denied | Throws

  /**
   * The ownership check: no user is denied; a post with a truthy `author`
   * is compared on the author's email, any other on `authorId`.
   */
  function CheckAccess(user: Option<User>, post: Json): (r: Access)
    ensures user.None? ==> r == Denied
    ensures r == Throws <==> user.Some? && post.JNull?
    ensures user.Some? && !post.JNull? && Get(post, "author").Some? && Truthy(Get(post, "author").value) ==>
      (r == Allowed <==> Get(Get(post, "author").value, "email") == Some(JStr(user.value.email)))
    ensures user.Some? && !post.JNull? && (Get(post, "author").None? || !Truthy(Get(post, "author").value)) ==>
      (r == Allowed <==> Get(post, "authorId") == Some(JStr(user.value.email)))
  {
    if user.None? then Denied
    else if post.JNull? then Throws
    else
      var author := Get(post, "author");
      var matches :=
        if author.Some? && Truthy(author.value) then Get(author.value, "email") == Some(JStr(user.value.email))
        else Get(post, "authorId") == Some(JStr(user.value.email));
      if matches then Allowed else Denied
  }

  /**
   * On a post as the backend sends it: a post with an author belongs to the
   * user with the author's email, whatever its `authorId`; a post without
   * one belongs to the user whose email is its `authorId`.
   */
  lemma AccessToEncodedPost(user: User, p: PostService.Post)
    ensures p.author.Some? ==> (CheckAccess(Some(user), PostService.EncodePost(p)) == Allowed <==> user.email == p.author.value.email)
    ensures p.author.None? ==> (CheckAccess(Some(user), PostService.EncodePost(p)) == Allowed <==> user.email == p.authorId)
    ensures CheckAccess(Some(user), PostService.EncodePost(p)) != Throws
  {
    var j := PostService.EncodePost(p);
    match p.author {
      case Some(a) =>
        assert Get(j, "author") == Some(PostService.EncodeAuthor(a));
      case None =>
        assert Get(j, "author") == None;
        assert Get(j, "authorId") == Some(JStr(p.authorId));
    }
  }

  /**
   * A post whose `author` is `null` (or any other falsy value) is checked
   * against its `authorId`, even when the author's details are missing.
   */
  lemma FalsyAuthorFallsBack(user: User, fields: map<string, Json>, authorId: string)
    requires "author" in fields && !Truthy(fields["author"])
    requires "authorId" in fields && fields["authorId"] == JStr(authorId)
    ensures CheckAccess(Some(user), JObject(fields)) == Allowed <==> user.email == authorId
  {
  }

  /**
   * An author object decides alone: its `email` must be the user's, even
   * when `authorId` names the user.
   */
  lemma AuthorOverridesAuthorId(user: User, fields: map<string, Json>, author: map<string, Json>)
    requires "author" in fields && fields["author"] == JObject(author)
    ensures CheckAccess(Some(user), JObject(fields)) == Allowed <==>
      "email" in author && author["email"] == JStr(user.email)
  {
  }

  // -------------------------------------------------------------------
  // The form.

  datatype Form = Form(title: string, description: string, code: string, language: string, tags: seq<string>)

  const EmptyForm := Form("", "", "", DefaultLanguage, [])

  /** The form prefilled from a loaded post; the language falls back on `||`. */
  function FormFromPost(post: Json): (r: Form)
    ensures r.language != ""
    ensures Get(post, "title").Some? && Get(post, "title").value.JStr? ==> r.title == Get(post, "title").value.s
    ensures !(Get(post, "code").Some? && Get(post, "code").value.JStr?) ==> r.code == ""
  {
    Form(PostService.TextField(post, "title"), PostService.TextField(post, "description"),
         PostService.TextField(post, "code"), PostService.LanguageOrDefault(post), PostService.TagsField(post))
  }

  /**
   * Prefilling from an encoded post shows the post's own fields; only an
   * empty or absent language is replaced by the default.
   */
  lemma PrefillShowsPost(p: PostService.Post)
    ensures var f := FormFromPost(PostService.EncodePost(p));
      && f.title == p.title && f.description == p.description && f.code == p.code && f.tags == p.tags
      && (p.language.Some? && p.language.value != "" ==> f.language == p.language.value)
      && (p.language.None? || p.language.value == "" ==> f.language == DefaultLanguage)
  {
    PostService.ReadEncodedPost(p);
  }

  /**
   * Saving an untouched prefilled form sends back the post's own fields,
   * trimmed; the language is never sent.
   */
  lemma UntouchedFormResends(p: PostService.Post)
    requires Text.Trim(p.title) != "" && Text.Trim(p.code) != ""
    ensures var f := FormFromPost(PostService.EncodePost(p));
      BuildRequest(f.title, f.description, f.code, f.tags)
        == Success(PostRequest(Text.Trim(p.title), Text.Trim(p.description), Text.Trim(p.code), p.tags))
  {
    PrefillShowsPost(p);
  }

  /** The text fields `handleInputChange` can set. */
  datatype Field = Title | Description | Code | Language

  function SetField(f: Form, field: Field, value: string): (r: Form)
    ensures r.tags == f.tags
    ensures r.title == (if field == Title then value else f.title)
    ensures r.description == (if field == Description then value else f.description)
    ensures r.code == (if field == Code then value else f.code)
    ensures r.language == (if field == Language then value else f.language)
  {
    match field
    case Title => f.(title := value)
    case Description => f.(description := value)
    case Code => f.(code := value)
    case Language => f.(language := value)
  }

  // -------------------------------------------------------------------
  // Messages and the rendered page.

  /** Load errors: the server's message, else the generic text. */
  function LoadErrorMessage(e: RequestError): (r: string)
    ensures r != ""
    ensures HasMessage(e) ==> r == Message(e)
    ensures !HasMessage(e) ==> r == LoadFailedMessage
  {
    if HasMessage(e) then Message(e) else LoadFailedMessage
  }

  /** Update errors: the server's message, then 401, then 403, then the generic text. */
  function UpdateErrorMessage(e: RequestError): (r: string)
    ensures r != ""
    ensures HasMessage(e) ==> r == Message(e)
    ensures !HasMessage(e) && HasStatus(e, 401) ==> r == LoginAgainMessage
    ensures !HasMessage(e) && HasStatus(e, 403) ==> r == NoUpdatePermissionMessage
    ensures !HasMessage(e) && !HasStatus(e, 401) && !HasStatus(e, 403) ==> r == UpdateFailedMessage
  {
    if HasMessage(e) then Message(e)
    else if HasStatus(e, 401) then LoginAgainMessage
    else if HasStatus(e, 403) then NoUpdatePermissionMessage
    else UpdateFailedMessage
  }

  /** What the page renders: a spinner, a full-page error, or the form with an optional banner. */
  datatype View = Spinner | ErrorPage(message: string) | FormPage(banner: Option<string>)

  /** `error` is truthy. */
  predicate Shows(error: Option<string>) {
    error.Some? && error.value != ""
  }

  // -------------------------------------------------------------------
  // The page's state.

  class EditPage {
    const id: Option<string>
    const user: Option<User>
    var isLoading: bool
    var isSubmitting: bool
    var originalPost: Option<Json>
    var form: Form
    var tagInput: string
    var error: Option<string>

    constructor (id: Option<string>, user: Option<User>)
      ensures this.id == id && this.user == user
      ensures isLoading && !isSubmitting && originalPost == None && form == EmptyForm
      ensures tagInput == "" && error == None
    {
      this.id, this.user := id, user;
      isLoading, isSubmitting := true, false;
      originalPost, form := None, EmptyForm;
      tagInput, error := "", None;
    }

    function Render(): (r: View)
      reads this
      ensures r == Spinner <==> isLoading
      ensures r.ErrorPage? <==> !isLoading && Shows(error) && originalPost.None?
      ensures r.ErrorPage? ==> r.message == error.value && r.message != ""
      ensures r.FormPage? ==> !isLoading && (originalPost.Some? || !Shows(error))
    {
      if isLoading then Spinner
      else if Shows(error) && originalPost.None? then ErrorPage(error.value)
      else FormPage(if Shows(error) then error else None)
    }

    /**
     * The load on mount. `response` is what `GET /posts/:id` answers; it is
     * asked for only when the id is given. Whatever happens, loading ends.
     * On a fresh page the form is shown exactly when the post loaded and
     * the ownership check allowed the user; every other outcome renders a
     * full-page error.
     */
    method FetchPost(response: Result<Json, RequestError>) returns (requested: bool)
      modifies this`isLoading, this`originalPost, this`form, this`error
      ensures requested <==> IdGiven(id)
      ensures !isLoading
      ensures !requested ==> error == Some(NoIdMessage) && originalPost == old(originalPost) && form == old(form)
      ensures requested ==> match PostService.FetchPostByIdCall(response)
        case Failure(e) => error == Some(LoadErrorMessage(e)) && originalPost == old(originalPost) && form == old(form)
        case Success(p) => match CheckAccess(user, p)
          case Allowed => originalPost == Some(p) && form == FormFromPost(p) && error == old(error)
          case Denied => error == Some(NoEditPermissionMessage) && originalPost == old(originalPost) && form == old(form)
          case Throws => error == Some(LoadFailedMessage) && originalPost == old(originalPost) && form == old(form)
      ensures (old(originalPost).None? && requested && PostService.FetchPostByIdCall(response).Success?
               && CheckAccess(user, PostService.FetchPostByIdCall(response).value) == Denied) ==>
        Render() == ErrorPage(NoEditPermissionMessage)
      ensures old(originalPost).None? && old(error).None? ==>
        (Render().FormPage? <==>
          requested && PostService.FetchPostByIdCall(response).Success?
          && CheckAccess(user, PostService.FetchPostByIdCall(response).value) == Allowed)
    {
      requested := IdGiven(id);
      if !requested {
        error := Some(NoIdMessage);
        isLoading := false;
        return;
      }
      match PostService.FetchPostByIdCall(response) {
        case Failure(e) =>
          error := Some(LoadErrorMessage(e));
        case Success(p) =>
          match CheckAccess(user, p) {
            case Allowed =>
              originalPost := Some(p);
              form := FormFromPost(p);
            case Denied =>
              error := Some(NoEditPermissionMessage);
            case Throws =>
              error := Some(LoadErrorMessage(PlainError));
          }
      }
      isLoading := false;
    }

    method HandleInputChange(field: Field, value: string)
      modifies this`form
      ensures form == SetField(old(form), field, value)
    {
      form := SetField(form, field, value);
    }

    method HandleAddTag()
      modifies this`form, this`tagInput
      ensures TagEdit(form.tags, tagInput) == AddTag(old(form.tags), old(tagInput))
      ensures form == old(form).(tags := form.tags)
    {
      var next := AddTag(form.tags, tagInput);
      form := form.(tags := next.tags);
      tagInput := next.input;
    }

    method HandleRemoveTag(tagToRemove: string)
      modifies this`form
      ensures form == old(form).(tags := RemoveTag(old(form.tags), tagToRemove))
    {
      form := form.(tags := RemoveTag(form.tags, tagToRemove));
    }

    method HandleKeyPress(key: string)
      modifies this`form, this`tagInput
      ensures key == "Enter" ==> TagEdit(form.tags, tagInput) == AddTag(old(form.tags), old(tagInput))
      ensures form == old(form).(tags := form.tags)
      ensures key != "Enter" ==> form == old(form) && tagInput == old(tagInput)
    {
      if key == "Enter" {
        HandleAddTag();
      }
    }

    /**
     * Submit. Validation runs first; a missing id then stops silently. The
     * update carries the trimmed form (not its language); on success the
     * page navigates to the post, on failure it shows the mapped message.
     */
    method HandleSubmit(response: Result<Json, RequestError>) returns (sent: Option<PostRequest>, navigateTo: Option<string>)
      modifies this`error, this`isSubmitting
      ensures var req := BuildRequest(old(form.title), old(form.description), old(form.code), old(form.tags));
        && (req.Failure? ==> sent == None && navigateTo == None && error == Some(req.error) && isSubmitting == old(isSubmitting))
        && (req.Success? && !IdGiven(id) ==> sent == None && navigateTo == None && error == old(error) && isSubmitting == old(isSubmitting))
        && (req.Success? && IdGiven(id) ==> sent == Some(req.value) && !isSubmitting)
        && (req.Success? && IdGiven(id) ==> match PostService.UpdatePostCall(response)
              case Success(_) => navigateTo == Some("/posts/" + id.value) && error == None
              case Failure(e) => navigateTo == None && error == Some(UpdateErrorMessage(e)))
    {
      sent, navigateTo := None, None;
      var req := BuildRequest(form.title, form.description, form.code, form.tags);
      if req.Failure? {
        error := Some(req.error);
        return;
      }
      if !IdGiven(id) {
        return;
      }
      isSubmitting := true;
      error := None;
      sent := Some(req.value);
      match PostService.UpdatePostCall(response) {
        case Success(_) => navigateTo := Some("/posts/" + id.value);
        case Failure(e) => error := Some(UpdateErrorMessage(e));
      }
      isSubmitting := false;
    }
  }
}
