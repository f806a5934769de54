/**
 * The post-creation page: tag-list editing, submit validation, request
 * shaping and the mapping of a failed create to a message.
 */
module PostCreate {
  import opened Wrappers
  import opened Json
  import opened Http
  import opened Text
  import PostService

  const DefaultLanguage := "javascript"
  const TitleRequiredMessage := "제목을 입력해주세요."
  const CodeRequiredMessage := "코드를 입력해주세요."
  const LoginAgainMessage := "로그인이 필요합니다. 다시 로그인해주세요."
  const NoCreatePermissionMessage := "게시글 작성 권한이 없습니다."
  const CreateFailedMessage := "게시글 작성에 실패했습니다. 다시 시도해주세요."

  // -------------------------------------------------------------------
  // Tags.

  /** The tag list and the tag input box. */
  datatype TagEdit = TagEdit(tags: seq<string>, input: string)

  /**
   * The add button: the trimmed input is appended and the box cleared, but
   * only when it is non-empty and not already a tag.
   */
  function AddTag(tags: seq<string>, input: string): (r: TagEdit)
    ensures Trim(input) != "" && Trim(input) !in tags ==> r == TagEdit(tags + [Trim(input)], "")
    ensures Trim(input) == "" || Trim(input) in tags ==> r == TagEdit(tags, input)
  {
    var trimmed := Trim(input);
    if trimmed != "" && trimmed !in tags then TagEdit(tags + [trimmed], "") else TagEdit(tags, input)
  }

  /** `tags.filter(tag => tag !== t)`: every copy of `t` goes, every other entry stays. */
  function RemoveTag(tags: seq<string>, t: string): (r: seq<string>)
    ensures t !in r
    ensures forall x :: x != t ==> multiset(r)[x] == multiset(tags)[x]
  {
    if tags == [] then []
    else
      var rest := RemoveTag(tags[1..], t);
      assert tags == [tags[0]] + tags[1..];
      if tags[0] == t then rest else [tags[0]] + rest
  }

  /** Removing keeps the survivors in their order: it distributes over concatenation. */
  lemma {:induction false} RemoveTagOfConcat(a: seq<string>, b: seq<string>, t: string)
    ensures RemoveTag(a + b, t) == RemoveTag(a, t) + RemoveTag(b, t)
  {
    if a != [] {
      assert (a + b)[0] == a[0];
      assert (a + b)[1..] == a[1..] + b;
      RemoveTagOfConcat(a[1..], b, t);
    } else {
      assert a + b == b;
    }
  }

  /** What the tag list of a fresh form always satisfies: no repeats, no blanks, no padding. */
  predicate WellFormedTags(tags: seq<string>) {
    && (forall i, j :: 0 <= i < j < |tags| ==> tags[i] != tags[j])
    && (forall i :: 0 <= i < |tags| ==> tags[i] != "" && IsTrimmed(tags[i]))
  }

  lemma AddTagKeepsWellFormed(tags: seq<string>, input: string)
    requires WellFormedTags(tags)
    ensures WellFormedTags(AddTag(tags, input).tags)
  {
    TrimIsTrimmed(input);
  }

  lemma {:induction false} RemoveTagKeepsWellFormed(tags: seq<string>, t: string)
    requires WellFormedTags(tags)
    ensures WellFormedTags(RemoveTag(tags, t))
  {
    if tags != [] {
      RemoveTagKeepsWellFormed(tags[1..], t);
      var rest := RemoveTag(tags[1..], t);
      if tags[0] != t {
        assert multiset(rest)[tags[0]] == multiset(tags[1..])[tags[0]] == 0;
        var r := [tags[0]] + rest;
        forall i | 0 < i < |r| ensures r[i] != r[0] {
          assert r[i] in multiset(rest);
        }
        forall i | 0 < i < |r| ensures r[i] != "" && IsTrimmed(r[i]) {
          assert r[i] in multiset(rest);
        }
      }
    }
  }

  /** A user action on the tag list: typing text and adding it, or removing a tag. */
  datatype TagAction = Add(input: string) | Remove(tag: string)

  function ApplyTagActions(tags: seq<string>, actions: seq<TagAction>): seq<string>
    decreases |actions|
  {
    if actions == [] then tags
    else
      var next := match actions[0]
        case Add(input) => AddTag(tags, input).tags
        case Remove(t) => RemoveTag(tags, t);
      ApplyTagActions(next, actions[1..])
  }

  /** From the empty list, any sequence of adds and removes leaves a well-formed list. */
  lemma {:induction false} TagActionsKeepWellFormed(tags: seq<string>, actions: seq<TagAction>)
    requires WellFormedTags(tags)
    ensures WellFormedTags(ApplyTagActions(tags, actions))
    decreases |actions|
  {
    if actions != [] {
      match actions[0]
      case Add(input) =>
        AddTagKeepsWellFormed(tags, input);
        TagActionsKeepWellFormed(AddTag(tags, input).tags, actions[1..]);
      case Remove(t) =>
        RemoveTagKeepsWellFormed(tags, t);
        TagActionsKeepWellFormed(RemoveTag(tags, t), actions[1..]);
    }
  }

  // -------------------------------------------------------------------
  // Submit.

  /** The body of a create or update request. */
  datatype PostRequest = PostRequest(title: string, description: string, code: string, tags: seq<string>)

  /**
   * Submit validation and request shaping: a blank title is reported
   * first, then a blank code; otherwise the request carries the trimmed
   * texts and the tags as they are. The language is not sent.
   */
  function BuildRequest(title: string, description: string, code: string, tags: seq<string>): (r: Result<PostRequest, string>)
    ensures r == Failure(TitleRequiredMessage) <==> Trim(title) == ""
    ensures r == Failure(CodeRequiredMessage) <==> Trim(title) != "" && Trim(code) == ""
    ensures r.Success? <==> Trim(title) != "" && Trim(code) != ""
    ensures r.Success? ==>
      && r.value.title == Trim(title) && r.value.description == Trim(description)
      && r.value.code == Trim(code) && r.value.tags == tags
      && IsTrimmed(r.value.title) && IsTrimmed(r.value.description) && IsTrimmed(r.value.code)
  {
    TrimIsTrimmed(title);
    TrimIsTrimmed(description);
    TrimIsTrimmed(code);
    if Trim(title) == "" then Failure(TitleRequiredMessage)
    else if Trim(code) == "" then Failure(CodeRequiredMessage)
    else Success(PostRequest(Trim(title), Trim(description), Trim(code), tags))
  }

  /** Create errors: a server message first, then 401, then 403, then the generic text. */
  function CreateErrorMessage(e: RequestError): (r: string)
    ensures HasMessage(e) ==> r == Message(e)
    ensures !HasMessage(e) && HasStatus(e, 401) ==> r == LoginAgainMessage
    ensures !HasMessage(e) && HasStatus(e, 403) ==> r == NoCreatePermissionMessage
    ensures !HasMessage(e) && !HasStatus(e, 401) && !HasStatus(e, 403) ==> r == CreateFailedMessage
  {
    if HasMessage(e) then Message(e)
    else if HasStatus(e, 401) then LoginAgainMessage
    else if HasStatus(e, 403) then NoCreatePermissionMessage
    else CreateFailedMessage
  }

  // -------------------------------------------------------------------
  // Where a created post leads.

  const PostsPrefix := "/posts/"

  /**
   * `/posts/${newPost.id}`, the page opened after creating; reading `id`
   * of a `null` post throws.
   */
  function CreatedPath(created: Json): (r: Result<string, RequestError>)
    ensures r.Failure? <==> created.JNull?
    ensures r.Failure? ==> r.error == PlainError
    ensures r.Success? ==> r.value == PostsPrefix + JsString(Get(created, "id"))
  {
    if created.JNull? then Failure(PlainError) else Success(PostsPrefix + JsString(Get(created, "id")))
  }

  /** The submit's outcome after the request: the path to open, or the error caught. */
  function SubmitOutcome(response: Result<Json, RequestError>): (r: Result<string, RequestError>)
    ensures response.Failure? ==> r == Failure(response.error)
    ensures r.Success? ==> PostService.CreatePostCall(response).Success?
    ensures PostService.CreatePostCall(response).Success? ==> r == CreatedPath(PostService.CreatePostCall(response).value)
    ensures PostService.CreatePostCall(response).Failure? ==> r == Failure(PostService.CreatePostCall(response).error)
  {
    match PostService.CreatePostCall(response)
    case Failure(e) => Failure(e)
    case Success(p) => CreatedPath(p)
  }

  /** A created post, bare or wrapped, leads to its own page. */
  lemma CreatedPostOpens(p: PostService.Post, wrapped: bool)
    ensures var body := if wrapped then PostService.Wrap(PostService.EncodePost(p)) else PostService.EncodePost(p);
      SubmitOutcome(Success(body)) == Success(PostsPrefix + p.id)
  {
    PostService.BothShapesAccepted(p);
    assert Get(PostService.EncodePost(p), "id") == Some(JStr(p.id));
  }

  /**
   * A `{post: null}` answer is accepted by the service, but opening it
   * throws, so the page shows the generic failure text.
   */
  lemma NullCreatedFails()
    ensures PostService.CreatePostCall(Success(PostService.Wrap(JNull))) == Success(JNull)
    ensures SubmitOutcome(Success(PostService.Wrap(JNull))) == Failure(PlainError)
    ensures CreateErrorMessage(PlainError) == CreateFailedMessage
  {
  }

  // -------------------------------------------------------------------
  // The page's state.

  class CreatePage {
    var title: string
    var description: string
    var code: string
    var language: string
    var tags: seq<string>
    var tagInput: string
    var error: Option<string>
    var isLoading: bool

    ghost predicate Valid()
      reads this
    {
      WellFormedTags(tags)
    }

    constructor ()
      ensures Valid()
      ensures title == "" && description == "" && code == "" && language == DefaultLanguage
      ensures tags == [] && tagInput == "" && error == None && !isLoading
    {
      title, description, code, language := "", "", "", DefaultLanguage;
      tags, tagInput := [], "";
      error, isLoading := None, false;
    }

    method HandleAddTag()
      requires Valid()
      modifies this`tags, this`tagInput
      ensures Valid()
      ensures TagEdit(tags, tagInput) == AddTag(old(tags), old(tagInput))
    {
      AddTagKeepsWellFormed(tags, tagInput);
      var trimmedTag := Trim(tagInput);
      if trimmedTag != "" && trimmedTag !in tags {
        tags := tags + [trimmedTag];
        tagInput := "";
      }
    }

    method HandleRemoveTag(tagToRemove: string)
      requires Valid()
      modifies this`tags
      ensures Valid()
      ensures tags == RemoveTag(old(tags), tagToRemove)
    {
      RemoveTagKeepsWellFormed(tags, tagToRemove);
      tags := RemoveTag(tags, tagToRemove);
    }

    /** Enter in the tag box does what the add button does; other keys do nothing. */
    method HandleKeyPress(key: string)
      requires Valid()
      modifies this`tags, this`tagInput
      ensures Valid()
      ensures key == "Enter" ==> TagEdit(tags, tagInput) == AddTag(old(tags), old(tagInput))
      ensures key != "Enter" ==> tags == old(tags) && tagInput == old(tagInput)
    {
      if key == "Enter" {
        HandleAddTag();
      }
    }

    /**
     * Submit. `response` is what `POST /posts` answers. Returns the request
     * sent, if any, and the page navigated to, if any.
     */
    method HandleSubmit(response: Result<Json, RequestError>) returns (sent: Option<PostRequest>, navigateTo: Option<string>)
      requires Valid()
      modifies this`error, this`isLoading
      ensures Valid()
      ensures var req := BuildRequest(old(title), old(description), old(code), old(tags));
        && (req.Failure? ==> sent == None && navigateTo == None && error == Some(req.error) && isLoading == old(isLoading))
        && (req.Success? ==> sent == Some(req.value) && !isLoading)
        && (req.Success? ==> match SubmitOutcome(response)
              case Success(path) => navigateTo == Some(path) && error == None
              case Failure(e) => navigateTo == None && error == Some(CreateErrorMessage(e)))
    {
      sent, navigateTo := None, None;
      var req := BuildRequest(title, description, code, tags);
      if req.Failure? {
        error := Some(req.error);
        return;
      }
      isLoading := true;
      error := None;
      sent := Some(req.value);
      match SubmitOutcome(response) {
        case Success(path) => navigateTo := Some(path);
        case Failure(e) => error := Some(CreateErrorMessage(e));
      }
      isLoading := false;
    }
  }
}
