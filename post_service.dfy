/**
 * The post service: client-side pagination over the full post list and the
 * normalisation of the backend's single-post responses.
 */
module PostService {
  import opened Wrappers
  import opened Json
  import opened Http
  import Storage
  import Users

  datatype Author = Author(id: string, name: string, email: string)

  /** A post as the list endpoint returns it. */
  datatype Post = Post(
    id: string,
    title: string,
    description: string,
    code: string,
    language: Option<string>,
    tags: seq<string>,
    authorId: string,
    author: Option<Author>,
    createdAt: string,
    updatedAt: string)

  /** The body of `GET /posts`: an array of posts, or anything else. */
  datatype ListBody = PostArray(posts: seq<Post>) | NotArray

  /** `fetchAllPosts`: a body that is not an array counts as no posts. */
  function AllPosts(body: ListBody): (r: seq<Post>)
    ensures r == [] <==> body.NotArray? || body.posts == []
  {
    match body
    case PostArray(ps) => ps
    case NotArray => []
  }

  function Min(a: int, b: int): int {
    if a <= b then a else b
  }

  /** How `Array.prototype.slice` resolves an index against a length. */
  function SliceIndex(i: int, n: nat): (r: nat)
    ensures r <= n
  {
    if i < 0 then (if n + i < 0 then 0 else n + i) else if i > n then n else i
  }

  /** `s.slice(start, end)`, negative indices counting from the end. */
  function Slice<T>(s: seq<T>, start: int, end: int): (r: seq<T>)
    ensures |r| <= |s|
    ensures 0 <= start <= end <= |s| ==> r == s[start..end]
    ensures 0 <= end <= start ==> r == []
  {
    var a := SliceIndex(start, |s|);
    var b := SliceIndex(end, |s|);
    if a < b then s[a..b] else []
  }

  /** `(page - 1) * pageSize`, where a page's window begins. */
  function StartIndex(page: int, pageSize: int): (r: int)
    ensures page >= 1 && pageSize >= 0 ==> r >= 0
  {
    (page - 1) * pageSize
  }

  lemma StartIndexStep(page: int, pageSize: nat)
    ensures StartIndex(page + 1, pageSize) == StartIndex(page, pageSize) + pageSize
  {
    assert page * pageSize == (page - 1) * pageSize + pageSize;
  }

  /** Later pages begin at least one whole page further on. */
  lemma {:induction false} StartIndexGrows(p: int, q: int, pageSize: nat)
    requires p < q
    ensures StartIndex(q, pageSize) >= StartIndex(p, pageSize) + pageSize
    decreases q - p
  {
    StartIndexStep(q - 1, pageSize);
    if q - 1 > p {
      StartIndexGrows(p, q - 1, pageSize);
    }
  }

  /**
   * `fetchPosts(page, pageSize)`: the window of the full list that starts
   * at `(page - 1) * pageSize` and holds at most `pageSize` posts.
   */
  function FetchPosts(body: ListBody, page: int, pageSize: int): (r: seq<Post>)
    ensures body.NotArray? ==> r == []
    ensures page >= 1 && pageSize >= 0 ==>
      var all := AllPosts(body);
      var start := StartIndex(page, pageSize);
      && |r| <= pageSize
      && (start >= |all| ==> r == [])
      && (start < |all| ==> r == all[start..Min(start + pageSize, |all|)])
  {
    var all := AllPosts(body);
    var startIndex := StartIndex(page, pageSize);
    var endIndex := startIndex + pageSize;
    Slice(all, startIndex, endIndex)
  }

  /** Every page, in range or not, is the slice between its clamped bounds. */
  lemma PageIsWindow(body: ListBody, page: int, size: nat)
    requires page >= 1
    ensures var all := AllPosts(body); var start := StartIndex(page, size);
      FetchPosts(body, page, size) == all[Min(start, |all|)..Min(start + size, |all|)]
  {
  }

  /** Pages 1..k of size `size`, one after another. */
  function PagesUpTo(body: ListBody, size: nat, k: nat): seq<Post> {
    if k == 0 then [] else PagesUpTo(body, size, k - 1) + FetchPosts(body, k, size)
  }

  /** Reading pages 1..k in turn yields exactly the first k*size posts. */
  lemma {:induction false} PagesUpToIsPrefix(body: ListBody, size: nat, k: nat)
    ensures PagesUpTo(body, size, k) == AllPosts(body)[..Min(StartIndex(k + 1, size), |AllPosts(body)|)]
  {
    if k > 0 {
      PagesUpToIsPrefix(body, size, k - 1);
      StartIndexStep(k, size);
      PageIsWindow(body, k, size);
      PrefixExtend(AllPosts(body), StartIndex(k, size), size, FetchPosts(body, k, size));
    }
  }

  /** A prefix followed by the clamped window after it is the longer prefix. */
  lemma PrefixExtend<T>(all: seq<T>, start: int, size: nat, page: seq<T>)
    requires start >= 0
    requires page == all[Min(start, |all|)..Min(start + size, |all|)]
    ensures all[..Min(start, |all|)] + page == all[..Min(start + size, |all|)]
  {
  }

  /** A page shorter than the page size is the last non-empty one. */
  lemma ShortPageIsLast(body: ListBody, size: nat, p: int, q: int)
    requires 1 <= p < q
    requires |FetchPosts(body, p, size)| < size
    ensures FetchPosts(body, q, size) == []
  {
    var all := AllPosts(body);
    var sp := StartIndex(p, size);
    StartIndexGrows(p, q, size);
    if sp < |all| {
      assert |FetchPosts(body, p, size)| == Min(sp + size, |all|) - sp;
    }
  }

  // -------------------------------------------------------------------
  // Single-post responses.

  /**
   * `fetchPostById`: a truthy object or array body is accepted; one with a
   * `post` key yields that key's value, any other is returned as is.
   * `null` and primitive bodies are rejected with a plain error.
   */
  function FetchPostById(body: Json): (r: Result<Json, RequestError>)
    ensures r.Failure? <==> !(body.JObject? || body.JArray?)
    ensures r.Failure? ==> r.error == PlainError
    ensures body.JObject? && "post" in body.fields ==> r == Success(body.fields["post"])
    ensures body.JArray? || (body.JObject? && "post" !in body.fields) ==> r == Success(body)
  {
    if Truthy(body) && IsObjectType(body) then
      if HasKey(body, "post") then Success(body.fields["post"]) else Success(body)
    else
      Failure(PlainError)
  }

  /**
   * `createPost`: a `post` key wins over an `id` key; an object with
   * neither, an array, `null` or a primitive is rejected.
   */
  function CreatePost(body: Json): (r: Result<Json, RequestError>)
    ensures r.Success? <==> body.JObject? && ("post" in body.fields || "id" in body.fields)
    ensures r.Failure? ==> r.error == PlainError
    ensures body.JObject? && "post" in body.fields ==> r == Success(body.fields["post"])
    ensures body.JObject? && "post" !in body.fields && "id" in body.fields ==> r == Success(body)
  {
    if Truthy(body) && IsObjectType(body) && HasKey(body, "post") then Success(body.fields["post"])
    else if Truthy(body) && IsObjectType(body) && HasKey(body, "id") then Success(body)
    else Failure(PlainError)
  }

  /** The whole `fetchPostById` call: a failed request rejects with its own error. */
  function FetchPostByIdCall(response: Result<Json, RequestError>): (r: Result<Json, RequestError>)
    ensures response.Failure? ==> r == Failure(response.error)
    ensures response.Success? ==> r == FetchPostById(response.value)
  {
    match response
    case Failure(e) => Failure(e)
    case Success(body) => FetchPostById(body)
  }

  /** The whole `createPost` call: a failed request rejects with its own error. */
  function CreatePostCall(response: Result<Json, RequestError>): (r: Result<Json, RequestError>)
    ensures response.Failure? ==> r == Failure(response.error)
    ensures response.Success? ==> r == CreatePost(response.value)
  {
    match response
    case Failure(e) => Failure(e)
    case Success(body) => CreatePost(body)
  }

  /**
   * `updatePost`: yields `response.data.post` (`None` for undefined);
   * reading a field of a `null` body throws.
   */
  function UpdatePostCall(response: Result<Json, RequestError>): (r: Result<Option<Json>, RequestError>)
    ensures response.Failure? ==> r == Failure(response.error)
    ensures response.Success? ==> (r.Failure? <==> response.value.JNull?)
    ensures r.Success? ==> r.value == Get(response.value, "post")
  {
    match response
    case Failure(e) => Failure(e)
    case Success(body) => if body.JNull? then Failure(PlainError) else Success(Get(body, "post"))
  }

  /** A list of texts as a JSON array. */
  function TextList(ts: seq<string>): (r: seq<Json>)
    ensures |r| == |ts| && forall i :: 0 <= i < |ts| ==> r[i] == JStr(ts[i])
  {
    seq(|ts|, i requires 0 <= i < |ts| => JStr(ts[i]))
  }

  function EncodeAuthor(a: Author): Json {
    JObject(map["id" := JStr(a.id), "name" := JStr(a.name), "email" := JStr(a.email)])
  }

  /** A post as the backend serialises it; absent optional fields are left out. */
  function EncodePost(p: Post): (r: Json)
    ensures r.JObject? && "post" !in r.fields && "id" in r.fields
  {
    var base := map[
      "id" := JStr(p.id), "title" := JStr(p.title), "description" := JStr(p.description),
      "code" := JStr(p.code), "tags" := JArray(TextList(p.tags)),
      "authorId" := JStr(p.authorId), "createdAt" := JStr(p.createdAt), "updatedAt" := JStr(p.updatedAt)];
    var withLanguage := match p.language case None => base case Some(l) => base["language" := JStr(l)];
    var full := match p.author case None => withLanguage case Some(a) => withLanguage["author" := EncodeAuthor(a)];
    JObject(full)
  }

  /** `{post: ...}`, the wrapped shape. */
  function Wrap(j: Json): Json {
    JObject(map["post" := j])
  }

  /** Both response shapes decode to the same post, for reading and for creating. */
  lemma BothShapesAccepted(p: Post)
    ensures FetchPostById(EncodePost(p)) == Success(EncodePost(p))
    ensures FetchPostById(Wrap(EncodePost(p))) == Success(EncodePost(p))
    ensures CreatePost(EncodePost(p)) == Success(EncodePost(p))
    ensures CreatePost(Wrap(EncodePost(p))) == Success(EncodePost(p))
  {
  }

  // -------------------------------------------------------------------
  // Posts of one author.

  /**
   * `fetchPostsByAuthor`: the `posts` field of the body when truthy, else
   * an empty list; reading a field of `null` throws.
   */
  function FetchPostsByAuthor(body: Json): (r: Result<Json, RequestError>)
    ensures body.JNull? <==> r.Failure?
    ensures !body.JNull? && (Get(body, "posts").None? || !Truthy(Get(body, "posts").value)) ==> r == Success(JArray([]))
    ensures r.Success? && r.value != JArray([]) ==> Get(body, "posts") == Some(r.value)
    ensures !body.JNull? && Get(body, "posts").Some? && Truthy(Get(body, "posts").value) ==>
      r == Success(Get(body, "posts").value)
  {
    if body.JNull? then Failure(PlainError)
    else match Get(body, "posts")
      case Some(v) => if Truthy(v) then Success(v) else Success(JArray([]))
      case None => Success(JArray([]))
  }

  /** The outcome of `fetchMyPosts`: the author it asked for, if any, and its result. */
  datatype MyPostsCall = MyPostsCall(requested: Option<string>, posts: Result<Json, RequestError>)

  /**
   * `fetchMyPosts`: reads the cached user; asks for that user's posts only
   * when the user has a non-empty `id`, otherwise answers `[]` at once.
   * `response` is what the author endpoint would answer.
   */
  function FetchMyPosts(items: map<string, string>, response: Result<Json, RequestError>): (r: MyPostsCall)
    ensures !Storage.HasText(items, Storage.UserKey) ==> r == MyPostsCall(None, Success(JArray([])))
    ensures r.requested.Some? <==>
      Storage.HasText(items, Storage.UserKey)
      && var u := Users.ParseUser(items[Storage.UserKey]);
      u.Some? && u.value.id.Some? && u.value.id.value != ""
    ensures Storage.HasText(items, Storage.UserKey) && Users.ParseUser(items[Storage.UserKey]).None?
      ==> r == MyPostsCall(None, Failure(PlainError))
    ensures Storage.HasText(items, Storage.UserKey) && Users.ParseUser(items[Storage.UserKey]).Some? && r.requested.None?
      ==> r.posts == Success(JArray([]))
    ensures r.requested.Some? ==> r.requested == Users.ParseUser(items[Storage.UserKey]).value.id
    ensures r.requested.Some? && response.Failure? ==> r.posts == response
    ensures r.requested.Some? && response.Success? ==> r.posts == FetchPostsByAuthor(response.value)
  {
    if !Storage.HasText(items, Storage.UserKey) then MyPostsCall(None, Success(JArray([])))
    else match Users.ParseUser(items[Storage.UserKey])
      case None => MyPostsCall(None, Failure(PlainError))
      case Some(u) =>
        if u.id.Some? && u.id.value != "" then
          MyPostsCall(u.id, match response case Failure(e) => Failure(e) case Success(b) => FetchPostsByAuthor(b))
        else MyPostsCall(None, Success(JArray([])))
  }

  /** After a user with an id is cached, `fetchMyPosts` asks for that user's posts. */
  lemma SavedUserPostsAsked(items: map<string, string>, u: Users.User, response: Result<Json, RequestError>)
    requires u.id.Some? && u.id.value != ""
    ensures FetchMyPosts(items[Storage.UserKey := Users.EncodeUser(u)], response).requested == u.id
  {
    Users.ParseEncodedUser(u);
  }

  /** A cached user without an id gets no posts and no request. */
  lemma SavedUserWithoutIdGetsNone(items: map<string, string>, u: Users.User, response: Result<Json, RequestError>)
    requires u.id.None?
    ensures FetchMyPosts(items[Storage.UserKey := Users.EncodeUser(u)], response) == MyPostsCall(None, Success(JArray([])))
  {
    Users.ParseEncodedUser(u);
  }

  // -------------------------------------------------------------------
  // Reading fields of a decoded post.

  const DefaultLanguage := "javascript"

  /** A text field of a post; a missing or non-text field reads as the empty text. */
  function TextField(post: Json, key: string): (r: string)
    ensures Get(post, key) == Some(JStr(r)) || (r == "" && !(Get(post, key).Some? && Get(post, key).value.JStr?))
  {
    match Get(post, key)
    case Some(JStr(s)) => s
    case _ => ""
  }

  /** The texts of a list made of texts only; `None` when any entry is not a text. */
  function Texts(items: seq<Json>): (r: Option<seq<string>>)
    ensures r.Some? ==> |r.value| == |items| && forall i :: 0 <= i < |items| ==> items[i] == JStr(r.value[i])
  {
    if items == [] then Some([])
    else match (items[0], Texts(items[1..]))
      case (JStr(s), Some(rest)) => Some([s] + rest)
      case _ => None
  }

  /** Encoding a list of texts and reading it back gives the list. */
  lemma {:induction false} TextsOfEncoded(ts: seq<string>)
    ensures Texts(TextList(ts)) == Some(ts)
  {
    if ts != [] {
      assert TextList(ts)[1..] == TextList(ts[1..]);
      TextsOfEncoded(ts[1..]);
      assert [ts[0]] + ts[1..] == ts;
    }
  }

  /** The `tags` of a post when it is a list of texts, else none. */
  function TagsField(post: Json): (r: seq<string>)
    ensures r != [] ==> (Get(post, "tags").Some? && Get(post, "tags").value.JArray?
      && Texts(Get(post, "tags").value.items) == Some(r))
    ensures Get(post, "tags").Some? && Get(post, "tags").value.JArray? && Texts(Get(post, "tags").value.items).Some?
      ==> r == Texts(Get(post, "tags").value.items).value
  {
    match Get(post, "tags")
    case Some(JArray(items)) => Texts(items).GetOr([])
    case _ => []
  }

  /** `post.language || "javascript"`: an absent or empty language falls back to the default. */
  function LanguageOrDefault(post: Json): (r: string)
    ensures r != ""
    ensures Get(post, "language").Some? && Get(post, "language").value.JStr? && Get(post, "language").value.s != ""
      ==> r == Get(post, "language").value.s
  {
    match Get(post, "language")
    case Some(JStr(s)) => if s != "" then s else DefaultLanguage
    case _ => DefaultLanguage
  }

  /** On an encoded post the readers give back the post's own fields. */
  lemma ReadEncodedPost(p: Post)
    ensures TextField(EncodePost(p), "title") == p.title
    ensures TextField(EncodePost(p), "description") == p.description
    ensures TextField(EncodePost(p), "code") == p.code
    ensures TextField(EncodePost(p), "authorId") == p.authorId
    ensures TagsField(EncodePost(p)) == p.tags
    ensures LanguageOrDefault(EncodePost(p)) == if p.language.Some? && p.language.value != "" then p.language.value else DefaultLanguage
  {
    assert Get(EncodePost(p), "tags") == Some(JArray(TextList(p.tags)));
    TextsOfEncoded(p.tags);
  }
}
