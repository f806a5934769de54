/**
 * The user record the client caches, and the text form it is stored in.
 * `JSON.stringify` / `JSON.parse` are modelled by a field codec with the
 * same essential property: parsing the stored text gives the record back.
 */
module Users {
  import opened Wrappers

  /** A user as the backend returns it; `id` is read by fetchMyPosts only. */
  datatype User = User(email: string, name: string, id: Option<string>)

  function Escape(s: string): (r: string)
    ensures |r| >= |s|
  {
    if s == [] then []
    else (if s[0] == '\\' || s[0] == ';' then ['\\', s[0]] else [s[0]]) + Escape(s[1..])
  }

  /** One field: its escaped text and an unescaped ';' terminator. */
  function EncodeField(s: string): string {
    Escape(s) + [';']
  }

  /** Reads one field off the front of `t`; yields the field and the rest. */
  function ReadField(t: string): Option<(string, string)>
    decreases |t|
  {
    if t == [] then None
    else if t[0] == ';' then Some(([], t[1..]))
    else if t[0] == '\\' then
      if |t| < 2 then None
      else match ReadField(t[2..])
        case None => None
        case Some(p) => Some(([t[1]] + p.0, p.1))
    else match ReadField(t[1..])
      case None => None
      case Some(p) => Some(([t[0]] + p.0, p.1))
  }

  lemma {:induction false} ReadEncodedField(s: string, rest: string)
    ensures ReadField(EncodeField(s) + rest) == Some((s, rest))
  {
    var t := EncodeField(s) + rest;
    if s == [] {
      assert t == [';'] + rest;
    } else {
      ReadEncodedField(s[1..], rest);
      var tail := EncodeField(s[1..]) + rest;
      if s[0] == '\\' || s[0] == ';' {
        assert t == ['\\', s[0]] + tail;
        assert t[2..] == tail;
      } else {
        assert t == [s[0]] + tail;
        assert t[1..] == tail;
      }
      assert [s[0]] + s[1..] == s;
    }
  }

  /** `JSON.stringify(user)`. */
  function EncodeUser(u: User): (r: string)
    ensures r != ""
  {
    EncodeField(u.email) + EncodeField(u.name)
      + (match u.id case None => "" case Some(i) => EncodeField(i))
  }

  /** `JSON.parse(text)` read as a user; `None` is a parse error. */
  function ParseUser(t: string): Option<User> {
    match ReadField(t)
    case None => None
    case Some(e) =>
      match ReadField(e.1)
      case None => None
      case Some(n) =>
        if n.1 == [] then Some(User(e.0, n.0, None))
        else match ReadField(n.1)
          case None => None
          case Some(i) => if i.1 == [] then Some(User(e.0, n.0, Some(i.0))) else None
  }

  /** Storing a user and reading it back gives the same user. */
  lemma ParseEncodedUser(u: User)
    ensures ParseUser(EncodeUser(u)) == Some(u)
  {
    var idPart := match u.id case None => "" case Some(i) => EncodeField(i);
    var afterEmail := EncodeField(u.name) + idPart;
    assert EncodeUser(u) == EncodeField(u.email) + afterEmail;
    ReadEncodedField(u.email, afterEmail);
    ReadEncodedField(u.name, idPart);
    if u.id.Some? {
      ReadEncodedField(u.id.value, []);
      assert EncodeField(u.id.value) + [] == idPart;
    }
  }
}
