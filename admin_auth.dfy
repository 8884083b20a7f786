/** The `authMiddleware` of server/middleware/adminAuth.js: read the bearer
    token from the Authorization header, verify it, and let the request
    through only for an admin. Token verification (`jwt.verify` with the
    server's secret) is the parameter `verify`, which yields the token's
    claims or nothing when the token is rejected. */
module AdminAuth {
  import opened Domain

  /** The payload of a verified token; `role` may be absent. */
  datatype Claims = Claims(id: Id, role: Option<string>)

  /** Either `next()` runs with `req.user` set, or the middleware answers. */
  datatype AuthResult = Next(user: Requester) | Deny(status: int, message: string)

  const Bearer: string := "Bearer "

  predicate StartsWith(s: string, prefix: string)
  {
    |prefix| <= |s| && s[..|prefix|] == prefix
  }

  /** JavaScript's `s.split(sep)` for a one-character separator: the pieces
      between separators, empty pieces included. */
  function Split(s: string, sep: char): (r: seq<string>)
    ensures |r| >= 1
    ensures forall i :: 0 <= i < |r| ==> sep !in r[i]
  {
    if s == [] then [""]
    else
      var rest := Split(s[1..], sep);
      if s[0] == sep then [""] + rest
      else [[s[0]] + rest[0]] + rest[1..]
  }

  /** `parts.join(sep)`. */
  function Join(parts: seq<string>, sep: char): string
    requires |parts| >= 1
  {
    if |parts| == 1 then parts[0] else parts[0] + [sep] + Join(parts[1..], sep)
  }

  /** Splitting loses nothing: joining the pieces gives the string back. */
  lemma {:induction false} SplitJoin(s: string, sep: char)
    ensures Join(Split(s, sep), sep) == s
  {
    if s != [] {
      var rest := Split(s[1..], sep);
      SplitJoin(s[1..], sep);
      if s[0] == sep {
        assert ([""] + rest)[1..] == rest;
        assert s == [s[0]] + s[1..];
      } else {
        var r := [[s[0]] + rest[0]] + rest[1..];
        if |rest| == 1 {
          assert r == [[s[0]] + rest[0]];
        } else {
          assert r[1..] == rest[1..];
          assert Join(rest, sep) == rest[0] + [sep] + Join(rest[1..], sep);
        }
        assert s == [s[0]] + s[1..];
      }
    }
  }

  /** A piece with no separator splits to itself. */
  lemma {:induction false} SplitNoSeparator(t: string, sep: char)
    requires sep !in t
    ensures Split(t, sep) == [t]
  {
    if t != [] {
      SplitNoSeparator(t[1..], sep);
      assert t == [t[0]] + t[1..];
    }
  }

  /** A word with no separator, then a separator, splits off as the first piece. */
  lemma {:induction false} SplitAfterWord(w: string, sep: char, t: string)
    requires sep !in w
    ensures Split(w + [sep] + t, sep) == [w] + Split(t, sep)
  {
    if w == [] {
      assert w + [sep] + t == [sep] + t;
      assert ([sep] + t)[1..] == t;
    } else {
      SplitAfterWord(w[1..], sep, t);
      assert (w + [sep] + t)[1..] == w[1..] + [sep] + t;
      assert w == [w[0]] + w[1..];
    }
  }

  /** `authHeader.split(' ')[1]`; a header that starts with "Bearer " has a
      second piece. */
  function Token(header: string): (t: string)
    requires StartsWith(header, Bearer)
    ensures ' ' !in t
  {
    assert header == "Bearer" + [' '] + header[|Bearer|..];
    SplitAfterWord("Bearer", ' ', header[|Bearer|..]);
    Split(header, ' ')[1]
  }

  /** The token of "Bearer <t>" is `t` when `t` has no space. */
  lemma TokenOfBearer(t: string)
    requires ' ' !in t
    ensures StartsWith(Bearer + t, Bearer) && Token(Bearer + t) == t
  {
    assert (Bearer + t)[..|Bearer|] == Bearer;
    assert Bearer + t == "Bearer" + [' '] + t;
    SplitAfterWord("Bearer", ' ', t);
    SplitNoSeparator(t, ' ');
  }

  /** With a further space, the token is only the piece before it. */
  lemma TokenStopsAtSpace(t: string, u: string)
    requires ' ' !in t
    ensures StartsWith(Bearer + t + [' '] + u, Bearer) && Token(Bearer + t + [' '] + u) == t
  {
    var h := Bearer + t + [' '] + u;
    assert h[..|Bearer|] == Bearer;
    assert h == "Bearer" + [' '] + (t + [' '] + u);
    SplitAfterWord("Bearer", ' ', t + [' '] + u);
    SplitAfterWord(t, ' ', u);
  }

  /** The middleware. `header` is `req.headers.authorization`. */
  function AdminGate(header: Option<string>, verify: string -> Option<Claims>): (r: AuthResult)
    ensures header.None? || !StartsWith(header.value, Bearer) ==> r == Deny(401, "No token provided")
    ensures header.Some? && StartsWith(header.value, Bearer) ==>
      var claims := verify(Token(header.value));
      && (claims.None? ==> r == Deny(401, "Invalid token"))
      && (claims.Some? && claims.value.role != Some("admin") ==> r == Deny(403, "Access denied, admin only"))
    ensures r.Next? <==>
      && header.Some? && StartsWith(header.value, Bearer)
      && verify(Token(header.value)).Some?
      && verify(Token(header.value)).value.role == Some("admin")
    ensures r.Next? ==>
      var claims := verify(Token(header.value)).value;
      r.user == Requester(claims.id, claims.role) && r.user.role == Some("admin")
  {
    if header.None? || !StartsWith(header.value, Bearer) then Deny(401, "No token provided")
    else
      match verify(Token(header.value))
      case None => Deny(401, "Invalid token")
      case Some(claims) =>
        if claims.role != Some("admin") then Deny(403, "Access denied, admin only")
        else Next(Requester(claims.id, claims.role))
  }
}
