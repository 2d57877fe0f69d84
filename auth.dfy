/** The bearer-token guards (src/middleware/auth.ts). Token verification (`jwt.verify`
    with the server secret) is an oracle passed in as `verify`: it yields the decoded
    claims, or None where the library throws. */
module Auth {
  import opened Wrappers

  /** The `{userId, isAdmin}` claims a token carries and `req.user` receives. */
  datatype Claims = Claims(userId: int, isAdmin: bool)

  /** The three ways a guard ends: 401, 403, or `next()` with `req.user` set. */
  datatype Outcome = Unauthorized | Forbidden | Next(user: Claims) {
    function Code(): int {
      match this
      case Unauthorized => 401
      case Forbidden => 403
      case Next(_) => 200
    }
  }

  const Bearer: string := "Bearer "

  predicate StartsWith(s: string, prefix: string) {
    |prefix| <= |s| && s[..|prefix|] == prefix
  }

  /** `s.split(" ")`: the pieces between single spaces, empty ones included. */
  function Split(s: string): (fields: seq<string>)
    ensures |fields| >= 1
    ensures forall i :: 0 <= i < |fields| ==> ' ' !in fields[i]
  {
    if s == [] then [""]
    else if s[0] == ' ' then [""] + Split(s[1..])
    else
      var rest := Split(s[1..]);
      [[s[0]] + rest[0]] + rest[1..]
  }

  /** `fields.join(" ")`. */
  function Join(fields: seq<string>): string
    requires |fields| >= 1
  {
    if |fields| == 1 then fields[0] else fields[0] + " " + Join(fields[1..])
  }

  /** The characters before the first space. */
  function Word(s: string): string {
    if s == [] || s[0] == ' ' then [] else [s[0]] + Word(s[1..])
  }

  /** Splitting loses nothing: joining the pieces restores the header. */
  lemma {:induction false} SplitJoin(s: string)
    ensures Join(Split(s)) == s
  {
    if s != [] {
      SplitJoin(s[1..]);
      if s[0] != ' ' {
        var rest := Split(s[1..]);
        if |rest| == 1 {
          assert Split(s) == [[s[0]] + rest[0]];
        } else {
          assert Split(s)[1..] == rest[1..];
          assert Join(Split(s)) == [s[0]] + rest[0] + " " + Join(rest[1..]);
        }
      }
    }
  }

  /** A string that starts with a space-free word and a space splits into that word
      followed by the pieces of the rest. */
  lemma {:induction false} SplitAfterWord(w: string, rest: string)
    requires ' ' !in w
    ensures Split(w + " " + rest) == [w] + Split(rest)
  {
    if w != [] {
      var s := w + " " + rest;
      assert s[0] == w[0] && s[1..] == w[1..] + " " + rest;
      SplitAfterWord(w[1..], rest);
      var r := Split(s[1..]);
      assert r == [w[1..]] + Split(rest);
      assert [w[0]] + r[0] == w;
      assert Split(s) == [[s[0]] + r[0]] + r[1..];
    } else {
      assert (w + " " + rest)[1..] == rest;
    }
  }

  lemma {:induction false} SplitHead(s: string)
    ensures Split(s)[0] == Word(s)
  {
    if s != [] && s[0] != ' ' {
      SplitHead(s[1..]);
    }
  }

  /** `authHeader.split(" ")[1]` for a header that passed the prefix test: the first
      word after "Bearer ", possibly empty. */
  function Token(header: string): (token: string)
    requires StartsWith(header, Bearer)
    ensures token == Word(header[|Bearer|..])
    ensures ' ' !in token
  {
    var rest := header[|Bearer|..];
    assert header == "Bearer" + " " + rest;
    SplitAfterWord("Bearer", rest);
    SplitHead(rest);
    Split(header)[1]
  }

  lemma TokenExamples()
    ensures Token("Bearer a b") == "a"
    ensures Token("Bearer  x") == ""
    ensures Token("Bearer ") == ""
  {
  }

  /** The header test shared by both guards (a missing header is None). */
  predicate WellFormed(header: Option<string>) {
    header.Some? && StartsWith(header.value, Bearer)
  }

  /** `verifyUser`: any verified token passes, admin or not. */
  function VerifyUser(header: Option<string>, verify: string -> Option<Claims>): (r: Outcome)
    ensures r != Forbidden
    ensures !WellFormed(header) ==> r == Unauthorized
    ensures r.Next? <==> WellFormed(header) && verify(Token(header.value)).Some?
    ensures r.Next? ==> r.user == verify(Token(header.value)).value
  {
    if !WellFormed(header) then Unauthorized
    else
      match verify(Token(header.value))
      case None => Unauthorized
      case Some(decoded) => Next(Claims(decoded.userId, decoded.isAdmin))
  }

  /** `verifyAdmin`: as `verifyUser`, then 403 unless the claims say admin. */
  function VerifyAdmin(header: Option<string>, verify: string -> Option<Claims>): (r: Outcome)
    ensures !WellFormed(header) ==> r == Unauthorized
    ensures r.Next? ==> r.user.isAdmin
    ensures r.Next? ==> WellFormed(header) && verify(Token(header.value)) == Some(r.user)
    ensures r == Forbidden <==>
              WellFormed(header) && verify(Token(header.value)).Some? && !verify(Token(header.value)).value.isAdmin
  {
    if !WellFormed(header) then Unauthorized
    else
      match verify(Token(header.value))
      case None => Unauthorized
      case Some(decoded) =>
        if !decoded.isAdmin then Forbidden else Next(Claims(decoded.userId, decoded.isAdmin))
  }

  /** The admin guard is the user guard narrowed to admin claims: it agrees with the
      user guard on every refusal and on every admin token, and turns a non-admin pass
      into 403. */
  lemma AdminGuardRefinesUserGuard(header: Option<string>, verify: string -> Option<Claims>)
    ensures VerifyAdmin(header, verify) ==
              match VerifyUser(header, verify)
              case Next(c) => if c.isAdmin then Next(c) else Forbidden
              case other => other
  {
  }
}
