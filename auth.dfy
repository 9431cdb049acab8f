/** src/middlewares/auth.ts: `protect` reads a bearer token from the
    `Authorization` header, verifies it and loads the user it names;
    `allowedTo(...roles)` lets a request through only for those roles.
    The header test is the code's own: a case-sensitive "Bearer " prefix,
    and the token is field 1 of the header split on single spaces (a
    simplified form of the Bearer scheme of section 2.1 of RFC 6750). */
module Auth {
  import opened Common
  import opened ApiErrors

  datatype User = User(id: string, role: string)

  /** The payload `jwt.verify` decodes; `id` may be missing from it. */
  datatype Claims = Claims(id: Option<string>)

  /** `jwt.verify(token, JWT_SECRET)`: the decoded payload, or the error the
      library throws for a bad, expired or forged token. Crypto is not part
      of this model, so verification is a parameter. */
  type Verifier = string -> Result<Claims, ErrorValue>

  /** What a middleware does: call `next()`, call `next(err)`, or throw. */
  datatype Outcome = Next | NextErr(err: ErrorValue) | Thrown(err: ErrorValue)

  const BearerPrefix: string := "Bearer "
  const NoTokenMessage: string := "This is a Protected Route. You must Login or Signup first."
  const UserGoneMessage: string := "The User Who using this token is no longer Exists"
  const ForbiddenMessage: string := "This Route is Not Allowed To This Logged User"

  /** Sequelize's error for `findOne({ where: { id: undefined } })`. */
  const UndefinedIdError: ErrorValue := PlainError("WHERE parameter \"id\" has invalid \"undefined\" value")

  /** The TypeError of reading `req.user.role` when no user was attached. */
  const NoUserError: ErrorValue := PlainError("Cannot read properties of undefined (reading 'role')")

  /** `s.split(sep)` for a one-character separator. */
  function Split(s: string, sep: char): (fields: seq<string>)
    ensures |fields| >= 1
    decreases |s|
  {
    if s == [] then [""]
    else if s[0] == sep then [""] + Split(s[1..], sep)
    else
      var rest := Split(s[1..], sep);
      [[s[0]] + rest[0]] + rest[1..]
  }

  /** `fields.join(sep)` */
  function Join(fields: seq<string>, sep: char): string
    requires |fields| >= 1
    decreases |fields|
  {
    if |fields| == 1 then fields[0] else fields[0] + [sep] + Join(fields[1..], sep)
  }

  /** Splitting loses nothing: joining the fields with the separator gives
      the string back, and no field contains the separator. */
  lemma {:induction false} SplitJoin(s: string, sep: char)
    ensures Join(Split(s, sep), sep) == s
    ensures forall i, j :: 0 <= i < |Split(s, sep)| && 0 <= j < |Split(s, sep)[i]| ==> Split(s, sep)[i][j] != sep
    decreases |s|
  {
    if s != [] {
      SplitJoin(s[1..], sep);
      var rest := Split(s[1..], sep);
      if s[0] == sep {
        assert Split(s, sep) == [""] + rest;
        assert Split(s, sep)[1..] == rest;
      } else {
        var fields := Split(s, sep);
        assert fields == [[s[0]] + rest[0]] + rest[1..];
        if |rest| == 1 {
          assert Join(fields, sep) == [s[0]] + rest[0] == [s[0]] + Join(rest, sep);
        } else {
          assert fields[1..] == rest[1..];
          assert Join(rest, sep) == rest[0] + [sep] + Join(rest[1..], sep);
          assert Join(fields, sep) == ([s[0]] + rest[0]) + [sep] + Join(rest[1..], sep);
        }
        assert s == [s[0]] + s[1..];
        forall i, j | 0 <= i < |fields| && 0 <= j < |fields[i]| ensures fields[i][j] != sep {
          if i == 0 && j > 0 {
            assert fields[0][j] == rest[0][j - 1];
          } else if i > 0 {
            assert fields[i] == rest[i];
          }
        }
      }
    }
  }

  /** A word without the separator, then the separator, splits into that
      word followed by the fields of the rest. */
  lemma {:induction false} SplitAfterWord(word: string, sep: char, rest: string)
    requires forall j :: 0 <= j < |word| ==> word[j] != sep
    ensures Split(word + [sep] + rest, sep) == [word] + Split(rest, sep)
    decreases |word|
  {
    var s := word + [sep] + rest;
    if word == [] {
      assert s[1..] == rest;
    } else {
      assert s[1..] == word[1..] + [sep] + rest;
      SplitAfterWord(word[1..], sep, rest);
      assert [word[0]] + word[1..] == word;
    }
  }

  /** A string without the separator is a single field. */
  lemma {:induction false} SplitWithoutSeparator(s: string, sep: char)
    requires forall j :: 0 <= j < |s| ==> s[j] != sep
    ensures Split(s, sep) == [s]
    decreases |s|
  {
    if s != [] {
      SplitWithoutSeparator(s[1..], sep);
      assert [s[0]] + s[1..] == s;
    }
  }

  /** `authHeader.split(" ")[1]` for a header that starts with "Bearer ". */
  function Token(header: string): (token: string)
    requires StartsWith(header, BearerPrefix)
    ensures forall j :: 0 <= j < |token| ==> token[j] != ' '
  {
    var rest := header[|BearerPrefix|..];
    assert header == "Bearer" + [' '] + rest;
    SplitAfterWord("Bearer", ' ', rest);
    SplitJoin(rest, ' ');
    Split(header, ' ')[1]
  }

  /** The token is the text after "Bearer " up to the next space or the end:
      it contains no space, and the header continues after it with a space
      or not at all. */
  lemma TokenIsFirstWordAfterPrefix(header: string)
    requires StartsWith(header, BearerPrefix)
    ensures var t, rest := Token(header), header[|BearerPrefix|..];
            (forall j :: 0 <= j < |t| ==> t[j] != ' ') &&
            StartsWith(rest, t) && (|rest| == |t| || rest[|t|] == ' ')
  {
    var rest := header[|BearerPrefix|..];
    assert header == "Bearer" + [' '] + rest;
    SplitAfterWord("Bearer", ' ', rest);
    SplitJoin(rest, ' ');
    var fields := Split(rest, ' ');
    assert Token(header) == fields[0];
    if |fields| > 1 {
      assert Join(fields, ' ') == fields[0] + [' '] + Join(fields[1..], ' ');
    }
  }

  /** A token without spaces sent as "Bearer <token>" is read back exactly. */
  lemma TokenRoundTrip(token: string)
    requires forall j :: 0 <= j < |token| ==> token[j] != ' '
    ensures StartsWith(BearerPrefix + token, BearerPrefix)
    ensures Token(BearerPrefix + token) == token
  {
    var h := BearerPrefix + token;
    assert h == "Bearer" + [' '] + token;
    assert h[|BearerPrefix|..] == token;
    SplitAfterWord("Bearer", ' ', token);
    SplitWithoutSeparator(token, ' ');
  }

  /** The user a request's header authenticates, or the error `protect`
      forwards: 401 for a missing or non-Bearer header and for a token whose
      user no longer exists, and the verifier's or the database's own error
      otherwise. */
  function Authenticate(header: Option<string>, verify: Verifier, users: map<string, User>): (r: Result<User, ErrorValue>)
    ensures !(header.Some? && StartsWith(header.value, BearerPrefix)) ==> r == Failure(NewApiError(401, NoTokenMessage))
    ensures r.Success? ==> exists id :: id in users && users[id] == r.value
  {
    if header.Some? && StartsWith(header.value, BearerPrefix) then
      match verify(Token(header.value))
      case Failure(e) => Failure(e)
      case Success(claims) =>
        if claims.id.None? then Failure(UndefinedIdError)
        else if claims.id.value !in users then Failure(NewApiError(401, UserGoneMessage))
        else Success(users[claims.id.value])
    else Failure(NewApiError(401, NoTokenMessage))
  }

  /** The request as `protect` and `allowedTo` see it. */
  class Request {
    const authorization: Option<string>
    var user: Option<User>

    constructor (authorization: Option<string>)
      ensures this.authorization == authorization && user == None
    {
      this.authorization := authorization;
      user := None;
    }
  }

  /** `protect`: on success attaches the user and calls `next()`; every
      failure, its own or thrown by the verifier or the database, is caught
      and passed to `next(err)`. */
  method Protect(req: Request, verify: Verifier, users: map<string, User>) returns (o: Outcome)
    modifies req
    ensures !o.Thrown?
    ensures match Authenticate(req.authorization, verify, users)
            case Success(u) => o == Next && req.user == Some(u)
            case Failure(e) => o == NextErr(e) && req.user == old(req.user)
  {
    var authHeader := req.authorization;
    if authHeader.Some? && StartsWith(authHeader.value, BearerPrefix) {
      var token := Token(authHeader.value);
      var decoded := verify(token);
      if decoded.Failure? {
        return NextErr(decoded.error);
      }
      if decoded.value.id.None? {
        return NextErr(UndefinedIdError);
      }
      var id := decoded.value.id.value;
      if id !in users {
        return NextErr(NewApiError(401, UserGoneMessage));
      }
      req.user := Some(users[id]);
      o := Next;
    } else {
      o := NextErr(NewApiError(401, NoTokenMessage));
    }
  }

  /** `allowedTo(...roles)`: `next()` exactly for a user whose role is listed;
      a listed-out role throws ApiError 403, and a request that never went
      through `protect` throws the TypeError of reading `undefined.role`. */
  function AllowedTo(roles: seq<string>, user: Option<User>): (o: Outcome)
    ensures o == Next <==> user.Some? && user.value.role in roles
    ensures user.Some? && user.value.role !in roles ==> o == Thrown(NewApiError(403, ForbiddenMessage))
    ensures user.None? ==> o == Thrown(NoUserError)
  {
    if user.None? then Thrown(NoUserError)
    else if user.value.role in roles then Next
    else Thrown(NewApiError(403, ForbiddenMessage))
  }

  /** `protect` rejects with 401 "fail" whenever the header is absent or
      does not start with the exact, case-sensitive "Bearer ". */
  lemma MissingBearerIsUnauthorized(header: Option<string>, verify: Verifier, users: map<string, User>)
    requires header.None? || !StartsWith(header.value, BearerPrefix)
    ensures var r := Authenticate(header, verify, users);
            r.Failure? && r.error.statusCode == Some(401) && r.error.status == Some("fail")
            && r.error.message == NoTokenMessage
  {
    ClientErrorsFail(401, NoTokenMessage);
  }

  /** A request authenticates exactly when it carries "Bearer <token>", the
      token verifies, and the id it names belongs to a user, who is then the
      one attached; a token for a deleted user is a 401 "fail". */
  lemma AuthenticateSucceedsExactly(header: Option<string>, verify: Verifier, users: map<string, User>)
    ensures var r := Authenticate(header, verify, users);
            r.Success? <==>
              header.Some? && StartsWith(header.value, BearerPrefix) &&
              verify(Token(header.value)).Success? &&
              verify(Token(header.value)).value.id.Some? &&
              verify(Token(header.value)).value.id.value in users
    ensures var r := Authenticate(header, verify, users);
            r.Success? ==> r.value == users[verify(Token(header.value)).value.id.value]
    ensures header.Some? && StartsWith(header.value, BearerPrefix) &&
            verify(Token(header.value)).Success? &&
            verify(Token(header.value)).value.id.Some? &&
            verify(Token(header.value)).value.id.value !in users ==>
              Authenticate(header, verify, users) == Failure(NewApiError(401, UserGoneMessage)) &&
              NewApiError(401, UserGoneMessage).status == Some("fail")
  {
    ClientErrorsFail(401, UserGoneMessage);
  }

  /** A role check refused by `allowedTo` is a 403 "fail". */
  lemma ForbiddenIsClientFailure(roles: seq<string>, user: User)
    requires user.role !in roles
    ensures var o := AllowedTo(roles, Some(user));
            o.Thrown? && o.err.statusCode == Some(403) && o.err.status == Some("fail")
  {
    ClientErrorsFail(403, ForbiddenMessage);
  }

  /** `protect` followed by `allowedTo(...roles)` on one request: the request
      reaches the route exactly when it authenticates as a user whose role
      is listed. */
  method ProtectThenAllowedTo(authorization: Option<string>, verify: Verifier, users: map<string, User>, roles: seq<string>)
    returns (first: Outcome, second: Outcome)
    ensures first == Next && second == Next <==>
            Authenticate(authorization, verify, users).Success? &&
            Authenticate(authorization, verify, users).value.role in roles
    ensures first.NextErr? <==> Authenticate(authorization, verify, users).Failure?
  {
    var req := new Request(authorization);
    first := Protect(req, verify, users);
    if first == Next {
      second := AllowedTo(roles, req.user);
    } else {
      second := first;
    }
  }
}
