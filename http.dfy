/** The request/response conventions every route handler shares: the
    `Authorization: Bearer <jwt>` header, `verifyToken` (src/lib/auth.ts) and the
    JSON replies `{ message, ... }` / `{ error }` with their HTTP status. */
module Http {
  import opened Common
  import opened UserModel

  /** The payload `generateToken` signs: `{ id, email, role }`. */
  datatype Claim = Claim(id: Id, email: string, role: Role)

  /** The text before the first space. */
  function FirstField(s: string): (r: string)
    ensures r <= s && ' ' !in r
    ensures |r| < |s| ==> s[|r|] == ' '
  {
    if s == [] || s[0] == ' ' then [] else [s[0]] + FirstField(s[1..])
  }

  /** `authHeader.split(' ')[1]`: the second space-separated field, or `undefined`
      (`None`) when the header holds no space. */
  function BearerToken(header: string): (r: Option<string>)
    ensures r.None? <==> ' ' !in header
    ensures r.Some? ==> ' ' !in r.value
  {
    if header == [] then None
    else if header[0] == ' ' then Some(FirstField(header[1..]))
    else BearerToken(header[1..])
  }

  /** The header the client builds, `Bearer ${token}`, gives the token back. */
  lemma {:induction false} BearerTokenOfScheme(token: string)
    requires ' ' !in token
    ensures BearerToken("Bearer " + token) == Some(token)
  {
    assert "Bearer " + token == "Bearer" + " " + token;
    BearerTokenAfterWord("Bearer", token);
    FirstFieldWhole(token);
  }

  lemma {:induction false} BearerTokenAfterWord(word: string, rest: string)
    requires ' ' !in word
    ensures BearerToken(word + " " + rest) == Some(FirstField(rest))
  {
    if word == [] {
      assert (word + " " + rest)[1..] == rest;
    } else {
      assert word[0] in word;
      assert (word + " " + rest)[1..] == word[1..] + " " + rest;
      assert ' ' !in word[1..] by {
        forall i | 0 <= i < |word| - 1 ensures word[1..][i] != ' ' {
          assert word[1..][i] == word[i + 1];
          assert word[i + 1] in word;
        }
      }
      BearerTokenAfterWord(word[1..], rest);
    }
  }

  lemma {:induction false} FirstFieldWhole(s: string)
    requires ' ' !in s
    ensures FirstField(s) == s
  {
    if s != [] {
      assert s[0] in s;
      assert ' ' !in s[1..] by {
        forall i | 0 <= i < |s| - 1 ensures s[1..][i] != ' ' {
          assert s[1..][i] == s[i + 1];
          assert s[i + 1] in s;
        }
      }
      FirstFieldWhole(s[1..]);
      assert s == [s[0]] + s[1..];
    }
  }

  /** The outcome of the authentication prologue of a handler. */
  datatype Access =
    | NoHeader          // `if (!authHeader)`: 401 "Unauthorized"
    | BadToken          // `verifyToken` throws: the handler's catch (or a crash)
    | Verified(claim: Claim)

  /** `verifyToken(authHeader.split(' ')[1])`. The tokens the secret signs are the
      keys of `verifier`; a missing or empty token never verifies. */
  function Authenticate(header: Option<string>, verifier: map<string, Claim>): (a: Access)
    ensures a.NoHeader? <==> !Truthy(header)
    ensures a.Verified? <==>
      Truthy(header) && BearerToken(header.value).Some?
      && BearerToken(header.value).value != "" && BearerToken(header.value).value in verifier
    ensures a.Verified? ==> a.claim == verifier[BearerToken(header.value).value]
  {
    if !Truthy(header) then NoHeader
    else
      var token := BearerToken(header.value);
      if token.None? || token.value == "" || token.value !in verifier then BadToken
      else Verified(verifier[token.value])
  }

  /** A JSON reply: a success with its `message` and payload, an error with its
      `error` text, or an exception no handler code catches (Next.js answers 500). */
  datatype Response<T> =
    | Ok(status: int, message: string, body: T)
    | Fail(status: int, error: string)
    | Crash

  type Reply = Response<()>

  function Done(status: int, message: string): Reply {
    Ok(status, message, ())
  }

  /** Why a handler stops before writing anything: an `{ error }` reply with its
      status, or an exception that escapes the handler. */
  datatype Refusal = Error(status: int, error: string) | Thrown

  function Refused<T>(why: Refusal): (r: Response<T>)
    ensures why.Error? ==> r == Fail(why.status, why.error)
    ensures why.Thrown? ==> r.Crash?
  {
    if why.Error? then Fail(why.status, why.error) else Crash
  }

  /** The outcome of a handler's guard chain: refused, or passed with the values
      the writes need. */
  datatype Gate<P> = Refuse(why: Refusal) | Pass(payload: P)

  /** The prologue every authenticated handler shares: no header gives 401
      "Unauthorized", a token that does not verify gives `onBadToken` (the handler's
      catch reply, or `Thrown` where the handler has no try/catch). */
  function Caller(header: Option<string>, verifier: map<string, Claim>, onBadToken: Refusal): (g: Gate<Claim>)
    ensures !Truthy(header) ==> g == Refuse(Error(401, "Unauthorized"))
    ensures Authenticate(header, verifier).BadToken? ==> g == Refuse(onBadToken)
    ensures g.Pass? <==> Authenticate(header, verifier).Verified?
    ensures g.Pass? ==> g.payload == Authenticate(header, verifier).claim
  {
    match Authenticate(header, verifier)
    case NoHeader => Refuse(Error(401, "Unauthorized"))
    case BadToken => Refuse(onBadToken)
    case Verified(c) => Pass(c)
  }

  /** `Caller`, then a 403 with the handler's own text for anyone but an admin. */
  function AdminCaller(header: Option<string>, verifier: map<string, Claim>, onBadToken: Refusal, forbidden: string): (g: Gate<Claim>)
    ensures g.Pass? <==> Authenticate(header, verifier).Verified? && Authenticate(header, verifier).claim.role == Admin
    ensures g.Pass? ==> g.payload == Authenticate(header, verifier).claim
    ensures Authenticate(header, verifier).Verified? && Authenticate(header, verifier).claim.role != Admin ==>
      g == Refuse(Error(403, forbidden))
    ensures !Authenticate(header, verifier).Verified? ==> g == Caller(header, verifier, onBadToken)
  {
    var c := Caller(header, verifier, onBadToken);
    if c.Refuse? then c
    else if c.payload.role != Admin then Refuse(Error(403, forbidden))
    else c
  }
}
