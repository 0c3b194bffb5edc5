/** The admin API-key guard: with a key configured, only requests carrying
    it in `x-api-key` pass, and they are marked as admin. */
module ApiKey {

  import opened Common

  /** The header the key is read from (Node lower-cases header names). */
  const KeyHeader: string := "x-api-key"

  /** What the guard throws for a missing or wrong key. */
  const InvalidApiKey: Thrown := Thrown("UnauthorizedException", "Invalid API key")

  datatype User = User(role: string)

  /** The incoming request: its headers and the `user` the guard may set. */
  class Request {
    const headers: map<string, string>
    var user: Option<User>

    constructor (headers: map<string, string>, user: Option<User>)
      ensures this.headers == headers && this.user == user
    {
      this.headers := headers;
      this.user := user;
    }

    /** `req.headers['x-api-key']`. */
    function ProvidedKey(): Option<string>
      reads this
    {
      if KeyHeader in headers then Some(headers[KeyHeader]) else None
    }
  }

  /** The three outcomes: no key configured (open), the right key (admin),
      anything else (denied). */
  datatype Decision = Open | Admin | Denied

  /** The decision `canActivate` takes; `expected` is `ADMIN_API_KEY`. */
  function Decide(provided: Option<string>, expected: Option<string>): Decision {
    if !TruthyText(expected) then Open
    else if TruthyText(provided) && provided.value == expected.value then Admin
    else Denied
  }

  /** Without a key every request is let in; with one, exactly a request
      carrying that same key is let in as admin, and a missing, empty or
      different key is refused. */
  lemma DecideCases(provided: Option<string>, expected: Option<string>)
    ensures Decide(provided, expected) == Open <==> !TruthyText(expected)
    ensures Decide(provided, expected) == Admin <==> TruthyText(expected) && provided == expected
    ensures Decide(provided, expected) == Denied <==>
      TruthyText(expected) && (provided.None? || provided.value == "" || provided.value != expected.value)
  {
  }

  /** `canActivate`: returns `true` or throws, never `false`; only an admin
      request gets `user` set. */
  method CanActivate(req: Request, expected: Option<string>) returns (r: Result<bool>)
    modifies req
    ensures r.Ok? ==> r.value
    ensures Decide(old(req.ProvidedKey()), expected) == Open ==> r == Ok(true) && req.user == old(req.user)
    ensures Decide(old(req.ProvidedKey()), expected) == Admin ==> r == Ok(true) && req.user == Some(User("admin"))
    ensures Decide(old(req.ProvidedKey()), expected) == Denied ==> r == Err(InvalidApiKey) && req.user == old(req.user)
  {
    var provided := req.ProvidedKey();
    if !TruthyText(expected) {
      return Ok(true);
    }
    if TruthyText(provided) && provided.value == expected.value {
      req.user := Some(User("admin"));
      return Ok(true);
    }
    return Err(InvalidApiKey);
  }
}
