/**
  The Python client's view of one call: how a response becomes a result or an error
  class, and the bounded retry loop around every request.
*/
module Client {

  datatype Failure = Network | Server | RateLimit(after: real) | Auth | Validation | Conflict | Other

  datatype Call = Success(replayed: bool) | Failed(why: Failure)

  /** A response as `_handle` looks at it. */
  datatype Response = Response(status: int, title: string, empty: bool, jsonOk: bool, replayHeader: bool, retryAfter: real)

  function Handle(r: Response): (c: Call)
    ensures c.Success? ==> r.status < 300
    ensures r.status < 300 ==> c.Success? || c == Failed(Server)
    ensures c != Failed(Network)
    ensures c.Success? ==> (c.replayed <==> r.replayHeader && !r.empty)
    // what is worth another try, and what is not
    ensures Transient(c) <==> r.status == 429 || r.status >= 500 || (r.status < 300 && !r.empty && !r.jsonOk)
    ensures c == Failed(Auth) <==> r.status == 401 || r.status == 403
    ensures c == Failed(Validation) <==> r.status == 400
    ensures c == Failed(Conflict) <==> r.status == 409 && r.title == "idempotency_conflict"
    ensures c == Failed(RateLimit(r.retryAfter)) <==> r.status == 429
    ensures c.Failed? && c.why.RateLimit? ==> r.status == 429
  {
    if r.status < 300 then
      if r.empty then Success(false)
      else if !r.jsonOk then Failed(Server)
      else Success(r.replayHeader)
    else if r.status == 401 || r.status == 403 then Failed(Auth)
    else if r.status == 400 then Failed(Validation)
    else if r.status == 409 && r.title == "idempotency_conflict" then Failed(Conflict)
    else if r.status == 429 then Failed(RateLimit(r.retryAfter))
    else if r.status >= 500 then Failed(Server)
    else Failed(Other)
  }

  const MAX_TRIES: nat := 5

  predicate Transient(c: Call) {
    c.Failed? && (c.why.Network? || c.why.Server? || c.why.RateLimit?)
  }

  /** `r` is the outcome of try number `n`: the first that is not transient, or the last allowed. */
  ghost predicate Settles(fn: nat -> Call, max: nat, n: nat, r: Call) {
    && n < max && r == fn(n)
    && (forall i | 0 <= i < n :: Transient(fn(i)))
    && (Transient(r) ==> n == max - 1)
  }

  /** `fn(i)` is how the i-th try goes. `tries` counts the calls made. */
  method WithRetry(fn: nat -> Call, max: nat) returns (r: Call, tries: nat)
    requires max > 0
    ensures 1 <= tries <= max && Settles(fn, max, tries - 1, r)
  {
    r := Failed(Network);
    tries := 0;
    while tries < max
      invariant tries <= max
      invariant forall i | 0 <= i < tries :: Transient(fn(i))
      invariant tries > 0 ==> r == fn(tries - 1)
    {
      r := fn(tries);
      tries := tries + 1;
      if !Transient(r) {
        return;
      }
    }
  }

  /** The outcome of the retry loop is unique. */
  lemma SettlesOnce(fn: nat -> Call, max: nat, n: nat, r: Call, n': nat, r': Call)
    requires Settles(fn, max, n, r) && Settles(fn, max, n', r')
    ensures n == n' && r == r'
  {
  }
}
