/** The redirect registry: the lower-cased user names that may enter the
    world. Entering consumes one entry under the server lock, leaving
    removes any pending one. The registry is a multiset so that it covers
    a list as well as a set: `Contains` then `Remove` takes away one
    occurrence. */
module Redirects {
  import opened Text

  datatype Consumed = Consumed(admitted: bool, registry: multiset<string>)

  /** One enter-world attempt, as one atomic step. */
  function Consume(registry: multiset<string>, username: string): (r: Consumed)
    ensures r.admitted <==> ToLower(username) in registry
    ensures r.admitted ==> r.registry[ToLower(username)] == registry[ToLower(username)] - 1
    ensures !r.admitted ==> r.registry == registry
    ensures forall k :: k != ToLower(username) ==> r.registry[k] == registry[k]
  {
    var key := ToLower(username);
    if key in registry then Consumed(true, registry - multiset{key}) else Consumed(false, registry)
  }

  /** How many of `attempts`, replayed in order, are admitted under `key`. */
  function Admissions(registry: multiset<string>, attempts: seq<string>, key: string): nat
    decreases |attempts|
  {
    if attempts == [] then 0
    else
      var c := Consume(registry, attempts[0]);
      (if c.admitted && ToLower(attempts[0]) == key then 1 else 0) + Admissions(c.registry, attempts[1..], key)
  }

  /** Whatever the interleaving of attempts, a key is admitted no more
      often than it was issued: once for a single pending redirect, never
      for a name with none. */
  lemma {:induction false} AtMostOnce(registry: multiset<string>, attempts: seq<string>, key: string)
    ensures Admissions(registry, attempts, key) <= registry[key]
    decreases |attempts|
  {
    if attempts != [] {
      var c := Consume(registry, attempts[0]);
      AtMostOnce(c.registry, attempts[1..], key);
    }
  }

  /** With one pending redirect, a second attempt under the same name (in
      any letter case) is rejected. */
  lemma SecondAttemptRejected(registry: multiset<string>, first: string, second: string)
    requires registry[ToLower(first)] <= 1
    requires EqualsIgnoreCase(first, second)
    ensures !Consume(Consume(registry, first).registry, second).admitted
  {
    IgnoreCaseSameKey(first, second);
  }

  /** The redirect `ExitGame` sends back to the login server. */
  datatype Redirect = Redirect(serial: string, salt: string, seed: string, name: string, kind: string)

  /** `ServerContext.Redirects`. */
  class RedirectRegistry {
    var redirects: multiset<string>

    constructor (pending: multiset<string>)
      ensures redirects == pending
    {
      redirects := pending;
    }

    /** `ValidateClient`: admit and consume, or reject (the caller then
        disconnects the client). */
    method ValidateClient(username: string) returns (admitted: bool)
      modifies this
      ensures admitted <==> ToLower(username) in old(redirects)
      ensures redirects == Consume(old(redirects), username).registry
    {
      var key := ToLower(username);
      if key !in redirects {
        admitted := false;
      } else {
        redirects := redirects - multiset{key};
        admitted := true;
      }
    }

    /** `ExitGame`: drops one pending redirect for the name and builds the
        type "2" redirect (serial and seed as decimal text, the salt as
        already-decoded text). */
    method ExitGame(serial: int, salt: string, seed: int, username: string) returns (r: Redirect)
      modifies this
      ensures redirects == old(redirects) - multiset{ToLower(username)}
      ensures r.kind == "2" && r.name == username && r.salt == salt
      ensures r.serial == Decimal(serial) && r.seed == Decimal(seed)
    {
      r := Redirect(Decimal(serial), salt, Decimal(seed), username, "2");
      var key := ToLower(username);
      if key in redirects {
        redirects := redirects - multiset{key};
      }
    }
  }
}
