/** Shared vocabulary of the model: optional values, results, the error kinds the
    services raise, JavaScript truthiness of optional request fields, and the few
    string predicates the services rely on. */
module Common {

  datatype Option<+T> = None | Some(value: T) {
    /** `x ?? default` for an optional field. */
    function GetOr(default: T): T {
      if Some? then value else default
    }
  }

  /** An error as the services see it. Every kind carries the `message` that the
      services copy into a failure event. */
  datatype Error =
    | BadRequest(message: string)  // a NestJS BadRequestException
    | NotFound(message: string)    // a NestJS NotFoundException
    | Rejected(message: string)    // an error raised by a store or broker client, passed on as is

  datatype Result<+T> = Ok(value: T) | Err(error: Error)

  datatype Outcome = Pass | Fail(error: Error)

  /** The outcome of request validation: the validated value, or the names of the
      properties whose constraints failed (the ValidationPipe's 400 response). */
  datatype Validation<+T> = Accepted(value: T) | Refused(properties: seq<string>)

  /** A query-string number after `@Type(() => Number)`: a finite value or NaN. */
  datatype JsNumber = Finite(value: real) | NaN

  /** `Number.isInteger`, the test behind `@IsInt()`. */
  predicate IsInteger(n: JsNumber) {
    n.Finite? && n.value.Floor as real == n.value
  }

  /** JavaScript truthiness of an optional string: defined and not "". */
  predicate Truthy(s: Option<string>) {
    s.Some? && s.value != ""
  }

  /** JavaScript truthiness of an optional integer: defined and not 0. */
  predicate TruthyNumber(n: Option<int>) {
    n.Some? && n.value != 0
  }

  /** `s || ''` */
  function OrEmpty(s: Option<string>): (r: string)
    ensures Truthy(s) ==> r == s.value
    ensures !Truthy(s) ==> r == ""
  {
    if s.Some? then s.value else ""
  }

  predicate HasPrefix(s: string, prefix: string) {
    |prefix| <= |s| && s[..|prefix|] == prefix
  }

  /** `s.includes(sub)` */
  predicate Contains(s: string, sub: string)
    decreases |s|
  {
    HasPrefix(s, sub) || (|s| > 0 && Contains(s[1..], sub))
  }

  /** A prefixed key never has another prefix that disagrees with it at the first
      position where both are defined. */
  lemma PrefixesDisagree(prefix1: string, prefix2: string, k: int, a: string, b: string)
    requires 0 <= k < |prefix1| && k < |prefix2| && prefix1[k] != prefix2[k]
    ensures prefix1 + a != prefix2 + b
  {
    assert (prefix1 + a)[k] == prefix1[k];
    assert (prefix2 + b)[k] == prefix2[k];
  }

  /** Concatenation with a fixed prefix is injective. */
  lemma PrefixCancels(prefix: string, a: string, b: string)
    requires prefix + a == prefix + b
    ensures a == b
  {
    assert a == (prefix + a)[|prefix|..];
    assert b == (prefix + b)[|prefix|..];
  }

  /** A string contains any suffix of itself. */
  lemma {:induction false} ContainsSuffix(p: string, sub: string)
    ensures Contains(p + sub, sub)
    decreases |p|
  {
    if p == [] {
      assert p + sub == sub;
      assert HasPrefix(sub, sub);
    } else {
      ContainsSuffix(p[1..], sub);
      assert (p + sub)[1..] == p[1..] + sub;
    }
  }

  lemma PrefixedHasPrefix(prefix: string, a: string)
    ensures HasPrefix(prefix + a, prefix)
  {
    assert (prefix + a)[..|prefix|] == prefix;
  }
}
