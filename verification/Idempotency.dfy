/** The idempotency middleware: keyed writes answered from a cache instead of being run again. */
module Idempotency {
  import opened Common

  type Body = seq<int>

  /** A request as the middleware reads it. */
  datatype Request = Request(verb: string, path: string, key: Option<string>, body: Body)

  datatype Response = Response(status: int, body: Body)

  /** A cached answer. */
  datatype Entry = Entry(fingerprint: int, status: int, body: Body)

  /** The application behind the middleware: its state and any deterministic handler over it. A handler
      may fail with an exception (None) after changing state. `fingerprint` digests method, path and
      body. */
  datatype App<!S> = App(handle: (S, Request) -> (S, Option<Response>), fingerprint: (string, string, Body) -> int,
                         keyInvalid: Body, keyReused: Body)

  // ---- which requests are keyed ----

  predicate IsDigit(c: char) {
    '0' <= c <= '9'
  }

  predicate IsHex(c: char) {
    IsDigit(c) || 'a' <= c <= 'f' || 'A' <= c <= 'F'
  }

  /** 8-4-4-4-12 hexadecimal digits. */
  predicate IsUuid(key: string) {
    |key| == 36 && forall i :: 0 <= i < 36 ==>
      if i == 8 || i == 13 || i == 18 || i == 23 then key[i] == '-' else IsHex(key[i])
  }

  function DigitRun(path: string, from: nat): (n: nat)
    requires from <= |path|
    ensures from <= n <= |path|
    decreases |path| - from
  {
    if from < |path| && IsDigit(path[from]) then DigitRun(path, from + 1) else from
  }

  /** A path under /v<digits>/. */
  predicate IsVersioned(path: string) {
    |path| >= 2 && path[0] == '/' && path[1] == 'v'
    && var n := DigitRun(path, 2); n > 2 && n < |path| && path[n] == '/'
  }

  /** Writes to versioned paths that carry a non-empty key header. */
  predicate IsKeyed(r: Request) {
    && r.verb in {"POST", "PATCH", "DELETE", "PUT"} && IsVersioned(r.path)
    && r.key.Some? && r.key.value != ""
  }

  predicate IsKeyedWell(r: Request) {
    IsKeyed(r) && IsUuid(r.key.value)
  }

  // ---- the middleware ----

  datatype State<S> = State(app: S, keys: map<string, Entry>)

  predicate Cacheable(r: Option<Response>) {
    r.Some? && 200 <= r.value.status < 500
  }

  function Digest<S>(app: App<S>, r: Request): int {
    app.fingerprint(r.verb, r.path, r.body)
  }

  /** The request finds its key in the table. */
  predicate Hits<S>(s: State<S>, r: Request) {
    IsKeyedWell(r) && r.key.value in s.keys
  }

  /** The answer to a hit: the cached one, or 422 for a different request. */
  function Replayed<S>(app: App<S>, e: Entry, r: Request): Response {
    if e.fingerprint != Digest(app, r) then Response(422, app.keyReused) else Response(e.status, e.body)
  }

  function Dispatch<S>(app: App<S>, s: State<S>, r: Request): (State<S>, Option<Response>) {
    if !IsKeyed(r) then
      var (s', answer) := app.handle(s.app, r);
      (s.(app := s'), answer)
    else if !IsUuid(r.key.value) then (s, Some(Response(422, app.keyInvalid)))
    else if r.key.value in s.keys then (s, Some(Replayed(app, s.keys[r.key.value], r)))
    else
      var (s', answer) := app.handle(s.app, r);
      (State(s', if Cacheable(answer)
                 then s.keys[r.key.value := Entry(Digest(app, r), answer.value.status, answer.value.body)]
                 else s.keys),
       answer)
  }

  class Middleware<S> {
    const app: App<S>
    var state: S
    var keys: map<string, Entry>

    constructor (app: App<S>, state: S)
      ensures this.app == app && Now() == State(state, map[])
    {
      this.app, this.state, this.keys := app, state, map[];
    }

    function Now(): State<S>
      reads this
    {
      State(state, keys)
    }

    method HandleRequest(r: Request) returns (answer: Option<Response>)
      modifies this
      ensures (Now(), answer) == Dispatch(app, old(Now()), r)
    {
      if r.verb !in {"POST", "PATCH", "DELETE", "PUT"} || !IsVersioned(r.path) || r.key.None? || r.key.value == "" {
        var (state', response) := app.handle(state, r);
        state, answer := state', response;
        return;
      }
      var key := r.key.value;
      if !IsUuid(key) {
        return Some(Response(422, app.keyInvalid));
      }
      var fingerprint := app.fingerprint(r.verb, r.path, r.body);
      if key in keys {
        var existing := keys[key];
        if existing.fingerprint != fingerprint {
          return Some(Response(422, app.keyReused));
        }
        return Some(Response(existing.status, existing.body));
      }
      var (state', response) := app.handle(state, r);
      state, answer := state', response;
      if answer.Some? && 200 <= answer.value.status < 500 {
        keys := keys[key := Entry(fingerprint, answer.value.status, answer.value.body)];
      }
    }
  }

  // ---- runs ----

  /** The state after a sequence of requests. */
  function After<S>(app: App<S>, s: State<S>, requests: seq<Request>): State<S> {
    if |requests| == 0 then s else Dispatch(app, After(app, s, Init(requests)), Last(requests)).0
  }

  /** Their answers, in order. */
  function Answers<S>(app: App<S>, s: State<S>, requests: seq<Request>): seq<Option<Response>> {
    if |requests| == 0 then []
    else Answers(app, s, Init(requests)) + [Dispatch(app, After(app, s, Init(requests)), Last(requests)).1]
  }

  /** The requests left when every one that finds its key cached is deleted. */
  function WithoutHits<S>(app: App<S>, s: State<S>, requests: seq<Request>): seq<Request> {
    if |requests| == 0 then []
    else if Hits(After(app, s, Init(requests)), Last(requests)) then WithoutHits(app, s, Init(requests))
    else WithoutHits(app, s, Init(requests)) + [Last(requests)]
  }

  /** The answers of the requests that are left. */
  function KeptAnswers<S>(app: App<S>, s: State<S>, requests: seq<Request>): seq<Option<Response>> {
    if |requests| == 0 then []
    else
      var before := After(app, s, Init(requests));
      if Hits(before, Last(requests)) then KeptAnswers(app, s, Init(requests))
      else KeptAnswers(app, s, Init(requests)) + [Dispatch(app, before, Last(requests)).1]
  }

  /** Retries cost nothing: deleting every request that hits the cache leaves the application state, the
      key table and every other answer unchanged, for any handler. */
  lemma {:induction false} RetriesEliminated<S>(app: App<S>, s: State<S>, requests: seq<Request>)
    ensures After(app, s, WithoutHits(app, s, requests)) == After(app, s, requests)
    ensures Answers(app, s, WithoutHits(app, s, requests)) == KeptAnswers(app, s, requests)
  {
    if |requests| > 0 {
      RetriesEliminated(app, s, Init(requests));
      var kept := WithoutHits(app, s, Init(requests));
      assert Init(kept + [Last(requests)]) == kept;
    }
  }

  /** A cached answer is never changed or removed. */
  lemma {:induction false} EntriesStay<S>(app: App<S>, s: State<S>, requests: seq<Request>, key: string)
    requires key in s.keys
    ensures Get(After(app, s, requests).keys, key) == Some(s.keys[key])
  {
    if |requests| > 0 {
      EntriesStay(app, s, Init(requests), key);
    }
  }

  lemma {:induction false} AfterAppend<S>(app: App<S>, s: State<S>, a: seq<Request>, b: seq<Request>)
    ensures After(app, s, a + b) == After(app, After(app, s, a), b)
  {
    if |b| == 0 {
      assert a + b == a;
    } else {
      assert Init(a + b) == a + Init(b);
      AfterAppend(app, s, a, Init(b));
    }
  }

  // ---- which requests are keyed, character by character ----

  predicate AllHex(s: string) {
    forall i :: 0 <= i < |s| ==> '0' <= s[i] <= '9' || 'a' <= s[i] <= 'f' || 'A' <= s[i] <= 'F'
  }

  /** A key is a UUID exactly if it is 8, 4, 4, 4 and 12 hexadecimal digits with hyphens between. */
  lemma UuidIff(key: string)
    ensures IsUuid(key) <==>
      && |key| == 36 && key[8] == '-' && key[13] == '-' && key[18] == '-' && key[23] == '-'
      && AllHex(key[..8]) && AllHex(key[9..13]) && AllHex(key[14..18]) && AllHex(key[19..23]) && AllHex(key[24..])
  {
    if |key| == 36 && AllHex(key[..8]) && AllHex(key[9..13]) && AllHex(key[14..18]) && AllHex(key[19..23])
       && AllHex(key[24..]) {
      forall i | 0 <= i < 36 ensures i != 8 && i != 13 && i != 18 && i != 23 ==> IsHex(key[i]) {
        HexAt(key, i);
      }
    }
    if IsUuid(key) {
      forall from, to | 0 <= from <= to <= 36 ensures NoHyphen(from, to) ==> AllHex(key[from..to]) {
        SliceHex(key, from, to);
      }
    }
  }

  predicate NoHyphen(from: int, to: int) {
    && (to <= 8 || 8 < from) && (to <= 13 || 13 < from) && (to <= 18 || 18 < from) && (to <= 23 || 23 < from)
  }

  lemma SliceHex(key: string, from: nat, to: nat)
    requires IsUuid(key) && from <= to <= 36
    ensures NoHyphen(from, to) ==> AllHex(key[from..to])
  {
    if NoHyphen(from, to) {
      forall i | 0 <= i < to - from ensures IsHex(key[from..to][i]) {
        var at := from + i;
        assert at != 8 && at != 13 && at != 18 && at != 23;
        assert key[from..to][i] == key[at] && IsHex(key[at]);
      }
    }
  }

  lemma HexAt(key: string, i: nat)
    requires |key| == 36 && i < 36 && AllHex(key[..8]) && AllHex(key[9..13]) && AllHex(key[14..18])
    requires AllHex(key[19..23]) && AllHex(key[24..])
    ensures i != 8 && i != 13 && i != 18 && i != 23 ==> IsHex(key[i])
  {
    if i < 8 {
      assert key[..8][i] == key[i];
    } else if 8 < i < 13 {
      assert key[9..13][i - 9] == key[i];
    } else if 13 < i < 18 {
      assert key[14..18][i - 14] == key[i];
    } else if 18 < i < 23 {
      assert key[19..23][i - 19] == key[i];
    } else if 23 < i {
      assert key[24..][i - 24] == key[i];
    }
  }

  lemma {:induction false} DigitRunIs(path: string, from: nat, n: nat)
    requires from <= n <= |path| && (forall i :: from <= i < n ==> '0' <= path[i] <= '9')
    requires n < |path| ==> !('0' <= path[n] <= '9')
    ensures DigitRun(path, from) == n
    decreases n - from
  {
    if from < n {
      DigitRunIs(path, from + 1, n);
    }
  }

  lemma {:induction false} DigitRunDigits(path: string, from: nat)
    requires from <= |path|
    ensures forall i :: from <= i < DigitRun(path, from) ==> '0' <= path[i] <= '9'
    decreases |path| - from
  {
    if from < |path| && IsDigit(path[from]) {
      DigitRunDigits(path, from + 1);
    }
  }

  /** "/v", the digits up to n, and "/". */
  predicate VersionAt(path: string, n: int) {
    2 < n < |path| && path[..2] == "/v" && path[n] == '/' && forall i :: 2 <= i < n ==> '0' <= path[i] <= '9'
  }

  /** A path is versioned exactly if it begins with "/v", one or more digits and "/". */
  lemma VersionedIff(path: string)
    ensures IsVersioned(path) <==> exists n :: VersionAt(path, n)
  {
    if IsVersioned(path) {
      DigitRunDigits(path, 2);
      assert path[..2] == "/v";
      assert VersionAt(path, DigitRun(path, 2));
    }
    if n :| VersionAt(path, n) {
      assert path[0] == path[..2][0] && path[1] == path[..2][1];
      DigitRunIs(path, 2, n);
    }
  }

  /** A request is keyed exactly if it is one of the four write methods on a versioned path with a key. */
  lemma KeyedIff(r: Request)
    ensures IsKeyed(r) <==>
      && (r.verb == "POST" || r.verb == "PATCH" || r.verb == "DELETE" || r.verb == "PUT")
      && IsVersioned(r.path) && r.key.Some? && |r.key.value| > 0
  {
  }

  /** A key that is no UUID is answered with 422 and runs nothing; a request without a key is the handler's. */
  lemma OtherRequests<S>(app: App<S>, s: State<S>, r: Request)
    ensures IsKeyed(r) && !IsUuid(r.key.value) ==> Dispatch(app, s, r) == (s, Some(Response(422, app.keyInvalid)))
    ensures !IsKeyed(r) ==>
      var (s', answer) := app.handle(s.app, r); Dispatch(app, s, r) == (State(s', s.keys), answer)
  {
  }

  // ---- which answers are kept ----

  /** A keyed request whose key is not in the table is run, and its key is stored exactly if the handler answered with
      a status of at least 200 and below 500: then with that status and body and the fingerprint of its method, path
      and body. */
  lemma KeptIff<S>(app: App<S>, s: State<S>, r: Request)
    requires IsKeyedWell(r) && r.key.value !in s.keys
    ensures var (s', answer) := app.handle(s.app, r);
      && Dispatch(app, s, r).1 == answer && Dispatch(app, s, r).0.app == s'
      && (r.key.value in Dispatch(app, s, r).0.keys <==> answer.Some? && 200 <= answer.value.status < 500)
      && Dispatch(app, s, r).0.keys
         == if answer.Some? && 200 <= answer.value.status < 500
            then s.keys[r.key.value := Entry(app.fingerprint(r.verb, r.path, r.body), answer.value.status,
                                             answer.value.body)]
            else s.keys
  {
  }

  /** A retry gets the first answer: once a keyed request has been answered with a status from 200 to 499, every later
      request with its key gets that status and body if it has the same fingerprint, and 422 if not, whatever
      happened in between. */
  lemma RetryGetsFirstAnswer<S>(app: App<S>, s: State<S>, first: Request, between: seq<Request>, retry: Request)
    requires IsKeyedWell(first) && IsKeyedWell(retry) && retry.key == first.key && first.key.value !in s.keys
    requires Dispatch(app, s, first).1.Some? && 200 <= Dispatch(app, s, first).1.value.status < 500
    ensures var answer := Dispatch(app, s, first).1.value;
      var s' := After(app, s, [first] + between);
      && Hits(s', retry)
      && Dispatch(app, s', retry)
         == (s', Some(if app.fingerprint(retry.verb, retry.path, retry.body)
                         == app.fingerprint(first.verb, first.path, first.body)
                      then Response(answer.status, answer.body) else Response(422, app.keyReused)))
  {
    AfterAppend(app, s, [first], between);
    assert Init([first]) == [];
    EntriesStay(app, After(app, s, [first]), between, first.key.value);
  }

  /** A failed attempt, an exception or a status outside 200 to 499, is not cached: the next request with the key
      runs. */
  lemma FailedAttemptRunsAgain<S>(app: App<S>, s: State<S>, first: Request, retry: Request)
    requires IsKeyedWell(first) && IsKeyedWell(retry) && retry.key == first.key && first.key.value !in s.keys
    requires var answer := Dispatch(app, s, first).1;
      answer.None? || answer.value.status < 200 || answer.value.status >= 500
    ensures var s' := Dispatch(app, s, first).0;
      && s'.keys == s.keys
      && Dispatch(app, s', retry).1 == app.handle(s'.app, retry).1
      && Dispatch(app, s', retry).0.app == app.handle(s'.app, retry).0
  {
  }

  /** An answer of status 200 to 499. */
  predicate IsFinal(answer: Option<Response>) {
    answer.Some? && answer.value.status >= 200 && answer.value.status < 500
  }

  /** How often a run handed a request with this key to the handler and got a final answer. */
  function Executions<S>(app: App<S>, s: State<S>, requests: seq<Request>, key: string): nat {
    if |requests| == 0 then 0
    else
      var before, r := After(app, s, Init(requests)), Last(requests);
      Executions(app, s, Init(requests), key)
        + if IsKeyedWell(r) && r.key.value == key && !Hits(before, r) && IsFinal(app.handle(before.app, r).1)
          then 1 else 0
  }

  /** At most one request per key takes effect with a final answer, and a key not cached at the start is
      cached at the end exactly if one did; so after failed attempts alone the next one runs again. */
  lemma {:induction false} AtMostOneExecution<S>(app: App<S>, s: State<S>, requests: seq<Request>, key: string)
    ensures Executions(app, s, requests, key) <= 1
    ensures key in s.keys ==> Executions(app, s, requests, key) == 0
    ensures key in After(app, s, requests).keys <==> key in s.keys || Executions(app, s, requests, key) == 1
  {
    if |requests| > 0 {
      AtMostOneExecution(app, s, Init(requests), key);
    }
  }
}
