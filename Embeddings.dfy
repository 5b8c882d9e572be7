/** The embedding client of `backend/services/embeddings.py`: at most
    `retries` POSTs to the feature-extraction endpoint; server errors and
    exceptions are retried, other failures give the empty vector at once,
    and a batch-wrapped result is unwrapped. The HTTP exchange of each
    attempt is an oracle. */
module Embeddings {
  import opened Common
  import opened JsonValue

  const DefaultRetries: int := 3

  /** What one `requests.post` attempt produced. */
  datatype HttpOutcome =
      /** `requests.post` raised (timeout, connection error, ...) */
    | PostRaised
      /** a response; `body` is `response.json()`, None when decoding raises */
    | Response(status: int, body: Option<Json>)

  /** The oracle: the outcome of attempt number `attempt` for a given input. */
  type Http = (Json, nat) -> HttpOutcome

  /** What the loop body decides about one attempt: try again, or return. */
  datatype Verdict = Retry | Return(vector: seq<Json>)

  /** One pass of the loop body. A non-200 status of 500 or more and any
      exception are retried; another non-200 status returns [] at once.
      A 200 list whose first element is a list returns that element; any
      other 200 list (including []) is returned as is; a 200 non-list
      returns []. */
  function Classify(o: HttpOutcome): (r: Verdict)
    ensures r.Retry? <==>
      o.PostRaised? || (o.Response? && (if o.status != 200 then o.status >= 500 else o.body.None?))
    ensures o.Response? && o.status != 200 && o.status < 500 ==> r == Return([])
    ensures o.Response? && o.status == 200 && o.body.Some? && !o.body.value.JArr? ==> r == Return([])
    ensures r.Return? && r.vector != [] ==> o.Response? && o.status == 200 && o.body.Some? && o.body.value.JArr?
  {
    match o
    case PostRaised => Retry
    case Response(status, body) =>
      if status != 200 then
        (if status >= 500 then Retry else Return([]))
      else
        match body
        case None => Retry
        case Some(JArr(xs)) =>
          if |xs| > 0 && xs[0].JArr? then Return(xs[0].items) else Return(xs)
        case Some(_) => Return([])
  }

  /** The attempts from number `k` on: the vector returned and the number of
      attempts made in all. */
  function AttemptsFrom(input: Json, retries: int, http: Http, k: nat): (r: (seq<Json>, nat))
    ensures k <= r.1 <= Max(retries, k)
    decreases retries - k
  {
    if k >= retries then ([], k)
    else
      match Classify(http(input, k))
      case Retry => AttemptsFrom(input, retries, http, k + 1)
      case Return(v) => (v, k + 1)
  }

  /** The attempts stop at the first one that returns, or after the last
      allowed one: every attempt before the last was retried, an early stop
      was a return with that vector, and running out gives the empty vector. */
  lemma {:induction false} AttemptsFromStops(input: Json, retries: int, http: Http, k: nat)
    ensures var r := AttemptsFrom(input, retries, http, k);
      (forall j :: k <= j < r.1 - 1 ==> Classify(http(input, j)).Retry?)
      && (r.1 < retries ==> k < r.1 && Classify(http(input, r.1 - 1)).Return?)
      && (r.1 > k && Classify(http(input, r.1 - 1)).Return? ==> r.0 == Classify(http(input, r.1 - 1)).vector)
      && (r.1 == k || Classify(http(input, r.1 - 1)).Retry? ==> r.0 == [])
    decreases retries - k
  {
    if k < retries && Classify(http(input, k)).Retry? {
      AttemptsFromStops(input, retries, http, k + 1);
    }
  }

  /** The result of `generate_embedding(input, retries)` and how many HTTP
      attempts it made. */
  function Embedding(input: Json, retries: int, http: Http): (seq<Json>, nat) {
    AttemptsFrom(input, retries, http, 0)
  }

  /** `generate_embedding`: the retry loop. */
  method GenerateEmbedding(input: Json, retries: int, http: Http) returns (vector: seq<Json>, attempts: nat)
    ensures (vector, attempts) == Embedding(input, retries, http)
  {
    var attempt := 0;
    while attempt < retries
      invariant 0 <= attempt <= Max(retries, 0)
      invariant AttemptsFrom(input, retries, http, attempt) == Embedding(input, retries, http)
      decreases retries - attempt
    {
      var response := http(input, attempt);
      match response {
        case PostRaised =>
          // the exception handler sleeps one second and moves on
        case Response(status, body) =>
          if status != 200 {
            if status >= 500 {
              attempt := attempt + 1;
              continue;
            }
            return [], attempt + 1;
          }
          match body {
            case None =>
              // `response.json()` raised: handled like any other exception
            case Some(result) =>
              if result.JArr? {
                if |result.items| > 0 && result.items[0].JArr? {
                  return result.items[0].items, attempt + 1;
                }
                return result.items, attempt + 1;
              }
              return [], attempt + 1;
          }
      }
      attempt := attempt + 1;
    }
    return [], attempt;
  }

  /** Never more than `retries` requests; when every one of them is retried
      the result is the empty vector. */
  lemma ExhaustedRetriesGiveEmpty(input: Json, retries: int, http: Http)
    requires forall j :: 0 <= j < retries ==> Classify(http(input, j)).Retry?
    ensures Embedding(input, retries, http) == ([], Max(retries, 0))
  {
    if retries > 0 {
      RetriedPrefix(input, retries, http, 0, retries);
    }
  }

  /** Attempts that are all retried do not change the outcome. */
  lemma {:induction false} RetriedPrefix(input: Json, retries: int, http: Http, j: nat, k: nat)
    requires j <= k <= Max(retries, 0)
    requires forall i :: j <= i < k ==> Classify(http(input, i)).Retry?
    ensures AttemptsFrom(input, retries, http, j) == AttemptsFrom(input, retries, http, k)
    decreases k - j
  {
    if j < k {
      RetriedPrefix(input, retries, http, j + 1, k);
    }
  }

  /** A client error (non-200 below 500) on attempt k stops the loop there
      with the empty vector, provided every earlier attempt was retried. */
  lemma ClientErrorStops(input: Json, retries: int, http: Http, k: nat)
    requires k < retries
    requires forall j :: 0 <= j < k ==> Classify(http(input, j)).Retry?
    requires http(input, k).Response? && http(input, k).status != 200 && http(input, k).status < 500
    ensures Embedding(input, retries, http) == ([], k + 1)
  {
    RetriedPrefix(input, retries, http, 0, k);
  }

  /** A batch-wrapped 200 reply `[[v...], ...]` yields the inner vector; a
      flat list yields itself. */
  lemma ResponseShapes(v: seq<Json>, rest: seq<Json>)
    ensures Classify(Response(200, Some(JArr([JArr(v)] + rest)))) == Return(v)
    ensures (v == [] || !v[0].JArr?) ==> Classify(Response(200, Some(JArr(v)))) == Return(v)
  {
  }
}
