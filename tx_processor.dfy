/**
 * Confirmation polling: for each broadcast hash, ask the indexer up to `tries` times for the
 * transaction, stop at the first answer without an `error`, wait between attempts, and fail
 * with the last error answer when the budget runs out. All hashes must succeed.
 *
 * The indexer is an oracle: `indexer(url, i)` is the parsed JSON body answering the i-th attempt
 * (counted from 0) of the loop for the hash whose URL is `url`. Delays are counted, not slept.
 */
module TxProcessor {
  import opened Wrappers

  /** The default retry budget per hash. */
  const DefaultTries: nat := 10

  /** The pause after every unsuccessful attempt, in milliseconds. */
  const RetryDelayMs: nat := 2000

  /** The indexer endpoint queried for one hash, asking for inline execution results. */
  function TransactionUrl(api: string, hash: string): (url: string)
    ensures |url| > |api| && url[..|api|] == api
    ensures url[|api|..] == "/transaction/" + hash + "?withResults=true"
  {
    api + "/transaction/" + hash + "?withResults=true"
  }

  /** Different hashes are asked for at different URLs of one indexer. */
  lemma TransactionUrlInjective(api: string, h1: string, h2: string)
    requires TransactionUrl(api, h1) == TransactionUrl(api, h2)
    ensures h1 == h2
  {
    var prefix := |api| + |"/transaction/"|;
    var suffix := |"?withResults=true"|;
    var u1, u2 := TransactionUrl(api, h1), TransactionUrl(api, h2);
    assert u1[prefix..|u1| - suffix] == h1;
    assert u2[prefix..|u2| - suffix] == h2;
  }

  /** A parsed response body, classified by how the retry loop's two tests treat it. */
  datatype Response<P> =
    | NullBody                   // JSON null: falsy, and reading `.error` of it throws a TypeError
    | FalsyBody                  // false, 0 or "": falsy, `.error` is undefined
    | ErrorBody(error: string)   // an object whose `error` field is truthy
    | DataBody(data: P)          // an object whose `error` field is absent or falsy

  /** What a retry loop throws. */
  datatype Thrown<P> =
    | EmptyString                      // the initial value of `error`: no error answer was seen
    | LastResponse(body: Response<P>)  // the whole last error body, not its `error` field
    | NullProperty                     // the TypeError from reading `.error` of null

  datatype Outcome<P> = Resolved(data: P) | Rejected(thrown: Thrown<P>)

  /** The result of one hash's loop with the number of requests made and delays waited. */
  datatype Poll<P> = Poll(outcome: Outcome<P>, requests: nat, delays: nat)

  /** An answer after which the loop goes on: it is followed by a delay. */
  predicate Retries<P>(r: Response<P>) {
    r.FalsyBody? || r.ErrorBody?
  }

  /**
   * The loop from attempt `i` on, with `error` the value remembered so far. Every attempt
   * before the last one made was a retry and was followed by a delay; the loop either ran out
   * of budget (as many delays as requests) or stopped at a final answer (one request more).
   */
  function PollFrom<P>(url: string, indexer: (string, nat) -> Response<P>, tries: nat, i: nat,
                       error: Thrown<P>): (p: Poll<P>)
    requires i <= tries
    ensures i <= p.requests <= tries
    ensures forall j :: i <= j < p.delays ==> Retries(indexer(url, j))
    ensures p.delays == p.requests ==> p.requests == tries
    ensures p.delays != p.requests ==>
      p.delays + 1 == p.requests && !Retries(indexer(url, p.delays))
      && p.outcome == (if indexer(url, p.delays).DataBody?
                       then Resolved(indexer(url, p.delays).data) else Rejected(NullProperty))
    decreases tries - i
  {
    if i == tries then Poll(Rejected(error), i, i)
    else
      match indexer(url, i)
      case DataBody(d) => Poll(Resolved(d), i + 1, i)
      case NullBody => Poll(Rejected(NullProperty), i + 1, i)
      case ErrorBody(_) => PollFrom(url, indexer, tries, i + 1, LastResponse(indexer(url, i)))
      case FalsyBody => PollFrom(url, indexer, tries, i + 1, error)
  }

  /** One hash's loop from its first attempt. */
  function Polled<P>(url: string, indexer: (string, nat) -> Response<P>, tries: nat): Poll<P> {
    PollFrom(url, indexer, tries, 0, EmptyString)
  }

  /** One hash's retry loop, as the source runs it. */
  method PollTransaction<P>(url: string, indexer: (string, nat) -> Response<P>, tries: nat := DefaultTries)
    returns (outcome: Outcome<P>, requests: nat, delays: nat, waitedMs: nat)
    ensures Poll(outcome, requests, delays) == Polled(url, indexer, tries)
    ensures waitedMs == delays * RetryDelayMs
  {
    var error: Thrown<P> := EmptyString;
    requests, delays, waitedMs := 0, 0, 0;
    for i := 0 to tries
      invariant requests == i && delays == i && waitedMs == delays * RetryDelayMs
      invariant PollFrom(url, indexer, tries, i, error) == Polled(url, indexer, tries)
    {
      var data := indexer(url, i);
      requests := requests + 1;
      if data.DataBody? {
        outcome := Resolved(data.data);
        return;
      } else if data.NullBody? {
        outcome := Rejected(NullProperty);
        return;
      } else if data.ErrorBody? {
        error := LastResponse(data);
      }
      delays := delays + 1;
      waitedMs := waitedMs + RetryDelayMs;
    }
    outcome := Rejected(error);
  }

  /** If attempt k is the first final answer and carries data, that data wins after k + 1 requests. */
  lemma FirstResolved<P>(url: string, indexer: (string, nat) -> Response<P>, tries: nat, k: nat)
    requires k < tries && indexer(url, k).DataBody?
    requires forall j :: 0 <= j < k ==> Retries(indexer(url, j))
    ensures Polled(url, indexer, tries) == Poll(Resolved(indexer(url, k).data), k + 1, k)
  {
  }

  lemma {:induction false} ExhaustedFrom<P>(url: string, indexer: (string, nat) -> Response<P>,
                                            tries: nat, i: nat, error: Thrown<P>, m: nat)
    requires i <= tries
    requires m < tries && indexer(url, m).ErrorBody?
    requires forall j :: i <= j < tries ==> Retries(indexer(url, j))
    requires forall j :: m < j < tries ==> indexer(url, j).FalsyBody?
    requires m < i ==> error == LastResponse(indexer(url, m))
    ensures PollFrom(url, indexer, tries, i, error) ==
      Poll(Rejected(LastResponse(indexer(url, m))), tries, tries)
    decreases tries - i
  {
    if i < tries {
      var next := if indexer(url, i).ErrorBody? then LastResponse(indexer(url, i)) else error;
      ExhaustedFrom(url, indexer, tries, i + 1, next, m);
    }
  }

  /**
   * When no attempt ends the loop, `tries` requests and `tries` delays are made and the last
   * error body (attempt m) is thrown whole.
   */
  lemma ExhaustedThrowsLastError<P>(url: string, indexer: (string, nat) -> Response<P>, tries: nat, m: nat)
    requires m < tries && indexer(url, m).ErrorBody?
    requires forall j :: 0 <= j < tries ==> Retries(indexer(url, j))
    requires forall j :: m < j < tries ==> indexer(url, j).FalsyBody?
    ensures Polled(url, indexer, tries) == Poll(Rejected(LastResponse(indexer(url, m))), tries, tries)
  {
    ExhaustedFrom(url, indexer, tries, 0, EmptyString, m);
  }

  lemma {:induction false} NoErrorSeenFrom<P>(url: string, indexer: (string, nat) -> Response<P>,
                                              tries: nat, i: nat)
    requires i <= tries
    requires forall j :: i <= j < tries ==> indexer(url, j).FalsyBody?
    ensures PollFrom(url, indexer, tries, i, EmptyString) == Poll(Rejected(EmptyString), tries, tries)
    decreases tries - i
  {
    if i < tries {
      NoErrorSeenFrom(url, indexer, tries, i + 1);
    }
  }

  /** With only falsy answers, or no budget at all, the empty string "" is thrown. */
  lemma NoErrorSeenThrowsEmptyString<P>(url: string, indexer: (string, nat) -> Response<P>, tries: nat)
    requires forall j :: 0 <= j < tries ==> indexer(url, j).FalsyBody?
    ensures Polled(url, indexer, tries) == Poll(Rejected(EmptyString), tries, tries)
  {
    NoErrorSeenFrom(url, indexer, tries, 0);
  }

  /** With `tries = 0` no request is made and "" is thrown. */
  lemma ZeroTries<P>(url: string, indexer: (string, nat) -> Response<P>)
    ensures Polled(url, indexer, 0) == Poll(Rejected(EmptyString), 0, 0)
  {
  }

  /**
   * The `Promise.all` join of the per-hash outcomes: the data in hash order when every hash
   * resolved, otherwise the first rejection in hash order.
   */
  function JoinAll<P>(outcomes: seq<Outcome<P>>): (r: Result<seq<P>, Thrown<P>>)
    ensures r.Ok? <==> forall i :: 0 <= i < |outcomes| ==> outcomes[i].Resolved?
    ensures r.Ok? ==> |r.value| == |outcomes|
                      && forall i :: 0 <= i < |outcomes| ==> r.value[i] == outcomes[i].data
    ensures r.Err? ==> exists i :: 0 <= i < |outcomes| && outcomes[i] == Rejected(r.error)
                                   && forall j :: 0 <= j < i ==> outcomes[j].Resolved?
  {
    if outcomes == [] then Ok([])
    else
      match outcomes[0]
      case Rejected(t) => Err(t)
      case Resolved(d) =>
        var rest := JoinAll(outcomes[1..]);
        assert forall i :: 0 < i < |outcomes| ==> outcomes[i] == outcomes[1..][i - 1];
        if rest.Ok? then Ok([d] + rest.value) else Err(rest.error)
  }

  /** The outcome of every hash's loop, in hash order. */
  function Outcomes<P>(api: string, hashes: seq<string>, indexer: (string, nat) -> Response<P>,
                       tries: nat): (os: seq<Outcome<P>>)
    ensures |os| == |hashes|
    ensures forall i :: 0 <= i < |hashes| ==>
      os[i] == Polled(TransactionUrl(api, hashes[i]), indexer, tries).outcome
  {
    seq(|hashes|, i requires 0 <= i < |hashes| =>
      Polled(TransactionUrl(api, hashes[i]), indexer, tries).outcome)
  }

  /** What `transactionsProcessed` resolves or rejects with. */
  function Processed<P>(api: string, hashes: seq<string>, indexer: (string, nat) -> Response<P>,
                        tries: nat): Result<seq<P>, Thrown<P>> {
    JoinAll(Outcomes(api, hashes, indexer, tries))
  }

  /** Runs every hash's loop, then joins them. */
  method TransactionsProcessed<P>(api: string, hashes: seq<string>, indexer: (string, nat) -> Response<P>,
                                  tries: nat := DefaultTries)
    returns (r: Result<seq<P>, Thrown<P>>)
    ensures r == Processed(api, hashes, indexer, tries)
  {
    var outcomes: seq<Outcome<P>> := [];
    for k := 0 to |hashes|
      invariant outcomes == Outcomes(api, hashes[..k], indexer, tries)
    {
      var outcome, _, _, _ := PollTransaction(TransactionUrl(api, hashes[k]), indexer, tries);
      outcomes := outcomes + [outcome];
    }
    assert hashes[..|hashes|] == hashes;
    r := JoinAll(outcomes);
  }
}
