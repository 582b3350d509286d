/**
 * `restCaller.MakeRestCallToPartner`: a GET retried on transport errors with
 * linear backoff, where any received response ends the loop. The HTTP client is
 * a transport that answers the i-th attempt (counting from 0); sleeping is
 * recorded as a list of durations in nanoseconds instead of performed.
 */
module RestCaller {
  import opened Wrappers
  import opened Response

  const MaxRetries: nat := 5
  /** `1 * time.Second`, in nanoseconds. */
  const InitialBackoff: nat := 1_000_000_000
  /** `30 * time.Second`, the client timeout; it belongs to the transport and never enters the loop. */
  const ClientTimeout: nat := 30_000_000_000

  /** What `resp.Body` is: absent, readable with these bytes, or failing `io.ReadAll` with this text. */
  datatype Body = NoBody | Content(bytes: seq<int>) | ReadFailure(reason: string)

  datatype HttpResponse = HttpResponse(statusCode: int, body: Body)

  /** The `(resp, err)` pair of one `Get`: an error, possibly with a response, or a response. */
  datatype Attempt = TransportError(reason: string, partial: Option<HttpResponse>) | Received(response: HttpResponse)

  /** The number of `Get` calls a loop starting at retry `i` makes before it stops. */
  function AttemptsFrom(get: nat -> Attempt, i: nat): (n: nat)
    requires i <= MaxRetries
    ensures i < n <= MaxRetries + 1
    ensures get(n - 1).Received? || n == MaxRetries + 1
    ensures forall j :: i <= j < n - 1 ==> get(j).TransportError?
    decreases MaxRetries - i
  {
    if get(i).Received? || i == MaxRetries then i + 1 else AttemptsFrom(get, i + 1)
  }

  /** How many `Get` calls one `MakeRestCallToPartner` makes. */
  function Attempts(get: nat -> Attempt): (n: nat)
    ensures 1 <= n <= MaxRetries + 1
    ensures forall j :: 0 <= j < n - 1 ==> get(j).TransportError?
    ensures get(n - 1).Received? || n == MaxRetries + 1
  {
    AttemptsFrom(get, 0)
  }

  /** The result once a response is in hand. `body` is never assigned, so the non-OK message ends at the colon. */
  function ResponseOutcome(resp: HttpResponse): (r: Option<ErrorMessage>)
    ensures r == None <==> !resp.body.ReadFailure? && resp.statusCode == StatusOK
    ensures r.Some? ==> r.value.statusCode == resp.statusCode
    ensures resp.body.ReadFailure? ==> r.value.message == "Failed to read response body -> " + resp.body.reason
    ensures !resp.body.ReadFailure? && resp.statusCode != StatusOK ==> r.value.message == "Received non-OK HTTP status: "
  {
    if resp.body.ReadFailure? then
      Some(ErrorMessage(resp.statusCode, "Failed to read response body -> " + resp.body.reason))
    else if resp.statusCode != StatusOK then
      Some(ErrorMessage(resp.statusCode, "Received non-OK HTTP status: "))
    else None
  }

  /** The error after the last allowed transport failure: the response's status when there is one, 0 otherwise. */
  function ExhaustedError(reason: string, resp: Option<HttpResponse>): (e: ErrorMessage)
    ensures e.message == "Failed to make GET request after retries -> " + reason
    ensures e.statusCode == if resp.Some? then resp.value.statusCode else 0
  {
    ErrorMessage(if resp.Some? then resp.value.statusCode else 0, "Failed to make GET request after retries -> " + reason)
  }

  /** The result of the call: decided by the last attempt. */
  function CallOutcome(get: nat -> Attempt): Option<ErrorMessage>
  {
    match get(Attempts(get) - 1)
    case TransportError(reason, partial) => Some(ExhaustedError(reason, partial))
    case Received(resp) => ResponseOutcome(resp)
  }

  /** The sleeps before retries 1..k: the k-th one is k times the initial backoff. */
  function Backoffs(k: nat): (s: seq<nat>)
    ensures |s| == k && forall i :: 0 <= i < k ==> s[i] == InitialBackoff * (i + 1)
  {
    if k == 0 then [] else Backoffs(k - 1) + [InitialBackoff * k]
  }

  /** `n` copies of the request URL. */
  function Repeat(x: string, n: nat): (s: seq<string>)
    ensures |s| == n && forall i :: 0 <= i < n ==> s[i] == x
  {
    if n == 0 then [] else Repeat(x, n - 1) + [x]
  }

  function Sum(s: seq<nat>): nat
  {
    if s == [] then 0 else Sum(s[..|s| - 1]) + s[|s| - 1]
  }

  method MakeRestCallToPartner(url: string, params: string, get: nat -> Attempt)
    returns (err: Option<ErrorMessage>, requested: seq<string>, slept: seq<nat>)
    ensures err == CallOutcome(get)
    ensures requested == Repeat(url + "?" + params, Attempts(get))
    ensures slept == Backoffs(Attempts(get) - 1)
  {
    var retries: nat := 0;
    var target := url + "?" + params;
    requested := [];
    slept := [];
    while true
      invariant retries <= MaxRetries
      invariant Attempts(get) == AttemptsFrom(get, retries)
      invariant requested == Repeat(target, retries)
      invariant slept == Backoffs(retries)
      decreases MaxRetries - retries
    {
      var attempt := get(retries);
      requested := requested + [target];
      assert requested == Repeat(target, retries + 1);
      if attempt.TransportError? {
        if retries >= MaxRetries {
          assert Attempts(get) == retries + 1;
          return Some(ExhaustedError(attempt.reason, attempt.partial)), requested, slept;
        }
        assert AttemptsFrom(get, retries) == AttemptsFrom(get, retries + 1);
        retries := retries + 1;
        slept := slept + [InitialBackoff * retries];
        assert slept == Backoffs(retries);
        continue;
      }
      assert Attempts(get) == retries + 1;
      var resp := attempt.response;
      assert CallOutcome(get) == ResponseOutcome(resp);
      if resp.body.ReadFailure? {
        return Some(ErrorMessage(resp.statusCode, "Failed to read response body -> " + resp.body.reason)), requested, slept;
      }
      if resp.statusCode != StatusOK {
        return Some(ErrorMessage(resp.statusCode, "Received non-OK HTTP status: ")), requested, slept;
      }
      err := None;
      break;
    }
  }

  // ---------------------------------------------------------------- lemmas

  lemma {:induction false} SumBackoffs(k: nat)
    ensures Sum(Backoffs(k)) == InitialBackoff * (k * (k + 1) / 2)
  {
    if k > 0 {
      assert Backoffs(k)[..|Backoffs(k)| - 1] == Backoffs(k - 1);
      SumBackoffs(k - 1);
      assert (k - 1) * k / 2 + k == k * (k + 1) / 2 by {
        assert (k - 1) * k + 2 * k == k * (k + 1);
      }
    }
  }

  /**
   * A transport that always fails is called six times, slept on five times
   * for fifteen initial backoffs in all, and the last error text is reported.
   */
  lemma AlwaysFailing(get: nat -> Attempt)
    requires forall i: nat :: get(i).TransportError?
    ensures Attempts(get) == MaxRetries + 1 == 6
    ensures Sum(Backoffs(Attempts(get) - 1)) == 15 * InitialBackoff
    ensures CallOutcome(get) == Some(ExhaustedError(get(MaxRetries).reason, get(MaxRetries).partial))
  {
    SumBackoffs(5);
  }

  /** A 200 response after `k` transport failures: `k + 1` calls, `k` sleeps, and success. */
  lemma SucceedsAfter(get: nat -> Attempt, k: nat)
    requires k <= MaxRetries
    requires forall i :: 0 <= i < k ==> get(i).TransportError?
    requires get(k).Received? && get(k).response.statusCode == StatusOK && !get(k).response.body.ReadFailure?
    ensures Attempts(get) == k + 1
    ensures Backoffs(Attempts(get) - 1) == Backoffs(k)
    ensures CallOutcome(get) == None
  {
  }

  /** A received response ends the call right away: no attempt after the first response. */
  lemma ResponseIsTerminal(get: nat -> Attempt, k: nat)
    requires k <= MaxRetries && get(k).Received?
    ensures Attempts(get) <= k + 1
    ensures Attempts(get) == k + 1 ==> CallOutcome(get) == ResponseOutcome(get(k).response)
  {
  }

  /** The non-OK message is the same whatever the body holds. */
  lemma NonOkIgnoresBody(code: int, b1: seq<int>, b2: seq<int>)
    requires code != StatusOK
    ensures ResponseOutcome(HttpResponse(code, Content(b1))) == ResponseOutcome(HttpResponse(code, Content(b2)))
            == ResponseOutcome(HttpResponse(code, NoBody))
            == Some(ErrorMessage(code, "Received non-OK HTTP status: "))
  {
  }
}
