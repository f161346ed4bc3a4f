/** The metadata client's request loop: bounded retries with geometric backoff, and a one-time switch to the gateway. */
module MetadataClients {
  import opened Wrappers

  /** What one HTTP call answers. `Down` is any failure without a response other than a refused connection;
      `detail` is the error text in the body of a rejection, if it has one. */
  datatype Reply = Ok(data: string) | Refused | Down | Http(status: nat, detail: Option<string>) | NotHttp

  /** The k-th call of a request gets the k-th reply. */
  type Script = nat -> Reply

  datatype ClientError = Offline | Unavailable | Rejected(status: Option<nat>, detail: Option<string>) | Unexpected

  predicate Transient(e: Reply) {
    e.Refused? || e.Down? || (e.Http? && 502 <= e.status <= 504)
  }

  /** The error thrown when the loop gives up: `first` is the call's own error, `last` the fallback's if there was
      one. The status reported is always that of `first`. */
  function Report(first: Reply, last: Reply): ClientError {
    if first.NotHttp? then Unexpected
    else if last.Refused? then Offline
    else if last.Http? then Rejected(if first.Http? then Some(first.status) else None, last.detail)
    else Unavailable
  }

  function Pow2(n: nat): nat {
    if n == 0 then 1 else 2 * Pow2(n - 1)
  }

  /** Result, calls made, time slept in units of the base delay, and whether the base URL was switched. */
  datatype Served = Served(result: Result<string, ClientError>, calls: nat, slept: nat, switched: bool)

  /** The loop from attempt `attempt` on, when `calls` calls have been made. */
  function Serve(script: Script, calls: nat, attempt: nat, maySwitch: bool, maxRetries: nat): Served
    requires 1 <= attempt <= maxRetries + 1
    decreases maxRetries + 1 - attempt
  {
    var e := script(calls);
    if e.Ok? then Served(Success(e.data), calls + 1, 0, false)
    else
      var switched := e.Refused? && maySwitch;
      var last := if switched then script(calls + 1) else e;
      var made := if switched then calls + 2 else calls + 1;
      if last.Ok? then Served(Success(last.data), made, 0, switched)
      else if Transient(e) && attempt <= maxRetries then
        var rest := Serve(script, made, attempt + 1, maySwitch && !switched, maxRetries);
        rest.(slept := rest.slept + Pow2(attempt - 1), switched := rest.switched || switched)
      else Served(Failure(Report(e, last)), made, 0, switched)
  }

  /** The number of calls counts the attempts, plus one for the switch; the sleeps are the geometric sum over
      the retries, no more and no less. */
  lemma {:induction false} ServeIsBounded(script: Script, calls: nat, attempt: nat, maySwitch: bool, maxRetries: nat)
    requires 1 <= attempt <= maxRetries + 1
    ensures var s := Serve(script, calls, attempt, maySwitch, maxRetries);
            var extra := if s.switched then 1 else 0;
            var retries := s.calls - calls - extra - 1;
            && 0 <= retries <= maxRetries + 1 - attempt
            && s.slept == Pow2(attempt - 1 + retries) - Pow2(attempt - 1)
            && (s.switched ==> maySwitch)
    decreases maxRetries + 1 - attempt
  {
    var e := script(calls);
    if !e.Ok? {
      var switched := e.Refused? && maySwitch;
      var last := if switched then script(calls + 1) else e;
      if !last.Ok? && Transient(e) && attempt <= maxRetries {
        ServeIsBounded(script, if switched then calls + 2 else calls + 1, attempt + 1, maySwitch && !switched, maxRetries);
      }
    }
  }

  lemma {:induction false} Pow2Grows(a: nat, b: nat)
    requires a <= b
    ensures Pow2(a) <= Pow2(b)
    decreases b
  {
    if a < b { Pow2Grows(a, b - 1); }
  }

  /** The result is the first successful reply of the calls made; a request fails only when its last call failed. */
  lemma {:induction false} ServeReturnsTheLastReply(script: Script, calls: nat, attempt: nat, maySwitch: bool, maxRetries: nat)
    requires 1 <= attempt <= maxRetries + 1
    ensures var s := Serve(script, calls, attempt, maySwitch, maxRetries);
            && s.calls > calls
            && (forall k :: calls <= k < s.calls - 1 ==> !script(k).Ok?)
            && (s.result.Success? <==> script(s.calls - 1).Ok?)
            && (s.result.Success? ==> s.result.value == script(s.calls - 1).data)
    decreases maxRetries + 1 - attempt
  {
    var e := script(calls);
    if !e.Ok? {
      var switched := e.Refused? && maySwitch;
      var last := if switched then script(calls + 1) else e;
      if !last.Ok? && Transient(e) && attempt <= maxRetries {
        ServeReturnsTheLastReply(script, if switched then calls + 2 else calls + 1, attempt + 1, maySwitch && !switched, maxRetries);
      }
    }
  }

  /** Neither a missing answer nor one of the three gateway statuses. */
  predicate Permanent(r: Reply) {
    r == NotHttp || (r.Http? && r.status != 502 && r.status != 503 && r.status != 504)
  }

  /** A permanent failure is retried only if it is the gateway's answer to the switch; and a request that fails has used
      up its attempts, or its last call failed permanently. */
  lemma {:induction false} RetriedExactlyWhile(script: Script, calls: nat, attempt: nat, maySwitch: bool, maxRetries: nat)
    requires 1 <= attempt <= maxRetries + 1
    ensures var s := Serve(script, calls, attempt, maySwitch, maxRetries);
            var extra := if s.switched then 1 else 0;
            && s.calls > calls && (s.switched ==> maySwitch)
            && (forall k :: calls <= k < s.calls - 1 && Permanent(script(k)) ==> s.switched && k > calls && script(k - 1) == Refused)
            && (s.result.Failure? ==> s.calls - calls - extra == maxRetries + 2 - attempt || Permanent(script(s.calls - 1)))
    decreases maxRetries + 1 - attempt
  {
    var e := script(calls);
    if !e.Ok? {
      var switched := e.Refused? && maySwitch;
      var last := if switched then script(calls + 1) else e;
      if !last.Ok? && Transient(e) && attempt <= maxRetries {
        RetriedExactlyWhile(script, if switched then calls + 2 else calls + 1, attempt + 1, maySwitch && !switched, maxRetries);
      }
    }
  }

  /** From attempt `attempt` on, every attempt but the last fails transiently and not by a refused connection,
      the last is refused and switches to the gateway, and the gateway rejects the call. */
  predicate SwitchesLast(script: Script, calls: nat, attempt: nat, maySwitch: bool, maxRetries: nat)
    requires 1 <= attempt <= maxRetries + 1
  {
    var last := calls + maxRetries + 1 - attempt;
    && maySwitch
    && (forall k :: calls <= k < last ==> Transient(script(k)) && !script(k).Refused?)
    && script(last).Refused? && script(last + 1).Http?
  }

  /** A rejection is reported without its status exactly when it answers the switch to the gateway and that
      switch is made in the last attempt; in an earlier one the next attempt reports a status of its own. */
  lemma {:induction false} StatusIsHiddenExactlyWhen(script: Script, calls: nat, attempt: nat, maySwitch: bool, maxRetries: nat)
    requires 1 <= attempt <= maxRetries + 1
    ensures var r := Serve(script, calls, attempt, maySwitch, maxRetries).result;
            (r.Failure? && r.error.Rejected? && r.error.status.None?) <==> SwitchesLast(script, calls, attempt, maySwitch, maxRetries)
    decreases maxRetries + 1 - attempt
  {
    var e := script(calls);
    if !e.Ok? && attempt <= maxRetries {
      var switched := e.Refused? && maySwitch;
      StatusIsHiddenExactlyWhen(script, if switched then calls + 2 else calls + 1, attempt + 1, maySwitch && !switched, maxRetries);
    }
  }

  // ---------- Looking up a job ----------

  predicate Mentions(text: string, part: string) {
    part <= text || (|text| > 0 && Mentions(text[1..], part))
  }

  datatype Lookup = Found(data: string) | Absent | Raised(error: ClientError)

  /** `getJob` takes an error for "no such job" if its text contains "HTTP 404". `request` puts the status into
      the text only if the body has no error text of its own; its errors are never Axios errors. */
  function GetJob(result: Result<string, ClientError>): Lookup {
    match result
    case Success(data) => Found(data)
    case Failure(e) =>
      if e.Rejected? && (if e.detail.Some? then Mentions(e.detail.value, "HTTP 404") else e.status == Some(404))
      then Absent else Raised(e)
  }

  /** So a lookup answers "no such job" exactly when the last call was rejected with an error text that happens to
      contain "HTTP 404", or without one, with status 404, and not in the one case that hides the status. The
      metadata service sends an error text without it, so its 404 is raised as an error. */
  lemma AbsentExactlyWhen(script: Script, maySwitch: bool, maxRetries: nat)
    ensures var s := Serve(script, 0, 1, maySwitch, maxRetries);
            s.calls > 0 &&
            (GetJob(s.result).Absent? <==>
               var last := script(s.calls - 1);
               && last.Http?
               && match last.detail
                  case Some(text) => exists i :: 0 <= i <= |text| && "HTTP 404" <= text[i..]
                  case None => last.status == 404 && !SwitchesLast(script, 0, 1, maySwitch, maxRetries))
  {
    StatusIsHiddenExactlyWhen(script, 0, 1, maySwitch, maxRetries);
    RejectionIsTheLastReply(script, 0, 1, maySwitch, maxRetries);
    var last := script(Serve(script, 0, 1, maySwitch, maxRetries).calls - 1);
    if last.Http? && last.detail.Some? { MentionsSomewhere(last.detail.value, "HTTP 404"); }
  }

  lemma {:induction false} MentionsSomewhere(text: string, part: string)
    ensures Mentions(text, part) <==> exists i :: 0 <= i <= |text| && part <= text[i..]
    decreases |text|
  {
    assert text[0..] == text;
    if |text| > 0 {
      MentionsSomewhere(text[1..], part);
      forall i | 0 <= i < |text| ensures text[1..][i..] == text[i + 1..] {}
      if Mentions(text[1..], part) {
        var i :| 0 <= i <= |text[1..]| && part <= text[1..][i..];
        assert part <= text[i + 1..];
      }
      if i :| 1 <= i <= |text| && part <= text[i..] {
        assert part <= text[1..][i - 1..];
      }
    }
  }

  lemma {:induction false} RejectionIsTheLastReply(script: Script, calls: nat, attempt: nat, maySwitch: bool, maxRetries: nat)
    requires 1 <= attempt <= maxRetries + 1
    ensures var s := Serve(script, calls, attempt, maySwitch, maxRetries);
            && s.calls > calls
            && var last := script(s.calls - 1);
            && (s.result.Failure? && s.result.error.Rejected? <==> last.Http?)
            && (last.Http? ==> s.result.error.detail == last.detail)
            && (last.Http? && s.result.error.status.Some? ==> s.result.error.status == Some(last.status))
            && (last.Refused? ==> s.result == Failure(Offline))
            && (last.Down? ==> s.result == Failure(Unavailable))
            && (last.NotHttp? ==> s.result == Failure(Unexpected) || (s.switched && s.result == Failure(Unavailable)))
    decreases maxRetries + 1 - attempt
  {
    var e := script(calls);
    if !e.Ok? {
      var switched := e.Refused? && maySwitch;
      var last := if switched then script(calls + 1) else e;
      if !last.Ok? && Transient(e) && attempt <= maxRetries {
        RejectionIsTheLastReply(script, if switched then calls + 2 else calls + 1, attempt + 1, maySwitch && !switched, maxRetries);
      }
    }
  }

  class MetadataClient {
    const hasCustomBaseUrl: bool
    const environmentUrlSet: bool
    const gatewayUrl: string
    const maxRetries: nat
    const retryDelayMs: nat
    var baseUrl: string

    constructor (custom: Option<string>, environment: Option<string>, gateway: string, maxRetries: nat, retryDelayMs: nat)
      ensures this.maxRetries == maxRetries && this.retryDelayMs == retryDelayMs && gatewayUrl == gateway
      ensures MaySwitch() <==> custom.None? && environment.None? && gateway != "http://127.0.0.1:3005"
    {
      hasCustomBaseUrl := custom.Some?;
      environmentUrlSet := environment.Some?;
      baseUrl := if custom.Some? then custom.value else if environment.Some? then environment.value else "http://127.0.0.1:3005";
      gatewayUrl := gateway;
      this.maxRetries := maxRetries;
      this.retryDelayMs := retryDelayMs;
    }

    predicate MaySwitch()
      reads this
    {
      !hasCustomBaseUrl && baseUrl != gatewayUrl && !environmentUrlSet
    }

    method Request(script: Script) returns (r: Result<string, ClientError>, calls: nat, sleptMs: nat)
      modifies this
      ensures var s := Serve(script, 0, 1, old(MaySwitch()), maxRetries);
              && r == s.result && calls == s.calls && sleptMs == retryDelayMs * s.slept
              && baseUrl == (if s.switched then gatewayUrl else old(baseUrl))
      ensures calls <= maxRetries + 2 && sleptMs <= retryDelayMs * (Pow2(maxRetries) - 1)
      ensures baseUrl != old(baseUrl) ==> old(MaySwitch()) && baseUrl == gatewayUrl && !MaySwitch()
    {
      RequestIsBounded(script, MaySwitch(), maxRetries, retryDelayMs);
      r, calls, sleptMs := RetryLoop(script);
    }

    /** The loop itself. */
    method RetryLoop(script: Script) returns (r: Result<string, ClientError>, calls: nat, sleptMs: nat)
      modifies this
      ensures var s := Serve(script, 0, 1, old(MaySwitch()), maxRetries);
              && r == s.result && calls == s.calls && sleptMs == retryDelayMs * s.slept
              && baseUrl == (if s.switched then gatewayUrl else old(baseUrl))
      ensures baseUrl != old(baseUrl) ==> old(MaySwitch()) && baseUrl == gatewayUrl
    {
      ghost var spec := Serve(script, 0, 1, MaySwitch(), maxRetries);
      var attempt := 0;
      calls, sleptMs := 0, 0;
      ghost var units: nat := 0;
      while true
        invariant attempt <= maxRetries
        invariant sleptMs == retryDelayMs * units
        invariant baseUrl == old(baseUrl) || (baseUrl == gatewayUrl && old(MaySwitch()))
        invariant Serve(script, calls, attempt + 1, MaySwitch(), maxRetries).result == spec.result
        invariant Serve(script, calls, attempt + 1, MaySwitch(), maxRetries).calls == spec.calls
        invariant Serve(script, calls, attempt + 1, MaySwitch(), maxRetries).slept + units == spec.slept
        invariant (Serve(script, calls, attempt + 1, MaySwitch(), maxRetries).switched || baseUrl != old(baseUrl)) == spec.switched
        decreases maxRetries - attempt
      {
        attempt := attempt + 1;
        var first := script(calls);
        calls := calls + 1;
        if first.Ok? {
          return Success(first.data), calls, sleptMs;
        }
        var error := first;
        if first.Refused? && MaySwitch() {
          baseUrl := gatewayUrl;
          error := script(calls);
          calls := calls + 1;
          if error.Ok? {
            return Success(error.data), calls, sleptMs;
          }
        }
        if !(Transient(first) && attempt <= maxRetries) {
          return Failure(Report(first, error)), calls, sleptMs;
        }
        Distribute(retryDelayMs, units, Pow2(attempt - 1));
        sleptMs := sleptMs + retryDelayMs * Pow2(attempt - 1);
        units := units + Pow2(attempt - 1);
      }
    }
  }

  /** One request makes at most `maxRetries` + 2 calls and sleeps at most the full geometric sum. */
  lemma RequestIsBounded(script: Script, maySwitch: bool, maxRetries: nat, delay: nat)
    ensures var s := Serve(script, 0, 1, maySwitch, maxRetries);
            && s.calls <= maxRetries + 2 && s.slept <= Pow2(maxRetries) - 1
            && delay * s.slept <= delay * (Pow2(maxRetries) - 1)
  {
    var s := Serve(script, 0, 1, maySwitch, maxRetries);
    ServeIsBounded(script, 0, 1, maySwitch, maxRetries);
    Pow2Grows(s.calls - (if s.switched then 1 else 0) - 1, maxRetries);
    ProductGrows(delay, s.slept, Pow2(maxRetries) - 1);
  }

  lemma ProductGrows(d: nat, a: int, b: int)
    requires a <= b
    ensures d * a <= d * b
  {
  }

  lemma Distribute(d: nat, a: nat, b: nat)
    ensures d * a + d * b == d * (a + b)
  {
  }

  // ---------- Over many requests of one client ----------

  /** Calls of a sequence of requests; once switched, the client never switches again. */
  function TotalCalls(scripts: seq<Script>, maySwitch: bool, maxRetries: nat): nat {
    if |scripts| == 0 then 0
    else
      var s := Serve(scripts[0], 0, 1, maySwitch, maxRetries);
      s.calls + TotalCalls(scripts[1..], maySwitch && !s.switched, maxRetries)
  }

  /** n requests of one client make at most n * (maxRetries + 1) + 1 calls: the extra call is spent at most once. */
  lemma {:induction false} CallsAreAmortised(scripts: seq<Script>, maySwitch: bool, maxRetries: nat)
    ensures TotalCalls(scripts, maySwitch, maxRetries) <= |scripts| * (maxRetries + 1) + (if maySwitch then 1 else 0)
    decreases |scripts|
  {
    if |scripts| > 0 {
      var s := Serve(scripts[0], 0, 1, maySwitch, maxRetries);
      ServeIsBounded(scripts[0], 0, 1, maySwitch, maxRetries);
      CallsAreAmortised(scripts[1..], maySwitch && !s.switched, maxRetries);
      assert |scripts| * (maxRetries + 1) == |scripts[1..]| * (maxRetries + 1) + (maxRetries + 1);
    }
  }
}
