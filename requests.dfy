/**
 * `_make_request_with_fallback` as a specification: for each of the two
 * attempts, pick a key, try every model in turn with it, stop at the first
 * HTTP 200 reply that carries a message, and keep the key's counters.
 *
 * The HTTP call itself is a parameter: a `Transport` maps each call (prompt,
 * key, attempt, model) to what came back.
 */
module Requests {
  import opened Wrappers
  import opened Text
  import opened LoadBalancer

  /** What a prompt asks for; the wording of the prompt templates is not modelled. */
  datatype Prompt =
    | ChunkPrompt(text: string, chunkNum: nat, totalChunks: nat)
    | CombinePrompt(summaries: string)
    | McqPrompt(text: string, count: nat)
    | QaPrompt(context: string, question: string)

  /** One HTTP request: the prompt, the key that signs it, the outer attempt, and the model (with its place in the model list). */
  datatype Call = Call(prompt: Prompt, key: KeyName, attempt: nat, modelIndex: nat, model: string)

  /**
   * What one request produced: an HTTP status with the `choices[0].message.content`
   * of its body (`None` when decoding the body or looking the field up raised),
   * or an exception raised by the transport (timeout, connection error).
   */
  datatype HttpOutcome = Response(status: int, content: Option<string>) | Raised(message: string)

  type Transport = Call -> HttpOutcome

  datatype RequestError = NoApiKeys | AllAttemptsFailed

  /** `max_retries` */
  const MaxRetries: nat := 2

  /** The text of the exception `_make_request_with_fallback` raises. */
  function ErrorMessage(e: RequestError): string {
    match e
    case NoApiKeys => NoKeysMessage + ": " + NoKeysMessage
    case AllAttemptsFailed => "All API keys and models failed after " + NatToString(MaxRetries) + " attempts"
  }

  /** A 200 reply whose body holds a message: the request succeeds with it. */
  predicate Succeeds(o: HttpOutcome) {
    o.Response? && o.status == 200 && o.content.Some?
  }

  /** What lands in the inner `except` branch: a raised transport error, or a 200 reply whose body cannot be read. */
  predicate Raises(o: HttpOutcome) {
    o.Raised? || (o.Response? && o.status == 200 && o.content.None?)
  }

  /** `models_to_try`: the one requested model, or the whole fallback list. */
  function ModelsToTry(model: Option<string>, fallbackModels: seq<string>): (ms: seq<string>)
    ensures model.Some? ==> ms == [model.value]
    ensures model.None? ==> ms == fallbackModels
  {
    if model.Some? then [model.value] else fallbackModels
  }

  /** What the transport answers to each model of one attempt made with key `k`. */
  function Outcomes(transport: Transport, prompt: Prompt, k: KeyName, attempt: nat, models: seq<string>): (os: seq<HttpOutcome>)
    ensures |os| == |models|
    ensures forall i :: 0 <= i < |models| ==> os[i] == transport(Call(prompt, k, attempt, i, models[i]))
  {
    seq(|models|, i requires 0 <= i < |models| => transport(Call(prompt, k, attempt, i, models[i])))
  }

  /**
   * The inner loop over the models for one key: the reply, if one came, and
   * the key's counters afterwards. A non-200 status records nothing; an
   * exception records a failed request; the first success records a
   * successful request and ends the loop.
   */
  function RunModels(os: seq<HttpOutcome>, u: Usage): (Option<string>, Usage)
  {
    if os == [] then (None, u)
    else if Succeeds(os[0]) then (Some(os[0].content.value), Usage(u.requests + 1, u.errors))
    else if Raises(os[0]) then RunModels(os[1..], Usage(u.requests + 1, u.errors + 1))
    else RunModels(os[1..], u)
  }

  /** How many outcomes land in the `except` branch. */
  function CountRaised(os: seq<HttpOutcome>): (n: nat)
    ensures n <= |os|
  {
    if os == [] then 0 else (if Raises(os[0]) then 1 else 0) + CountRaised(os[1..])
  }

  lemma {:induction false} RunModelsFirstSuccess(os: seq<HttpOutcome>, u: Usage, j: nat)
    requires j < |os| && Succeeds(os[j])
    requires forall i :: 0 <= i < j ==> !Succeeds(os[i])
    ensures RunModels(os, u)
      == (Some(os[j].content.value), Usage(u.requests + CountRaised(os[..j]) + 1, u.errors + CountRaised(os[..j])))
  {
    if j > 0 {
      assert os[..j][1..] == os[1..][..j - 1];
      var u' := if Raises(os[0]) then Usage(u.requests + 1, u.errors + 1) else u;
      RunModelsFirstSuccess(os[1..], u', j - 1);
    }
  }

  /** When no model answers with a message there is no reply, and every raised model costs one request and one error. */
  lemma {:induction false} RunModelsNoSuccess(os: seq<HttpOutcome>, u: Usage)
    requires forall i :: 0 <= i < |os| ==> !Succeeds(os[i])
    ensures RunModels(os, u) == (None, Usage(u.requests + CountRaised(os), u.errors + CountRaised(os)))
  {
    if os != [] {
      var u' := if Raises(os[0]) then Usage(u.requests + 1, u.errors + 1) else u;
      RunModelsNoSuccess(os[1..], u');
    }
  }

  /** Replies with a status other than 200 are not recorded at all: the counters stay as they were. */
  lemma {:induction false} NonOkStatusRecordsNothing(os: seq<HttpOutcome>, u: Usage)
    requires forall i :: 0 <= i < |os| ==> os[i].Response? && os[i].status != 200
    ensures RunModels(os, u) == (None, u)
  {
    if os != [] {
      NonOkStatusRecordsNothing(os[1..], u);
    }
  }

  /** The counters a failed attempt leaves: only failures are added, so requests minus errors is kept. */
  lemma RunModelsAccounting(os: seq<HttpOutcome>, u: Usage)
    ensures var (reply, u') := RunModels(os, u);
      u'.errors >= u.errors && u'.requests - u'.errors == u.requests - u.errors + (if reply.Some? then 1 else 0)
  {
    if exists j :: 0 <= j < |os| && Succeeds(os[j]) {
      var j :| 0 <= j < |os| && Succeeds(os[j]);
      while exists i :: 0 <= i < j && Succeeds(os[i])
        invariant 0 <= j < |os| && Succeeds(os[j])
        decreases j
      {
        var i :| 0 <= i < j && Succeeds(os[i]);
        j := i;
      }
      RunModelsFirstSuccess(os, u, j);
    } else {
      RunModelsNoSuccess(os, u);
    }
  }

  /**
   * The outer `for attempt in range(max_retries)` loop from `attempt` on:
   * choose a key (no key at all re-raises at once), run the models with it,
   * and either return the reply, retry, or give up after the last attempt.
   */
  function Attempts(key1: string, key2: string, t: UsageTable, prompt: Prompt, models: seq<string>,
                    transport: Transport, attempt: nat): (res: (Result<string, RequestError>, UsageTable))
    requires HasBothKeys(t) && attempt < MaxRetries
    ensures HasBothKeys(res.1)
    ensures res.0 == Failure(NoApiKeys) <==> key1 == "" && key2 == ""
    decreases MaxRetries - attempt
  {
    match SelectKey(key1, key2, t)
    case Failure(_) => (Failure(NoApiKeys), t)
    case Success(k) =>
      var (reply, u) := RunModels(Outcomes(transport, prompt, k, attempt, models), t[k]);
      var t' := t[k := u];
      if reply.Some? then (Success(reply.value), t')
      else if attempt + 1 < MaxRetries then Attempts(key1, key2, t', prompt, models, transport, attempt + 1)
      else (Failure(AllAttemptsFailed), t')
  }

  /** One attempt with the key `k` that was selected. */
  lemma AttemptsUnfold(key1: string, key2: string, t: UsageTable, prompt: Prompt, models: seq<string>,
                       transport: Transport, attempt: nat, k: KeyName)
    requires HasBothKeys(t) && attempt < MaxRetries && SelectKey(key1, key2, t) == Success(k)
    ensures var run := RunModels(Outcomes(transport, prompt, k, attempt, models), t[k]);
      var t' := t[k := run.1];
      Attempts(key1, key2, t, prompt, models, transport, attempt)
        == if run.0.Some? then (Success(run.0.value), t')
           else if attempt + 1 < MaxRetries then Attempts(key1, key2, t', prompt, models, transport, attempt + 1)
           else (Failure(AllAttemptsFailed), t')
  {
  }

  /** An attempt in which no model replied: the next attempt starts from the key's new counters, or the request fails. */
  lemma AttemptsNoReply(key1: string, key2: string, t: UsageTable, prompt: Prompt, models: seq<string>,
                        transport: Transport, attempt: nat, k: KeyName, u: Usage)
    requires HasBothKeys(t) && attempt < MaxRetries && SelectKey(key1, key2, t) == Success(k)
    requires RunModels(Outcomes(transport, prompt, k, attempt, models), t[k]) == (None, u)
    ensures attempt + 1 < MaxRetries ==>
      Attempts(key1, key2, t, prompt, models, transport, attempt) == Attempts(key1, key2, t[k := u], prompt, models, transport, attempt + 1)
    ensures attempt + 1 == MaxRetries ==>
      Attempts(key1, key2, t, prompt, models, transport, attempt) == (Failure(AllAttemptsFailed), t[k := u])
  {
    AttemptsUnfold(key1, key2, t, prompt, models, transport, attempt, k);
  }

  /** `_make_request_with_fallback(prompt, model)` from the usage table `t`: the result and the new table. */
  function Request(key1: string, key2: string, t: UsageTable, prompt: Prompt, model: Option<string>,
                   fallbackModels: seq<string>, transport: Transport): (res: (Result<string, RequestError>, UsageTable))
    requires HasBothKeys(t)
    ensures HasBothKeys(res.1)
    ensures res.0 == Failure(NoApiKeys) <==> key1 == "" && key2 == ""
  {
    Attempts(key1, key2, t, prompt, ModelsToTry(model, fallbackModels), transport, 0)
  }

  /**
   * What every request of one `HybridAI` shares: its two keys, the
   * `FALLBACK_MODELS` list, and the transport that answers its HTTP calls.
   */
  datatype Service = Service(key1: string, key2: string, fallbackModels: seq<string>, transport: Transport)

  /** `_make_request_with_fallback(prompt)`: the callers in the core never name a model. */
  function Ask(svc: Service, t: UsageTable, prompt: Prompt): (res: (Result<string, RequestError>, UsageTable))
    requires HasBothKeys(t)
    ensures HasBothKeys(res.1)
    ensures res.0 == Failure(NoApiKeys) <==> svc.key1 == "" && svc.key2 == ""
  {
    Request(svc.key1, svc.key2, t, prompt, None, svc.fallbackModels, svc.transport)
  }

  /** Successful requests recorded in a table: requests that did not fail. */
  function Successes(t: UsageTable): int
    requires HasBothKeys(t)
  {
    (t[Key1].requests - t[Key1].errors) + (t[Key2].requests - t[Key2].errors)
  }

  function TotalErrors(t: UsageTable): nat
    requires HasBothKeys(t)
  {
    t[Key1].errors + t[Key2].errors
  }

  function TotalRequests(t: UsageTable): nat
    requires HasBothKeys(t)
  {
    t[Key1].requests + t[Key2].requests
  }

  /**
   * The bookkeeping a request promises for a result `res` reached from the
   * table `t`: exactly one more success when it returns a reply and none
   * when it fails, no error removed, and a consistent table kept consistent.
   */
  predicate Accounted(t: UsageTable, res: (Result<string, RequestError>, UsageTable))
    requires HasBothKeys(t)
  {
    && HasBothKeys(res.1)
    && Successes(res.1) == Successes(t) + (if res.0.Success? then 1 else 0)
    && TotalErrors(res.1) >= TotalErrors(t)
    && (Consistent(t) ==> Consistent(res.1))
  }

  /** The table after one key ran the models: the key's new counters, seen from the whole table. */
  lemma TableAfterRun(t: UsageTable, k: KeyName, u: Usage, replied: bool)
    requires HasBothKeys(t)
    requires u.errors >= t[k].errors
    requires u.requests - u.errors == t[k].requests - t[k].errors + (if replied then 1 else 0)
    ensures var t' := t[k := u];
      && HasBothKeys(t')
      && Successes(t') == Successes(t) + (if replied then 1 else 0)
      && TotalErrors(t') >= TotalErrors(t)
      && (Consistent(t) ==> Consistent(t'))
  {
  }

  /** A request records exactly one success when it returns a reply and none when it fails. */
  lemma {:induction false} AttemptsAccounting(key1: string, key2: string, t: UsageTable, prompt: Prompt,
                                              models: seq<string>, transport: Transport, attempt: nat)
    requires HasBothKeys(t) && attempt < MaxRetries
    ensures Accounted(t, Attempts(key1, key2, t, prompt, models, transport, attempt))
    decreases MaxRetries - attempt
  {
    var sel := SelectKey(key1, key2, t);
    if sel.Success? {
      var k := sel.value;
      var os := Outcomes(transport, prompt, k, attempt, models);
      RunModelsAccounting(os, t[k]);
      var run := RunModels(os, t[k]);
      TableAfterRun(t, k, run.1, run.0.Some?);
      AttemptsUnfold(key1, key2, t, prompt, models, transport, attempt, k);
      if run.0.None? && attempt + 1 < MaxRetries {
        AttemptsAccounting(key1, key2, t[k := run.1], prompt, models, transport, attempt + 1);
      }
    }
  }

  lemma RequestAccounting(key1: string, key2: string, t: UsageTable, prompt: Prompt, model: Option<string>,
                          fallbackModels: seq<string>, transport: Transport)
    requires HasBothKeys(t)
    ensures Accounted(t, Request(key1, key2, t, prompt, model, fallbackModels, transport))
  {
    AttemptsAccounting(key1, key2, t, prompt, ModelsToTry(model, fallbackModels), transport, 0);
  }

  /** With neither key configured the request fails at once and records nothing. */
  lemma NoKeysFailsAtOnce(t: UsageTable, prompt: Prompt, model: Option<string>, fallbackModels: seq<string>,
                          transport: Transport)
    requires HasBothKeys(t)
    ensures Request("", "", t, prompt, model, fallbackModels, transport) == (Failure(NoApiKeys), t)
  {
  }

  /**
   * The first attempt: the selected key tries the models in order and the
   * first one that answers with a message gives the result; only that key's
   * counters change.
   */
  lemma FirstAttemptSucceeds(key1: string, key2: string, t: UsageTable, prompt: Prompt, model: Option<string>,
                             fallbackModels: seq<string>, transport: Transport, k: KeyName, j: nat)
    requires HasBothKeys(t) && SelectKey(key1, key2, t) == Success(k)
    requires var os := Outcomes(transport, prompt, k, 0, ModelsToTry(model, fallbackModels));
      j < |os| && Succeeds(os[j]) && forall i :: 0 <= i < j ==> !Succeeds(os[i])
    ensures var os := Outcomes(transport, prompt, k, 0, ModelsToTry(model, fallbackModels));
      var n := CountRaised(os[..j]);
      Request(key1, key2, t, prompt, model, fallbackModels, transport)
        == (Success(os[j].content.value), t[k := Usage(t[k].requests + n + 1, t[k].errors + n)])
  {
    var os := Outcomes(transport, prompt, k, 0, ModelsToTry(model, fallbackModels));
    RunModelsFirstSuccess(os, t[k], j);
  }

  /** The request failed after `n` more requests, each one of them an error. */
  predicate ExhaustedAfter(t: UsageTable, res: (Result<string, RequestError>, UsageTable), n: nat)
    requires HasBothKeys(t)
  {
    && res.0 == Failure(AllAttemptsFailed)
    && HasBothKeys(res.1)
    && TotalErrors(res.1) == TotalErrors(t) + n
    && TotalRequests(res.1) == TotalRequests(t) + n
  }

  /** An attempt that added `m` failed requests before the rest of the request added `n`. */
  lemma ExhaustedShift(t: UsageTable, t': UsageTable, res: (Result<string, RequestError>, UsageTable), m: nat, n: nat)
    requires HasBothKeys(t) && HasBothKeys(t') && ExhaustedAfter(t', res, n)
    requires TotalErrors(t') == TotalErrors(t) + m && TotalRequests(t') == TotalRequests(t) + m
    ensures ExhaustedAfter(t, res, m + n)
  {
  }

  /** The failed requests the attempts from `attempt` on add when each of them fails on all `m` models. */
  function RaisedTotal(attempt: nat, m: nat): (n: nat)
    decreases MaxRetries - attempt
  {
    if attempt < MaxRetries then m + RaisedTotal(attempt + 1, m) else 0
  }

  lemma {:induction false} RaisedTotalIs(attempt: nat, m: nat)
    ensures attempt <= MaxRetries ==> RaisedTotal(attempt, m) == (MaxRetries - attempt) * m
    decreases MaxRetries - attempt
  {
    if attempt < MaxRetries {
      RaisedTotalIs(attempt + 1, m);
      assert (MaxRetries - attempt) * m == m + (MaxRetries - (attempt + 1)) * m;
    }
  }

  /** A transport that always raises: both attempts run every model, each one costing a request and an error, and the request fails. */
  lemma {:induction false} AlwaysRaisingExhausts(key1: string, key2: string, t: UsageTable, prompt: Prompt,
                                                 models: seq<string>, transport: Transport, attempt: nat)
    requires HasBothKeys(t) && attempt < MaxRetries && (key1 != "" || key2 != "")
    requires forall c :: transport(c).Raised?
    ensures ExhaustedAfter(t, Attempts(key1, key2, t, prompt, models, transport, attempt), RaisedTotal(attempt, |models|))
    decreases MaxRetries - attempt
  {
    var k := SelectKey(key1, key2, t).value;
    var os := Outcomes(transport, prompt, k, attempt, models);
    assert forall i :: 0 <= i < |os| ==> os[i].Raised?;
    AllRaisedCount(os);
    RunModelsNoSuccess(os, t[k]);
    var u := Usage(t[k].requests + |models|, t[k].errors + |models|);
    var t' := t[k := u];
    assert TotalErrors(t') == TotalErrors(t) + |models|;
    assert TotalRequests(t') == TotalRequests(t) + |models|;
    AttemptsNoReply(key1, key2, t, prompt, models, transport, attempt, k, u);
    if attempt + 1 < MaxRetries {
      AlwaysRaisingExhausts(key1, key2, t', prompt, models, transport, attempt + 1);
      ExhaustedShift(t, t', Attempts(key1, key2, t', prompt, models, transport, attempt + 1), |models|, RaisedTotal(attempt + 1, |models|));
    }
  }

  lemma {:induction false} AllRaisedCount(os: seq<HttpOutcome>)
    requires forall i :: 0 <= i < |os| ==> os[i].Raised?
    ensures CountRaised(os) == |os|
  {
    if os != [] {
      AllRaisedCount(os[1..]);
    }
  }
}
