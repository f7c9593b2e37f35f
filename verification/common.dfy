/** Types shared by the session store, the verifier and both bot generations. */
module Common {

  /** Python's `Optional[T]`: `None` or a present value. */
  datatype Option<+T> = None | Some(value: T)

  /** Python truthiness of an `Optional[str]`: `None` and `""` are both false. */
  predicate Truthy(o: Option<string>)
  {
    o.Some? && o.value != ""
  }

  /** The `status` string of a session or installation. */
  datatype Status = Active | Completed | Abandoned

  /** A job id. `_generate_job_id` formats `JOB_<timestamp>_<agent>[_<dr>]`; the model keeps the
      three parts apart, with the clock reading standing for the timestamp. */
  datatype JobId = JobId(stamp: int, agent: string, dr: Option<string>)

  /** The job id `_generate_job_id` mints: the DR suffix is added only when the DR is truthy. */
  function MintJobId(now: int, agent: string, dr: Option<string>): (j: JobId)
    ensures j.stamp == now && j.agent == agent
    ensures j.dr.Some? <==> Truthy(dr)
  {
    JobId(now, agent, if Truthy(dr) then dr else None)
  }

  /** `VerificationResult`: the verdict on one photo for one step. */
  datatype Verdict = Verdict(
    step: int,
    stepName: string,
    passed: bool,
    score: real,
    issues: seq<string>,
    confidence: real,
    recommendation: string)

  /** An incoming message as the webhook hands it over. */
  datatype Message = Message(from: string, body: string, mediaUrl: Option<string>, mediaId: Option<string>)

  /** What `download_photo` did: returned a path (possibly empty or `None`) or raised. */
  datatype Fetch = Fetched(path: Option<string>) | FetchRaised

  /** The praise line of a passed verdict's reply: both bot generations praise a score of at
      least 9 as excellent and one of at least 7 as a good job. */
  datatype Praise = Excellent | GoodJob | NoPraise

  /** `dict.get(k, default)`. */
  function Get<K, V>(m: map<K, V>, k: K, default: V): (v: V)
    ensures k in m ==> v == m[k]
    ensures k !in m ==> v == default
  {
    if k in m then m[k] else default
  }

  lemma SubsetCard<T>(a: set<T>, b: set<T>)
    requires a <= b
    ensures |a| <= |b|
  {
    assert b == a + (b - a);
  }

  /** The same message sent `k` times. */
  function Repeat<T>(x: T, k: nat): (xs: seq<T>)
    ensures |xs| == k && forall i :: 0 <= i < k ==> xs[i] == x
  {
    if k == 0 then [] else [x] + Repeat(x, k - 1)
  }
}
