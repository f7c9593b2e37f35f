/** The legacy photo verifier (foto_bot_backup_20251003_164238/src/verifier.py): what it makes of
    the vision model's answer for one step, and the pass rule of a batch of steps. The model
    call, image encoding and JSON decoding are inputs. */
module LegacyVerifier {
  import opened Common
  import opened Text
  import LP = LegacyPrompts

  /** `step_keys` of `verify_step`: which prompt each step is verified against. */
  const StepKeys: map<int, string> := map[
    1 := "step1_frontage",
    2 := "step2_wall_before",
    3 := "step3_cable_span",
    4 := "step4_entry_outside",
    5 := "step5_entry_inside",
    6 := "step6_ont_connection",
    7 := "step7_patched_labelled",
    8 := "step8_work_area_complete",
    9 := "step9_ont_barcode",
    10 := "step10_mini_ups",
    11 := "step11_powermeter_reading",
    12 := "step12_powermeter_ont",
    13 := "step13_active_light",
    14 := "step14_customer_signature"
  ]

  /** The table of `_get_step_name`, a copy kept inside the verifier. */
  const StepNameTable: map<int, string> := map[
    1 := "Property Frontage",
    2 := "Location on Wall (Before Install)",
    3 := "Outside Cable Span",
    4 := "Home Entry Point - Outside",
    5 := "Home Entry Point - Inside",
    6 := "Fibre Entry to ONT",
    7 := "Patched & Labelled Drop",
    8 := "Overall Work Area After Completion",
    9 := "ONT Barcode",
    10 := "Mini-UPS Serial Number",
    11 := "Powermeter Reading (Drop/Feeder)",
    12 := "Powermeter at ONT (Before Activation)",
    13 := "Active Broadband Light",
    14 := "Customer Signature"
  ]

  /** Every step of the rubric has a prompt key, and every key names a prompt, so a step in
      1..14 never takes the invalid-step branch; no other step has a key. */
  lemma StepKeysArePrompts()
    ensures forall n :: n in StepKeys <==> 1 <= n <= LP.StepCount
    ensures forall n :: n in StepKeys ==> StepKeys[n] == LP.PromptKeys[n - 1]
  {
  }

  /** The verifier's copy of the step names agrees entry by entry with the rubric's table. */
  lemma StepNameTableAgrees()
    ensures StepNameTable == LP.StepNames
  {
  }

  /** `_get_step_name`: the rubric's name of a step in 1..14, `Step <n>` for any other. */
  function StepName(n: int): (name: string)
    ensures 1 <= n <= LP.StepCount ==> name == LP.StepNames[n]
    ensures !(1 <= n <= LP.StepCount) ==> name == "Step " + IntToString(n)
  {
    StepNameTableAgrees();
    if n in StepNameTable then StepNameTable[n] else "Step " + IntToString(n)
  }

  /** What the vision model call gives back: its answer text, or the message of an exception
      raised by the image encoding or the API call. */
  datatype Answer = Answered(text: string) | Raised(error: string)

  /** What `json.loads` makes of the answer: an error; valid JSON that is not an object (a
      string, number, array, boolean or null), named by its Python type (`str`, `int`, `list`,
      `NoneType`, ...); or an object whose five fields are each absent or present with the
      expected JSON type. */
  datatype Decoded =
    | NotJson
    | NotObject(kind: string)
    | JsonObject(passed: Option<bool>, score: Option<real>, issues: Option<seq<string>>,
                 confidence: Option<real>, recommendation: Option<string>)

  /** The verifier's view of the outside world. */
  datatype VerifierEnv = VerifierEnv(ask: (string, int) -> Answer, decode: string -> Decoded)

  const JsonFence := "```json"
  const Fence := "```"

  function Clamp(x: real, lo: real, hi: real): (r: real)
    requires lo <= hi
    ensures lo <= r <= hi
    ensures lo <= x <= hi ==> r == x
  {
    if x < lo then lo else if x > hi then hi else x
  }

  /** The fence handling of `verify_step`: an answer opening with "```json" loses every
      "```json" and every "```" and is then stripped; any other answer is left as it is. */
  function Unfence(t: string): (r: string)
  {
    if StartsWith(t, JsonFence) then Strip(Replace(Replace(t, JsonFence, ""), Fence, "")) else t
  }

  /** A fenced JSON body (without backquotes of its own) comes out of the fence handling as
      the stripped body. */
  lemma UnfenceBody(body: string)
    requires '`' !in body
    ensures Unfence(JsonFence + body + Fence) == Strip(body)
  {
    var t := JsonFence + body + Fence;
    assert StartsWith(t, JsonFence) by {
      assert t[..|JsonFence|] == JsonFence;
    }
    assert Replace(t, JsonFence, "") == Replace(body + Fence, JsonFence, "") by {
      assert t[..|JsonFence|] == JsonFence && t[|JsonFence|..] == body + Fence;
    }
    NotContainsBeforeShortTail(body, Fence, JsonFence);
    ReplaceAbsent(body + Fence, JsonFence, "");
    ReplaceTrailing(body, Fence);
  }

  /** An answer without backquotes is left as it is. */
  lemma UnfencePlain(t: string)
    requires '`' !in t
    ensures Unfence(t) == t
  {
    if |t| >= |JsonFence| {
      assert t[..|JsonFence|][0] == t[0];
    }
  }

  /** The keywords of `_parse_text_response`. */
  const PassKeywords: seq<string> := ["pass", "good", "excellent", "proper", "correct"]
  const FailKeywords: seq<string> := ["fail", "issue", "problem", "error", "missing", "blurry"]

  const LooksGood := "Photo looks good!"

  /** The fallback's own "looks good" text reads as a pass. */
  lemma LooksGoodReadsAsPass(t: string)
    requires t == LooksGood
    ensures ContainsAny(Lower(t), PassKeywords) && !ContainsAny(Lower(t), FailKeywords)
  {
    LowerLooksGood(t);
    LooksGoodKeywords(Lower(t));
  }

  lemma LowerLooksGood(t: string)
    requires t == LooksGood
    ensures Lower(t) == "photo looks good!"
  {
  }

  /** "good" occurs in the lower-cased text and no fail keyword does: "problem" shares only
      its first letter, at the head, and every other fail keyword starts with a letter the
      text lacks. */
  lemma LooksGoodKeywords(l: string)
    requires l == "photo looks good!"
    ensures ContainsAny(l, PassKeywords) && !ContainsAny(l, FailKeywords)
  {
    assert l[12..][..4] == "good";
    ContainsAt(l, "good", 12);
    assert PassKeywords[1] == "good";
    AbsentByFirstChar(l, FailKeywords[0]);
    AbsentByFirstChar(l, FailKeywords[1]);
    ProblemAbsent(l);
    AbsentByFirstChar(l, FailKeywords[3]);
    AbsentByFirstChar(l, FailKeywords[4]);
    AbsentByFirstChar(l, FailKeywords[5]);
  }

  /** A keyword opening with a letter the lower-cased text lacks does not occur in it. */
  lemma AbsentByFirstChar(l: string, p: string)
    requires l == "photo looks good!"
    requires |p| > 0 && p[0] in "fiemb"
    ensures !Contains(l, p)
  {
    forall i | 0 <= i < |l|
      ensures l[i] != p[0]
    {
    }
    NotContainsByFirstChar(l, p);
  }

  lemma ProblemAbsent(l: string)
    requires l == "photo looks good!"
    ensures !Contains(l, FailKeywords[2])
  {
    var p := FailKeywords[2];
    assert p == "problem";
    assert p[1] == 'r' && l[1] == 'h';
    assert l[..|p|][1] == l[1];
    assert !StartsWith(l, p);
    var rest := l[1..];
    assert rest == "hoto looks good!";
    forall i | 0 <= i < |rest|
      ensures rest[i] != 'p'
    {
    }
    NotContainsByFirstChar(rest, p);
  }

  /** `_parse_text_response`: a pass exactly when the lower-cased text contains some pass
      keyword and no fail keyword (substring tests). A pass scores 8 with no issues and the
      "looks good" recommendation; a fail scores 4 and carries the text as its one issue and
      its recommendation. The confidence is 0.5 either way. */
  function ParseTextResponse(text: string, n: int): (v: Verdict)
    ensures v.passed <==> ContainsAny(Lower(text), PassKeywords) && !ContainsAny(Lower(text), FailKeywords)
    ensures v.step == n && v.stepName == StepName(n) && v.confidence == 0.5
    ensures v.score == (if v.passed then 8.0 else 4.0)
    ensures v.issues == [] <==> v.passed
    ensures !v.passed ==> v.issues == [text]
    ensures v.recommendation == LooksGood <==> v.passed
  {
    var lower := Lower(text);
    var passed := ContainsAny(lower, PassKeywords) && !ContainsAny(lower, FailKeywords);
    assert text == LooksGood ==> passed by {
      if text == LooksGood { LooksGoodReadsAsPass(text); }
    }
    Verdict(n, StepName(n), passed, if passed then 8.0 else 4.0,
            if passed then [] else [text], 0.5, if passed then LooksGood else text)
  }

  /** The verdict for a step number without a prompt. */
  function InvalidStep(n: int): Verdict
  {
    Verdict(n, "Step " + IntToString(n), false, 0.0, ["Invalid step number: " + IntToString(n)],
            1.0, "Please use a valid step number (1-14)")
  }

  /** The verdict when encoding or the model call raised `error`. */
  function VerificationError(n: int, error: string): Verdict
  {
    Verdict(n, StepName(n), false, 0.0, ["Verification error: " + error], 0.0,
            "Please try again or contact support if problem persists")
  }

  /** The verdict built from a decoded JSON object: missing fields default to a fail, score 0,
      no issues, confidence 0 and an empty recommendation; score and confidence are clamped. */
  function FromJson(d: Decoded, n: int): Verdict
    requires d.JsonObject?
  {
    Verdict(n, StepName(n), Get(OptionMap(d.passed), 0, false),
            Clamp(Get(OptionMap(d.score), 0, 0.0), 0.0, 10.0),
            Get(OptionMap(d.issues), 0, []),
            Clamp(Get(OptionMap(d.confidence), 0, 0.0), 0.0, 1.0),
            Get(OptionMap(d.recommendation), 0, ""))
  }

  /** An optional JSON field as a one-key dictionary. */
  function OptionMap<T>(o: Option<T>): (m: map<int, T>)
    ensures 0 in m <==> o.Some?
    ensures o.Some? ==> m[0] == o.value
  {
    if o.Some? then map[0 := o.value] else map[]
  }

  /** The message of the `AttributeError` that `.get` raises on a decoded value that is not a
      dictionary. */
  function NoGetError(kind: string): string
  {
    "'" + kind + "' object has no attribute 'get'"
  }

  /** `verify_step`. A step without a prompt gets the invalid-step verdict and the model is not
      asked. Otherwise an exception gives the verification-error verdict; an answer is
      unfenced and decoded; a decoded object gives the clamped verdict; valid JSON that is not
      an object makes `.get` raise, which the outer handler turns into the verification-error
      verdict; an answer that is not JSON gets the keyword fallback on the unfenced text. */
  function VerifyStep(env: VerifierEnv, path: string, n: int): (v: Verdict)
    ensures v.step == n
    ensures 0.0 <= v.score <= 10.0 && 0.0 <= v.confidence <= 1.0
    ensures !(1 <= n <= LP.StepCount) ==> v == InvalidStep(n)
    ensures 1 <= n <= LP.StepCount ==> v.stepName == LP.StepNames[n]
    ensures 1 <= n <= LP.StepCount && env.ask(path, n).Raised? ==>
      && !v.passed && v.score == 0.0 && v.confidence == 0.0
      && |v.issues| == 1 && StartsWith(v.issues[0], "Verification error")
    ensures 1 <= n <= LP.StepCount && env.ask(path, n).Answered?
            && env.decode(Unfence(env.ask(path, n).text)).NotObject? ==>
      v == VerificationError(n, NoGetError(env.decode(Unfence(env.ask(path, n).text)).kind))
    ensures v.passed ==> 1 <= n <= LP.StepCount && env.ask(path, n).Answered?
                         && !env.decode(Unfence(env.ask(path, n).text)).NotObject?
  {
    StepKeysArePrompts();
    if n !in StepKeys || StepKeys[n] !in LP.PromptKeys then InvalidStep(n)
    else
      match env.ask(path, n)
      case Raised(e) =>
        assert ("Verification error: " + e)[..18] == "Verification error";
        VerificationError(n, e)
      case Answered(t) =>
        var text := Unfence(t);
        var d := env.decode(text);
        match d
        case JsonObject(_, _, _, _, _) => FromJson(d, n)
        case NotObject(kind) => VerificationError(n, NoGetError(kind))
        case NotJson => ParseTextResponse(text, n)
  }

  /** A decoded answer yields its own fields, clamped, with the defaults `verify_step` passes to `.get`. */
  lemma DecodedFields(env: VerifierEnv, path: string, n: int, t: string)
    requires 1 <= n <= LP.StepCount
    requires env.ask(path, n) == Answered(t)
    requires env.decode(Unfence(t)).JsonObject?
    ensures var d := env.decode(Unfence(t)); var v := VerifyStep(env, path, n);
      && (v.passed <==> d.passed == Some(true))
      && (d.score.Some? && 0.0 <= d.score.value <= 10.0 ==> v.score == d.score.value)
      && (d.score.Some? && d.score.value > 10.0 ==> v.score == 10.0)
      && (d.score.None? || d.score.value < 0.0 ==> v.score == 0.0)
      && (d.confidence.Some? && 0.0 <= d.confidence.value <= 1.0 ==> v.confidence == d.confidence.value)
      && (d.confidence.None? ==> v.confidence == 0.0)
      && v.issues == (if d.issues.Some? then d.issues.value else [])
      && v.recommendation == (if d.recommendation.Some? then d.recommendation.value else "")
  {
    StepKeysArePrompts();
  }

  /** An answer that does not decode falls back to the keyword reading of the unfenced text. */
  lemma UndecodedFallsBack(env: VerifierEnv, path: string, n: int, t: string)
    requires 1 <= n <= LP.StepCount
    requires env.ask(path, n) == Answered(t)
    requires env.decode(Unfence(t)) == NotJson
    ensures VerifyStep(env, path, n) == ParseTextResponse(Unfence(t), n)
  {
    StepKeysArePrompts();
  }

  /** Valid JSON that is not an object never passes: it scores 0 at confidence 0 with the
      `AttributeError` as its one issue, so a batch does not average it in. */
  lemma NonObjectIsError(env: VerifierEnv, path: string, n: int, t: string, kind: string)
    requires 1 <= n <= LP.StepCount
    requires env.ask(path, n) == Answered(t)
    requires env.decode(Unfence(t)) == NotObject(kind)
    ensures var v := VerifyStep(env, path, n);
      && !v.passed && v.score == 0.0 && v.confidence == 0.0 && v.confidence <= ConfidenceFloor
      && v.issues == ["Verification error: '" + kind + "' object has no attribute 'get'"]
  {
    var v := VerifyStep(env, path, n);
    assert v == VerificationError(n, NoGetError(kind));
    assert "Verification error: " + NoGetError(kind)
        == "Verification error: '" + kind + "' object has no attribute 'get'";
  }

  /** One submitted photo of a batch: its step and path, in the dictionary's order. */
  datatype Submission = Submission(step: int, path: string)

  /** The keys of a dictionary are distinct. */
  predicate DistinctSteps(subs: seq<Submission>)
  {
    forall i, j :: 0 <= i < j < |subs| ==> subs[i].step != subs[j].step
  }

  /** `PASSING_SCORE_THRESHOLD` and `PASSING_COMPLETION_RATE` of the legacy configuration,
      the minimum number of passed steps and the confidence a result needs to be averaged. */
  const PassingScore: real := 8.0
  const PassingCompletionRate: real := 0.85
  const MinPassedSteps: nat := 12
  const ConfidenceFloor: real := 0.3

  /** The verdict for a submitted path that does not exist. */
  function MissingPhoto(n: int): (v: Verdict)
    ensures !v.passed && v.issues == ["Photo not provided"] && v.confidence == 1.0
  {
    Verdict(n, StepName(n), false, 0.0, ["Photo not provided"], 1.0, "Please upload photo for this step")
  }

  /** The result a batch records for one submission. */
  function BatchResult(sub: Submission, onDisk: string -> bool, env: VerifierEnv): Verdict
  {
    if onDisk(sub.path) then VerifyStep(env, sub.path, sub.step) else MissingPhoto(sub.step)
  }

  /** A result enters the average only if its photo exists and the verdict is confident. */
  predicate Counted(sub: Submission, onDisk: string -> bool, env: VerifierEnv)
  {
    onDisk(sub.path) && VerifyStep(env, sub.path, sub.step).confidence > ConfidenceFloor
  }

  function TotalScore(subs: seq<Submission>, onDisk: string -> bool, env: VerifierEnv): (t: real)
    ensures 0.0 <= t <= 10.0 * VerifiedCount(subs, onDisk, env) as real
    decreases |subs|
  {
    if |subs| == 0 then 0.0
    else
      var s := subs[|subs| - 1];
      TotalScore(subs[..|subs| - 1], onDisk, env)
      + (if Counted(s, onDisk, env) then VerifyStep(env, s.path, s.step).score else 0.0)
  }

  function VerifiedCount(subs: seq<Submission>, onDisk: string -> bool, env: VerifierEnv): (k: nat)
    ensures k <= |subs|
    decreases |subs|
  {
    if |subs| == 0 then 0
    else VerifiedCount(subs[..|subs| - 1], onDisk, env) + (if Counted(subs[|subs| - 1], onDisk, env) then 1 else 0)
  }

  /** How many recorded results passed. */
  function PassedCount(subs: seq<Submission>, onDisk: string -> bool, env: VerifierEnv): (k: nat)
    ensures k <= |subs|
    decreases |subs|
  {
    if |subs| == 0 then 0
    else PassedCount(subs[..|subs| - 1], onDisk, env) + (if BatchResult(subs[|subs| - 1], onDisk, env).passed then 1 else 0)
  }

  /** How many submitted photos exist. */
  function ExistingCount(subs: seq<Submission>, onDisk: string -> bool): (k: nat)
    ensures k <= |subs|
    decreases |subs|
  {
    if |subs| == 0 then 0
    else ExistingCount(subs[..|subs| - 1], onDisk) + (if onDisk(subs[|subs| - 1].path) then 1 else 0)
  }

  /** The figures of `verify_installation_batch` (rounding left out) and its status. */
  datatype BatchReport = BatchReport(
    averageScore: real,
    completionRate: real,
    submitted: nat,
    passedSteps: nat,
    verifiedSteps: nat,
    pass: bool)

  /** `verify_installation_batch`. The average is over the counted results only (0 when none
      counts); the completion rate is the share of the 14 steps submitted, in percent; the
      batch passes when the average reaches the passing score, the completion rate reaches
      the passing rate and at least 12 results passed. */
  function VerifyBatch(subs: seq<Submission>, onDisk: string -> bool, env: VerifierEnv): (r: BatchReport)
    requires DistinctSteps(subs)
    ensures 0.0 <= r.averageScore <= 10.0
    ensures r.submitted == |subs| && r.verifiedSteps <= |subs| && r.passedSteps <= |subs|
    ensures r.pass ==> r.averageScore >= PassingScore && r.passedSteps >= MinPassedSteps
  {
    var total := TotalScore(subs, onDisk, env);
    var verified := VerifiedCount(subs, onDisk, env);
    var average := if verified > 0 then MeanBound(total, verified); total / verified as real else 0.0;
    var completion := |subs| as real / LP.StepCount as real * 100.0;
    var passedSteps := PassedCount(subs, onDisk, env);
    BatchReport(average, completion, |subs|, passedSteps, verified,
                average >= PassingScore && completion >= PassingCompletionRate * 100.0
                && passedSteps >= MinPassedSteps)
  }

  lemma MeanBound(total: real, k: nat)
    requires k > 0 && 0.0 <= total <= 10.0 * k as real
    ensures 0.0 <= total / k as real <= 10.0
  {
    assert total / k as real * k as real == total;
  }

  /** Only photos that exist can pass: a missing photo's verdict never does. */
  lemma {:induction false} PassedNeedExisting(subs: seq<Submission>, onDisk: string -> bool, env: VerifierEnv)
    ensures PassedCount(subs, onDisk, env) <= ExistingCount(subs, onDisk)
    decreases |subs|
  {
    if |subs| > 0 {
      PassedNeedExisting(subs[..|subs| - 1], onDisk, env);
    }
  }

  /** The completion guard is exactly "at least 12 photos submitted", so it is implied by the
      guard of 12 passed steps and never decides the status on its own. */
  lemma CompletionGuard(subs: seq<Submission>, onDisk: string -> bool, env: VerifierEnv)
    requires DistinctSteps(subs)
    ensures var r := VerifyBatch(subs, onDisk, env);
      && (r.completionRate >= PassingCompletionRate * 100.0 <==> |subs| >= 12)
      && (r.pass <==> r.averageScore >= PassingScore && r.passedSteps >= MinPassedSteps)
  {
    var r := VerifyBatch(subs, onDisk, env);
    assert r.completionRate == |subs| as real * 100.0 / 14.0;
  }

  /** A passing batch has at least 12 photos that exist and passed. */
  lemma PassingBatchHasTwelvePhotos(subs: seq<Submission>, onDisk: string -> bool, env: VerifierEnv)
    requires DistinctSteps(subs)
    requires VerifyBatch(subs, onDisk, env).pass
    ensures ExistingCount(subs, onDisk) >= MinPassedSteps
  {
    PassedNeedExisting(subs, onDisk, env);
  }

  /** Appending a result that does not count leaves the average's sum and count alone. */
  lemma UncountedIgnored(subs: seq<Submission>, s: Submission, onDisk: string -> bool, env: VerifierEnv)
    requires !Counted(s, onDisk, env)
    ensures TotalScore(subs + [s], onDisk, env) == TotalScore(subs, onDisk, env)
    ensures VerifiedCount(subs + [s], onDisk, env) == VerifiedCount(subs, onDisk, env)
  {
    assert (subs + [s])[..|subs|] == subs;
  }
}
