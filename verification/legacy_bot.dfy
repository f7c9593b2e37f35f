/** The legacy bot (foto_bot_backup_20251003_164238/src/bot/bot.py): a photo goes straight to
    the 14-step verifier, and only START/NEW, STATUS, HELP and RESET are commands. */
module LegacyBot {
  import opened Common
  import opened Text
  import Phone
  import P = Progress
  import LP = LegacyPrompts
  import LV = LegacyVerifier
  import opened LegacySessions

  /** What `process_message` dispatches on. */
  datatype LegacyEvent = PhotoEvent | StartCmd | StatusCmd | HelpCmd | ResetCmd | UnknownCmd(text: string)

  /** The routing of `process_message`: a truthy media URL is a photo whatever the text;
      otherwise the stripped, upper-cased body is START or NEW, STATUS, HELP, RESET, or
      unknown. */
  function Route(body: string, mediaUrl: Option<string>): (e: LegacyEvent)
    ensures Truthy(mediaUrl) <==> e == PhotoEvent
    ensures !Truthy(mediaUrl) ==>
      && (e == StartCmd <==> Canon(body) in {"START", "NEW"})
      && (e == StatusCmd <==> Canon(body) == "STATUS")
      && (e == HelpCmd <==> Canon(body) == "HELP")
      && (e == ResetCmd <==> Canon(body) == "RESET")
      && (e.UnknownCmd? ==> e.text == Canon(body))
  {
    var t := Canon(body);
    if Truthy(mediaUrl) then PhotoEvent
    else if t in {"START", "NEW"} then StartCmd
    else if t == "STATUS" then StatusCmd
    else if t == "HELP" then HelpCmd
    else if t == "RESET" then ResetCmd
    else UnknownCmd(t)
  }

  /** The replies, one kind per distinct message, with the data each shows. */
  datatype LegacyReply =
    | Started(jobId: JobId, agentId: string)
    | NoSession
    | StatusCompleted(jobId: JobId)
    | StatusInProgress(jobId: JobId, completedCount: nat, completedSteps: set<int>, current: Option<int>)
    | HelpText
    | UnknownCommand(text: string)
    | AlreadyCompleted(jobId: JobId)
    | DownloadError
    | ProcessingError
    | Passed(step: int, stepName: string, praise: Praise, completedCount: nat, next: Option<int>)
    | NeedsRetake(step: int, stepName: string, shownIssues: seq<string>, moreIssues: nat,
                  recommendation: string, completedCount: nat)

  /** Everything the legacy bot consults outside itself. */
  datatype LegacyEnv = LegacyEnv(now: int, download: (Option<string>, JobId) -> Fetch, verifier: LV.VerifierEnv)

  const MaxShownIssues: nat := 5

  /** `_format_verification_response`, given the session as it was before the step was
      recorded. A pass counts the step in and names the next step while there is one; a fail
      shows at most five issues and counts the rest. */
  function FormatVerification(v: Verdict, s: LegacySession): (r: LegacyReply)
    ensures v.passed <==> r.Passed?
    ensures v.passed ==>
      && r.step == v.step && r.completedCount == |s.progress.completed| + 1
      && (r.next.Some? <==> v.step + 1 <= LP.StepCount)
      && (r.next.Some? ==> r.next.value == v.step + 1)
      && (r.praise == Excellent <==> v.score >= 9.0)
      && (r.praise == GoodJob <==> 7.0 <= v.score < 9.0)
    ensures !v.passed ==>
      && r.NeedsRetake? && r.step == v.step
      && |r.shownIssues| <= MaxShownIssues
      && |r.shownIssues| + r.moreIssues == |v.issues|
      && r.shownIssues == v.issues[..|r.shownIssues|]
      && (r.moreIssues > 0 <==> |v.issues| > MaxShownIssues)
      && r.recommendation == v.recommendation
      && r.completedCount == |s.progress.completed|
  {
    if v.passed then
      var praise := if v.score >= 9.0 then Excellent else if v.score >= 7.0 then GoodJob else NoPraise;
      var next := if v.step + 1 <= LP.StepCount then Some(v.step + 1) else None;
      Passed(v.step, v.stepName, praise, |s.progress.completed| + 1, next)
    else
      var shown := if |v.issues| > MaxShownIssues then v.issues[..MaxShownIssues] else v.issues;
      var more := if |v.issues| > MaxShownIssues then |v.issues| - MaxShownIssues else 0;
      NeedsRetake(v.step, v.stepName, shown, more, v.recommendation, |s.progress.completed|)
  }

  /** `_handle_photo_message`: get or create the session; past step 14 only the completion
      reply; otherwise download, verify the cursor's step and, on a pass only, complete it. */
  function HandlePhoto(st: LegacyStore, from: string, mediaId: Option<string>, env: LegacyEnv): (r: (LegacyStore, LegacyReply))
    ensures st.Keys <= r.0.Keys
    ensures var g := GetOrCreateSession(st, from, None, env.now);
      var f := env.download(mediaId, g.1.jobId);
      || r.0 == g.0
      || (g.1.Cursor() <= LP.StepCount && f.Fetched? && Truthy(f.path)
          && r.0 == CompleteStep(g.0, from, g.1.Cursor(), f.path.value, env.now))
    ensures var g := GetOrCreateSession(st, from, None, env.now);
      g.1.Cursor() > LP.StepCount ==> r == (g.0, AlreadyCompleted(g.1.jobId))
    ensures var g := GetOrCreateSession(st, from, None, env.now);
      var f := env.download(mediaId, g.1.jobId);
      g.1.Cursor() <= LP.StepCount ==>
        && (f.FetchRaised? ==> r == (g.0, ProcessingError))
        && (f.Fetched? && !Truthy(f.path) ==> r == (g.0, DownloadError))
        && (f.Fetched? && Truthy(f.path) ==>
              var v := LV.VerifyStep(env.verifier, f.path.value, g.1.Cursor());
              && r.1 == FormatVerification(v, g.1)
              && (v.passed ==> r.0 == CompleteStep(g.0, from, g.1.Cursor(), f.path.value, env.now))
              && (!v.passed ==> r.0 == g.0))
  {
    var (st1, s) := GetOrCreateSession(st, from, None, env.now);
    if s.Cursor() > LP.StepCount then (st1, AlreadyCompleted(s.jobId))
    else
      match env.download(mediaId, s.jobId)
      case FetchRaised => (st1, ProcessingError)
      case Fetched(p) =>
        if !Truthy(p) then (st1, DownloadError)
        else
          var v := LV.VerifyStep(env.verifier, p.value, s.Cursor());
          var reply := FormatVerification(v, s);
          if v.passed then (CompleteStep(st1, from, s.Cursor(), p.value, env.now), reply)
          else (st1, reply)
  }

  /** `_handle_start_command`: get or create the session and report its job. */
  function HandleStart(st: LegacyStore, from: string, now: int): (r: (LegacyStore, LegacyReply))
    ensures st.Keys <= r.0.Keys
    ensures r.0 == GetOrCreateSession(st, from, None, now).0
    ensures r.1 == Started(GetOrCreateSession(st, from, None, now).1.jobId, GetOrCreateSession(st, from, None, now).1.agentId)
  {
    var (st1, s) := GetOrCreateSession(st, from, None, now);
    (st1, Started(s.jobId, s.agentId))
  }

  /** `_handle_status_command`, a read-only view. */
  function StatusView(st: LegacyStore, from: string): (r: LegacyReply)
    ensures GetSession(st, from).None? <==> r == NoSession
    ensures GetSession(st, from).Some? && GetSession(st, from).value.Status() == Completed ==>
      r == StatusCompleted(GetSession(st, from).value.jobId)
    ensures r.StatusInProgress? ==>
      var s := GetSession(st, from).value;
      && s.Status() != Completed
      && r.completedSteps == s.progress.completed.Keys
      && r.completedCount == |s.progress.completed|
      && (r.current.Some? <==> s.Cursor() <= LP.StepCount)
  {
    match GetSession(st, from)
    case None => NoSession
    case Some(s) =>
      if s.Status() == Completed then StatusCompleted(s.jobId)
      else
        StatusInProgress(s.jobId, |s.progress.completed|, s.progress.completed.Keys,
                         if s.Cursor() <= LP.StepCount then Some(s.Cursor()) else None)
  }

  /** `_handle_reset_command`: `reset_session`, then the START reply. */
  function HandleReset(st: LegacyStore, from: string, now: int): (r: (LegacyStore, LegacyReply))
    ensures st.Keys <= r.0.Keys
    ensures r == HandleStart(ResetSession(st, from, now), from, now)
    ensures var s := r.0[Phone.Normalize(from)];
      s.progress == P.Progress(1, map[], Active) && s.lastActivity == now
  {
    HandleStart(ResetSession(st, from, now), from, now)
  }

  /** `process_message`. */
  function Handle(st: LegacyStore, m: Message, env: LegacyEnv): (r: (LegacyStore, LegacyReply))
    ensures st.Keys <= r.0.Keys
    ensures Route(m.body, m.mediaUrl) in {StatusCmd, HelpCmd} || Route(m.body, m.mediaUrl).UnknownCmd? ==> r.0 == st
  {
    var from := Phone.Normalize(m.from);
    match Route(m.body, m.mediaUrl)
    case PhotoEvent => HandlePhoto(st, from, m.mediaId, env)
    case StartCmd => HandleStart(st, from, env.now)
    case StatusCmd => (st, StatusView(st, from))
    case HelpCmd => (st, HelpText)
    case ResetCmd => HandleReset(st, from, env.now)
    case UnknownCmd(t) => (st, UnknownCommand(t))
  }

  /** Past step 14 a photo gets the completion reply whatever the download and the verifier
      would have done, and the store changes only as `get_or_create_session` changes it. */
  lemma CompletedGate(st: LegacyStore, from: string, mediaId: Option<string>, env1: LegacyEnv, env2: LegacyEnv)
    requires env1.now == env2.now
    requires Phone.Normalize(from) in st && st[Phone.Normalize(from)].Cursor() > LP.StepCount
    ensures HandlePhoto(st, from, mediaId, env1) == HandlePhoto(st, from, mediaId, env2)
    ensures HandlePhoto(st, from, mediaId, env1).0 == st[Phone.Normalize(from) := st[Phone.Normalize(from)].(lastActivity := env1.now)]
  {
  }

  /** In a consistent store the bot asks the verifier only about a step of the rubric, so the
      invalid-step verdict never reaches a sender. */
  lemma PhotoStepInRubric(st: LegacyStore, from: string, env: LegacyEnv)
    requires StoreConsistent(st)
    ensures var s := GetOrCreateSession(st, from, None, env.now).1;
      s.Cursor() <= LP.StepCount ==> 1 <= s.Cursor() <= LP.StepCount
  {
    HousekeepingKeepsConsistent(st, from, None, env.now);
  }

  /** A photo keeps every session consistent. */
  lemma PhotoKeepsConsistent(st: LegacyStore, from: string, mediaId: Option<string>, env: LegacyEnv)
    requires StoreConsistent(st)
    ensures StoreConsistent(HandlePhoto(st, from, mediaId, env).0)
  {
    HousekeepingKeepsConsistent(st, from, None, env.now);
    var g := GetOrCreateSession(st, from, None, env.now);
    var f := env.download(mediaId, g.1.jobId);
    var r := HandlePhoto(st, from, mediaId, env).0;
    if r != g.0 {
      assert g.0[Phone.Normalize(from)] == g.1;
      CompleteAtCursorKeepsConsistent(g.0, from, f.path.value, env.now);
    }
  }

  /** Every message keeps every session consistent: the recorded steps are exactly those
      before the cursor, and only a session past step 14 is marked completed. */
  lemma HandleKeepsConsistent(st: LegacyStore, m: Message, env: LegacyEnv)
    requires StoreConsistent(st)
    ensures StoreConsistent(Handle(st, m, env).0)
  {
    var from := Phone.Normalize(m.from);
    match Route(m.body, m.mediaUrl)
    case PhotoEvent => PhotoKeepsConsistent(st, from, m.mediaId, env);
    case StartCmd => HousekeepingKeepsConsistent(st, from, None, env.now);
    case ResetCmd =>
      HousekeepingKeepsConsistent(st, from, None, env.now);
      HousekeepingKeepsConsistent(ResetSession(st, from, env.now), from, None, env.now);
    case _ =>
  }

  /** The store after handling the messages in order, all under the same environment. */
  function Replay(st: LegacyStore, msgs: seq<Message>, env: LegacyEnv): LegacyStore
    decreases |msgs|
  {
    if |msgs| == 0 then st else Replay(Handle(st, msgs[0], env).0, msgs[1..], env)
  }

  /** Consistency holds after any run of messages. */
  lemma {:induction false} ReplayKeepsConsistent(st: LegacyStore, msgs: seq<Message>, env: LegacyEnv)
    requires StoreConsistent(st)
    ensures StoreConsistent(Replay(st, msgs, env))
    decreases |msgs|
  {
    if |msgs| > 0 {
      HandleKeepsConsistent(st, msgs[0], env);
      ReplayKeepsConsistent(Handle(st, msgs[0], env).0, msgs[1..], env);
    }
  }

  /** The session the store holds for a sender. */
  function SessionOf(st: LegacyStore, from: string): Option<LegacySession>
  {
    GetSession(st, Phone.Normalize(from))
  }

  /** Every download of the message's media succeeds and the verifier passes every step of
      the rubric. */
  ghost predicate AlwaysPasses(env: LegacyEnv, mediaId: Option<string>)
  {
    && (forall j :: env.download(mediaId, j).Fetched? && Truthy(env.download(mediaId, j).path))
    && (forall path, n :: 1 <= n <= LP.StepCount ==> LV.VerifyStep(env.verifier, path, n).passed)
  }

  /** A photo that passes, at a waiting step of a steady session, moves the cursor on by one
      and keeps the session steady. */
  lemma PassingPhotoAdvances(st: LegacyStore, m: Message, env: LegacyEnv)
    requires Truthy(m.mediaUrl) && AlwaysPasses(env, m.mediaId)
    requires SessionOf(st, m.from).Some?
    requires P.SteadyProgress(SessionOf(st, m.from).value.progress, LP.StepCount)
    requires SessionOf(st, m.from).value.Cursor() <= LP.StepCount
    ensures SessionOf(Handle(st, m, env).0, m.from).Some?
    ensures var s' := SessionOf(Handle(st, m, env).0, m.from).value;
      && s'.Cursor() == SessionOf(st, m.from).value.Cursor() + 1
      && P.SteadyProgress(s'.progress, LP.StepCount)
  {
    var from := Phone.Normalize(m.from);
    var s := SessionOf(st, m.from).value;
    var g := GetOrCreateSession(st, from, None, env.now);
    assert g.1.progress == s.progress;
    var f := env.download(m.mediaId, g.1.jobId);
    assert LV.VerifyStep(env.verifier, f.path.value, g.1.Cursor()).passed;
    assert Handle(st, m, env).0 == CompleteStep(g.0, from, g.1.Cursor(), f.path.value, env.now);
    P.PassKeepsSteady(s.progress, f.path.value, LP.StepCount);
  }

  /** From a steady session at cursor c, k passing photos (c + k <= 15) move the cursor to
      c + k and keep the session steady. */
  lemma {:induction false} PassingPhotosAdvance(st: LegacyStore, m: Message, env: LegacyEnv, k: nat)
    requires Truthy(m.mediaUrl) && AlwaysPasses(env, m.mediaId)
    requires SessionOf(st, m.from).Some?
    requires P.SteadyProgress(SessionOf(st, m.from).value.progress, LP.StepCount)
    requires SessionOf(st, m.from).value.Cursor() + k <= LP.StepCount + 1
    ensures SessionOf(Replay(st, Repeat(m, k), env), m.from).Some?
    ensures var s := SessionOf(Replay(st, Repeat(m, k), env), m.from).value;
      && s.Cursor() == SessionOf(st, m.from).value.Cursor() + k
      && P.SteadyProgress(s.progress, LP.StepCount)
    decreases k
  {
    if k > 0 {
      var ms := Repeat(m, k);
      assert ms[0] == m && ms[1..] == Repeat(m, k - 1);
      var st1 := Handle(st, m, env).0;
      assert Replay(st, ms, env) == Replay(st1, Repeat(m, k - 1), env);
      PassingPhotoAdvances(st, m, env);
      PassingPhotosAdvance(st1, m, env, k - 1);
    }
  }

  /** After START (or RESET) a sender's session is steady at step 1, so fourteen passing
      photos complete the installation with every step recorded. */
  lemma FourteenPassesComplete(st: LegacyStore, m: Message, env: LegacyEnv, n: nat)
    requires n == LP.StepCount
    requires Truthy(m.mediaUrl) && AlwaysPasses(env, m.mediaId)
    requires SessionOf(st, m.from).Some? && SessionOf(st, m.from).value.progress == P.Progress(1, map[], Active)
    ensures var s := SessionOf(Replay(st, Repeat(m, n), env), m.from);
      && s.Some?
      && s.value.Status() == Completed
      && s.value.progress.completed.Keys == P.Range(1, n + 1)
  {
    P.FreshIsSteady(n);
    PassingPhotosAdvance(st, m, env, n);
  }
}
