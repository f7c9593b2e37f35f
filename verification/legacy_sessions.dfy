/** The legacy session store (foto_bot_backup_20251003_164238/src/storage/sessions.py): one
    installation per phone number, a 14-step cursor that starts at step 1, no DR or location
    phase and no snapshots. */
module LegacySessions {
  import opened Common
  import Phone
  import P = Progress
  import LP = LegacyPrompts
  import Sessions

  /** `AgentSession` of the legacy store. */
  datatype LegacySession = LegacySession(
    agentId: string,
    phone: string,
    jobId: JobId,
    progress: P.Progress,
    sessionStart: int,
    lastActivity: int)
  {
    function Cursor(): int { progress.cursor }
    function Status(): Status { progress.status }
  }

  type LegacyStore = map<string, LegacySession>

  /** A new session: a job minted for the agent (no DR in the legacy job id), at step 1. */
  function NewSession(agent: string, phone: string, now: int): LegacySession
  {
    LegacySession(agent, phone, MintJobId(now, agent, None), P.Progress(1, map[], Active), now, now)
  }

  /** `_cleanup_old_sessions`: every session last active before the 24-hour cutoff is marked
      abandoned; nothing is removed and nothing else changes. */
  function CleanupOldSessions(st: LegacyStore, now: int): (r: LegacyStore)
    ensures r.Keys == st.Keys
    ensures forall k :: k in st && st[k].lastActivity < Sessions.Cutoff(now) ==>
      r[k] == st[k].(progress := st[k].progress.(status := Abandoned))
    ensures forall k :: k in st && st[k].lastActivity >= Sessions.Cutoff(now) ==> r[k] == st[k]
  {
    map k | k in st :: if st[k].lastActivity < Sessions.Cutoff(now)
                       then st[k].(progress := st[k].progress.(status := Abandoned)) else st[k]
  }

  function GetSession(st: LegacyStore, raw: string): (r: Option<LegacySession>)
    ensures r.Some? <==> Phone.Normalize(raw) in st
    ensures r.Some? ==> r.value == st[Phone.Normalize(raw)]
  {
    var phone := Phone.Normalize(raw);
    if phone in st then Some(st[phone]) else None
  }

  /** `get_or_create_session`. Only an unknown number triggers the cleanup, and it gets a new
      session at step 1; a known number keeps its session with `last_activity` moved to now,
      and no other session is touched. */
  function GetOrCreateSession(st: LegacyStore, raw: string, agentId: Option<string>, now: int): (r: (LegacyStore, LegacySession))
    ensures Phone.Normalize(raw) in r.0 && r.1 == r.0[Phone.Normalize(raw)]
    ensures r.0.Keys == st.Keys + {Phone.Normalize(raw)}
    ensures r.1.lastActivity == now
    ensures Phone.Normalize(raw) in st ==>
      r.1 == st[Phone.Normalize(raw)].(lastActivity := now) && r.0 == st[Phone.Normalize(raw) := r.1]
    ensures Phone.Normalize(raw) !in st ==>
      && r.0 == CleanupOldSessions(st, now)[Phone.Normalize(raw) := r.1]
      && r.1.progress == P.Progress(1, map[], Active)
      && r.1.sessionStart == now && r.1.phone == Phone.Normalize(raw)
      && r.1.agentId == (if Truthy(agentId) then agentId.value else Phone.AgentIdOf(Phone.Normalize(raw)))
      && r.1.jobId == MintJobId(now, r.1.agentId, None)
  {
    var phone := Phone.Normalize(raw);
    var st1 := if phone in st then st
      else
        var agent := if Truthy(agentId) then agentId.value else Phone.AgentIdOf(phone);
        CleanupOldSessions(st, now)[phone := NewSession(agent, phone, now)];
    var s := st1[phone].(lastActivity := now);
    (st1[phone := s], s)
  }

  /** `complete_step` with the 14-step rubric; a number without a session is ignored. */
  function CompleteStep(st: LegacyStore, raw: string, step: int, photo: string, now: int): (r: LegacyStore)
    ensures r.Keys == st.Keys
    ensures forall k :: k in st && k != Phone.Normalize(raw) ==> r[k] == st[k]
    ensures Phone.Normalize(raw) in st ==>
      var s := st[Phone.Normalize(raw)];
      r[Phone.Normalize(raw)] == s.(progress := P.CompleteStep(s.progress, step, photo, LP.StepCount), lastActivity := now)
  {
    var phone := Phone.Normalize(raw);
    if phone !in st then st
    else
      var s := st[phone];
      st[phone := s.(progress := P.CompleteStep(s.progress, step, photo, LP.StepCount), lastActivity := now)]
  }

  /** `reset_session`: back to step 1 with nothing recorded, active, under a new job for the
      same agent, with the session start moved to now; a number without a session is
      ignored. */
  function ResetSession(st: LegacyStore, raw: string, now: int): (r: LegacyStore)
    ensures r.Keys == st.Keys
    ensures forall k :: k in st && k != Phone.Normalize(raw) ==> r[k] == st[k]
    ensures Phone.Normalize(raw) in st ==>
      var s := st[Phone.Normalize(raw)];
      var s' := r[Phone.Normalize(raw)];
      && s'.progress == P.Progress(1, map[], Active)
      && s'.agentId == s.agentId && s'.phone == s.phone
      && s'.jobId == MintJobId(now, s.agentId, None)
      && s'.sessionStart == now && s'.lastActivity == now
  {
    var phone := Phone.Normalize(raw);
    if phone !in st then st
    else
      var s := st[phone];
      st[phone := s.(jobId := MintJobId(now, s.agentId, None), progress := P.Progress(1, map[], Active),
                     sessionStart := now, lastActivity := now)]
  }

  /** The numbers `get_active_sessions` reports. */
  function ActiveNumbers(st: LegacyStore): (ks: set<string>)
    ensures forall k :: k in ks <==> k in st && st[k].Status() == Active
  {
    set k | k in st && st[k].Status() == Active
  }

  function CompletedNumbers(st: LegacyStore): (ks: set<string>)
    ensures forall k :: k in ks <==> k in st && st[k].Status() == Completed
  {
    set k | k in st && st[k].Status() == Completed
  }

  /** The counts of `get_session_stats`: active and completed sessions are disjoint parts of
      all sessions. */
  function GetSessionStats(st: LegacyStore): (r: Sessions.SessionStats)
    ensures r.total == |st|
    ensures r.active == |ActiveNumbers(st)| && r.completed == |CompletedNumbers(st)|
    ensures r.active + r.completed <= r.total
  {
    var a := ActiveNumbers(st);
    var c := CompletedNumbers(st);
    assert a * c == {};
    SubsetCard(a + c, st.Keys);
    Sessions.SessionStats(|st|, |a|, |c|)
  }

  /** What the legacy store keeps true of every session: a prefix photo phase over 14 steps
      that is marked completed only once the cursor is past the last step. */
  predicate Consistent(s: LegacySession)
  {
    P.PrefixProgress(s.progress, LP.StepCount)
    && (s.Status() == Completed ==> s.Cursor() > LP.StepCount)
  }

  predicate StoreConsistent(st: LegacyStore)
  {
    forall k :: k in st ==> Consistent(st[k])
  }

  /** Cleanup, get-or-create and reset keep every session consistent. */
  lemma HousekeepingKeepsConsistent(st: LegacyStore, raw: string, agentId: Option<string>, now: int)
    requires StoreConsistent(st)
    ensures StoreConsistent(CleanupOldSessions(st, now))
    ensures StoreConsistent(GetOrCreateSession(st, raw, agentId, now).0)
    ensures StoreConsistent(ResetSession(st, raw, now))
  {
    CleanupKeepsConsistent(st, now);
    GetOrCreateKeepsConsistent(st, raw, agentId, now);
    ResetKeepsConsistent(st, raw, now);
  }

  /** Get-or-create keeps every session consistent. */
  lemma GetOrCreateKeepsConsistent(st: LegacyStore, raw: string, agentId: Option<string>, now: int)
    requires StoreConsistent(st)
    ensures StoreConsistent(GetOrCreateSession(st, raw, agentId, now).0)
  {
    var phone := Phone.Normalize(raw);
    var r := GetOrCreateSession(st, raw, agentId, now);
    if phone !in st {
      CleanupKeepsConsistent(st, now);
      FreshIsPrefix();
      assert Consistent(r.1);
    }
  }

  /** A reset keeps every session consistent. */
  lemma ResetKeepsConsistent(st: LegacyStore, raw: string, now: int)
    requires StoreConsistent(st)
    ensures StoreConsistent(ResetSession(st, raw, now))
  {
    FreshIsPrefix();
  }

  /** Marking stale sessions abandoned keeps them consistent. */
  lemma CleanupKeepsConsistent(st: LegacyStore, now: int)
    requires StoreConsistent(st)
    ensures StoreConsistent(CleanupOldSessions(st, now))
  {
  }

  /** Step 1 with nothing recorded is a prefix photo phase. */
  lemma FreshIsPrefix()
    ensures P.PrefixProgress(P.Progress(1, map[], Active), LP.StepCount)
  {
    assert P.Range(1, 1) == {};
  }

  /** Completing the step under the cursor keeps every session consistent, and a session
      completed this way is past step 14. */
  lemma CompleteAtCursorKeepsConsistent(st: LegacyStore, raw: string, photo: string, now: int)
    requires StoreConsistent(st)
    requires Phone.Normalize(raw) in st && st[Phone.Normalize(raw)].Cursor() <= LP.StepCount
    ensures var c := st[Phone.Normalize(raw)].Cursor();
      var r := CompleteStep(st, raw, c, photo, now);
      && StoreConsistent(r)
      && r[Phone.Normalize(raw)].Cursor() == c + 1
      && (r[Phone.Normalize(raw)].Status() == Completed <==> c == LP.StepCount || st[Phone.Normalize(raw)].Status() == Completed)
  {
    var s := st[Phone.Normalize(raw)];
    P.PassKeepsPrefix(s.progress, photo, LP.StepCount);
  }

  /** `complete_step` on a step other than the cursor records the photo and leaves the cursor
      where it is. */
  lemma OutOfOrderStepRecorded(st: LegacyStore, raw: string, step: int, photo: string, now: int)
    requires Phone.Normalize(raw) in st && step != st[Phone.Normalize(raw)].Cursor()
    ensures var s' := CompleteStep(st, raw, step, photo, now)[Phone.Normalize(raw)];
      && s'.Cursor() == st[Phone.Normalize(raw)].Cursor()
      && step in s'.progress.completed && s'.progress.completed[step] == photo
  {
  }
}
