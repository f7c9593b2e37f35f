/** The session store of src/storage/sessions.py: one `AgentSession` per normalised phone
    number, holding one active installation inline and snapshots of the others. The JSON file
    behind the store is left out: the store is an in-memory map, and the clock is a parameter. */
module Sessions {
  import opened Common
  import opened Text
  import Phone
  import P = Progress
  import Prompts

  /** The snapshot count `switch_to_dr` refuses to grow beyond. */
  const MaxInstallations: int := 10
  /** `Config.MAX_SESSION_DURATION_HOURS`. */
  const MaxSessionHours: int := 24
  /** The clock counts seconds. */
  const SecondsPerHour: int := 3600

  /** `location_data`: empty, a shared location, or the marker the admin SKIP leaves. */
  datatype LocationData = NoLocation | Shared(mediaUrl: string, at: int) | SkippedCheck(at: int)

  /** The fields of `AgentSession` that describe one installation; they are what a snapshot
      in `installations` saves and what a switch restores. */
  datatype Installation = Installation(
    jobId: JobId,
    progress: P.Progress,
    drNumber: Option<string>,
    locationVerified: bool,
    location: LocationData)

  /** An entry of `installations`: the saved installation and the time it was saved. */
  datatype Snapshot = Snapshot(install: Installation, savedAt: int)

  /** `AgentSession`. */
  datatype Session = Session(
    agentId: string,
    phone: string,
    active: Installation,
    sessionStart: int,
    lastActivity: int,
    installations: map<string, Snapshot>,
    currentDr: Option<string>,
    awaitingDrInput: bool)
  {
    function Cursor(): int { active.progress.cursor }
    function Status(): Common.Status { active.progress.status }
  }

  /** `SessionManager.sessions`, keyed by normalised phone number. */
  type Store = map<string, Session>

  /** The installation `reset_session` and session creation start from: awaiting a DR. */
  function AwaitingDr(agent: string, now: int): (i: Installation)
    ensures i.progress == P.Progress(0, map[], Active)
    ensures i.drNumber == None && !i.locationVerified && i.location == NoLocation
    ensures i.jobId == JobId(now, agent, None)
  {
    Installation(MintJobId(now, agent, None), P.Progress(0, map[], Active), None, false, NoLocation)
  }

  /** The installation `switch_to_dr` creates for a DR it has no snapshot of: awaiting location. */
  function FreshInstallation(agent: string, dr: string, now: int): (i: Installation)
    ensures i.progress == P.Progress(-1, map[], Active)
    ensures i.drNumber == Some(dr) && !i.locationVerified && i.location == NoLocation
    ensures i.jobId == MintJobId(now, agent, Some(dr))
  {
    Installation(MintJobId(now, agent, Some(dr)), P.Progress(-1, map[], Active), Some(dr), false, NoLocation)
  }

  /** The session `get_or_create_session` creates for an unknown number. */
  function NewSession(agent: string, phone: string, now: int): Session
  {
    Session(agent, phone, AwaitingDr(agent, now), now, now, map[], None, true)
  }

  /** The moment before which a session counts as stale. */
  function Cutoff(now: int): int
  {
    now - MaxSessionHours * SecondsPerHour
  }

  function Abandon(s: Session): Session
  {
    s.(active := s.active.(progress := s.active.progress.(status := Abandoned)))
  }

  /** `_cleanup_old_sessions`: every session last active before the cutoff is marked abandoned;
      nothing is removed and nothing else changes. */
  function CleanupOldSessions(st: Store, now: int): (r: Store)
    ensures r.Keys == st.Keys
    ensures forall k :: k in st ==> r[k].installations == st[k].installations && r[k].currentDr == st[k].currentDr
    ensures forall k :: k in st && st[k].lastActivity < Cutoff(now) ==>
      r[k].Status() == Abandoned && r[k] == st[k].(active := r[k].active) &&
      r[k].active == st[k].active.(progress := r[k].active.progress) &&
      r[k].active.progress.cursor == st[k].Cursor() &&
      r[k].active.progress.completed == st[k].active.progress.completed
    ensures forall k :: k in st && st[k].lastActivity >= Cutoff(now) ==> r[k] == st[k]
  {
    map k | k in st :: if st[k].lastActivity < Cutoff(now) then Abandon(st[k]) else st[k]
  }

  /** `get_session`. */
  function GetSession(st: Store, raw: string): (r: Option<Session>)
    ensures r.Some? <==> Phone.Normalize(raw) in st
    ensures r.Some? ==> r.value == st[Phone.Normalize(raw)]
  {
    var phone := Phone.Normalize(raw);
    if phone in st then Some(st[phone]) else None
  }

  /** `get_or_create_session`. An unknown number first triggers the stale-session cleanup and
      then gets a new session awaiting its DR; a known number keeps its session, with only
      `last_activity` moved to now, and no other session is touched. */
  function GetOrCreateSession(st: Store, raw: string, agentId: Option<string>, now: int): (r: (Store, Session))
    ensures Phone.Normalize(raw) in r.0 && r.1 == r.0[Phone.Normalize(raw)]
    ensures r.0.Keys == st.Keys + {Phone.Normalize(raw)}
    ensures forall k :: k in st ==> r.0[k].installations == st[k].installations && r.0[k].currentDr == st[k].currentDr
    ensures r.1.lastActivity == now
    ensures Phone.Normalize(raw) in st ==>
      r.1 == st[Phone.Normalize(raw)].(lastActivity := now) && r.0 == st[Phone.Normalize(raw) := r.1]
    ensures Phone.Normalize(raw) !in st ==>
      && r.0 == CleanupOldSessions(st, now)[Phone.Normalize(raw) := r.1]
      && r.1.Cursor() == 0 && r.1.active.progress.completed == map[] && r.1.Status() == Active
      && r.1.installations == map[] && r.1.currentDr == None && r.1.active.drNumber == None
      && !r.1.active.locationVerified && r.1.awaitingDrInput
      && r.1.agentId == (if Truthy(agentId) then agentId.value else Phone.AgentIdOf(Phone.Normalize(raw)))
  {
    var phone := Phone.Normalize(raw);
    var st1 := if phone in st then st
      else
        var agent := if Truthy(agentId) then agentId.value else Phone.AgentIdOf(phone);
        CleanupOldSessions(st, now)[phone := NewSession(agent, phone, now)];
    var s := st1[phone].(lastActivity := now);
    (st1[phone := s], s)
  }

  /** `update_session(location_verified=…, location_data=…, current_step=…)`, the only form
      in which the bot calls it. A number without a session is ignored. */
  function UpdateSession(st: Store, raw: string, verified: bool, loc: LocationData, cursor: int, now: int): (r: Store)
    ensures r.Keys == st.Keys
    ensures forall k :: k in st ==> r[k].installations == st[k].installations && r[k].currentDr == st[k].currentDr
    ensures Phone.Normalize(raw) !in st ==> r == st
    ensures Phone.Normalize(raw) in st ==>
      var s := st[Phone.Normalize(raw)];
      r == st[Phone.Normalize(raw) := s.(
        active := s.active.(locationVerified := verified, location := loc,
                            progress := s.active.progress.(cursor := cursor)),
        lastActivity := now)]
  {
    var phone := Phone.Normalize(raw);
    if phone !in st then st
    else
      var s := st[phone];
      st[phone := s.(active := s.active.(locationVerified := verified, location := loc,
                                          progress := s.active.progress.(cursor := cursor)),
                     lastActivity := now)]
  }

  /** `complete_step`: the active installation's progress takes the 12-step `complete_step`
      transition; a number without a session is ignored. */
  function CompleteStep(st: Store, raw: string, step: int, photo: string, now: int): (r: Store)
    ensures r.Keys == st.Keys
    ensures forall k :: k in st ==> r[k].installations == st[k].installations && r[k].currentDr == st[k].currentDr
    ensures forall k :: k in st && k != Phone.Normalize(raw) ==> r[k] == st[k]
    ensures Phone.Normalize(raw) in st ==>
      var s := st[Phone.Normalize(raw)];
      && r[Phone.Normalize(raw)].active.progress == P.CompleteStep(s.active.progress, step, photo, Prompts.StepCount)
      && r[Phone.Normalize(raw)] == s.(active := r[Phone.Normalize(raw)].active, lastActivity := now)
      && r[Phone.Normalize(raw)].active == s.active.(progress := r[Phone.Normalize(raw)].active.progress)
  {
    var phone := Phone.Normalize(raw);
    if phone !in st then st
    else
      var s := st[phone];
      st[phone := s.(active := s.active.(progress := P.CompleteStep(s.active.progress, step, photo, Prompts.StepCount)),
                     lastActivity := now)]
  }

  /** `reset_session`: back to awaiting a DR, with a new job id, and every snapshot dropped,
      not only the active installation's; the agent id and phone are kept. */
  function ResetSession(st: Store, raw: string, now: int): (r: Store)
    ensures r.Keys == st.Keys
    ensures forall k :: k in st && k != Phone.Normalize(raw) ==> r[k] == st[k]
    ensures Phone.Normalize(raw) in st ==>
      var s := st[Phone.Normalize(raw)];
      var s' := r[Phone.Normalize(raw)];
      && s'.Cursor() == 0 && s'.active.progress.completed == map[] && s'.Status() == Active
      && s'.installations == map[] && s'.currentDr == None && s'.active.drNumber == None
      && !s'.active.locationVerified && s'.active.location == NoLocation && s'.awaitingDrInput
      && s'.active.jobId == JobId(now, s.agentId, None)
      && s'.agentId == s.agentId && s'.phone == s.phone
      && s'.sessionStart == now && s'.lastActivity == now
  {
    var phone := Phone.Normalize(raw);
    if phone !in st then st
    else
      var s := st[phone];
      st[phone := Session(s.agentId, s.phone, AwaitingDr(s.agentId, now), now, now, map[], None, true)]
  }

  /** Whether `switch_to_dr` saves the outgoing installation: only when a DR is active (and
      truthy) and differs from the target. */
  predicate SavesOutgoing(s: Session, dr: string)
  {
    Truthy(s.currentDr) && s.currentDr.value != dr
  }

  /** The snapshot map after the save step of `switch_to_dr`. */
  function SavedInstallations(s: Session, dr: string, now: int): (m: map<string, Snapshot>)
    ensures m.Keys == s.installations.Keys + (if SavesOutgoing(s, dr) then {s.currentDr.value} else {})
    ensures SavesOutgoing(s, dr) ==> m[s.currentDr.value] == Snapshot(s.active, now)
    ensures forall k :: k in s.installations && !(SavesOutgoing(s, dr) && k == s.currentDr.value) ==>
      m[k] == s.installations[k]
  {
    if SavesOutgoing(s, dr) then s.installations[s.currentDr.value := Snapshot(s.active, now)]
    else s.installations
  }

  /** `switch_to_dr`. The DR is stripped and upper-cased first. It fails, changing nothing, for
      an unknown number, or when the target has no snapshot while 10 or more snapshots exist
      (the active installation is not counted, and the check comes before the save). On
      success the outgoing installation is saved under its DR (unless it is the target), the
      target's snapshot is restored (and kept), or a fresh installation awaiting location is
      created, and the target becomes the current DR. */
  function SwitchToDr(st: Store, raw: string, rawDr: string, now: int): (r: (Store, bool))
    ensures var phone := Phone.Normalize(raw); var dr := Canon(rawDr);
      r.1 <==> phone in st && (dr in st[phone].installations || |st[phone].installations| < MaxInstallations)
    ensures !r.1 ==> r.0 == st
    ensures r.0.Keys == st.Keys
    ensures r.1 ==>
      var phone := Phone.Normalize(raw);
      var dr := Canon(rawDr);
      var s := st[phone];
      var s' := r.0[phone];
      && r.0 == st[phone := s']
      && s'.agentId == s.agentId && s'.phone == s.phone && s'.sessionStart == s.sessionStart
      && s'.currentDr == Some(dr) && !s'.awaitingDrInput && s'.lastActivity == now
      && s'.installations == SavedInstallations(s, dr, now)
      && s'.installations.Keys == s.installations.Keys + (if SavesOutgoing(s, dr) then {s.currentDr.value} else {})
      && (SavesOutgoing(s, dr) ==> s'.installations[s.currentDr.value] == Snapshot(s.active, now))
      && (forall k :: k in s.installations && !(SavesOutgoing(s, dr) && k == s.currentDr.value) ==>
            k in s'.installations && s'.installations[k] == s.installations[k])
      && (dr in s.installations ==> s'.active == s.installations[dr].install && dr in s'.installations)
      && (dr !in s.installations ==> s'.active == FreshInstallation(s.agentId, dr, now))
  {
    var phone := Phone.Normalize(raw);
    var dr := Canon(rawDr);
    if phone !in st then (st, false)
    else
      var s := st[phone];
      if dr !in s.installations && |s.installations| >= MaxInstallations then (st, false)
      else
        var saved := SavedInstallations(s, dr, now);
        var active := if dr in saved then saved[dr].install else FreshInstallation(s.agentId, dr, now);
        var s' := s.(active := active, installations := saved, currentDr := Some(dr),
                     awaitingDrInput := false, lastActivity := now);
        (st[phone := s'], true)
  }

  /** One row of `get_installation_list` (the progress percentage is `completed_count / 12`). */
  datatype InstallInfo = InstallInfo(
    dr: string,
    jobId: JobId,
    cursor: int,
    completedCount: nat,
    status: Common.Status,
    isCurrent: bool)

  /** The DRs `get_installation_list` reports: the current one if truthy, and every snapshot
      key other than the current DR. */
  function ListedDrs(s: Session): set<string>
  {
    (if Truthy(s.currentDr) then {s.currentDr.value} else {})
    + (s.installations.Keys - (if s.currentDr.Some? then {s.currentDr.value} else {}))
  }

  /** The row for one listed DR: built from the live fields for the current DR, from the
      snapshot for the others. */
  function InfoFor(s: Session, dr: string): (x: InstallInfo)
    requires dr in ListedDrs(s)
    ensures x.dr == dr
    ensures x.isCurrent <==> Truthy(s.currentDr) && dr == s.currentDr.value
  {
    if Truthy(s.currentDr) && dr == s.currentDr.value then
      InstallInfo(dr, s.active.jobId, s.Cursor(), |s.active.progress.completed|, s.Status(), true)
    else
      var i := s.installations[dr].install;
      InstallInfo(dr, i.jobId, i.progress.cursor, |i.progress.completed|, i.progress.status, false)
  }

  /** The rows for a list of listed DRs, in the same order. */
  function RowsOf(s: Session, drs: seq<string>): (r: seq<InstallInfo>)
    requires forall i :: 0 <= i < |drs| ==> drs[i] in ListedDrs(s)
    ensures |r| == |drs|
    ensures forall i :: 0 <= i < |r| ==> r[i] == InfoFor(s, drs[i]) && r[i].dr == drs[i]
  {
    seq(|drs|, i requires 0 <= i < |drs| => InfoFor(s, drs[i]))
  }

  /** The rows of one session's installation list: sorted by DR, one per listed DR, each built
      by `InfoFor`. */
  function InstallationRows(s: Session): (r: seq<InstallInfo>)
    ensures |r| == |ListedDrs(s)|
    ensures forall i :: 0 <= i < |r| ==> r[i].dr in ListedDrs(s) && r[i] == InfoFor(s, r[i].dr)
    ensures forall i, j :: 0 <= i < j < |r| ==> Less(r[i].dr, r[j].dr)
    ensures forall i :: 0 <= i < |r| ==> (r[i].isCurrent <==> Truthy(s.currentDr) && r[i].dr == s.currentDr.value)
  {
    var drs := SortedList(ListedDrs(s));
    assert forall i :: 0 <= i < |drs| ==> drs[i] in ListedDrs(s) by {
      forall i | 0 <= i < |drs| ensures drs[i] in ListedDrs(s) {
        assert drs[i] in drs;
      }
    }
    SortedRows(s, drs);
    RowsOf(s, drs)
  }

  /** Rows built from a sorted list of listed DRs are sorted the same way. */
  lemma SortedRows(s: Session, drs: seq<string>)
    requires forall i :: 0 <= i < |drs| ==> drs[i] in ListedDrs(s)
    requires StrictlySorted(drs)
    ensures var r := RowsOf(s, drs);
      && (forall i :: 0 <= i < |r| ==> r[i].dr in ListedDrs(s) && r[i] == InfoFor(s, r[i].dr))
      && (forall i, j :: 0 <= i < j < |r| ==> Less(r[i].dr, r[j].dr))
      && (forall i :: 0 <= i < |r| ==> (r[i].isCurrent <==> Truthy(s.currentDr) && r[i].dr == s.currentDr.value))
  {
    var r := RowsOf(s, drs);
    forall i | 0 <= i < |r|
      ensures r[i].isCurrent <==> Truthy(s.currentDr) && r[i].dr == s.currentDr.value
    {
      assert r[i] == InfoFor(s, drs[i]);
    }
  }

  /** Every listed DR has a row. */
  lemma InstallationRowsCover(s: Session, dr: string)
    requires dr in ListedDrs(s)
    ensures exists i :: 0 <= i < |InstallationRows(s)| && InstallationRows(s)[i].dr == dr
  {
    var r := InstallationRows(s);
    var drs := SortedList(ListedDrs(s));
    assert dr in drs;
    var i :| 0 <= i < |drs| && drs[i] == dr;
    assert r == RowsOf(s, drs);
    assert r[i].dr == dr;
  }

  /** `get_installation_list`: the rows of the caller's session, none for an unknown number. */
  function GetInstallationList(st: Store, raw: string): (r: seq<InstallInfo>)
    ensures Phone.Normalize(raw) !in st ==> r == []
    ensures Phone.Normalize(raw) in st ==> r == InstallationRows(st[Phone.Normalize(raw)])
  {
    var phone := Phone.Normalize(raw);
    if phone !in st then [] else InstallationRows(st[phone])
  }

  /** `get_active_sessions`, counted: the numbers whose session has status active. */
  function ActiveNumbers(st: Store): (ks: set<string>)
    ensures ks <= st.Keys
    ensures forall k :: k in ks <==> k in st && st[k].Status() == Active
  {
    set k | k in st && st[k].Status() == Active
  }

  function CompletedNumbers(st: Store): (ks: set<string>)
    ensures ks <= st.Keys
    ensures forall k :: k in ks <==> k in st && st[k].Status() == Completed
  {
    set k | k in st && st[k].Status() == Completed
  }

  /** The counts of `get_session_stats` (the average is left out). */
  datatype SessionStats = SessionStats(total: nat, active: nat, completed: nat)

  /** `get_session_stats`: active and completed sessions are disjoint parts of all sessions. */
  function GetSessionStats(st: Store): (r: SessionStats)
    ensures r.total == |st|
    ensures r.active == |ActiveNumbers(st)| && r.completed == |CompletedNumbers(st)|
    ensures r.active + r.completed <= r.total
  {
    var a := ActiveNumbers(st);
    var c := CompletedNumbers(st);
    assert a * c == {};
    SubsetCard(a + c, st.Keys);
    SessionStats(|st|, |a|, |c|)
  }
}
