/** Properties of the current session store that relate several operations: switching away
    and back, the real bound on the DRs a session tracks, what re-sending the active DR does,
    and that cleanup and reset only ever mark or clear. */
module SessionFacts {
  import opened Common
  import opened Text
  import Phone
  import opened Sessions
  import Progress

  /** The DRs a session holds state for: the snapshot keys and the current DR if truthy. */
  function Tracked(s: Session): set<string>
  {
    s.installations.Keys + (if Truthy(s.currentDr) then {s.currentDr.value} else {})
  }

  /** The bound the capacity check in `switch_to_dr` actually enforces: eleven, not ten, since
      the check counts snapshot keys only and runs before the outgoing DR is saved. */
  const TrackedBound: int := MaxInstallations + 1

  predicate Bounded(s: Session)
  {
    |Tracked(s)| <= TrackedBound
  }

  predicate StoreBounded(st: Store)
  {
    forall k :: k in st ==> Bounded(st[k])
  }

  lemma UnionCard<T>(a: set<T>, b: set<T>)
    ensures |a + b| <= |a| + |b|
  {
    if a != {} {
      var x :| x in a;
      UnionCard(a - {x}, b);
      assert a + b == (a - {x}) + b + {x};
    }
  }

  /** A switch keeps a session within the eleven-DR bound. */
  lemma {:induction false} SwitchKeepsBound(st: Store, raw: string, rawDr: string, now: int)
    requires Phone.Normalize(raw) in st && Bounded(st[Phone.Normalize(raw)])
    ensures Bounded(SwitchToDr(st, raw, rawDr, now).0[Phone.Normalize(raw)])
  {
    var phone := Phone.Normalize(raw);
    var dr := Canon(rawDr);
    var s := st[phone];
    var (st', ok) := SwitchToDr(st, raw, rawDr, now);
    if ok {
      var s' := st'[phone];
      var saved := if SavesOutgoing(s, dr) then {s.currentDr.value} else {};
      assert s'.installations.Keys == s.installations.Keys + saved;
      assert Tracked(s') <= s.installations.Keys + saved + {dr};
      if dr in s.installations {
        assert Tracked(s') <= Tracked(s);
        SubsetCard(Tracked(s'), Tracked(s));
      } else {
        assert |s.installations| < MaxInstallations;
        UnionCard(s.installations.Keys, saved);
        UnionCard(s.installations.Keys + saved, {dr});
        SubsetCard(Tracked(s'), s.installations.Keys + saved + {dr});
      }
    }
  }

  /** The bound is reached: with nine snapshots, a truthy current DR without a snapshot and a
      new target, the switch succeeds and the session then tracks eleven DRs through ten
      snapshots. */
  lemma {:induction false} ElevenTrackedReachable(st: Store, raw: string, dr: string, now: int)
    requires Phone.Normalize(raw) in st
    requires var s := st[Phone.Normalize(raw)];
      && |s.installations| == MaxInstallations - 1
      && Truthy(s.currentDr) && s.currentDr.value !in s.installations
    requires Canon(dr) == dr && dr != "" && dr !in st[Phone.Normalize(raw)].installations
    requires Some(dr) != st[Phone.Normalize(raw)].currentDr
    ensures SwitchToDr(st, raw, dr, now).1
    ensures |SwitchToDr(st, raw, dr, now).0[Phone.Normalize(raw)].installations| == MaxInstallations
    ensures |Tracked(SwitchToDr(st, raw, dr, now).0[Phone.Normalize(raw)])| == TrackedBound
  {
    var phone := Phone.Normalize(raw);
    var s := st[phone];
    var s' := SwitchToDr(st, raw, dr, now).0[phone];
    var c := s.currentDr.value;
    assert s'.installations.Keys == s.installations.Keys + {c};
    assert |s'.installations.Keys| == |s.installations.Keys| + 1;
    assert Tracked(s') == s'.installations.Keys + {dr};
    assert dr !in s'.installations.Keys;
  }

  /** Snapshots alone can reach eleven: with ten snapshots and a truthy current DR without one,
      switching to a DR that has a snapshot passes the capacity check and saves an eleventh. */
  lemma {:induction false} ElevenSnapshotsReachable(st: Store, raw: string, dr: string, now: int)
    requires Phone.Normalize(raw) in st
    requires var s := st[Phone.Normalize(raw)];
      && |s.installations| == MaxInstallations
      && Truthy(s.currentDr) && s.currentDr.value !in s.installations
    requires Canon(dr) == dr && dr in st[Phone.Normalize(raw)].installations
    ensures SwitchToDr(st, raw, dr, now).1
    ensures |SwitchToDr(st, raw, dr, now).0[Phone.Normalize(raw)].installations| == MaxInstallations + 1
  {
    var phone := Phone.Normalize(raw);
    var s := st[phone];
    var s' := SwitchToDr(st, raw, dr, now).0[phone];
    var c := s.currentDr.value;
    assert c != dr;
    assert s'.installations.Keys == s.installations.Keys + {c};
    assert |s'.installations.Keys| == |s.installations.Keys| + 1;
  }

  /** Switching away from a truthy current DR `a` to another DR `b` and back restores `a`'s
      installation exactly as it was, and `b`'s state is kept in a snapshot. */
  lemma {:induction false} SwitchRoundTrip(st: Store, raw: string, a: string, b: string, t1: int, t2: int)
    requires Phone.Normalize(raw) in st
    requires st[Phone.Normalize(raw)].currentDr == Some(a) && a != ""
    requires Canon(a) == a && Canon(b) == b && a != b
    requires b in st[Phone.Normalize(raw)].installations || |st[Phone.Normalize(raw)].installations| < MaxInstallations
    ensures var (st1, ok1) := SwitchToDr(st, raw, b, t1);
      && ok1
      && var (st2, ok2) := SwitchToDr(st1, raw, a, t2);
      && ok2
      && st2[Phone.Normalize(raw)].active == st[Phone.Normalize(raw)].active
      && st2[Phone.Normalize(raw)].currentDr == Some(a)
      && (b != "" ==> b in st2[Phone.Normalize(raw)].installations &&
                      st2[Phone.Normalize(raw)].installations[b] == Snapshot(st1[Phone.Normalize(raw)].active, t2))
  {
    var phone := Phone.Normalize(raw);
    var s := st[phone];
    var (st1, ok1) := SwitchToDr(st, raw, b, t1);
    assert ok1;
    var s1 := st1[phone];
    assert SavesOutgoing(s, b);
    assert s1.installations[a] == Snapshot(s.active, t1);
    var (st2, ok2) := SwitchToDr(st1, raw, a, t2);
    assert ok2;
  }

  /** Re-sending the active DR when it has a snapshot: the switch succeeds, saves nothing, and
      reloads that snapshot, so whatever progress the live installation made since the
      snapshot was taken is replaced by the snapshot's. */
  lemma {:induction false} ResendActiveReloadsSnapshot(st: Store, raw: string, d: string, now: int)
    requires Phone.Normalize(raw) in st
    requires st[Phone.Normalize(raw)].currentDr == Some(d) && Canon(d) == d
    requires d in st[Phone.Normalize(raw)].installations
    ensures var (st', ok) := SwitchToDr(st, raw, d, now);
      && ok
      && st'[Phone.Normalize(raw)].installations == st[Phone.Normalize(raw)].installations
      && st'[Phone.Normalize(raw)].active == st[Phone.Normalize(raw)].installations[d].install
      && (st[Phone.Normalize(raw)].active != st[Phone.Normalize(raw)].installations[d].install ==>
            st'[Phone.Normalize(raw)].active != st[Phone.Normalize(raw)].active)
  {
    var phone := Phone.Normalize(raw);
    var s := st[phone];
    assert !SavesOutgoing(s, d);
    var (st', ok) := SwitchToDr(st, raw, d, now);
    assert st'[phone].installations.Keys == s.installations.Keys;
  }

  /** Re-sending the active DR when it has no snapshot: with fewer than ten snapshots the live
      installation is discarded for a fresh one awaiting location; with ten or more the switch
      is refused even though the DR is the one already active. */
  lemma {:induction false} ResendActiveWithoutSnapshot(st: Store, raw: string, d: string, now: int)
    requires Phone.Normalize(raw) in st
    requires st[Phone.Normalize(raw)].currentDr == Some(d) && Canon(d) == d
    requires d !in st[Phone.Normalize(raw)].installations
    ensures SwitchToDr(st, raw, d, now).1 <==> |st[Phone.Normalize(raw)].installations| < MaxInstallations
    ensures SwitchToDr(st, raw, d, now).1 ==>
      && SwitchToDr(st, raw, d, now).0[Phone.Normalize(raw)].active.progress == Progress.Progress(-1, map[], Active)
      && SwitchToDr(st, raw, d, now).0[Phone.Normalize(raw)].installations == st[Phone.Normalize(raw)].installations
  {
    var phone := Phone.Normalize(raw);
    var s := st[phone];
    assert !SavesOutgoing(s, d);
    var (st', ok) := SwitchToDr(st, raw, d, now);
    if ok {
      assert st'[phone].installations.Keys == s.installations.Keys;
    }
  }

  /** The store operations that change sessions. */
  datatype StoreOp =
    | OpGetOrCreate(raw: string, agentId: Option<string>, now: int)
    | OpUpdate(raw: string, verified: bool, loc: LocationData, cursor: int, now: int)
    | OpComplete(raw: string, step: int, photo: string, now: int)
    | OpReset(raw: string, now: int)
    | OpSwitch(raw: string, dr: string, now: int)
    | OpCleanup(now: int)

  function Apply(st: Store, op: StoreOp): Store
  {
    match op
    case OpGetOrCreate(raw, agentId, now) => GetOrCreateSession(st, raw, agentId, now).0
    case OpUpdate(raw, verified, loc, cursor, now) => UpdateSession(st, raw, verified, loc, cursor, now)
    case OpComplete(raw, step, photo, now) => CompleteStep(st, raw, step, photo, now)
    case OpReset(raw, now) => ResetSession(st, raw, now)
    case OpSwitch(raw, dr, now) => SwitchToDr(st, raw, dr, now).0
    case OpCleanup(now) => CleanupOldSessions(st, now)
  }

  /** Sessions that agree on their snapshots and current DR track the same DRs. */
  lemma SameTracked(s: Session, s': Session)
    requires s'.installations == s.installations && s'.currentDr == s.currentDr
    ensures Tracked(s') == Tracked(s)
  {
  }

  lemma CleanupKeepsBound(st: Store, now: int)
    requires StoreBounded(st)
    ensures StoreBounded(CleanupOldSessions(st, now))
  {
    var cl := CleanupOldSessions(st, now);
    forall k | k in cl ensures Bounded(cl[k]) {
      SameTracked(st[k], cl[k]);
    }
  }

  lemma GetOrCreateKeepsBound(st: Store, raw: string, agentId: Option<string>, now: int)
    requires StoreBounded(st)
    ensures StoreBounded(GetOrCreateSession(st, raw, agentId, now).0)
  {
    var phone := Phone.Normalize(raw);
    var st' := GetOrCreateSession(st, raw, agentId, now).0;
    forall k | k in st' ensures Bounded(st'[k]) {
      if k in st {
        SameTracked(st[k], st'[k]);
      } else {
        assert Tracked(st'[k]) == {};
      }
    }
  }

  lemma UpdateKeepsBound(st: Store, raw: string, verified: bool, loc: LocationData, cursor: int, now: int)
    requires StoreBounded(st)
    ensures StoreBounded(UpdateSession(st, raw, verified, loc, cursor, now))
  {
    var st' := UpdateSession(st, raw, verified, loc, cursor, now);
    forall k | k in st' ensures Bounded(st'[k]) {
      SameTracked(st[k], st'[k]);
    }
  }

  lemma CompleteKeepsBound(st: Store, raw: string, step: int, photo: string, now: int)
    requires StoreBounded(st)
    ensures StoreBounded(CompleteStep(st, raw, step, photo, now))
  {
    var st' := CompleteStep(st, raw, step, photo, now);
    forall k | k in st' ensures Bounded(st'[k]) {
      SameTracked(st[k], st'[k]);
    }
  }

  lemma ResetKeepsBound(st: Store, raw: string, now: int)
    requires StoreBounded(st)
    ensures StoreBounded(ResetSession(st, raw, now))
  {
    var st' := ResetSession(st, raw, now);
    forall k | k in st' ensures Bounded(st'[k]) {
      if k == Phone.Normalize(raw) {
        assert Tracked(st'[k]) == {};
      }
    }
  }

  /** Every store operation keeps every session within the eleven-DR bound, so no session ever
      tracks more than eleven DRs. */
  lemma {:induction false} BoundInvariant(st: Store, op: StoreOp)
    requires StoreBounded(st)
    ensures StoreBounded(Apply(st, op))
  {
    match op
    case OpGetOrCreate(raw, agentId, now) => GetOrCreateKeepsBound(st, raw, agentId, now);
    case OpUpdate(raw, verified, loc, cursor, now) => UpdateKeepsBound(st, raw, verified, loc, cursor, now);
    case OpComplete(raw, step, photo, now) => CompleteKeepsBound(st, raw, step, photo, now);
    case OpReset(raw, now) => ResetKeepsBound(st, raw, now);
    case OpSwitch(raw, dr, now) =>
      var phone := Phone.Normalize(raw);
      var st' := Apply(st, op);
      if phone in st {
        SwitchKeepsBound(st, raw, dr, now);
        forall k | k in st' ensures Bounded(st'[k]) {
          if k != phone {
            assert st'[k] == st[k];
          }
        }
      }
    case OpCleanup(now) => CleanupKeepsBound(st, now);
  }

  /** Any run of store operations from a bounded store (the empty store, say) stays bounded. */
  lemma {:induction false} BoundAlways(st: Store, ops: seq<StoreOp>)
    requires StoreBounded(st)
    ensures StoreBounded(ApplyAll(st, ops))
    decreases |ops|
  {
    if |ops| > 0 {
      BoundInvariant(st, ops[0]);
      BoundAlways(Apply(st, ops[0]), ops[1..]);
    }
  }

  function ApplyAll(st: Store, ops: seq<StoreOp>): Store
    decreases |ops|
  {
    if |ops| == 0 then st else ApplyAll(Apply(st, ops[0]), ops[1..])
  }
}
