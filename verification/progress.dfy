/** The step cursor shared by both generations, parameterised by the rubric size `n`
    (12 steps in src/, 14 in the legacy copy). Cursor values: 0 awaits a DR number, -1 awaits
    a location, 1..n await the photo of that step, n+1 means done. */
module Progress {
  import opened Common

  /** The part of an installation that `complete_step` touches. */
  datatype Progress = Progress(cursor: int, completed: map<int, string>, status: Status)

  /** The cursor is waiting for a photo. */
  predicate InPhotoPhase(cursor: int, n: int)
  {
    1 <= cursor <= n
  }

  /** `complete_step(step, photo)`: the photo is always recorded under `step`; the cursor moves
      on by one exactly when `step` is the step it was waiting for; the status turns to
      completed whenever the cursor is then past the last step and is otherwise left alone. */
  function CompleteStep(p: Progress, step: int, photo: string, n: int): (q: Progress)
    ensures q.completed.Keys == p.completed.Keys + {step}
    ensures q.completed[step] == photo
    ensures forall k :: k in p.completed && k != step ==> q.completed[k] == p.completed[k]
    ensures q.cursor == p.cursor || q.cursor == p.cursor + 1
    ensures q.cursor == p.cursor + 1 <==> step == p.cursor
    ensures q.cursor > n ==> q.status == Completed
    ensures q.cursor <= n ==> q.status == p.status
  {
    var cursor := if p.cursor == step then step + 1 else p.cursor;
    Progress(cursor, p.completed[step := photo], if cursor > n then Completed else p.status)
  }

  /** The integers `lo .. hi-1`. */
  function Range(lo: int, hi: int): (r: set<int>)
    ensures forall k :: k in r <==> lo <= k < hi
    ensures lo <= hi ==> |r| == hi - lo
    decreases hi - lo
  {
    if hi <= lo then {} else Range(lo, hi - 1) + {hi - 1}
  }

  /** A photo phase whose recorded steps are exactly the ones before the cursor. */
  predicate PrefixProgress(p: Progress, n: int)
  {
    1 <= p.cursor <= n + 1 && p.completed.Keys == Range(1, p.cursor)
  }

  /** An installation in its photo phase that has only ever advanced through passes: the
      completed steps are exactly the ones before the cursor, and it is marked completed
      exactly when the cursor is past the last step. */
  predicate SteadyProgress(p: Progress, n: int)
  {
    && PrefixProgress(p, n)
    && (p.status == Completed <==> p.cursor > n)
  }

  /** Completing the step under the cursor of a prefix photo phase moves the cursor on by one
      and keeps the recorded steps exactly those before it. */
  lemma PassKeepsPrefix(p: Progress, photo: string, n: int)
    requires PrefixProgress(p, n) && p.cursor <= n
    ensures PrefixProgress(CompleteStep(p, p.cursor, photo, n), n)
    ensures CompleteStep(p, p.cursor, photo, n).cursor == p.cursor + 1
  {
    assert Range(1, p.cursor + 1) == Range(1, p.cursor) + {p.cursor};
  }

  /** The transitions a run of passes makes: each pass completes the step under the cursor
      (the photo handler calls `complete_step(current_step)`). */
  function Passes(p: Progress, photos: seq<string>, n: int): Progress
    decreases |photos|
  {
    if |photos| == 0 then p
    else Passes(CompleteStep(p, p.cursor, photos[0], n), photos[1..], n)
  }

  /** One pass at a waiting step keeps a steady installation steady and moves it on by one. */
  lemma PassKeepsSteady(p: Progress, photo: string, n: int)
    requires SteadyProgress(p, n) && p.cursor <= n
    ensures SteadyProgress(CompleteStep(p, p.cursor, photo, n), n)
    ensures CompleteStep(p, p.cursor, photo, n).cursor == p.cursor + 1
  {
    PassKeepsPrefix(p, photo, n);
  }

  /** After k passes from step 1 of a fresh installation (k <= n) the cursor is 1 + k, exactly
      steps 1..k are recorded, and the installation is completed exactly when k == n. */
  lemma {:induction false} PassesFromStart(p: Progress, photos: seq<string>, n: int)
    requires SteadyProgress(p, n)
    requires p.cursor + |photos| <= n + 1
    ensures Passes(p, photos, n).cursor == p.cursor + |photos|
    ensures SteadyProgress(Passes(p, photos, n), n)
    ensures |Passes(p, photos, n).completed| == p.cursor + |photos| - 1
    decreases |photos|
  {
    if |photos| > 0 {
      PassKeepsSteady(p, photos[0], n);
      PassesFromStart(CompleteStep(p, p.cursor, photos[0], n), photos[1..], n);
    }
  }

  /** The fresh photo phase (cursor 1, nothing recorded, active) is steady. */
  lemma FreshIsSteady(n: int)
    requires n >= 1
    ensures SteadyProgress(Progress(1, map[], Active), n)
  {
    assert Range(1, 1) == {};
  }
}
