/** Properties of the current bot that span several messages: what a DR message does end to
    end, that the photo gate never consults the verifier, and the admin SKIP walk through a
    whole installation. */
module BotFacts {
  import opened Common
  import opened Text
  import Phone
  import P = Progress
  import Prompts
  import opened Sessions
  import opened Bot

  /** The bot after handling the messages in order, all under the same environment. */
  function Replay(b: Bot, msgs: seq<Message>, env: Env): Bot
    decreases |msgs|
  {
    if |msgs| == 0 then b else Replay(Handle(b, msgs[0], env).0, msgs[1..], env)
  }

  /** A STRICTNESS preset takes effect: a later bare STRICTNESS reports the preset's threshold,
      and the sessions are untouched throughout. */
  lemma PresetThenReport(b: Bot, from: string, text: string, query: string, env: Env, p: Preset)
    requires |Split(text)| >= 2 && Upper(Split(text)[1]) == PresetWord(p)
    requires |Split(query)| == 1
    ensures var b1 := Dispatch(b, from, StrictnessCmd(text), env).0;
      && b1.store == b.store && b1.threshold == PresetThreshold(p)
      && Dispatch(b1, from, StrictnessCmd(query), env) == (b1, StrictnessSettings(PresetThreshold(p)))
  {
    DispatchStrictness(b, from, text, env);
    var b1 := HandleStrictness(b, text, env.parseFloat).0;
    DispatchStrictness(b1, from, query, env);
  }

  lemma DispatchStrictness(b: Bot, from: string, text: string, env: Env)
    ensures Dispatch(b, from, StrictnessCmd(text), env) == HandleStrictness(b, text, env.parseFloat)
  {
  }

  /** A DR number is none of the keywords, so the router hands it on as plain text. */
  lemma DrIsPlainText(t: string)
    requires DrShape(t)
    ensures RouteText(t) == TextInput(t)
  {
    assert t[0] == t[..2][0] == 'D';
    forall w | w in StartWords + GreetingWords + SkipWords + {"STATUS", "HELP", "RESET", "LIST"}
      ensures t != w
    {
      assert |w| > 0 && w[0] != 'D';
    }
  }

  /** A text message whose normal form is a valid DR, from a sender with a session, changes
      the store exactly as `switch_to_dr` with that DR does (a refused switch changes
      nothing), and never touches the threshold. */
  lemma DrMessageSwitches(b: Bot, m: Message, env: Env)
    requires !Truthy(m.mediaUrl)
    requires IsValidDr(Canon(m.body))
    requires GetSession(b.store, Phone.Normalize(m.from)).Some?
    ensures Handle(b, m, env).0 == b.(store := SwitchToDr(b.store, Phone.Normalize(m.from), Canon(m.body), env.now).0)
  {
    var t := Canon(m.body);
    var from := Phone.Normalize(m.from);
    ValidDrOnStripped(t);
    DrRoutesToText(b, m, env);
    CanonIdempotent(m.body);
    assert HandleText(b, from, t, env.now) == HandleDrInput(b, from, t, env.now);
  }

  /** A text message whose normal form is a DR number reaches the text handler. */
  lemma DrRoutesToText(b: Bot, m: Message, env: Env)
    requires !Truthy(m.mediaUrl)
    requires DrShape(Canon(m.body))
    ensures Handle(b, m, env) == HandleText(b, Phone.Normalize(m.from), Canon(m.body), env.now)
  {
    DrIsPlainText(Canon(m.body));
    assert Handle(b, m, env) == Dispatch(b, Phone.Normalize(m.from), TextInput(Canon(m.body)), env);
  }

  /** When no photo is expected the photo handler's outcome does not depend on the download
      or the verifier at all, and the bot is unchanged. */
  lemma PhotoGateIgnoresEnv(b: Bot, from: string, url: string, env1: Env, env2: Env)
    requires !AwaitingPhoto(b.store, from)
    ensures HandlePhoto(b, from, url, env1) == HandlePhoto(b, from, url, env2)
    ensures HandlePhoto(b, from, url, env1).0 == b
  {
  }

  /** The SKIP message. */
  function SkipMessage(from: string): Message
  {
    Message(from, "SKIP", None, None)
  }

  lemma SkipIsSkipCommand(from: string)
    ensures Classify(SkipMessage(from).body, SkipMessage(from).mediaUrl) == SkipCmd("SKIP")
  {
    CanonOfCanonical("SKIP");
  }

  /** The session a bot holds for a sender. */
  function SessionOf(b: Bot, from: string): Option<Session>
  {
    GetSession(b.store, Phone.Normalize(from))
  }

  /** A SKIP message is handled by the skip handler. */
  lemma SkipRoutes(b: Bot, from: string, env: Env)
    ensures Handle(b, SkipMessage(from), env) == HandleSkip(b, Phone.Normalize(from), env.now)
  {
    SkipIsSkipCommand(from);
    assert Handle(b, SkipMessage(from), env) == Dispatch(b, Phone.Normalize(from), SkipCmd("SKIP"), env);
  }

  /** One SKIP at a waiting step of a steady photo phase moves the cursor on by one, keeps the
      phase steady and leaves the current DR alone. */
  lemma SkipOnce(b: Bot, from: string, env: Env)
    requires SessionOf(b, from).Some?
    requires P.SteadyProgress(SessionOf(b, from).value.active.progress, Prompts.StepCount)
    requires SessionOf(b, from).value.Cursor() <= Prompts.StepCount
    ensures SessionOf(Handle(b, SkipMessage(from), env).0, from).Some?
    ensures var s := SessionOf(b, from).value;
      var s' := SessionOf(Handle(b, SkipMessage(from), env).0, from).value;
      && s'.active.progress == P.CompleteStep(s.active.progress, s.Cursor(), SkipMarker, Prompts.StepCount)
      && s'.currentDr == s.currentDr
  {
    SkipRoutes(b, from, env);
  }

  /** From a steady photo phase at cursor c, k SKIP messages (c + k <= 13) move the cursor to
      c + k, keep the photo phase steady and leave the current DR alone. */
  lemma {:induction false} SkipsAdvance(b: Bot, from: string, env: Env, k: nat)
    requires SessionOf(b, from).Some?
    requires P.SteadyProgress(SessionOf(b, from).value.active.progress, Prompts.StepCount)
    requires SessionOf(b, from).value.Cursor() + k <= Prompts.StepCount + 1
    ensures SessionOf(Replay(b, Repeat(SkipMessage(from), k), env), from).Some?
    ensures var s := SessionOf(Replay(b, Repeat(SkipMessage(from), k), env), from).value;
      && s.Cursor() == SessionOf(b, from).value.Cursor() + k
      && P.SteadyProgress(s.active.progress, Prompts.StepCount)
      && s.currentDr == SessionOf(b, from).value.currentDr
    decreases k
  {
    if k > 0 {
      var m := SkipMessage(from);
      var ms := Repeat(m, k);
      assert ms[0] == m && ms[1..] == Repeat(m, k - 1);
      var s := SessionOf(b, from).value;
      var b1 := Handle(b, m, env).0;
      assert Replay(b, ms, env) == Replay(b1, Repeat(m, k - 1), env);
      SkipOnce(b, from, env);
      P.PassKeepsSteady(s.active.progress, SkipMarker, Prompts.StepCount);
      SkipsAdvance(b1, from, env, k - 1);
    }
  }

  lemma TailOfConcat<T>(xs: seq<T>, ys: seq<T>)
    requires |xs| > 0
    ensures (xs + ys)[0] == xs[0] && (xs + ys)[1..] == xs[1..] + ys
  {
  }

  /** Replaying two runs of messages is replaying their concatenation. */
  lemma {:induction false} ReplayAppend(b: Bot, xs: seq<Message>, ys: seq<Message>, env: Env)
    ensures Replay(b, xs + ys, env) == Replay(Replay(b, xs, env), ys, env)
    decreases |xs|
  {
    if |xs| == 0 {
      assert xs + ys == ys;
    } else {
      var b1 := Handle(b, xs[0], env).0;
      TailOfConcat(xs, ys);
      assert Replay(b, xs + ys, env) == Replay(b1, xs[1..] + ys, env);
      assert Replay(b, xs, env) == Replay(b1, xs[1..], env);
      ReplayAppend(b1, xs[1..], ys, env);
    }
  }

  lemma ThreeCons<T>(a: T, b: T, c: T, rest: seq<T>)
    ensures [a, b, c] + rest == [a] + ([b] + ([c] + rest))
  {
  }

  /** Replaying a message and then a run is replaying the run with the message in front. */
  lemma ReplayCons(b: Bot, m: Message, ms: seq<Message>, env: Env)
    ensures Replay(b, [m] + ms, env) == Replay(Handle(b, m, env).0, ms, env)
  {
    TailOfConcat([m], ms);
  }

  /** A DR number is its own normal form. */
  lemma DrIsCanonical(dr: string)
    requires DrShape(dr)
    ensures Canon(dr) == dr
  {
    assert dr[0] == dr[..2][0] && dr[1] == dr[..2][1];
    CanonOfCanonical(dr);
  }

  function StartMessage(from: string): Message
  {
    Message(from, "START", None, None)
  }

  /** START from a sender without a session opens one awaiting its DR, with no installations. */
  lemma StartOpens(b: Bot, from: string, env: Env)
    requires SessionOf(b, from).None?
    ensures var s := SessionOf(Handle(b, StartMessage(from), env).0, from);
      s.Some? && s.value.Cursor() == 0 && s.value.installations == map[]
  {
    var f := Phone.Normalize(from);
    StartRoutes(b, from, env);
    assert Phone.Normalize(f) !in b.store;
  }

  /** A START message is handled by the start handler. */
  lemma StartRoutes(b: Bot, from: string, env: Env)
    ensures Handle(b, StartMessage(from), env) == HandleStart(b, Phone.Normalize(from), env.now)
  {
    StartClassified();
    DispatchStart(b, Phone.Normalize(from), env);
    assert Handle(b, StartMessage(from), env) == Dispatch(b, Phone.Normalize(from), StartCmd, env);
  }

  lemma StartClassified()
    ensures Classify("START", None) == StartCmd
  {
    CanonOfCanonical("START");
  }

  lemma DispatchStart(b: Bot, from: string, env: Env)
    ensures Dispatch(b, from, StartCmd, env) == HandleStart(b, from, env.now)
  {
  }

  /** A DR number from a sender awaiting one, with no installations yet, opens a fresh
      installation for it awaiting its location, and makes it the current DR. */
  lemma DrOpens(b: Bot, from: string, dr: string, env: Env)
    requires DrShape(dr)
    requires SessionOf(b, from).Some? && SessionOf(b, from).value.installations == map[]
    ensures var s := SessionOf(Handle(b, Message(from, dr, None, None), env).0, from);
      && s.Some?
      && s.value.active.progress == P.Progress(-1, map[], Active)
      && s.value.currentDr == Some(dr)
  {
    DrIsCanonical(dr);
    ValidDrOnStripped(dr);
    DrMessageSwitches(b, Message(from, dr, None, None), env);
    SwitchOpensFresh(b.store, Phone.Normalize(from), dr, env.now);
  }

  /** A switch to a DR in canonical form, for a session without installations, opens a fresh
      installation awaiting its location under that DR. */
  lemma SwitchOpensFresh(st: Store, raw: string, dr: string, now: int)
    requires Canon(dr) == dr
    requires GetSession(st, raw).Some? && GetSession(st, raw).value.installations == map[]
    ensures var s := GetSession(SwitchToDr(st, raw, dr, now).0, raw);
      && s.Some?
      && s.value.active.progress == P.Progress(-1, map[], Active)
      && s.value.currentDr == Some(dr)
  {
  }

  /** SKIP while a fresh installation awaits its location opens step 1. */
  lemma LocationSkipOpens(b: Bot, from: string, env: Env)
    requires SessionOf(b, from).Some?
    requires SessionOf(b, from).value.active.progress == P.Progress(-1, map[], Active)
    ensures var s := SessionOf(Handle(b, SkipMessage(from), env).0, from);
      && s.Some?
      && s.value.active.progress == P.Progress(1, map[], Active)
      && s.value.currentDr == SessionOf(b, from).value.currentDr
  {
    SkipRoutes(b, from, env);
  }

  /** The walk-through of test_skip_logic.py, for any sender without a session and any DR
      number: START, the DR, SKIP for the location, then one SKIP per step. The DR is current,
      every step is recorded, the cursor stands past the last step and the installation is
      completed. */
  lemma SkipWalkthrough(b: Bot, from: string, dr: string, env: Env, n: nat)
    requires SessionOf(b, from).None?
    requires DrShape(dr)
    requires n == Prompts.StepCount
    ensures var msgs := [StartMessage(from), Message(from, dr, None, None), SkipMessage(from)]
                        + Repeat(SkipMessage(from), n);
      var s := SessionOf(Replay(b, msgs, env), from);
      && s.Some?
      && s.value.Cursor() == n + 1
      && s.value.Status() == Completed
      && s.value.active.progress.completed.Keys == P.Range(1, n + 1)
      && s.value.currentDr == Some(dr)
  {
    var start := StartMessage(from);
    var drm := Message(from, dr, None, None);
    var skip := SkipMessage(from);
    var rest := Repeat(skip, n);
    StartOpens(b, from, env);
    var b1 := Handle(b, start, env).0;
    DrOpens(b1, from, dr, env);
    var b2 := Handle(b1, drm, env).0;
    LocationSkipOpens(b2, from, env);
    var b3 := Handle(b2, skip, env).0;
    P.FreshIsSteady(n);
    SkipsAdvance(b3, from, env, n);
    ThreeCons(start, drm, skip, rest);
    ReplayCons(b, start, [drm] + ([skip] + rest), env);
    ReplayCons(b1, drm, [skip] + rest, env);
    ReplayCons(b2, skip, rest, env);
  }
}
