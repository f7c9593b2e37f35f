/** The current bot of src/bot/bot.py: `process_message` classifies an incoming WhatsApp
    message and hands it to a handler, and each handler is a guarded transition of the session
    store. Replies are kinds with their data, not the Markdown text. The photo download, the
    AI verifier and `float()` are parameters (`Env`), and the clock is `Env.now`. */
module Bot {
  import opened Common
  import opened Text
  import Phone
  import P = Progress
  import Prompts
  import Simplify
  import opened Sessions

  /** The bot's mutable state: the session store and the shared score threshold
      (`Config.PASSING_SCORE_THRESHOLD`, which STRICTNESS changes at run time). */
  datatype Bot = Bot(store: Store, threshold: real)

  /** The threshold the configuration starts with. */
  const InitialThreshold: real := 8.0

  /** The photo path the admin SKIP records for a skipped step. */
  const SkipMarker := "SKIPPED_FOR_TESTING"

  /** What `float()` made of a token: not a number, a finite value, or an infinity or NaN. */
  datatype ParsedFloat = NotANumber | Finite(value: real) | NonFinite

  /** Everything the bot consults outside itself. `verify` stands for the verifier's
      `verify_step` given the path, the step and the current threshold. */
  datatype Env = Env(
    now: int,
    download: (string, JobId) -> Fetch,
    verify: (string, int, real) -> Verdict,
    parseFloat: string -> ParsedFloat)

  /** The event `process_message` routes to. */
  datatype Event =
    | LocationEvent(url: string)
    | PhotoEvent(url: string)
    | StartCmd
    | GreetingCmd
    | StatusCmd
    | HelpCmd
    | ResetCmd
    | SkipCmd(kind: string)
    | ListCmd
    | StrictnessCmd(text: string)
    | TextInput(text: string)

  const StartWords: set<string> := {"START", "NEW"}
  const GreetingWords: set<string> := {"HI", "HELLO", "HEY", "HOLA"}
  const SkipWords: set<string> := {"SKIP", "SKIP LOCATION", "SKIP STEP"}

  /** The substrings that mark a media URL as a shared location. */
  const LocationIndicators: seq<string> := ["location", "maps", "coordinates", "lat=", "lng=", "geo:"]

  /** `_is_location_message`: some indicator occurs in the lower-cased URL. */
  function IsLocationUrl(url: string): (b: bool)
    ensures b <==> exists i :: 0 <= i < |LocationIndicators| && Contains(Lower(url), LocationIndicators[i])
  {
    ContainsAny(Lower(url), LocationIndicators)
  }

  /** "DR" followed by four to ten ASCII digits and nothing else. */
  predicate DrShape(s: string)
  {
    && 6 <= |s| <= 12
    && s[..2] == "DR"
    && forall i :: 2 <= i < |s| ==> IsDigit(s[i])
  }

  /** Length of the run of digits starting at `i`. */
  function DigitRun(s: string, i: nat): (k: nat)
    requires i <= |s|
    ensures i + k <= |s|
    ensures forall j :: i <= j < i + k ==> IsDigit(s[j])
    ensures i + k < |s| ==> !IsDigit(s[i + k])
    decreases |s| - i
  {
    if i == |s| || !IsDigit(s[i]) then 0 else 1 + DigitRun(s, i + 1)
  }

  /** `_is_valid_dr_number`, the match of `^DR\d{4,10}$`: since `$` also matches before a final
      newline, a DR followed by one `\n` passes as well. */
  function IsValidDr(s: string): (b: bool)
    ensures b <==> DrShape(s) || (|s| > 0 && s[|s| - 1] == '\n' && DrShape(s[..|s| - 1]))
  {
    if |s| < 2 || s[..2] != "DR" then false
    else
      var k := DigitRun(s, 2);
      assert |s| > 0 && s[|s| - 1] == '\n' ==> s[..|s| - 1][..2] == s[..2];
      4 <= k <= 10 && (2 + k == |s| || (2 + k == |s| - 1 && s[|s| - 1] == '\n'))
  }

  /** On text that is already stripped, as the router's is, the trailing-newline case cannot
      arise: the check is exactly "DR" and four to ten digits. */
  lemma ValidDrOnStripped(t: string)
    requires Stripped(t)
    ensures IsValidDr(t) <==> DrShape(t)
  {
  }

  /** The keyword routing of `process_message` on the stripped, upper-cased body: the
      keywords in order, with DR numbers and other text last. */
  function RouteText(t: string): (e: Event)
    ensures e.StartCmd? <==> t in StartWords
    ensures e.GreetingCmd? <==> t in GreetingWords
    ensures e.StatusCmd? <==> t == "STATUS"
    ensures e.HelpCmd? <==> t == "HELP"
    ensures e.ResetCmd? <==> t == "RESET"
    ensures e.SkipCmd? <==> t in SkipWords
    ensures e.ListCmd? <==> t == "LIST"
    ensures e.StrictnessCmd? <==> StartsWith(t, "STRICTNESS")
    ensures e.StrictnessCmd? || e.TextInput? ==> e.text == t
    ensures !e.LocationEvent? && !e.PhotoEvent?
  {
    if t in StartWords then StartCmd
    else if t in GreetingWords then GreetingCmd
    else if t == "STATUS" then StatusCmd
    else if t == "HELP" then HelpCmd
    else if t == "RESET" then ResetCmd
    else if t in SkipWords then
      assert !StartsWith(t, "STRICTNESS") by {
        if |t| >= 10 { assert t[..10][1] == t[1] == 'K'; }
      }
      SkipCmd(t)
    else if t == "LIST" then ListCmd
    else if StartsWith(t, "STRICTNESS") then StrictnessCmd(t)
    else TextInput(t)
  }

  /** The routing of `process_message`. A truthy media URL wins over any text and is a
      location exactly when it carries a location indicator; otherwise the body is stripped
      and upper-cased and routed by keyword. */
  function Classify(body: string, mediaUrl: Option<string>): (e: Event)
    ensures Truthy(mediaUrl) ==> e == LocationEvent(mediaUrl.value) || e == PhotoEvent(mediaUrl.value)
    ensures Truthy(mediaUrl) ==> (e.LocationEvent? <==> IsLocationUrl(mediaUrl.value))
    ensures !Truthy(mediaUrl) ==> e == RouteText(Canon(body))
  {
    if Truthy(mediaUrl) then
      if IsLocationUrl(mediaUrl.value) then LocationEvent(mediaUrl.value) else PhotoEvent(mediaUrl.value)
    else RouteText(Canon(body))
  }

  /** The STRICTNESS presets. */
  datatype Preset = Strict | Standard | Lenient | Testing

  /** The word that selects a preset after `STRICTNESS`. */
  function PresetWord(p: Preset): string
  {
    match p
    case Strict => "STRICT"
    case Standard => "STANDARD"
    case Lenient => "LENIENT"
    case Testing => "TESTING"
  }

  /** The passing threshold a preset sets. */
  function PresetThreshold(p: Preset): real
  {
    match p
    case Strict => 9.0
    case Standard => 8.0
    case Lenient => 7.0
    case Testing => 5.0
  }

  /** How one installation is described in the LIST reply. */
  datatype RowStatus =
    | WaitingForDr
    | WaitingForLocation
    | Complete
    | AtStep(step: int, name: string, completedCount: nat)
    | UnknownStatus

  datatype ListRow = ListRow(dr: string, status: RowStatus, isCurrent: bool)

  /** The replies, one kind per distinct message the bot sends, with the data it shows. */
  datatype Reply =
    | NoActiveInstallation
    | ProvideDrFirst
    | ShareLocationFirst
    | FollowStepsInOrder
    | AlreadyCompleted(jobId: JobId)
    | DownloadFailed
    | PhotoProcessingError
    | StepPassed(step: int, stepName: string, score: real, threshold: real, praise: Praise,
                 completedCount: nat, next: Option<int>)
    | StepNeedsRetake(step: int, stepName: string, score: real, threshold: real,
                      fixes: seq<string>, tip: string, completedCount: nat)
    | Greeting
    | Help
    | Started(jobId: JobId, agent: string)
    | Unknown(text: string)
    | LocationNotExpected
    | LocationVerified(drNumber: Option<string>)
    | LocationSkipped(jobId: JobId, drNumber: Option<string>)
    | StepSkipped(step: int, stepName: string, completedCount: nat, next: Option<int>)
    | CannotSkipDr
    | NothingToSkip(cursor: int)
    | InvalidDr(text: string)
    | NoSessionForDr
    | LimitReached
    | SwitchedAwaitingLocation(dr: string, jobId: JobId)
    | SwitchedToStep(dr: string, jobId: JobId, step: int, completedCount: nat, locationVerified: bool)
    | SwitchedCompleted(dr: string)
    | NewInstallation(dr: string, jobId: JobId)
    | NoInstallations
    | InstallationList(rows: seq<ListRow>)
    | StrictnessSettings(threshold: real)
    | StrictnessPreset(preset: Preset, threshold: real)
    | StrictnessCustom(threshold: real)
    | ThresholdOutOfRange
    | InvalidNumber
    | InvalidStrictness
    | StatusAwaitingDr(jobId: JobId)
    | StatusAwaitingLocation(jobId: JobId, drNumber: Option<string>)
    | StatusCompleted(jobId: JobId)
    | StatusProgress(jobId: JobId, drNumber: Option<string>, locationVerified: bool, completedCount: nat,
                     current: Option<int>, completedSteps: set<int>)

  /** `STEP_NAMES.get(n, f"Step {n}")`. */
  function StepNameOr(step: int): (name: string)
    ensures 1 <= step <= Prompts.StepCount ==> name == Prompts.StepNames[step]
    ensures step !in Prompts.StepNames ==> name == "Step " + IntToString(step)
  {
    Prompts.StepNamesCoverRubric();
    Get(Prompts.StepNames, step, "Step " + IntToString(step))
  }

  function Min(a: int, b: int): int
  {
    if a <= b then a else b
  }

  /** `_format_verification_response`. A pass reports the completed count including this step
      and guides to step+1 exactly when that is a step of the rubric; a failure shows the first
      three issues, simplified, and the simplified recommendation. */
  function FormatVerification(v: Verdict, s: Session, threshold: real): (r: Reply)
    ensures v.passed ==> r.StepPassed? && r.completedCount == |s.active.progress.completed| + 1
    ensures v.passed ==> (r.next.Some? <==> v.step + 1 <= Prompts.StepCount)
    ensures v.passed && r.next.Some? ==> r.next.value == v.step + 1
    ensures v.passed ==> (r.praise == Excellent <==> v.score >= 9.0)
    ensures v.passed ==> (r.praise == GoodJob <==> 7.0 <= v.score < 9.0)
    ensures !v.passed ==> r.StepNeedsRetake? && r.completedCount == |s.active.progress.completed|
    ensures !v.passed ==> |r.fixes| == Min(3, |v.issues|)
    ensures !v.passed ==> forall i :: 0 <= i < |r.fixes| ==> r.fixes[i] == Simplify.SimplifyIssue(v.issues[i])
    ensures !v.passed ==> r.tip == Simplify.SimplifyRecommendation(v.recommendation)
    ensures r.step == v.step && r.stepName == v.stepName && r.score == v.score && r.threshold == threshold
  {
    if v.passed then
      var praise := if v.score >= 9.0 then Excellent else if v.score >= 7.0 then GoodJob else NoPraise;
      var next := if v.step + 1 <= Prompts.StepCount then Some(v.step + 1) else None;
      StepPassed(v.step, v.stepName, v.score, threshold, praise, |s.active.progress.completed| + 1, next)
    else
      var shown := v.issues[..Min(3, |v.issues|)];
      var fixes := seq(|shown|, i requires 0 <= i < |shown| => Simplify.SimplifyIssue(shown[i]));
      StepNeedsRetake(v.step, v.stepName, v.score, threshold, fixes,
                      Simplify.SimplifyRecommendation(v.recommendation), |s.active.progress.completed|)
  }

  /** The session of a (normalised) sender has its cursor on a photo step. */
  predicate AwaitingPhoto(st: Store, from: string)
  {
    GetSession(st, from).Some? && P.InPhotoPhase(GetSession(st, from).value.Cursor(), Prompts.StepCount)
  }

  /** The reply of the photo handler when no photo is expected; it consults nothing outside
      the store. */
  function PhotoRejection(st: Store, from: string): (r: Reply)
    requires !AwaitingPhoto(st, from)
    ensures GetSession(st, from).None? <==> r == NoActiveInstallation
    ensures GetSession(st, from).Some? && GetSession(st, from).value.Cursor() > Prompts.StepCount ==>
      r == AlreadyCompleted(GetSession(st, from).value.active.jobId)
  {
    match GetSession(st, from)
    case None => NoActiveInstallation
    case Some(s) =>
      if s.Cursor() == 0 then ProvideDrFirst
      else if s.Cursor() == -1 then ShareLocationFirst
      else if s.Cursor() <= 0 then FollowStepsInOrder
      else AlreadyCompleted(s.active.jobId)
  }

  /** `_handle_photo_message`. Outside a photo step nothing is downloaded or verified and
      nothing changes. At step c the photo is downloaded and verified; only a passed verdict
      changes the store, and then exactly by `complete_step(c)`, which moves the cursor to c+1. */
  function HandlePhoto(b: Bot, from: string, url: string, env: Env): (r: (Bot, Reply))
    ensures b.store.Keys <= r.0.store.Keys && r.0.threshold == b.threshold
    ensures !AwaitingPhoto(b.store, from) ==> r == (b, PhotoRejection(b.store, from))
    ensures r.0.threshold == b.threshold
    ensures AwaitingPhoto(b.store, from) ==>
      var s := GetSession(b.store, from).value;
      var c := s.Cursor();
      match env.download(url, s.active.jobId)
      case FetchRaised => r == (b, PhotoProcessingError)
      case Fetched(p) =>
        if !Truthy(p) then r == (b, DownloadFailed)
        else
          var v := env.verify(p.value, c, b.threshold);
          && r.1 == FormatVerification(v, s, b.threshold)
          && (!v.passed ==> r.0 == b)
          && (v.passed ==>
                && r.0.store == CompleteStep(b.store, from, c, p.value, env.now)
                && r.0.store[Phone.Normalize(from)].Cursor() == c + 1
                && r.0.store[Phone.Normalize(from)].active.progress.completed[c] == p.value)
  {
    if !AwaitingPhoto(b.store, from) then (b, PhotoRejection(b.store, from))
    else
      var s := GetSession(b.store, from).value;
      var c := s.Cursor();
      match env.download(url, s.active.jobId)
      case FetchRaised => (b, PhotoProcessingError)
      case Fetched(p) =>
        if !Truthy(p) then (b, DownloadFailed)
        else
          var v := env.verify(p.value, c, b.threshold);
          var reply := FormatVerification(v, s, b.threshold);
          if v.passed then (b.(store := CompleteStep(b.store, from, c, p.value, env.now)), reply)
          else (b, reply)
  }

  /** `_handle_location_message`: accepted only at cursor -1, where it records the location,
      marks it verified and moves to step 1; otherwise nothing changes. */
  function HandleLocation(b: Bot, from: string, url: string, now: int): (r: (Bot, Reply))
    ensures b.store.Keys <= r.0.store.Keys && r.0.threshold == b.threshold
    ensures var s := GetSession(b.store, from);
      (s.None? || s.value.Cursor() != -1) <==> r == (b, LocationNotExpected)
    ensures var s := GetSession(b.store, from);
      s.Some? && s.value.Cursor() == -1 ==>
        && r.0 == b.(store := UpdateSession(b.store, from, true, Shared(url, now), 1, now))
        && r.0.store[Phone.Normalize(from)].Cursor() == 1
        && r.0.store[Phone.Normalize(from)].active.locationVerified
        && r.1 == LocationVerified(s.value.active.drNumber)
  {
    match GetSession(b.store, from)
    case None => (b, LocationNotExpected)
    case Some(s) =>
      if s.Cursor() != -1 then (b, LocationNotExpected)
      else (b.(store := UpdateSession(b.store, from, true, Shared(url, now), 1, now)), LocationVerified(s.active.drNumber))
  }

  /** `_handle_skip_command`. At -1 it verifies the location with a skipped marker and moves to
      step 1; at a photo step c it completes c with the skip marker, so the cursor moves to
      c+1 (and past the last step the installation is completed); at 0, past the last step, or
      without a session nothing changes. */
  function HandleSkip(b: Bot, from: string, now: int): (r: (Bot, Reply))
    ensures b.store.Keys <= r.0.store.Keys && r.0.threshold == b.threshold
    ensures r.0.threshold == b.threshold
    ensures GetSession(b.store, from).None? ==> r == (b, NoActiveInstallation)
    ensures GetSession(b.store, from).Some? ==>
      var s := GetSession(b.store, from).value;
      var c := s.Cursor();
      && (c == -1 ==>
            && r.0.store == UpdateSession(b.store, from, true, SkippedCheck(now), 1, now)
            && r.1 == LocationSkipped(s.active.jobId, s.active.drNumber))
      && (P.InPhotoPhase(c, Prompts.StepCount) ==>
            && r.0.store == CompleteStep(b.store, from, c, SkipMarker, now)
            && r.0.store[Phone.Normalize(from)].Cursor() == c + 1
            && r.0.store[Phone.Normalize(from)].active.progress.completed[c] == SkipMarker
            && (c == Prompts.StepCount ==> r.0.store[Phone.Normalize(from)].Status() == Completed)
            && r.1.StepSkipped? && r.1.step == c
            && (r.1.next.Some? <==> c < Prompts.StepCount))
      && (c == 0 ==> r == (b, CannotSkipDr))
      && (c != -1 && !P.InPhotoPhase(c, Prompts.StepCount) && c != 0 ==> r == (b, NothingToSkip(c)))
  {
    match GetSession(b.store, from)
    case None => (b, NoActiveInstallation)
    case Some(s) =>
      var c := s.Cursor();
      if c == -1 then
        (b.(store := UpdateSession(b.store, from, true, SkippedCheck(now), 1, now)),
         LocationSkipped(s.active.jobId, s.active.drNumber))
      else if 1 <= c <= Prompts.StepCount then
        var st' := CompleteStep(b.store, from, c, SkipMarker, now);
        var s' := st'[Phone.Normalize(from)];
        var next := if s'.Cursor() <= Prompts.StepCount then Some(s'.Cursor()) else None;
        (b.(store := st'), StepSkipped(c, StepNameOr(c), |s'.active.progress.completed|, next))
      else if c == 0 then (b, CannotSkipDr)
      else (b, NothingToSkip(c))
  }

  /** `_handle_start_command`: get or create the session and report its job. */
  function HandleStart(b: Bot, from: string, now: int): (r: (Bot, Reply))
    ensures b.store.Keys <= r.0.store.Keys && r.0.threshold == b.threshold
    ensures r.0 == b.(store := GetOrCreateSession(b.store, from, None, now).0)
    ensures var s := GetOrCreateSession(b.store, from, None, now).1;
      r.1 == Started(s.active.jobId, s.agentId)
  {
    var (st', s) := GetOrCreateSession(b.store, from, None, now);
    (b.(store := st'), Started(s.active.jobId, s.agentId))
  }

  /** `_handle_reset_command`: reset an existing session (or create one), then START. The
      sender ends up awaiting a DR with no installations at all. */
  function HandleReset(b: Bot, from: string, now: int): (r: (Bot, Reply))
    ensures b.store.Keys <= r.0.store.Keys && r.0.threshold == b.threshold
    ensures r.0.threshold == b.threshold
    ensures Phone.Normalize(from) in r.0.store
    ensures var s := r.0.store[Phone.Normalize(from)];
      && s.Cursor() == 0 && s.active.progress.completed == map[] && s.Status() == Active
      && s.installations == map[] && s.currentDr == None && s.awaitingDrInput
      && s.lastActivity == now
    ensures r.1.Started?
  {
    var st1 := if GetSession(b.store, from).Some? then ResetSession(b.store, from, now)
               else GetOrCreateSession(b.store, from, None, now).0;
    HandleStart(b.(store := st1), from, now)
  }

  /** `_handle_dr_input`. The text is stripped and upper-cased again; an invalid DR, a missing
      session or a refused switch change nothing; otherwise the only change is the switch. */
  function HandleDrInput(b: Bot, from: string, text: string, now: int): (r: (Bot, Reply))
    ensures b.store.Keys <= r.0.store.Keys && r.0.threshold == b.threshold
    ensures !IsValidDr(Canon(text)) ==> r == (b, InvalidDr(Canon(text)))
    ensures IsValidDr(Canon(text)) && GetSession(b.store, from).None? ==> r == (b, NoSessionForDr)
    ensures IsValidDr(Canon(text)) && GetSession(b.store, from).Some? ==>
      var (st', ok) := SwitchToDr(b.store, from, Canon(text), now);
      && (!ok ==> r == (b, LimitReached))
      && (ok ==> r.0 == b.(store := st'))
    ensures r.0 == b || r.0 == b.(store := SwitchToDr(b.store, from, Canon(text), now).0)
  {
    var dr := Canon(text);
    if !IsValidDr(dr) then (b, InvalidDr(dr))
    else match GetSession(b.store, from)
      case None => (b, NoSessionForDr)
      case Some(s) =>
        var existing := dr in s.installations || Some(dr) == s.currentDr;
        var (st', ok) := SwitchToDr(b.store, from, dr, now);
        if !ok then (b, LimitReached)
        else
          var s' := st'[Phone.Normalize(from)];
          var reply :=
            if existing then
              if s'.Cursor() == -1 then SwitchedAwaitingLocation(dr, s'.active.jobId)
              else if 1 <= s'.Cursor() <= Prompts.StepCount then
                SwitchedToStep(dr, s'.active.jobId, s'.Cursor(), |s'.active.progress.completed|, s'.active.locationVerified)
              else SwitchedCompleted(dr)
            else NewInstallation(dr, s'.active.jobId);
          (b.(store := st'), reply)
  }

  /** `_handle_text_input`: a valid DR, or any text while awaiting the first DR, goes to the DR
      handler; everything else is an unknown command and changes nothing. */
  function HandleText(b: Bot, from: string, text: string, now: int): (r: (Bot, Reply))
    ensures b.store.Keys <= r.0.store.Keys && r.0.threshold == b.threshold
    ensures GetSession(b.store, from).None? ==> r == (b, Unknown(text))
    ensures GetSession(b.store, from).Some? ==>
      if IsValidDr(text) || GetSession(b.store, from).value.Cursor() == 0
      then r == HandleDrInput(b, from, text, now)
      else r == (b, Unknown(text))
  {
    match GetSession(b.store, from)
    case None => (b, Unknown(text))
    case Some(s) =>
      if IsValidDr(text) || s.Cursor() == 0 then HandleDrInput(b, from, text, now)
      else (b, Unknown(text))
  }

  /** `_handle_strictness_command`. The store never changes. A bare `STRICTNESS` reports the
      threshold; a preset word sets its threshold (STRICT 9, STANDARD 8, LENIENT 7, TESTING 5);
      `SET v` sets a finite v within [0, 10]; anything else is refused. */
  function HandleStrictness(b: Bot, text: string, parse: string -> ParsedFloat): (r: (Bot, Reply))
    ensures r.0.store == b.store
    ensures r.0.threshold != b.threshold ==>
      r.0.threshold in {9.0, 8.0, 7.0, 5.0} || (0.0 <= r.0.threshold <= 10.0 && r.1 == StrictnessCustom(r.0.threshold))
    ensures var parts := Split(text);
      |parts| >= 3 && Upper(parts[1]) == "SET" ==>
        match parse(parts[2])
        case Finite(x) => if 0.0 <= x <= 10.0 then r == (b.(threshold := x), StrictnessCustom(x))
                          else r == (b, ThresholdOutOfRange)
        case NonFinite => r == (b, ThresholdOutOfRange)
        case NotANumber => r == (b, InvalidNumber)
    ensures |Split(text)| == 1 ==> r == (b, StrictnessSettings(b.threshold))
    ensures forall p: Preset :: |Split(text)| >= 2 && Upper(Split(text)[1]) == PresetWord(p) ==>
      r == (b.(threshold := PresetThreshold(p)), StrictnessPreset(p, PresetThreshold(p)))
    ensures var parts := Split(text);
      (|parts| == 0 || (|parts| >= 2 && (forall p: Preset :: Upper(parts[1]) != PresetWord(p))
                        && !(Upper(parts[1]) == "SET" && |parts| >= 3))) ==>
        r == (b, InvalidStrictness)
  {
    var parts := Split(text);
    if |parts| == 1 then (b, StrictnessSettings(b.threshold))
    else if |parts| >= 2 then
      var cmd := Upper(parts[1]);
      if cmd == PresetWord(Strict) then (b.(threshold := 9.0), StrictnessPreset(Strict, 9.0))
      else if cmd == PresetWord(Standard) then (b.(threshold := 8.0), StrictnessPreset(Standard, 8.0))
      else if cmd == PresetWord(Lenient) then (b.(threshold := 7.0), StrictnessPreset(Lenient, 7.0))
      else if cmd == PresetWord(Testing) then (b.(threshold := 5.0), StrictnessPreset(Testing, 5.0))
      else if cmd == "SET" && |parts| >= 3 then
        match parse(parts[2])
        case Finite(x) => if 0.0 <= x <= 10.0 then (b.(threshold := x), StrictnessCustom(x)) else (b, ThresholdOutOfRange)
        case NonFinite => (b, ThresholdOutOfRange)
        case NotANumber => (b, InvalidNumber)
      else (b, InvalidStrictness)
    else (b, InvalidStrictness)
  }

  /** `_handle_status_command`, a view of the store. */
  function StatusView(st: Store, from: string): (r: Reply)
    ensures GetSession(st, from).None? <==> r == NoActiveInstallation
    ensures GetSession(st, from).Some? && GetSession(st, from).value.Cursor() == 0 ==>
      r == StatusAwaitingDr(GetSession(st, from).value.active.jobId)
    ensures r.StatusProgress? ==> r.completedCount == |r.completedSteps|
  {
    match GetSession(st, from)
    case None => NoActiveInstallation
    case Some(s) =>
      var c := s.Cursor();
      if c == 0 then StatusAwaitingDr(s.active.jobId)
      else if c == -1 then StatusAwaitingLocation(s.active.jobId, s.active.drNumber)
      else if s.Status() == Completed then StatusCompleted(s.active.jobId)
      else
        StatusProgress(s.active.jobId, s.active.drNumber, s.active.locationVerified,
                       |s.active.progress.completed|,
                       if c <= Prompts.StepCount then Some(c) else None,
                       s.active.progress.completed.Keys)
  }

  /** The LIST description of one installation, tested in the order `_handle_list_command` uses. */
  function RowStatusOf(info: InstallInfo): (rs: RowStatus)
    ensures info.cursor == 0 ==> rs == WaitingForDr
    ensures info.cursor == -1 ==> rs == WaitingForLocation
    ensures rs.AtStep? ==> P.InPhotoPhase(info.cursor, Prompts.StepCount) && info.status != Completed
    ensures rs == Complete <==> info.cursor !in {0, -1} && (info.status == Completed || info.cursor > Prompts.StepCount)
  {
    if info.cursor == 0 then WaitingForDr
    else if info.cursor == -1 then WaitingForLocation
    else if info.status == Completed || info.cursor > Prompts.StepCount then Complete
    else if 1 <= info.cursor <= Prompts.StepCount then AtStep(info.cursor, StepNameOr(info.cursor), info.completedCount)
    else UnknownStatus
  }

  /** `_handle_list_command`, a view of `get_installation_list`: one row per listed DR, in the
      same order. */
  function ListView(st: Store, from: string): (r: Reply)
    ensures GetInstallationList(st, from) == [] <==> r == NoInstallations
    ensures r.InstallationList? ==>
      var infos := GetInstallationList(st, from);
      && |r.rows| == |infos|
      && forall i :: 0 <= i < |infos| ==>
           r.rows[i] == ListRow(infos[i].dr, RowStatusOf(infos[i]), infos[i].isCurrent)
  {
    var infos := GetInstallationList(st, from);
    if infos == [] then NoInstallations
    else InstallationList(seq(|infos|, i requires 0 <= i < |infos| => ListRow(infos[i].dr, RowStatusOf(infos[i]), infos[i].isCurrent)))
  }

  /** `process_message`: normalise the sender, classify, dispatch. Sessions are never removed,
      and only a STRICTNESS command can change the threshold. */
  function Handle(b: Bot, m: Message, env: Env): (r: (Bot, Reply))
    ensures b.store.Keys <= r.0.store.Keys
    ensures r.0.threshold != b.threshold ==> Classify(m.body, m.mediaUrl).StrictnessCmd?
    ensures Classify(m.body, m.mediaUrl) in {StatusCmd, HelpCmd, GreetingCmd, ListCmd} ==> r.0 == b
  {
    Dispatch(b, Phone.Normalize(m.from), Classify(m.body, m.mediaUrl), env)
  }

  /** The handler `process_message` calls for a classified event from a normalised sender. */
  function Dispatch(b: Bot, from: string, e: Event, env: Env): (r: (Bot, Reply))
    ensures b.store.Keys <= r.0.store.Keys
    ensures r.0.threshold != b.threshold ==> e.StrictnessCmd?
    ensures e in {StatusCmd, HelpCmd, GreetingCmd, ListCmd} ==> r.0 == b
  {
    match e
    case LocationEvent(url) => HandleLocation(b, from, url, env.now)
    case PhotoEvent(url) => HandlePhoto(b, from, url, env)
    case StartCmd => HandleStart(b, from, env.now)
    case GreetingCmd => (b, Greeting)
    case StatusCmd => (b, StatusView(b.store, from))
    case HelpCmd => (b, Help)
    case ResetCmd => HandleReset(b, from, env.now)
    case SkipCmd(_) => HandleSkip(b, from, env.now)
    case ListCmd => (b, ListView(b.store, from))
    case StrictnessCmd(t) => HandleStrictness(b, t, env.parseFloat)
    case TextInput(t) => HandleText(b, from, t, env.now)
  }
}
