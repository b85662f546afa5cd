/**
 The executor's step command (cmd/step/main.go): a container waits for a signal file, runs its
 commands with retries, uploads secrets, and touches a success or an error file.
 */
module Steps {
  import opened Base

  type File = string

  datatype Step = Step(
    commands: nat,
    retries: int,
    uploads: nat,
    waitFile: Option<File>,
    failureFile: Option<File>,
    errorFile: Option<File>,
    successFile: Option<File>
  )

  predicate IsValid(s: Step) {
    s.commands > 0 && s.retries >= 0
  }

  datatype Try = Try(command: nat, ok: bool)

  datatype Phase =
    | Waiting
    | Trying(command: nat, attempt: nat)
    | Failing(command: nat)
    | Uploading
    | Succeeding
    | Stopped

  /** One run: where it is, the attempts it made, the uploads it finished, the files it touched. */
  datatype Proc = Proc(phase: Phase, log: seq<Try>, uploaded: nat, touchedError: bool, touchedSuccess: bool)

  function Init(s: Step): (p: Proc) {
    Proc(if s.waitFile.Some? then Waiting else Trying(0, 0), [], 0, false, false)
  }

  /** What can happen to a run next. */
  datatype Happening =
    | Polled               // looks for its signal files
    | TimedOut             // the wait ran out, or the context was cancelled while waiting
    | Attempted(ok: bool)
    | Aborted              // no pipe to the command, or the context was cancelled between attempts
    | Uploaded(ok: bool)
    | Touched(ok: bool)

  function AfterCommands(s: Step): (ph: Phase) {
    if s.uploads == 0 then Succeeding else Uploading
  }

  predicate Present(f: Option<File>, files: set<File>) {
    f.Some? && f.value in files
  }

  /** One happening; one that does not apply in the present phase changes nothing. */
  function Advance(s: Step, files: set<File>, p: Proc, h: Happening): (q: Proc) {
    match (p.phase, h)
    case (Waiting, Polled) =>
      if Present(s.failureFile, files) then p.(phase := Stopped)
      else if Present(s.waitFile, files) then p.(phase := Trying(0, 0))
      else p
    case (Waiting, TimedOut) => p.(phase := Stopped)
    case (Trying(i, a), Attempted(ok)) =>
      var log := p.log + [Try(i, ok)];
      if ok then p.(log := log, phase := if i + 1 < s.commands then Trying(i + 1, 0) else AfterCommands(s))
      else p.(log := log, phase := if a + 1 <= s.retries then Trying(i, a + 1) else Failing(i))
    case (Trying(i, a), Aborted) => p.(phase := Stopped)
    case (Failing(i), Touched(ok)) => p.(phase := Stopped, touchedError := ok && s.errorFile.Some?)
    case (Uploading, Uploaded(ok)) =>
      if !ok then p.(phase := Stopped)
      else p.(uploaded := p.uploaded + 1, phase := if p.uploaded + 1 == s.uploads then Succeeding else Uploading)
    case (Succeeding, Touched(ok)) => p.(phase := Stopped, touchedSuccess := ok && s.successFile.Some?)
    case _ => p
  }

  // ---- the account of one run

  /** Every command before `i` failed at most `retries` times and then succeeded once. */
  predicate DoneBefore(s: Step, log: seq<Try>, i: nat) {
    forall c: nat :: c < i ==> multiset(log)[Try(c, true)] == 1 && multiset(log)[Try(c, false)] <= s.retries
  }

  predicate NothingAfter(log: seq<Try>, i: nat) {
    forall t :: t in log ==> t.command <= i
  }

  /** Command `i` failed `a` times and did not succeed; the ones before are done, none after began. */
  predicate At(s: Step, log: seq<Try>, i: nat, a: nat) {
    && i < s.commands
    && DoneBefore(s, log, i)
    && multiset(log)[Try(i, true)] == 0 && multiset(log)[Try(i, false)] == a
    && NothingAfter(log, i)
    && |log| <= (s.retries + 1) * i + a
  }

  predicate AllDone(s: Step, log: seq<Try>)
    requires IsValid(s)
  {
    && DoneBefore(s, log, s.commands)
    && NothingAfter(log, s.commands - 1)
    && |log| <= (s.retries + 1) * s.commands
  }

  /** Exactly `retries + 1` failures of one command, no success of it, and none later started. */
  predicate GaveUp(s: Step, log: seq<Try>, i: nat)
    requires IsValid(s)
  {
    At(s, log, i, s.retries + 1)
  }

  ghost predicate Account(s: Step, p: Proc)
    requires IsValid(s)
  {
    && |p.log| <= (s.retries + 1) * s.commands
    && (p.touchedError ==> p.phase.Stopped? && s.errorFile.Some? && exists i :: GaveUp(s, p.log, i))
    && (p.touchedSuccess ==> p.phase.Stopped? && s.successFile.Some? && AllDone(s, p.log) && p.uploaded == s.uploads)
    && !(p.touchedError && p.touchedSuccess)
    && match p.phase
       case Waiting => p.log == [] && p.uploaded == 0
       case Trying(i, a) => a <= s.retries && At(s, p.log, i, a) && p.uploaded == 0
       case Failing(i) => GaveUp(s, p.log, i)
       case Uploading => AllDone(s, p.log) && p.uploaded < s.uploads
       case Succeeding => AllDone(s, p.log) && p.uploaded == s.uploads
       case Stopped => true
  }

  lemma InitAccount(s: Step)
    requires IsValid(s)
    ensures Account(s, Init(s))
  {
  }

  lemma AttemptsBounded(s: Step, i: nat, a: nat)
    requires IsValid(s) && i < s.commands && a <= s.retries + 1
    ensures (s.retries + 1) * i + a <= (s.retries + 1) * s.commands
  {
    Monotone(s.retries + 1, i + 1, s.commands);
    Distribute(s.retries + 1, i);
  }

  lemma Monotone(r: nat, a: nat, b: nat)
    requires a <= b
    ensures r * a <= r * b
  {
  }

  lemma Distribute(r: nat, i: nat)
    ensures r * (i + 1) == r * i + r
  {
  }

  lemma FailedAttempt(s: Step, log: seq<Try>, i: nat, a: nat)
    requires IsValid(s) && At(s, log, i, a)
    ensures At(s, log + [Try(i, false)], i, a + 1)
  {
    var m := log + [Try(i, false)];
    assert multiset(m) == multiset(log) + multiset{Try(i, false)};
    assert forall c: nat :: c < i ==> Try(c, true) != Try(i, false) && Try(c, false) != Try(i, false);
  }

  lemma GoodAttempt(s: Step, log: seq<Try>, i: nat, a: nat)
    requires IsValid(s) && At(s, log, i, a) && a <= s.retries
    ensures var m := log + [Try(i, true)];
            && DoneBefore(s, m, i + 1) && NothingAfter(m, i)
            && |m| <= (s.retries + 1) * (i + 1)
            && (i + 1 < s.commands ==> At(s, m, i + 1, 0))
  {
    var m := log + [Try(i, true)];
    assert multiset(m) == multiset(log) + multiset{Try(i, true)};
    assert Try(i + 1, true) !in log && Try(i + 1, false) !in log;
    assert Try(i + 1, true) !in multiset(log) && Try(i + 1, false) !in multiset(log);
    Distribute(s.retries + 1, i);
  }

  lemma AttemptKeeps(s: Step, files: set<File>, p: Proc, ok: bool)
    requires IsValid(s) && Account(s, p) && p.phase.Trying?
    ensures Account(s, Advance(s, files, p, Attempted(ok)))
  {
    hide At, DoneBefore, NothingAfter;
    var i, a := p.phase.command, p.phase.attempt;
    AtCommand(s, p.log, i, a);
    AttemptsBounded(s, i, a);
    AttemptsBounded(s, i, a + 1);
    if ok {
      GoodAttempt(s, p.log, i, a);
      if i + 1 < s.commands {
        AttemptsBounded(s, i + 1, 0);
      }
    } else {
      FailedAttempt(s, p.log, i, a);
    }
  }

  lemma AtCommand(s: Step, log: seq<Try>, i: nat, a: nat)
    requires At(s, log, i, a)
    ensures i < s.commands && |log| <= (s.retries + 1) * i + a
  {
  }

  /** The account is kept by whatever happens. */
  lemma AdvanceKeeps(s: Step, files: set<File>, p: Proc, h: Happening)
    requires IsValid(s) && Account(s, p)
    ensures Account(s, Advance(s, files, p, h))
  {
    if p.phase.Trying? && h.Attempted? {
      AttemptKeeps(s, files, p, h.ok);
    } else {
      hide At, DoneBefore, NothingAfter;
      StartAt(s);
      if p.phase.Failing? {
        assert GaveUp(s, p.log, p.phase.command);
      }
    }
  }

  lemma StartAt(s: Step)
    requires IsValid(s)
    ensures At(s, [], 0, 0)
  {
  }

  // ---- one run on its own

  /** A happening, and the signal files there are when it happens. */
  datatype Moment = Moment(files: set<File>, happening: Happening)

  function After(s: Step, trace: seq<Moment>): (p: Proc) {
    if trace == [] then Init(s)
    else
      var m := trace[|trace| - 1];
      Advance(s, m.files, After(s, trace[..|trace| - 1]), m.happening)
  }

  lemma {:induction false} RunsAccount(s: Step, trace: seq<Moment>)
    requires IsValid(s)
    ensures Account(s, After(s, trace))
  {
    hide Advance, Account;
    if trace == [] {
      InitAccount(s);
    } else {
      var n := |trace| - 1;
      RunsAccount(s, trace[..n]);
      AdvanceKeeps(s, trace[n].files, After(s, trace[..n]), trace[n].happening);
    }
  }

  lemma AfterNothing(s: Step)
    ensures After(s, []) == Init(s)
  {
  }

  lemma AfterStep(s: Step, trace: seq<Moment>, m: Moment)
    ensures After(s, trace + [m]) == Advance(s, m.files, After(s, trace), m.happening)
  {
    hide Advance;
    assert (trace + [m])[..|trace|] == trace;
  }

  datatype Fate = Fails | Works | Breaks

  /**
   The outside world of one run: whether there is a client for the uploads, the files each poll sees
   until the wait times out, and how each attempt, each upload and the touch of a file turn out.
   */
  datatype World = World(
    client: bool,
    polls: seq<set<File>>,
    attempts: (nat, nat) -> Fate,
    uploads: nat -> bool,
    touch: bool
  )

  /** Some poll saw the file waited for, and no poll up to it the file that tells of a failure above. */
  predicate Signalled(s: Step, polls: seq<set<File>>) {
    exists i :: 0 <= i < |polls| && Present(s.waitFile, polls[i]) && forall k :: 0 <= k <= i ==> !Present(s.failureFile, polls[k])
  }

  // ---- what the world makes of a step

  predicate Begins(s: Step, w: World) {
    && IsValid(s)
    && (s.uploads > 0 ==> w.client)
    && (s.waitFile.Some? ==> Signalled(s, w.polls))
  }

  predicate FailsBefore(w: World, i: nat, a: int) {
    forall k: nat :: k < a ==> w.attempts(i, k) == Fails
  }

  /** The command works within its attempts, after failures only. */
  predicate Passes(s: Step, w: World, i: nat) {
    exists a: nat :: a <= s.retries && w.attempts(i, a) == Works && FailsBefore(w, i, a)
  }

  predicate AllPass(s: Step, w: World, i: nat) {
    forall c: nat :: c < i ==> Passes(s, w, c)
  }

  predicate Exhausts(s: Step, w: World, i: nat) {
    FailsBefore(w, i, s.retries + 1)
  }

  predicate Delivered(s: Step, w: World) {
    forall u: nat :: u < s.uploads ==> w.uploads(u)
  }

  /** Some command fails at all its attempts, after all before it passed. */
  predicate GivesUp(s: Step, w: World) {
    exists i: nat :: i < s.commands && AllPass(s, w, i) && Exhausts(s, w, i)
  }

  /** The attempts of one command, from the a-th on. */
  function CommandLog(s: Step, w: World, i: nat, a: nat): (log: seq<Try>)
    decreases s.retries - a
  {
    if a > s.retries || w.attempts(i, a) == Breaks then []
    else if w.attempts(i, a) == Works then [Try(i, true)]
    else [Try(i, false)] + CommandLog(s, w, i, a + 1)
  }

  /** The attempts of all commands from the i-th on, up to one that does not pass. */
  function FullLog(s: Step, w: World, i: nat): (log: seq<Try>)
    decreases s.commands - i
  {
    if i >= s.commands then []
    else CommandLog(s, w, i, 0) + if Passes(s, w, i) then FullLog(s, w, i + 1) else []
  }

  /** At its first attempt that does not fail a command shows whether it passes. */
  lemma FirstNotFailing(s: Step, w: World, i: nat, a: nat)
    requires s.retries >= 0 && a <= s.retries && FailsBefore(w, i, a) && w.attempts(i, a) != Fails
    ensures Passes(s, w, i) <==> w.attempts(i, a) == Works
    ensures !Exhausts(s, w, i)
  {
  }

  lemma NeverPasses(s: Step, w: World, i: nat)
    requires Exhausts(s, w, i)
    ensures !Passes(s, w, i)
  {
  }

  /** The run ends at this command. */
  lemma StuckAt(s: Step, w: World, i: nat)
    requires i < s.commands && AllPass(s, w, i) && !Passes(s, w, i)
    ensures !AllPass(s, w, s.commands)
    ensures GivesUp(s, w) <==> Exhausts(s, w, i)
  {
    hide Passes;
    forall c: nat | c < s.commands && AllPass(s, w, c) && Exhausts(s, w, c) ensures c == i {
      NeverPasses(s, w, c);
      assert !(c < i) && !(i < c);
    }
  }

  lemma NoneGivesUp(s: Step, w: World)
    requires AllPass(s, w, s.commands)
    ensures !GivesUp(s, w)
  {
    hide Passes;
    forall i: nat | i < s.commands ensures !Exhausts(s, w, i) {
      if Exhausts(s, w, i) {
        NeverPasses(s, w, i);
      }
    }
  }

  /** All there is to tell of a run, from the step and its world alone. */
  ghost predicate Told(s: Step, w: World, ok: bool, p: Proc) {
    && p.log == (if Begins(s, w) then FullLog(s, w, 0) else [])
    && (p.touchedError <==> Begins(s, w) && GivesUp(s, w) && s.errorFile.Some? && w.touch)
    && (ok <==>
        && Begins(s, w) && AllPass(s, w, s.commands)
        && Delivered(s, w)
        && (s.successFile.Some? ==> w.touch))
    && (p.touchedSuccess <==> ok && s.successFile.Some?)
  }

  lemma NotSignalled(s: Step, polls: seq<set<File>>, i: nat)
    requires i <= |polls|
    requires forall k :: 0 <= k < i ==> !Present(s.waitFile, polls[k])
    requires i == |polls| || Present(s.failureFile, polls[i])
    ensures !Signalled(s, polls)
  {
  }

  /** The wait for the signal: polls until it is seen, the one above fails, or the time is up. */
  method Await(s: Step, w: World) returns (found: bool, p: Proc, ghost trace: seq<Moment>)
    requires IsValid(s) && s.waitFile.Some?
    ensures p == After(s, trace)
    ensures found <==> Signalled(s, w.polls)
    ensures p == Init(s).(phase := if found then Trying(0, 0) else Stopped)
  {
    hide After, Signalled;
    p, trace := Init(s), [];
    AfterNothing(s);
    for i := 0 to |w.polls|
      invariant p == After(s, trace) && p == Init(s)
      invariant forall k :: 0 <= k < i ==> !Present(s.failureFile, w.polls[k]) && !Present(s.waitFile, w.polls[k])
    {
      var files := w.polls[i];
      AfterStep(s, trace, Moment(files, Polled));
      trace := trace + [Moment(files, Polled)];
      if s.failureFile.Some? && s.failureFile.value in files {
        NotSignalled(s, w.polls, i);
        p := p.(phase := Stopped);
        return false, p, trace;
      }
      if s.waitFile.value in files {
        SignalledAt(s, w.polls, i);
        p := p.(phase := Trying(0, 0));
        return true, p, trace;
      }
    }
    NotSignalled(s, w.polls, |w.polls|);
    AfterStep(s, trace, Moment({}, TimedOut));
    p, trace := p.(phase := Stopped), trace + [Moment({}, TimedOut)];
    found := false;
  }

  /** The retry loop of one command. */
  method Retry(s: Step, w: World, i: nat, start: Proc, ghost past: seq<Moment>)
    returns (fate: Fate, p: Proc, ghost trace: seq<Moment>)
    requires IsValid(s) && i < s.commands && start == After(s, past) && start.phase == Trying(i, 0)
    ensures p == After(s, trace)
    ensures fate.Works? <==> Passes(s, w, i)
    ensures fate.Fails? <==> Exhausts(s, w, i)
    ensures p == start.(phase := match fate
                                 case Works => if i + 1 < s.commands then Trying(i + 1, 0) else AfterCommands(s)
                                 case Fails => Failing(i)
                                 case Breaks => Stopped,
                        log := start.log + CommandLog(s, w, i, 0))
  {
    hide After, Passes, CommandLog, Advance, FailsBefore;
    p, trace := start, past;
    NoneBefore(w, i);
    var attempt := 0;
    while attempt <= s.retries
      invariant 0 <= attempt <= s.retries + 1
      invariant p == After(s, trace) && FailsBefore(w, i, attempt)
      invariant p == start.(phase := if attempt <= s.retries then Trying(i, attempt) else Failing(i), log := p.log)
      invariant p.log + CommandLog(s, w, i, attempt) == start.log + CommandLog(s, w, i, 0)
      decreases s.retries - attempt
    {
      LogAt(s, w, i, attempt);
      match w.attempts(i, attempt) {
        case Breaks =>
          AfterTry(s, trace, Aborted);
          p, trace := p.(phase := Stopped), trace + [Moment({}, Aborted)];
          FirstNotFailing(s, w, i, attempt);
          return Breaks, p, trace;
        case Fails =>
          AfterTry(s, trace, Attempted(false));
          OneMoreFails(w, i, attempt);
          p := p.(log := p.log + [Try(i, false)],
                  phase := if attempt + 1 <= s.retries then Trying(i, attempt + 1) else Failing(i));
          trace := trace + [Moment({}, Attempted(false))];
          attempt := attempt + 1;
        case Works =>
          AfterTry(s, trace, Attempted(true));
          p := p.(log := p.log + [Try(i, true)],
                  phase := if i + 1 < s.commands then Trying(i + 1, 0) else AfterCommands(s));
          trace := trace + [Moment({}, Attempted(true))];
          FirstNotFailing(s, w, i, attempt);
          return Works, p, trace;
      }
    }
    LogAt(s, w, i, attempt);
    NeverPasses(s, w, i);
    fate := Fails;
  }

  /**
   The command as it runs: wait, the nested retry loops, the uploads, the signal file.  Its steps
   are happenings of the machine above, so its account is in order; and how it turns out is told by
   the world: its log, its answer, and which file it touches.
   */
  method Run(s: Step, w: World) returns (ok: bool, p: Proc, ghost trace: seq<Moment>)
    ensures p == After(s, trace)
    ensures Told(s, w, ok, p)
    ensures IsValid(s) ==> Account(s, p)
    ensures ok ==> p.uploaded == s.uploads && AllDone(s, p.log)
    ensures p.phase.Stopped? || p == Init(s)
  {
    hide Account, At, DoneBefore, NothingAfter, After, Passes, Exhausts, GivesUp, Signalled, CommandLog, FullLog;
    p, trace := Init(s), [];
    AfterNothing(s);
    ok := false;
    if !IsValid(s) { return; }
    InitAccount(s);
    if s.uploads > 0 && !w.client { return; }
    if s.waitFile.Some? {
      var found;
      found, p, trace := Await(s, w);
      if !found {
        RunsAccount(s, trace);
        return;
      }
    }
    for i := 0 to s.commands
      invariant p == After(s, trace) && p == Init(s).(phase := p.phase, log := p.log)
      invariant p.phase == if i < s.commands then Trying(i, 0) else AfterCommands(s)
      invariant AllPass(s, w, i) && p.log + FullLog(s, w, i) == FullLog(s, w, 0)
    {
      LogFrom(s, w, i);
      ghost var log := p.log + CommandLog(s, w, i, 0);
      var fate;
      fate, p, trace := Retry(s, w, i, p, trace);
      assert p.log == log;
      if fate.Breaks? {
        RunsAccount(s, trace);
        StuckAt(s, w, i);
        return;
      }
      if fate.Fails? {
        AfterStep(s, trace, Moment({}, Touched(w.touch)));
        p, trace := p.(phase := Stopped, touchedError := w.touch && s.errorFile.Some?), trace + [Moment({}, Touched(w.touch))];
        RunsAccount(s, trace);
        StuckAt(s, w, i);
        return;
      }
    }
    LogFrom(s, w, s.commands);
    NoneGivesUp(s, w);
    for u := 0 to s.uploads
      invariant p == After(s, trace) && !p.touchedSuccess && !p.touchedError && p.uploaded == u
      invariant p.phase == if u < s.uploads then Uploading else Succeeding
      invariant p.log == FullLog(s, w, 0)
      invariant forall k: nat :: k < u ==> w.uploads(k)
    {
      AfterStep(s, trace, Moment({}, Uploaded(w.uploads(u))));
      trace := trace + [Moment({}, Uploaded(w.uploads(u)))];
      if !w.uploads(u) {
        assert !Delivered(s, w);
        p := p.(phase := Stopped);
        RunsAccount(s, trace);
        return;
      }
      p := p.(uploaded := u + 1, phase := if u + 1 == s.uploads then Succeeding else Uploading);
    }
    RunsAccount(s, trace);
    SucceedingIsDone(s, p);
    AfterStep(s, trace, Moment({}, Touched(w.touch)));
    p, trace := p.(phase := Stopped, touchedSuccess := w.touch && s.successFile.Some?), trace + [Moment({}, Touched(w.touch))];
    RunsAccount(s, trace);
    ok := s.successFile.Some? ==> w.touch;
  }

  lemma NoneBefore(w: World, i: nat)
    ensures FailsBefore(w, i, 0)
  {
  }

  lemma OneMoreFails(w: World, i: nat, a: nat)
    requires FailsBefore(w, i, a) && w.attempts(i, a) == Fails
    ensures FailsBefore(w, i, a + 1)
  {
  }

  lemma AfterTry(s: Step, trace: seq<Moment>, h: Happening)
    requires After(s, trace).phase.Trying? && (h.Aborted? || h.Attempted?)
    ensures var p := After(s, trace); var i, a := p.phase.command, p.phase.attempt;
            After(s, trace + [Moment({}, h)]) ==
            if h.Aborted? then p.(phase := Stopped)
            else p.(log := p.log + [Try(i, h.ok)],
                    phase := if h.ok then if i + 1 < s.commands then Trying(i + 1, 0) else AfterCommands(s)
                             else if a + 1 <= s.retries then Trying(i, a + 1) else Failing(i))
  {
    hide After;
    AfterStep(s, trace, Moment({}, h));
  }

  lemma SignalledAt(s: Step, polls: seq<set<File>>, i: nat)
    requires i < |polls| && Present(s.waitFile, polls[i])
    requires forall k :: 0 <= k <= i ==> !Present(s.failureFile, polls[k])
    ensures Signalled(s, polls)
  {
  }

  lemma LogFrom(s: Step, w: World, i: nat)
    ensures FullLog(s, w, i) == if i >= s.commands then []
                                else CommandLog(s, w, i, 0) + if Passes(s, w, i) then FullLog(s, w, i + 1) else []
  {
    hide Passes, CommandLog;
  }

  lemma LogAt(s: Step, w: World, i: nat, a: nat)
    ensures CommandLog(s, w, i, a) ==
            if a > s.retries || w.attempts(i, a) == Breaks then []
            else if w.attempts(i, a) == Works then [Try(i, true)]
            else [Try(i, false)] + CommandLog(s, w, i, a + 1)
  {
  }

  lemma SucceedingIsDone(s: Step, p: Proc)
    requires IsValid(s) && Account(s, p) && p.phase.Succeeding?
    ensures AllDone(s, p.log)
  {
    hide At, DoneBefore, NothingAfter;
  }

  // ---- a chain of steps, in any interleaving

  /** The containers of one pod share a directory of signal files. */
  datatype Pod = Pod(procs: seq<Proc>, files: set<File>)

  /** Step `k` waits on the success file of step `k - 1`, and no file has two meanings. */
  predicate Chain(steps: seq<Step>) {
    && (forall k :: 0 <= k < |steps| ==> IsValid(steps[k]) && steps[k].successFile.Some?)
    && (forall k :: 0 < k < |steps| ==> steps[k].waitFile == steps[k - 1].successFile)
    && (forall k, j :: 0 <= k < |steps| && 0 <= j < |steps| && k != j ==> steps[k].successFile != steps[j].successFile)
    && (forall k, j :: 0 <= k < |steps| && 0 <= j < |steps| ==> steps[k].successFile != steps[j].errorFile)
  }

  predicate Starts(steps: seq<Step>, pod: Pod) {
    && |pod.procs| == |steps|
    && (forall k :: 0 <= k < |steps| ==> pod.procs[k] == Init(steps[k]))
    && (forall k :: 0 <= k < |steps| ==> !Present(steps[k].successFile, pod.files))
  }

  function TouchedBy(s: Step, p: Proc): (fs: set<File>) {
    (if p.touchedError && s.errorFile.Some? then {s.errorFile.value} else {})
    + (if p.touchedSuccess && s.successFile.Some? then {s.successFile.value} else {})
  }

  datatype Turn = Turn(step: nat, happening: Happening)

  function Takes(steps: seq<Step>, pod: Pod, t: Turn): (q: Pod)
    requires |pod.procs| == |steps|
    ensures |q.procs| == |steps|
  {
    if t.step >= |steps| then pod
    else
      var p := Advance(steps[t.step], pod.files, pod.procs[t.step], t.happening);
      Pod(pod.procs[t.step := p], pod.files + TouchedBy(steps[t.step], p))
  }

  function Play(steps: seq<Step>, pod: Pod, turns: seq<Turn>): (q: Pod)
    requires |pod.procs| == |steps|
    ensures |q.procs| == |steps|
  {
    if turns == [] then pod else Takes(steps, Play(steps, pod, turns[..|turns| - 1]), turns[|turns| - 1])
  }

  /** The step did everything it was asked to and said so. */
  ghost predicate Finished(s: Step, p: Proc)
    requires IsValid(s)
  {
    p.touchedSuccess && AllDone(s, p.log) && p.uploaded == s.uploads
  }

  /** A run has begun its commands. */
  predicate Begun(p: Proc) {
    !p.phase.Waiting? && (p.log != [] || !p.phase.Stopped?)
  }

  ghost predicate GoodPod(steps: seq<Step>, pod: Pod)
    requires Chain(steps)
  {
    && |pod.procs| == |steps|
    && (forall k :: 0 <= k < |steps| ==> Account(steps[k], pod.procs[k]))
    && (forall k :: 0 <= k < |steps| && Present(steps[k].successFile, pod.files) ==> pod.procs[k].touchedSuccess)
    && (forall k :: 0 < k < |steps| && Begun(pod.procs[k]) ==> pod.procs[k - 1].touchedSuccess)
  }

  lemma StartsGood(steps: seq<Step>, pod: Pod)
    requires Chain(steps) && Starts(steps, pod)
    ensures GoodPod(steps, pod)
  {
    hide Account;
    forall k | 0 <= k < |steps| ensures Account(steps[k], pod.procs[k]) {
      InitAccount(steps[k]);
    }
    assert forall k :: 0 < k < |steps| ==> steps[k].waitFile == steps[k - 1].successFile;
  }

  /** A run that touched its success file is over; what it said stays said. */
  lemma SaidStays(s: Step, files: set<File>, p: Proc, h: Happening)
    requires IsValid(s) && Account(s, p)
    ensures p.touchedSuccess ==> Advance(s, files, p, h) == p
    ensures p.touchedError ==> Advance(s, files, p, h) == p
  {
  }

  /** A run that waits begins only once it has seen the file it waits for. */
  lemma BeginsOnSignal(s: Step, files: set<File>, p: Proc, h: Happening)
    requires IsValid(s) && Account(s, p) && !Begun(p) && s.waitFile.Some?
    ensures Begun(Advance(s, files, p, h)) ==> Present(s.waitFile, files)
  {
    hide At, AllDone, GaveUp;
  }

  lemma TakesKeeps(steps: seq<Step>, pod: Pod, t: Turn)
    requires Chain(steps) && GoodPod(steps, pod)
    ensures GoodPod(steps, Takes(steps, pod, t))
  {
    hide Account, Advance, Begun;
    if t.step < |steps| {
      var n := t.step;
      var s, p := steps[n], pod.procs[n];
      var p' := Advance(s, pod.files, p, t.happening);
      var q := Takes(steps, pod, t);
      AdvanceKeeps(s, pod.files, p, t.happening);
      SaidStays(s, pod.files, p, t.happening);
      forall k | 0 <= k < |steps| && Present(steps[k].successFile, q.files) ensures q.procs[k].touchedSuccess {
        if !Present(steps[k].successFile, pod.files) {
          assert steps[k].successFile.value in TouchedBy(s, p');
          assert k == n;
        }
      }
      forall k | 0 < k < |steps| && Begun(q.procs[k]) ensures q.procs[k - 1].touchedSuccess {
        if k == n && !Begun(p) {
          assert steps[k].waitFile == steps[k - 1].successFile;
          BeginsOnSignal(s, pod.files, p, t.happening);
        }
      }
    }
  }

  lemma {:induction false} PlayKeeps(steps: seq<Step>, pod: Pod, turns: seq<Turn>)
    requires Chain(steps) && Starts(steps, pod)
    ensures GoodPod(steps, Play(steps, pod, turns))
  {
    hide GoodPod, Takes;
    if turns == [] {
      StartsGood(steps, pod);
    } else {
      var n := |turns| - 1;
      PlayKeeps(steps, pod, turns[..n]);
      TakesKeeps(steps, Play(steps, pod, turns[..n]), turns[n]);
    }
  }

  /**
   In every interleaving of a chain, a step that has made any attempt is preceded, in every
   earlier step, by one success of every command, all uploads, and the success file.
   */
  lemma ChainInOrder(steps: seq<Step>, pod: Pod, turns: seq<Turn>, k: nat, j: nat)
    requires Chain(steps) && Starts(steps, pod) && j < k < |steps|
    requires Play(steps, pod, turns).procs[k].log != []
    ensures Finished(steps[j], Play(steps, pod, turns).procs[j])
  {
    hide Account;
    PlayKeeps(steps, pod, turns);
    var q := Play(steps, pod, turns);
    LoggedIsBegun(steps[k], q.procs[k]);
    EarlierSaid(steps, q, k, j);
    SaidIsTrue(steps[j], q.procs[j]);
  }

  lemma LoggedIsBegun(s: Step, p: Proc)
    requires IsValid(s) && Account(s, p) && p.log != []
    ensures Begun(p)
  {
    hide At, AllDone, GaveUp;
  }

  lemma SaidIsTrue(s: Step, p: Proc)
    requires IsValid(s) && Account(s, p) && p.touchedSuccess
    ensures Finished(s, p) && Begun(p)
  {
    DoneIsLogged(s, p.log);
  }

  lemma DoneIsLogged(s: Step, log: seq<Try>)
    requires IsValid(s) && AllDone(s, log)
    ensures log != []
  {
    assert multiset(log)[Try(0, true)] == 1;
  }

  lemma {:induction false} EarlierSaid(steps: seq<Step>, pod: Pod, k: nat, j: nat)
    requires Chain(steps) && GoodPod(steps, pod) && j < k < |steps| && Begun(pod.procs[k])
    ensures pod.procs[j].touchedSuccess
    decreases k
  {
    hide Account;
    assert pod.procs[k - 1].touchedSuccess;
    if j < k - 1 {
      SaidIsTrue(steps[k - 1], pod.procs[k - 1]);
      EarlierSaid(steps, pod, k - 1, j);
    }
  }
}
