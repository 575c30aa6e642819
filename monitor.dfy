/** The polling loop of MonitorThread (core/workers.py): self-exemption,
    the five-second debounce on (last_check time, last_check title), and the
    events it emits. The window sampler, the clock and judge are inputs: every
    iteration is given its sample, the time read by the loop and the verdict
    judge gives for it. */
module Monitor {
  import opened Common
  import opened Text
  import opened Guardian

  /** What get_active_window_info returned: window title and process name. */
  datatype Sample = Sample(title: string, process: string)

  /** One iteration of the loop: its sample, the time (whole seconds), the
      verdict judge returns for the sample, and whether stop() was called while
      the iteration ran. */
  datatype Poll = Poll(sample: Sample, now: int, verdict: Verdict, stopRequested: bool)

  /** update_signal(process, title, is_distracted, reason). */
  datatype Event = Event(process: string, title: string, distracted: bool, reason: string)

  /** last_check: when the last sample was classified, and its title. */
  datatype Check = Check(time: int, title: string)

  /** The result of one iteration: the event emitted, if any, and the new last_check. */
  datatype Outcome = Outcome(event: Option<Event>, last: Check)

  /** The events of several iterations, and last_check after them. */
  datatype Trace = Trace(events: seq<Event>, last: Check)

  const InitialCheck := Check(0, "")
  const DebounceSeconds := 5
  const SafeReason := "FlowMate Safe"
  const PlatformEvent := Event("System", "Window monitoring not available", false, "Platform not supported")

  /** The tool never judges itself: its own process (or any Python process) or
      a title containing "FlowMate" (case-sensitive). */
  predicate SelfExempt(s: Sample) {
    Contains(Lower(s.process), "flowmate") || Contains(Lower(s.process), "python") || Contains(s.title, "FlowMate")
  }

  /** A sample is judged when its title changed or more than five seconds passed. */
  predicate Due(last: Check, s: Sample, now: int) {
    s.title != last.title || now - last.time > DebounceSeconds
  }

  /** One pass of the loop body. */
  function Rule(last: Check, p: Poll): (r: Outcome)
    // exempt samples always report "safe" and refresh last_check
    ensures SelfExempt(p.sample) ==>
      r == Outcome(Some(Event(p.sample.process, p.sample.title, false, SafeReason)), Check(p.now, p.sample.title))
    // judged samples report judge's verdict; last_check takes the time read before judge
    ensures !SelfExempt(p.sample) && Due(last, p.sample, p.now) ==>
      r == Outcome(Some(Event(p.sample.process, p.sample.title, p.verdict.distracted, p.verdict.reason)), Check(p.now, p.sample.title))
    // an unchanged title within five seconds is skipped silently
    ensures r.event.None? <==> !SelfExempt(p.sample) && !Due(last, p.sample, p.now)
    ensures r.event.None? ==> r.last == last
    // the debounce: the same title is judged again only after more than five seconds
    ensures r.event.Some? && !SelfExempt(p.sample) && p.sample.title == last.title ==> p.now - last.time > 5
  {
    var s := p.sample;
    if SelfExempt(s) then
      Outcome(Some(Event(s.process, s.title, false, SafeReason)), Check(p.now, s.title))
    else if Due(last, s, p.now) then
      Outcome(Some(Event(s.process, s.title, p.verdict.distracted, p.verdict.reason)), Check(p.now, s.title))
    else
      Outcome(None, last)
  }

  function EventsOf(o: Outcome): seq<Event> {
    if o.event.Some? then [o.event.value] else []
  }

  /** The loop body applied to every poll in turn. */
  function Replay(last: Check, polls: seq<Poll>): Trace
    decreases |polls|
  {
    if polls == [] then Trace([], last)
    else
      var prev := Replay(last, polls[..|polls| - 1]);
      var o := Rule(prev.last, polls[|polls| - 1]);
      Trace(prev.events + EventsOf(o), o.last)
  }

  /** Replaying one more poll applies the rule once more. */
  lemma ReplayStep(last: Check, polls: seq<Poll>, i: nat)
    requires i < |polls|
    ensures Replay(last, polls[..i + 1])
            == Trace(Replay(last, polls[..i]).events + EventsOf(Rule(Replay(last, polls[..i]).last, polls[i])),
                     Rule(Replay(last, polls[..i]).last, polls[i]).last)
  {
    assert polls[..i + 1][..i] == polls[..i];
  }

  /** How many iterations run: up to and including the first one during which
      stop() is called; all of them when stop() is never called. */
  function StopPoint(polls: seq<Poll>): (n: nat)
    ensures n <= |polls|
    ensures forall j :: 0 <= j < n - 1 ==> !polls[j].stopRequested
    ensures n < |polls| ==> n > 0 && polls[n - 1].stopRequested
    decreases |polls|
  {
    if polls == [] then 0
    else if polls[0].stopRequested then 1
    else 1 + StopPoint(polls[1..])
  }

  /** Never more than one event per iteration. */
  lemma {:induction false} ReplayBound(last: Check, polls: seq<Poll>)
    ensures |Replay(last, polls).events| <= |polls|
    decreases |polls|
  {
    if polls != [] {
      ReplayBound(last, polls[..|polls| - 1]);
    }
  }

  /** The first non-exempt sample after start-up is judged unless its title is
      empty and the clock reads at most five seconds. */
  lemma FirstSampleJudged(s: Sample, now: int)
    ensures Due(InitialCheck, s, now) <==> s.title != "" || now > 5
  {
  }

  /** A window that stays in front, keeps its title and is sampled within five
      seconds of its last classification produces no further event and no
      judge call. */
  lemma {:induction false} UnchangedWindowIsSilent(last: Check, polls: seq<Poll>)
    requires forall j :: 0 <= j < |polls| ==>
      polls[j].sample.title == last.title && !SelfExempt(polls[j].sample) && polls[j].now - last.time <= 5
    ensures Replay(last, polls) == Trace([], last)
    decreases |polls|
  {
    if polls != [] {
      UnchangedWindowIsSilent(last, polls[..|polls| - 1]);
    }
  }

  /** An event that poll p accounts for: p's process and title, and either
      the non-distracted "FlowMate Safe" of an exempt sample or the verdict of
      a judged one. */
  predicate Reports(e: Event, p: Poll) {
    && e.process == p.sample.process && e.title == p.sample.title
    && if SelfExempt(p.sample) then !e.distracted && e.reason == SafeReason
       else e.distracted == p.verdict.distracted && e.reason == p.verdict.reason
  }

  /** Every event is accounted for by one of the polls; none is invented. */
  lemma {:induction false} EventsComeFromPolls(last: Check, polls: seq<Poll>)
    ensures forall e :: e in Replay(last, polls).events ==>
      exists j :: 0 <= j < |polls| && Reports(e, polls[j])
    decreases |polls|
  {
    if polls != [] {
      var init := polls[..|polls| - 1];
      EventsComeFromPolls(last, init);
      forall e | e in Replay(last, polls).events
        ensures exists j :: 0 <= j < |polls| && Reports(e, polls[j])
      {
        var prev := Replay(last, init);
        if e in prev.events {
          var j :| 0 <= j < |init| && Reports(e, init[j]);
          assert init[j] == polls[j];
        } else {
          assert e in EventsOf(Rule(prev.last, polls[|polls| - 1]));
          assert Reports(e, polls[|polls| - 1]);
        }
      }
    }
  }

  /** The monitor thread: the flag the loop tests, last_check, and the events
      emitted so far. */
  class MonitorThread {
    const userGoal: string
    const platformSupported: bool
    var running: bool
    var lastCheck: Check
    var emitted: seq<Event>

    /** __init__: running, last_check = (0, ""). */
    constructor (userGoal: string, platformSupported: bool)
      ensures this.userGoal == userGoal && this.platformSupported == platformSupported
      ensures running && lastCheck == InitialCheck && emitted == []
    {
      this.userGoal := userGoal;
      this.platformSupported := platformSupported;
      running := true;
      lastCheck := InitialCheck;
      emitted := [];
    }

    /** stop(): only clears the flag; the loop notices it at its next test. */
    method Stop()
      modifies this`running
      ensures !running
    {
      running := false;
    }

    /** One pass of the loop body. */
    method Iterate(p: Poll)
      modifies this`lastCheck, this`emitted
      ensures lastCheck == Rule(old(lastCheck), p).last
      ensures emitted == old(emitted) + EventsOf(Rule(old(lastCheck), p))
    {
      var s := p.sample;
      var procLower := Lower(s.process);
      if Contains(procLower, "flowmate") || Contains(procLower, "python") || Contains(s.title, "FlowMate") {
        emitted := emitted + [Event(s.process, s.title, false, SafeReason)];
        lastCheck := Check(p.now, s.title);
        return;
      }
      var t := p.now;
      if s.title != lastCheck.title || t - lastCheck.time > DebounceSeconds {
        emitted := emitted + [Event(s.process, s.title, p.verdict.distracted, p.verdict.reason)];
        lastCheck := Check(t, s.title);
      }
    }

    /** run(): on an unsupported platform one "not supported" event and no loop;
        otherwise the loop runs while `running` holds, over the given polls.
        Returns how many iterations ran. */
    method Run(polls: seq<Poll>) returns (iterations: nat)
      modifies this`running, this`lastCheck, this`emitted
      ensures !platformSupported ==>
        iterations == 0 && emitted == old(emitted) + [PlatformEvent]
        && lastCheck == old(lastCheck) && running == old(running)
      ensures platformSupported ==>
        && iterations == (if old(running) then StopPoint(polls) else 0)
        && emitted == old(emitted) + Replay(old(lastCheck), polls[..iterations]).events
        && lastCheck == Replay(old(lastCheck), polls[..iterations]).last
        && (running <==> old(running) && iterations == |polls| && (iterations == 0 || !polls[iterations - 1].stopRequested))
    {
      if !platformSupported {
        emitted := emitted + [PlatformEvent];
        return 0;
      }
      ghost var start := lastCheck;
      ghost var before := emitted;
      iterations := 0;
      while running && iterations < |polls|
        invariant iterations <= |polls|
        invariant old(running) ==> iterations <= StopPoint(polls)
        invariant !old(running) ==> iterations == 0 && !running
        invariant running <==> old(running) && (iterations == 0 || !polls[iterations - 1].stopRequested)
        invariant emitted == before + Replay(start, polls[..iterations]).events
        invariant lastCheck == Replay(start, polls[..iterations]).last
        decreases |polls| - iterations
      {
        ReplayStep(start, polls, iterations);
        Iterate(polls[iterations]);
        if polls[iterations].stopRequested {
          Stop();
        }
        iterations := iterations + 1;
      }
    }
  }

  /** run() as written: line 115 calls create_task_profile with one argument
      where two are required, so on a supported platform the TypeError ends the
      thread before its loop, and no event is ever emitted. */
  function RunAsWritten(platformSupported: bool, polls: seq<Poll>): (r: seq<Event>)
    ensures platformSupported ==> r == []
  {
    if platformSupported then [] else [PlatformEvent]
  }

  /** The loop body as written: line 131 calls judge with three arguments where
      four are required; the TypeError is swallowed by the loop's handler, so a
      judged sample emits nothing and leaves last_check as it was. */
  function RuleAsWritten(last: Check, p: Poll): (r: Outcome)
    ensures r.event.Some? ==> r.event.value.reason == SafeReason && !r.event.value.distracted
  {
    if SelfExempt(p.sample) then
      Outcome(Some(Event(p.sample.process, p.sample.title, false, SafeReason)), Check(p.now, p.sample.title))
    else
      Outcome(None, last)
  }

  /** A video player in front, sampled on a supported platform: the loop as
      written reports nothing, the intended loop reports the distraction. */
  lemma AsWrittenMissesDistraction()
    ensures var p := Poll(Sample("video", "vlc"), 100, Verdict(true, "疑似分心"), false);
      && RunAsWritten(true, [p]) == []
      && RuleAsWritten(InitialCheck, p).event.None?
      && Replay(InitialCheck, [p]).events == [Event("vlc", "video", true, "疑似分心")]
  {
    var p := Poll(Sample("video", "vlc"), 100, Verdict(true, "疑似分心"), false);
    assert Lower("vlc") == "vlc";
    LongerNotContained("vlc", "flowmate");
    LongerNotContained("vlc", "python");
    LongerNotContained("video", "FlowMate");
    assert [p][..0] == [];
  }
}
