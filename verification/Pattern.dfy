/** Siren signals and their playback (Pattern.h), against the plain list of
    sounding windows that tools/web_preview.py draws. */
module Patterns {
  import opened Clock

  const MAX_STEPS := 12
  const MAX_STEP_MS := 60000
  const UNIT_MS := 10

  /** Steps are in 10 ms units, the sign is the kind: > 0 siren ON, < 0 pause.
      `steps` is the used prefix of the fixed array, its length is `count`. */
  datatype Pattern = Pattern(enabled: bool, repeat: nat, steps: seq<int>)

  const EMPTY := Pattern(true, 1, [])

  function Abs(x: int): (r: nat) {
    if x < 0 then -x else x
  }

  function StepMs(units: int): nat {
    Abs(units) * UNIT_MS
  }

  predicate HasOn(steps: seq<int>) {
    steps != [] && (steps[0] > 0 || HasOn(steps[1..]))
  }

  /** The limits that Add keeps and validateConfig enforces. */
  predicate InRange(p: Pattern) {
    && |p.steps| <= MAX_STEPS
    && forall i :: 0 <= i < |p.steps| ==> StepMs(p.steps[i]) <= MAX_STEP_MS
  }

  /** Appends a step rounded to the unit; 0 ms adds nothing and is no error. */
  function Add(p: Pattern, on: bool, ms: nat): (r: (bool, Pattern))
    ensures InRange(p) ==> InRange(r.1)
    ensures !r.0 ==> r.1 == p
  {
    if ms > MAX_STEP_MS then (false, p)
    else
      var units := (ms + UNIT_MS / 2) / UNIT_MS;
      if units == 0 then (ms == 0, p)
      else if |p.steps| >= MAX_STEPS then (false, p)
      else (true, p.(steps := p.steps + [if on then units else -units]))
  }

  function Pulses(onMs: nat, offMs: nat, repeat: nat, enabled: bool): Pattern {
    Add(Add(Pattern(enabled, repeat, []), true, onMs).1, false, offMs).1
  }

  // ---- the plain timeline -------------------------------------------------

  datatype Window = Window(from: int, to: int)

  function Repeat(steps: seq<int>, times: nat): seq<int> {
    if times == 0 then [] else steps + Repeat(steps, times - 1)
  }

  function Duration(steps: seq<int>): nat {
    if steps == [] then 0 else StepMs(steps[0]) + Duration(steps[1..])
  }

  /** The ON intervals of a step list played once from `t`. */
  function Windows(steps: seq<int>, t: int): seq<Window> {
    if steps == [] then []
    else
      (if steps[0] > 0 then [Window(t, t + StepMs(steps[0]))] else [])
      + Windows(steps[1..], t + StepMs(steps[0]))
  }

  /** What a listener must hear: nothing when the signal is disabled. */
  function Timeline(p: Pattern, t0: int): seq<Window> {
    if p.enabled then Windows(Repeat(p.steps, p.repeat), t0) else []
  }

  ghost predicate Sounds(ws: seq<Window>, t: int) {
    exists i :: 0 <= i < |ws| && ws[i].from <= t < ws[i].to
  }

  /** The signal is over when its last window closes. */
  function SignalEnd(p: Pattern, t0: int): int {
    EndOf(Timeline(p, t0), t0)
  }

  function EndOf(ws: seq<Window>, t0: int): int {
    if ws == [] then t0 else ws[|ws| - 1].to
  }

  lemma {:induction false} DurationConcat(a: seq<int>, b: seq<int>)
    ensures Duration(a + b) == Duration(a) + Duration(b)
  {
    if a == [] {
      assert a + b == b;
    } else {
      assert (a + b)[1..] == a[1..] + b;
      DurationConcat(a[1..], b);
    }
  }

  lemma {:induction false} WindowsConcat(a: seq<int>, b: seq<int>, t: int)
    ensures Windows(a + b, t) == Windows(a, t) + Windows(b, t + Duration(a))
  {
    if a == [] {
      assert a + b == b;
    } else {
      assert (a + b)[1..] == a[1..] + b;
      WindowsConcat(a[1..], b, t + StepMs(a[0]));
    }
  }

  /** No window opens before the list starts, and there is one iff some step is ON. */
  lemma {:induction false} WindowBounds(steps: seq<int>, t: int)
    ensures forall i :: 0 <= i < |Windows(steps, t)| ==>
              t <= Windows(steps, t)[i].from < Windows(steps, t)[i].to
    ensures Windows(steps, t) != [] <==> HasOn(steps)
  {
    if steps != [] {
      WindowBounds(steps[1..], t + StepMs(steps[0]));
    }
  }

  lemma {:induction false} RepeatSnoc(steps: seq<int>, times: nat)
    ensures Repeat(steps, times + 1) == Repeat(steps, times) + steps
  {
    if times == 0 {
      assert Repeat(steps, 1) == steps + [] == [] + steps;
    } else {
      RepeatSnoc(steps, times - 1);
    }
  }

  /** The preview's own loop computes that timeline. */
  method SoundingWindows(steps: seq<int>, repeat: nat, t0: int) returns (out: seq<Window>)
    ensures out == Windows(Repeat(steps, repeat), t0)
  {
    out := [];
    var t := t0;
    for r := 0 to repeat
      invariant out == Windows(Repeat(steps, r), t0)
      invariant t == t0 + Duration(Repeat(steps, r))
    {
      ghost var done := Repeat(steps, r);
      assert done + steps[..0] == done;
      for i := 0 to |steps|
        invariant out == Windows(done + steps[..i], t0)
        invariant t == t0 + Duration(done + steps[..i])
      {
        ghost var prefix := done + steps[..i];
        assert done + steps[..i + 1] == prefix + [steps[i]];
        WindowsConcat(prefix, [steps[i]], t0);
        DurationConcat(prefix, [steps[i]]);
        if steps[i] > 0 {
          out := out + [Window(t, t + StepMs(steps[i]))];
        }
        t := t + StepMs(steps[i]);
      }
      assert done + steps[..|steps|] == done + steps;
      RepeatSnoc(steps, r);
    }
  }

  /** What the duration of a step is rounded to; over the limit it is refused. */
  function Rounded(ms: nat): nat {
    if ms > MAX_STEP_MS then 0 else (ms + 5) / 10 * 10
  }

  /** `on` ms of siren, the first thing of a list that lasts `period`. */
  ghost predicate OneBeep(steps: seq<int>, on: nat, period: nat) {
    Duration(steps) == period && forall t :: Windows(steps, t) == [Window(t, t + on)]
  }

  lemma {:induction false} BeepsRepeat(steps: seq<int>, on: nat, period: nat, repeat: nat, t0: int, k: nat)
    requires OneBeep(steps, on, period)
    ensures var ws := Windows(Repeat(steps, repeat), t0);
            && |ws| == repeat && (repeat > 0 ==> ws[0] == Window(t0, t0 + on))
            && (k + 1 < repeat ==> ws[k + 1] == Window(ws[k].from + period, ws[k].to + period))
    decreases repeat
  {
    hide OneBeep, Windows;
    if repeat == 0 {
      NoWindows(t0);
    } else {
      BeepComesFirst(steps, on, period, Repeat(steps, repeat - 1), t0);
      BeepsRepeat(steps, on, period, repeat - 1, t0 + period, if k == 0 then 0 else k - 1);
    }
  }

  lemma BeepComesFirst(steps: seq<int>, on: nat, period: nat, rest: seq<int>, t: int)
    requires OneBeep(steps, on, period)
    ensures Windows(steps + rest, t) == [Window(t, t + on)] + Windows(rest, t + period)
  {
    WindowsConcat(steps, rest, t);
  }

  /** `u` units of siren, then a pause of `v` units if there is one. */
  lemma UnitsBeep(steps: seq<int>, u: nat, v: nat)
    requires u > 0 && |steps| == (if v == 0 then 1 else 2) && steps[0] == u && (v > 0 ==> steps[1] == 0 - v)
    ensures OneBeep(steps, u * UNIT_MS, u * UNIT_MS + v * UNIT_MS)
  {
    var rest := steps[1..];
    assert v > 0 ==> rest == [steps[1]] && rest[1..] == [];
    assert Duration(rest) == v * UNIT_MS;
    forall t
      ensures Windows(steps, t) == [Window(t, t + u * UNIT_MS)]
    {
      assert Windows(rest, t + u * UNIT_MS) == [];
    }
  }

  lemma PulseSteps(onMs: nat, offMs: nat, repeat: nat, enabled: bool)
    requires Rounded(onMs) > 0
    ensures var u, v := Rounded(onMs) / UNIT_MS, Rounded(offMs) / UNIT_MS;
            && Pulses(onMs, offMs, repeat, enabled) == Pattern(enabled, repeat, if v == 0 then [u] else [u, 0 - v])
            && Rounded(onMs) == u * UNIT_MS && Rounded(offMs) == v * UNIT_MS
  {
    var u: int, v: int := Rounded(onMs) / UNIT_MS, Rounded(offMs) / UNIT_MS;
    var first := Add(Pattern(enabled, repeat, []), true, onMs).1;
    assert [] + [u] == [u];
    assert first.steps == [u];
    assert [u] + [0 - v] == [u, 0 - v];
  }

  /** A pulse pattern sounds `repeat` times for the rounded ON time, the first at once
      and each next one a rounded ON time and pause after the one before. */
  lemma PulsesBeep(onMs: nat, offMs: nat, repeat: nat, t0: int, k: nat)
    requires Rounded(onMs) > 0
    ensures var ws, on, period := Timeline(Pulses(onMs, offMs, repeat, true), t0), Rounded(onMs),
                                  Rounded(onMs) + Rounded(offMs);
            && |ws| == repeat && (repeat > 0 ==> ws[0] == Window(t0, t0 + on))
            && (k + 1 < repeat ==> ws[k + 1] == Window(ws[k].from + period, ws[k].to + period))
  {
    hide OneBeep, Rounded, Pulses;
    PulseSteps(onMs, offMs, repeat, true);
    var steps := Pulses(onMs, offMs, repeat, true).steps;
    UnitsBeep(steps, Rounded(onMs) / UNIT_MS, Rounded(offMs) / UNIT_MS);
    BeepsRepeat(steps, Rounded(onMs), Rounded(onMs) + Rounded(offMs), repeat, t0, k);
  }

  // ---- the scheduler ------------------------------------------------------

  datatype Sched = Sched(pattern: Pattern, phaseStart: Millis, idx: nat, rep: nat, running: bool)

  /** Steps not yet finished, the current one first. */
  function Rest(s: Sched): seq<int>
    requires s.running ==> s.idx <= |s.pattern.steps| && s.rep < s.pattern.repeat
  {
    if s.running then s.pattern.steps[s.idx..] + Repeat(s.pattern.steps, s.pattern.repeat - s.rep - 1)
    else []
  }

  /** A running scheduler stands on a step and still has an ON step to play. */
  predicate ValidSched(s: Sched) {
    && InRange(s.pattern)
    && (s.running ==>
          && s.idx < |s.pattern.steps| && s.rep < s.pattern.repeat
          && HasOn(s.pattern.steps) && HasOn(Rest(s)))
  }

  function SkipSilence(s: Sched): Sched {
    if !s.running then s
    else if s.rep >= s.pattern.repeat then s.(running := false)
    else if s.rep + 1 < s.pattern.repeat then s
    else if s.idx <= |s.pattern.steps| && HasOn(s.pattern.steps[s.idx..]) then s
    else s.(running := false)
  }

  function Start(p: Pattern, now: Millis): Sched {
    SkipSilence(Sched(p, now, 0, 0, p.enabled && p.repeat > 0 && HasOn(p.steps)))
  }

  /** One pass of the tick loop: leave the current step by its nominal length. */
  function NextStep(s: Sched): Sched
    requires ValidSched(s) && s.running
  {
    var after := s.(phaseStart := Wrap(s.phaseStart + StepMs(s.pattern.steps[s.idx])));
    SkipSilence(if s.idx + 1 >= |s.pattern.steps| then after.(idx := 0, rep := s.rep + 1)
                else after.(idx := s.idx + 1))
  }

  predicate StepOver(s: Sched, now: Millis)
    requires ValidSched(s)
  {
    s.running && IntervalPassed(now, s.phaseStart, StepMs(s.pattern.steps[s.idx]))
  }

  lemma {:induction false} HasOnConcat(a: seq<int>, b: seq<int>)
    ensures HasOn(a + b) <==> HasOn(a) || HasOn(b)
  {
    if a == [] {
      assert a + b == b;
    } else {
      assert (a + b)[1..] == a[1..] + b;
      HasOnConcat(a[1..], b);
    }
  }

  lemma StartIsValid(p: Pattern, now: Millis)
    requires InRange(p)
    ensures ValidSched(Start(p, now))
    ensures Start(p, now).running <==> p.enabled && p.repeat > 0 && HasOn(p.steps)
    ensures Start(p, now).running ==> Rest(Start(p, now)) == Repeat(p.steps, p.repeat)
  {
    assert p.steps[0..] == p.steps;
    if p.repeat > 0 {
      HasOnConcat(p.steps, Repeat(p.steps, p.repeat - 1));
    }
  }

  /** Leaving a step drops exactly it; the scheduler stops iff no ON step is left. */
  lemma NextStepIsTail(s: Sched)
    requires ValidSched(s) && s.running
    ensures ValidSched(NextStep(s))
    ensures NextStep(s).pattern == s.pattern
    ensures NextStep(s).running <==> HasOn(Rest(s)[1..])
    ensures Rest(NextStep(s)) == if NextStep(s).running then Rest(s)[1..] else []
  {
    hide HasOn, InRange, StepMs, Repeat;
    if s.idx + 1 < |s.pattern.steps| {
      NextInRound(s);
    } else {
      NextRound(s);
    }
  }

  lemma NextInRound(s: Sched)
    requires ValidSched(s) && s.running && s.idx + 1 < |s.pattern.steps|
    ensures NextStep(s).running <==> HasOn(Rest(s)[1..])
    ensures NextStep(s).running ==>
              NextStep(s).idx == s.idx + 1 && NextStep(s).rep == s.rep && Rest(NextStep(s)) == Rest(s)[1..]
  {
    hide HasOn, InRange, StepMs, Repeat;
    var steps, left := s.pattern.steps, s.pattern.repeat - s.rep - 1;
    var tail := steps[s.idx + 1..];
    assert Rest(s)[1..] == tail + Repeat(steps, left);
    HasOnConcat(tail, Repeat(steps, left));
    RepeatHasOn(steps, left);
    if left == 0 {
      assert tail + [] == tail;
    }
  }

  lemma NextRound(s: Sched)
    requires ValidSched(s) && s.running && s.idx + 1 == |s.pattern.steps|
    ensures NextStep(s).running <==> HasOn(Rest(s)[1..])
    ensures NextStep(s).running ==>
              NextStep(s).idx == 0 && NextStep(s).rep == s.rep + 1 < s.pattern.repeat
              && Rest(NextStep(s)) == Rest(s)[1..]
  {
    hide HasOn, InRange, StepMs, Repeat;
    var steps, left := s.pattern.steps, s.pattern.repeat - s.rep - 1;
    assert Rest(s)[1..] == Repeat(steps, left);
    RepeatHasOn(steps, left);
    assert steps[0..] == steps;
  }

  lemma RepeatHasOn(steps: seq<int>, times: nat)
    requires HasOn(steps)
    ensures HasOn(Repeat(steps, times)) <==> times > 0
    ensures Repeat(steps, times) == if times == 0 then [] else steps + Repeat(steps, times - 1)
  {
    if times > 0 {
      HasOnConcat(steps, Repeat(steps, times - 1));
    }
  }

  lemma RestShrinks(s: Sched)
    requires ValidSched(s) && s.running && ValidSched(NextStep(s))
    requires Rest(NextStep(s)) == if NextStep(s).running then Rest(s)[1..] else []
    ensures |Rest(NextStep(s))| < |Rest(s)|
  {
  }

  function Tick(s: Sched, now: Millis): (r: Sched)
    requires ValidSched(s)
    ensures ValidSched(r) && r.pattern == s.pattern
    decreases |Rest(s)|
  {
    if StepOver(s, now) then
      NextStepIsTail(s);
      RestShrinks(s);
      Tick(NextStep(s), now)
    else s
  }

  predicate Output(s: Sched)
    requires ValidSched(s)
  {
    s.running && s.pattern.steps[s.idx] > 0
  }

  class PatternScheduler {
    var pattern: Pattern
    var phaseStart: Millis
    var idx: nat
    var rep: nat
    var running: bool

    constructor ()
      ensures State() == Sched(EMPTY, 0, 0, 0, false)
    {
      pattern, phaseStart, idx, rep, running := EMPTY, 0, 0, 0, false;
    }

    function State(): Sched
      reads this
    {
      Sched(pattern, phaseStart, idx, rep, running)
    }

    method StartPattern(p: Pattern, now: Millis)
      requires InRange(p)
      modifies this
      ensures State() == Start(p, now) && ValidSched(State())
    {
      pattern, rep, idx, phaseStart := p, 0, 0, now;
      running := p.enabled && p.repeat > 0 && HasOn(p.steps);
      SkipSilenceInPlace();
      StartIsValid(p, now);
    }

    method Stop()
      modifies this`running
      ensures State() == old(State()).(running := false)
    {
      running := false;
    }

    method TickAt(now: Millis) returns (on: bool)
      requires ValidSched(State())
      modifies this
      ensures State() == Tick(old(State()), now) && ValidSched(State())
      ensures on == Output(State())
    {
      while running && IntervalPassed(now, phaseStart, StepMs(pattern.steps[idx]))
        invariant ValidSched(State())
        invariant Tick(State(), now) == Tick(old(State()), now)
        decreases |Rest(State())|
      {
        NextStepIsTail(State());
        RestShrinks(State());
        LeaveStep();
      }
      on := running && pattern.steps[idx] > 0;
    }

    method LeaveStep()
      requires ValidSched(State()) && running
      modifies this
      ensures State() == NextStep(old(State()))
    {
      phaseStart := Wrap(phaseStart + StepMs(pattern.steps[idx]));
      idx := idx + 1;
      if idx >= |pattern.steps| {
        idx, rep := 0, rep + 1;
      }
      SkipSilenceInPlace();
    }

    method SkipSilenceInPlace()
      requires running ==> idx <= |pattern.steps|
      modifies this`running
      ensures State() == SkipSilence(old(State()))
    {
      if !running {
        return;
      }
      if rep >= pattern.repeat {
        running := false;
        return;
      }
      if rep + 1 < pattern.repeat {
        return;
      }
      for i := idx to |pattern.steps|
        invariant running && !HasOn(pattern.steps[idx..i])
      {
        if pattern.steps[i] > 0 {
          assert pattern.steps[idx..] == pattern.steps[idx..i] + pattern.steps[i..];
          HasOnConcat(pattern.steps[idx..i], pattern.steps[i..]);
          return;
        }
        assert pattern.steps[idx..i + 1] == pattern.steps[idx..i] + [pattern.steps[i]];
        HasOnConcat(pattern.steps[idx..i], [pattern.steps[i]]);
      }
      assert pattern.steps[idx..|pattern.steps|] == pattern.steps[idx..];
      running := false;
    }
  }

  // ---- playback agrees with the timeline ----------------------------------

  /** Of the windows `ws` only the tail `left` is not over at time t. */
  ghost predicate Passed(ws: seq<Window>, left: seq<Window>, t: int) {
    && |left| <= |ws| && ws[|ws| - |left|..] == left
    && forall i :: 0 <= i < |ws| - |left| ==> ws[i].to <= t
  }

  /** `s` still has to sound the windows of `ws` that are not over at true time
      t; its current step began at true time `phase`. */
  ghost predicate Follows(s: Sched, ws: seq<Window>, phase: int, t: int) {
    && ValidSched(s)
    && Passed(ws, Windows(Rest(s), phase), t)
    && (s.running ==> s.phaseStart == Wrap(phase) && phase <= t)
  }

  /** `s` plays `p`, whose windows are `ws`, and was last ticked at true time t. */
  ghost predicate Tracks(s: Sched, p: Pattern, ws: seq<Window>, phase: int, t: int) {
    && s.pattern == p
    && Follows(s, ws, phase, t)
    && t <= phase + MAX_STEP_MS
  }

  lemma StartTracks(p: Pattern, t0: int)
    requires InRange(p)
    ensures Tracks(Start(p, Wrap(t0)), p, Timeline(p, t0), t0, t0)
  {
    StartIsValid(p, Wrap(t0));
    if p.enabled && !Start(p, Wrap(t0)).running {
      RepeatIsSilent(p.steps, p.repeat);
      WindowBounds(Repeat(p.steps, p.repeat), t0);
    }
  }

  lemma {:induction false} RepeatIsSilent(steps: seq<int>, times: nat)
    requires times == 0 || !HasOn(steps)
    ensures !HasOn(Repeat(steps, times))
  {
    if times > 0 {
      RepeatIsSilent(steps, times - 1);
      HasOnConcat(steps, Repeat(steps, times - 1));
    }
  }

  lemma WrapAdd(t: int, d: nat)
    ensures Wrap(Wrap(t) + d) == Wrap(t + d)
  {
    var q := t / WRAP;
    assert t + d == Wrap(t) + d + q * WRAP;
    var x := Wrap(t) + d;
    var y := x / WRAP;
    assert x + q * WRAP == (y + q) * WRAP + x % WRAP;
  }

  lemma RestHead(s: Sched)
    requires ValidSched(s) && s.running
    ensures Rest(s) != [] && Rest(s)[0] == s.pattern.steps[s.idx]
    ensures NextStep(s).running ==> NextStep(s).phaseStart == Wrap(s.phaseStart + StepMs(s.pattern.steps[s.idx]))
  {
    hide HasOn, InRange, StepMs, Repeat;
  }

  /** Leaving a step that is over keeps the account of passed windows. */
  lemma NextStepFollows(s: Sched, ws: seq<Window>, phase: int, t: int)
    requires Follows(s, ws, phase, t) && s.running
    requires phase + StepMs(s.pattern.steps[s.idx]) <= t
    ensures Follows(NextStep(s), ws, phase + StepMs(s.pattern.steps[s.idx]), t)
    ensures |Rest(NextStep(s))| < |Rest(s)|
  {
    hide HasOn, InRange, StepMs, Passed, Windows, NextStep, Rest, Wrap;
    var next, rest := phase + StepMs(s.pattern.steps[s.idx]), Rest(s);
    RestHead(s);
    NextStepIsTail(s);
    RestShrinks(s);
    WrapAdd(phase, StepMs(s.pattern.steps[s.idx]));
    DropFirst(ws, rest, phase, t);
    NoWindows(next);
    assert Windows(Rest(NextStep(s)), next) == Windows(rest[1..], next);
  }

  lemma NoWindows(t: int)
    ensures Windows([], t) == []
  {
  }

  /** One tick, however late, stops on the step that is current at that time. */
  lemma {:induction false} TickFollows(s: Sched, ws: seq<Window>, phase: int, t: int)
    returns (phase': int)
    requires Follows(s, ws, phase, t)
    requires s.running ==> t < phase + WRAP
    ensures Follows(Tick(s, Wrap(t)), ws, phase', t)
    ensures var s' := Tick(s, Wrap(t));
            if s'.running then t < phase' + StepMs(s'.pattern.steps[s'.idx]) else phase' == t
    decreases |Rest(s)|
  {
    hide HasOn, InRange, StepMs, Passed, Windows, Rest, NextStep;
    phase' := t;
    if s.running {
      ElapsedIsExact(t, phase);
      var next := phase + StepMs(s.pattern.steps[s.idx]);
      if next <= t {
        NextStepFollows(s, ws, phase, t);
        phase' := TickFollows(NextStep(s), ws, next, t);
      } else {
        phase' := phase;
      }
    } else {
      StoppedFollows(s, ws, phase, t);
    }
  }

  lemma StoppedFollows(s: Sched, ws: seq<Window>, phase: int, t: int)
    requires Follows(s, ws, phase, t) && !s.running
    ensures Follows(s, ws, t, t)
  {
    hide HasOn, InRange, Passed;
  }

  lemma DropFirst(ws: seq<Window>, rest: seq<int>, phase: int, t: int)
    requires rest != [] && phase + StepMs(rest[0]) <= t
    requires Passed(ws, Windows(rest, phase), t)
    ensures Passed(ws, Windows(rest[1..], phase + StepMs(rest[0])), t)
    ensures !HasOn(rest[1..]) ==> Windows(rest[1..], phase + StepMs(rest[0])) == []
  {
    hide HasOn, StepMs;
    WindowBounds(rest[1..], phase + StepMs(rest[0]));
    var left := Windows(rest, phase);
    forall i | 0 <= i < |left|
      ensures ws[|ws| - |left| + i] == left[i]
    {
    }
  }

  /** Output and end of a scheduler that has just been ticked. */
  lemma OutputIsTimeline(s: Sched, ws: seq<Window>, phase: int, t: int)
    requires Follows(s, ws, phase, t)
    requires s.running ==> t < phase + StepMs(s.pattern.steps[s.idx])
    ensures Output(s) <==> Sounds(ws, t)
    ensures s.running <==> ws != [] && t < ws[|ws| - 1].to
  {
    hide HasOn, InRange, StepMs, Passed, Windows, Repeat;
    if s.running {
      assert Rest(s)[0] == s.pattern.steps[s.idx];
      OpenWindows(ws, Rest(s), phase, t);
    } else {
      ClosedWindows(ws, Rest(s), phase, t);
    }
  }

  lemma ClosedWindows(ws: seq<Window>, rest: seq<int>, phase: int, t: int)
    requires rest == [] && Passed(ws, Windows(rest, phase), t)
    ensures !Sounds(ws, t) && (ws != [] ==> ws[|ws| - 1].to <= t)
  {
  }

  /** Inside the first of the steps that are left. */
  lemma OpenWindows(ws: seq<Window>, rest: seq<int>, phase: int, t: int)
    requires rest != [] && HasOn(rest) && Passed(ws, Windows(rest, phase), t)
    requires phase <= t < phase + StepMs(rest[0])
    ensures Sounds(ws, t) <==> rest[0] > 0
    ensures ws != [] && t < ws[|ws| - 1].to
  {
    var left := Windows(rest, phase);
    WindowBounds(rest, phase);
    WindowBounds(rest[1..], phase + StepMs(rest[0]));
    hide HasOn, StepMs;
    forall i | 0 <= i < |left|
      ensures ws[|ws| - |left| + i] == left[i]
      ensures t < left[i].to
    {
    }
    assert ws[|ws| - 1] == left[|left| - 1];
    if rest[0] > 0 {
      assert ws[|ws| - |left|] == left[0] == Window(phase, phase + StepMs(rest[0]));
    }
  }

  lemma FollowsLater(s: Sched, ws: seq<Window>, phase: int, last: int, t: int)
    requires Follows(s, ws, phase, last) && last <= t
    ensures Follows(s, ws, phase, t)
  {
    hide Windows, Rest, HasOn, InRange;
  }

  /** A tick that comes in time: state, output and end all follow the windows. */
  lemma TickTracks(s: Sched, p: Pattern, ws: seq<Window>, phase: int, last: int, t: int) returns (phase': int)
    requires Tracks(s, p, ws, phase, last)
    requires last <= t < last + WRAP - MAX_STEP_MS
    ensures Tracks(Tick(s, Wrap(t)), p, ws, phase', t)
    ensures Output(Tick(s, Wrap(t))) <==> Sounds(ws, t)
    ensures Tick(s, Wrap(t)).running <==> ws != [] && t < ws[|ws| - 1].to
  {
    hide Tick, Passed, Windows, Rest, HasOn, StepMs, Sounds, Output;
    FollowsLater(s, ws, phase, last, t);
    phase' := TickFollows(s, ws, phase, t);
    OutputIsTimeline(Tick(s, Wrap(t)), ws, phase', t);
  }

  /** Times at which loop() happens to tick: any, as long as gaps stay under the wrap. */
  predicate TickTimes(times: seq<int>, last: int) {
    times != [] ==> last <= times[0] < last + WRAP - MAX_STEP_MS && TickTimes(times[1..], times[0])
  }

  function TickAll(s: Sched, times: seq<int>): (r: Sched)
    requires ValidSched(s)
    ensures ValidSched(r)
    decreases |times|
  {
    if times == [] then s
    else TickAll(Tick(s, Wrap(times[0])), times[1..])
  }

  lemma {:induction false} TickAllTracks(s: Sched, p: Pattern, ws: seq<Window>, phase: int, last: int,
                                         times: seq<int>)
    requires Tracks(s, p, ws, phase, last) && TickTimes(times, last) && times != []
    ensures var s', now := TickAll(s, times), times[|times| - 1];
            && last <= now && (Output(s') <==> Sounds(ws, now))
            && (s'.running <==> ws != [] && now < ws[|ws| - 1].to)
    decreases |times|
  {
    hide Tick, Output, Sounds, Passed, Windows, Rest, HasOn, InRange;
    var phase' := TickTracks(s, p, ws, phase, last, times[0]);
    if |times| == 1 {
      assert TickAll(s, times) == Tick(s, Wrap(times[0]));
    } else {
      TickAllTracks(Tick(s, Wrap(times[0])), p, ws, phase', times[0], times[1..]);
    }
  }

  /** Whatever the tick times were, and across the 32-bit wrap: the last tick
      sounds iff its true time lies in a window of the plain timeline, and the
      signal is still running iff the last window has not closed. */
  lemma PlaybackIsTimeline(p: Pattern, t0: int, times: seq<int>)
    requires InRange(p) && TickTimes(times, t0) && times != []
    ensures ValidSched(Start(p, Wrap(t0)))
    ensures var s, now := TickAll(Start(p, Wrap(t0)), times), times[|times| - 1];
            && (Output(s) <==> Sounds(Timeline(p, t0), now))
            && (s.running <==> now < SignalEnd(p, t0))
  {
    hide Tick, Output, Sounds, Timeline, Passed, Windows, Rest, HasOn, InRange, Start;
    StartTracks(p, t0);
    TickAllTracks(Start(p, Wrap(t0)), p, Timeline(p, t0), t0, t0, times);
  }
}
