/** The session controller: study and break phases, the session counter, the
    settings, the three audio channels and the task list, driven by explicit
    events in place of the clock, the DOM and the audio elements. */
module Pomodoro {
  import Clock
  import opened Countdown
  import opened Tasks

  /** The three audio elements: whether each ambient track (zen for study, lofi
      for breaks) is playing, whether its position was put back to the start
      and has not moved since, and how many times the gong was started from
      the beginning. */
  datatype Audio = Audio(zenPlaying: bool, lofiPlaying: bool,
                         zenAtStart: bool, lofiAtStart: bool, gongCues: nat)
  {
    function PlayZen(): (a: Audio) { this.(zenPlaying := true, zenAtStart := false) }
    function PlayLofi(): (a: Audio) { this.(lofiPlaying := true, lofiAtStart := false) }
    function PauseZen(): (a: Audio) { this.(zenPlaying := false) }
    function PauseLofi(): (a: Audio) { this.(lofiPlaying := false) }

    /** `currentTime = 0; play()` on the gong. */
    function CueGong(): (a: Audio) { this.(gongCues := gongCues + 1) }

    /** At most one ambient track plays. */
    predicate Exclusive() { !(zenPlaying && lofiPlaying) }
  }

  /** Freshly loaded media: nothing playing, every position at the start. */
  const Silent := Audio(false, false, true, true, 0)

  /** What the controller's handlers read and write, as a value. `pendingAmbient`
      counts the delayed `playAudio` calls that mode switches have scheduled and
      that have not fired yet. */
  datatype Session = Session(isStudyMode: bool, studyTime: int, breakTime: int,
                             completedSessions: nat, timer: TimerState,
                             audio: Audio, pendingAmbient: nat)
  {
    /** The minutes of the active mode. */
    function Minutes(): (m: int) { if isStudyMode then studyTime else breakTime }

    /** What holds between any two events: positive settings, a countdown
        sized to the active mode with time left, and at most one ambient
        track playing. */
    predicate Consistent()
    {
      && 0 < studyTime && 0 < breakTime
      && timer.Healthy() && 0 < timer.remaining
      && timer.initialDuration == 60 * Minutes()
      && audio.Exclusive()
    }

    /** `playAudio`: does nothing unless the countdown runs; otherwise plays the
        active mode's track and pauses the other one where it is. */
    function PlayAudio(): (s: Session)
      ensures !timer.isRunning ==> s == this
      ensures timer.isRunning ==>
        && s.audio.zenPlaying == isStudyMode && s.audio.lofiPlaying == !isStudyMode
        && s.audio.gongCues == audio.gongCues
        && s.(audio := audio) == this
      ensures timer.isRunning && isStudyMode ==>
        !s.audio.zenAtStart && s.audio.lofiAtStart == audio.lofiAtStart
      ensures timer.isRunning && !isStudyMode ==>
        !s.audio.lofiAtStart && s.audio.zenAtStart == audio.zenAtStart
    {
      if !timer.isRunning then this
      else if isStudyMode then this.(audio := audio.PauseLofi().PlayZen())
      else this.(audio := audio.PauseZen().PlayLofi())
    }

    /** `pauseAudio`: both ambient tracks stop where they are. */
    function PauseAudio(): (s: Session)
      ensures !s.audio.zenPlaying && !s.audio.lofiPlaying
      ensures s.audio.zenAtStart == audio.zenAtStart && s.audio.lofiAtStart == audio.lofiAtStart
      ensures s.audio.gongCues == audio.gongCues && s.(audio := audio) == this
    {
      this.(audio := audio.PauseZen().PauseLofi())
    }

    /** `resetAudio`: both ambient tracks go back to the start. */
    function ResetAudio(): (s: Session)
      ensures s.audio.zenAtStart && s.audio.lofiAtStart
      ensures s.audio.zenPlaying == audio.zenPlaying && s.audio.lofiPlaying == audio.lofiPlaying
      ensures s.audio.gongCues == audio.gongCues && s.(audio := audio) == this
    {
      this.(audio := audio.(zenAtStart := true, lofiAtStart := true))
    }

    /** `switchMode`, the completion callback: counts a session when a study
        phase ends, flips the mode, cues the gong, restarts the countdown from
        the new mode's full duration and schedules `playAudio`. */
    function SwitchMode(): (s: Session)
      ensures s.isStudyMode == !isStudyMode
      ensures s.completedSessions == completedSessions + if isStudyMode then 1 else 0
      ensures s.Minutes() != 0 ==>
        s.timer == TimerState(60 * s.Minutes(), 60 * s.Minutes(), true)
      ensures s.studyTime == studyTime && s.breakTime == breakTime
      ensures s.audio == audio.(gongCues := audio.gongCues + 1)
      ensures s.pendingAmbient == pendingAmbient + 1
    {
      var sessions := if isStudyMode then completedSessions + 1 else completedSessions;
      var flipped := this.(completedSessions := sessions, isStudyMode := !isStudyMode,
                           audio := audio.CueGong());
      flipped.(timer := flipped.timer.Reset(flipped.Minutes()).Start(),
               pendingAmbient := pendingAmbient + 1)
    }

    /** One firing of the interval, with the display callback and, when the
        countdown completes, the completion callback: a stopped countdown is
        left alone, a running one loses a second, and the second that takes
        it to zero stops it there and switches the mode. */
    function Tick(): (s: Session)
      ensures !timer.isRunning ==> s == this
      ensures timer.isRunning && 1 < timer.remaining ==>
        s == this.(timer := timer.(remaining := timer.remaining - 1))
      ensures timer.isRunning && timer.remaining <= 1 ==>
        s == this.(timer := TimerState(timer.initialDuration, timer.remaining - 1, false)).SwitchMode()
    {
      var r := timer.Tick();
      var counted := this.(timer := r.state);
      if r.completed then counted.SwitchMode() else counted
    }

    /** The start/pause button. */
    function ToggleTimer(): (s: Session)
      ensures s.timer.isRunning == !timer.isRunning
      ensures s.timer.remaining == timer.remaining
      ensures s.timer.initialDuration == timer.initialDuration
      ensures s.timer.isRunning ==>
        s.audio.zenPlaying == isStudyMode && s.audio.lofiPlaying == !isStudyMode
      ensures !s.timer.isRunning ==> !s.audio.zenPlaying && !s.audio.lofiPlaying
      ensures s.isStudyMode == isStudyMode && s.completedSessions == completedSessions
      ensures s.studyTime == studyTime && s.breakTime == breakTime
      ensures s.pendingAmbient == pendingAmbient && s.audio.gongCues == audio.gongCues
      ensures !s.timer.isRunning ==>
        s.audio.zenAtStart == audio.zenAtStart && s.audio.lofiAtStart == audio.lofiAtStart
      ensures s.timer.isRunning && isStudyMode ==>
        !s.audio.zenAtStart && s.audio.lofiAtStart == audio.lofiAtStart
      ensures s.timer.isRunning && !isStudyMode ==>
        !s.audio.lofiAtStart && s.audio.zenAtStart == audio.zenAtStart
    {
      if timer.isRunning then this.(timer := timer.Pause()).PauseAudio()
      else this.(timer := timer.Start()).PlayAudio()
    }

    /** The reset button: stops the countdown at the full duration of the active
        mode, silences both ambient tracks and puts them back to the start. */
    function ResetTimer(): (s: Session)
      ensures !s.timer.isRunning
      ensures s.timer.initialDuration == timer.initialDuration
      ensures s.timer.remaining == timer.initialDuration
      ensures !s.audio.zenPlaying && !s.audio.lofiPlaying
      ensures s.audio.zenAtStart && s.audio.lofiAtStart && s.audio.gongCues == audio.gongCues
      ensures s.(timer := timer, audio := audio) == this
    {
      this.(timer := timer.Reset(0)).PauseAudio().ResetAudio()
    }

    /** The save button of the settings: two positive minute values replace the
        settings and reset the countdown, stopped, to the active mode's new
        duration; anything else changes nothing. */
    function SaveSettings(newStudy: int, newBreak: int): (s: Session)
      ensures !(0 < newStudy && 0 < newBreak) ==> s == this
      ensures 0 < newStudy && 0 < newBreak ==>
        && s.studyTime == newStudy && s.breakTime == newBreak
        && s.timer == TimerState(60 * s.Minutes(), 60 * s.Minutes(), false)
        && s.(timer := timer, studyTime := studyTime, breakTime := breakTime) == this
    {
      if 0 < newStudy && 0 < newBreak then
        var updated := this.(studyTime := newStudy, breakTime := newBreak);
        updated.(timer := updated.timer.Reset(updated.Minutes()))
      else this
    }

    /** The delayed `playAudio` a mode switch scheduled; when none is pending,
        nothing fires. It changes the audio only, and only while the countdown
        runs. */
    function AmbientDue(): (s: Session)
      ensures pendingAmbient == 0 ==> s == this
      ensures 0 < pendingAmbient ==> s.pendingAmbient == pendingAmbient - 1
      ensures !timer.isRunning ==> s.audio == audio
      ensures 0 < pendingAmbient && timer.isRunning ==>
        s.audio.zenPlaying == isStudyMode && s.audio.lofiPlaying == !isStudyMode
      ensures s.(audio := audio, pendingAmbient := pendingAmbient) == this
      ensures 0 < pendingAmbient ==> s == this.(pendingAmbient := pendingAmbient - 1).PlayAudio()
    {
      if pendingAmbient == 0 then this
      else this.(pendingAmbient := pendingAmbient - 1).PlayAudio()
    }

    /** The event loop's dispatch. Only the save button touches the settings,
        and only a second of the interval can end a phase. */
    function Step(e: Event): (s: Session)
      ensures !e.SavePressed? ==> s.studyTime == studyTime && s.breakTime == breakTime
      ensures !e.Second? ==>
        s.isStudyMode == isStudyMode && s.completedSessions == completedSessions
    {
      match e
      case Second => Tick()
      case TogglePressed => ToggleTimer()
      case ResetPressed => ResetTimer()
      case SavePressed(newStudy, newBreak) => SaveSettings(newStudy, newBreak)
      case AmbientDelayElapsed => AmbientDue()
    }
  }

  /** The events that reach the controller: a second of the interval, the two
      timer buttons, the settings' save button and the delayed ambient start. */
  datatype Event =
    | Second
    | TogglePressed
    | ResetPressed
    | SavePressed(newStudy: int, newBreak: int)
    | AmbientDelayElapsed

  /** The controller as the page opens: study mode, 25 and 5 minutes, no
      session done, the countdown stopped at 25:00 and silence. */
  function Initial(): (s: Session)
    ensures s.isStudyMode && s.completedSessions == 0
    ensures s.studyTime == 25 && s.breakTime == 5
    ensures s.timer == TimerState(1500, 1500, false)
    ensures s.audio == Silent && s.pendingAmbient == 0
    ensures s.Consistent()
  {
    Session(true, 25, 5, 0, Init(25), Silent, 0)
  }

  /** The controller after a run of events. */
  function Run(s: Session, events: seq<Event>): (r: Session)
    decreases |events|
  {
    if events == [] then s else Run(s.Step(events[0]), events[1..])
  }

  /** How many of the steps of a run go from study to break. */
  function StudyEnds(s: Session, events: seq<Event>): (count: nat)
    decreases |events|
  {
    if events == [] then 0
    else
      var next := s.Step(events[0]);
      (if s.isStudyMode && !next.isStudyMode then 1 else 0) + StudyEnds(next, events[1..])
  }

  /** `n` mode switches in a row. */
  function Switches(s: Session, n: nat): (r: Session)
    decreases n
  {
    if n == 0 then s else Switches(s.SwitchMode(), n - 1)
  }

  /** `n` seconds of the interval. */
  function Seconds(s: Session, n: nat): (r: Session)
    decreases n
  {
    if n == 0 then s else Seconds(s.Tick(), n - 1)
  }

  /** Every handler keeps the controller consistent. */
  lemma StepKeepsConsistent(s: Session, e: Event)
    requires s.Consistent()
    ensures s.Step(e).Consistent()
  {
  }

  /** A consistent controller stays consistent through any run of events. */
  lemma {:induction false} RunKeepsConsistent(s: Session, events: seq<Event>)
    requires s.Consistent()
    ensures Run(s, events).Consistent()
    decreases |events|
  {
    if events != [] {
      StepKeepsConsistent(s, events[0]);
      RunKeepsConsistent(s.Step(events[0]), events[1..]);
    }
  }

  /** One event changes the mode at most once, and the counter goes up by one
      exactly when it goes from study to break; a break ending counts nothing. */
  lemma StepCountsStudyEnds(s: Session, e: Event)
    ensures s.Step(e).completedSessions
      == s.completedSessions + if s.isStudyMode && !s.Step(e).isStudyMode then 1 else 0
  {
  }

  /** Over any run, the counter grows by the number of study phases that ended. */
  lemma {:induction false} RunCountsStudyEnds(s: Session, events: seq<Event>)
    ensures Run(s, events).completedSessions == s.completedSessions + StudyEnds(s, events)
    decreases |events|
  {
    if events != [] {
      StepCountsStudyEnds(s, events[0]);
      RunCountsStudyEnds(s.Step(events[0]), events[1..]);
    }
  }

  /** Repeated switches alternate the modes strictly, and the counter grows by
      the number of study phases among them. */
  lemma {:induction false} SwitchesAlternate(s: Session, n: nat)
    ensures Switches(s, n).isStudyMode == (s.isStudyMode == (n % 2 == 0))
    ensures Switches(s, n).completedSessions
      == s.completedSessions + if s.isStudyMode then (n + 1) / 2 else n / 2
    decreases n
  {
    if n > 0 {
      SwitchesAlternate(s.SwitchMode(), n - 1);
    }
  }

  /** While the countdown is stopped, seconds pass without effect. */
  lemma {:induction false} PausedSecondsIdle(s: Session, n: nat)
    requires !s.timer.isRunning
    ensures Seconds(s, n) == s
    decreases n
  {
    if n > 0 {
      PausedSecondsIdle(s, n - 1);
    }
  }

  /** Fewer seconds than are left only count the timer down. */
  lemma {:induction false} SecondsCountDown(s: Session, n: nat)
    requires s.timer.isRunning && n < s.timer.remaining
    ensures Seconds(s, n)
      == s.(timer := TimerState(s.timer.initialDuration, s.timer.remaining - n, true))
    decreases n
  {
    if n > 0 {
      SecondsCountDown(s.Tick(), n - 1);
    }
  }

  /** Once all the seconds left have passed, the countdown has stopped at zero
      and the completion callback has switched the mode, exactly once. */
  lemma SecondsReachSwitch(s: Session)
    requires s.timer.isRunning && 0 < s.timer.remaining
    ensures Seconds(s, s.timer.remaining)
      == s.(timer := TimerState(s.timer.initialDuration, 0, false)).SwitchMode()
  {
    var n := s.timer.remaining;
    SecondsCountDown(s, n - 1);
    var last := s.(timer := TimerState(s.timer.initialDuration, 1, true));
    SecondsAppend(s, n - 1);
    assert Seconds(last, 1) == last.Tick();
  }

  lemma {:induction false} SecondsAppend(s: Session, n: nat)
    ensures Seconds(s, n + 1) == Seconds(s, n).Tick()
    decreases n
  {
    if n > 0 {
      SecondsAppend(s.Tick(), n - 1);
    }
  }

  /** Pressing start on a fresh page and letting the 25 minutes run out ends in
      break mode with one session done and the 5-minute countdown running. */
  lemma FirstSession()
    ensures var s := Seconds(Initial().ToggleTimer(), 1500);
      && !s.isStudyMode && s.completedSessions == 1
      && s.timer == TimerState(300, 300, true)
  {
    SecondsReachSwitch(Initial().ToggleTimer());
  }

  /** A pause during the delay after a switch keeps the ambient track from
      starting when the delay runs out; without the pause the new mode's
      track starts and the other one stops. */
  lemma DelayedAmbientGuard(s: Session)
    requires 0 < s.pendingAmbient
    ensures s.timer.isRunning ==>
      var paused := s.ToggleTimer().AmbientDue();
      !paused.audio.zenPlaying && !paused.audio.lofiPlaying
    ensures s.timer.isRunning ==>
      var played := s.AmbientDue();
      played.audio.zenPlaying == s.isStudyMode && played.audio.lofiPlaying == !s.isStudyMode
  {
  }

  /** The application: the controller's fields, the timer it owns, the text of
      the timer face, the task list and the storage the list is saved to. */
  class App {
    const timer: Timer
    const store: Store
    var isStudyMode: bool
    var studyTime: int
    var breakTime: int
    var completedSessions: nat
    var audio: Audio
    var pendingAmbient: nat
    var display: string
    var todos: seq<Todo>

    ghost function State(): (s: Session)
      reads this, timer
    {
      Session(isStudyMode, studyTime, breakTime, completedSessions, timer.State(),
              audio, pendingAmbient)
    }

    /** What holds at every moment a handler can run, including the completion
        callback, when the countdown stands at zero: positive settings, at most
        one ambient track playing, the face showing the count, and the stored
        list equal to the shown one. */
    ghost predicate Wired()
      reads this, timer, store
    {
      && 0 < studyTime && 0 < breakTime
      && audio.Exclusive()
      && 0 <= timer.remaining
      && display == Clock.Format(timer.remaining)
      && Load(store.slots) == todos
    }

    /** What holds between events. */
    ghost predicate Valid()
      reads this, timer, store
    {
      Wired() && State().Consistent()
    }

    /** Building the page: the timer at 25 minutes, the face, and the tasks
        loaded from storage. */
    constructor (store: Store)
      ensures Valid()
      ensures State() == Initial()
      ensures this.store == store && todos == Load(store.slots)
      ensures fresh(timer)
    {
      isStudyMode := true;
      studyTime := 25;
      breakTime := 5;
      completedSessions := 0;
      audio := Silent;
      pendingAmbient := 0;
      timer := new Timer(25);
      this.store := store;
      todos := [];
      display := "";
      new;
      UpdateDisplay(studyTime * 60);
      LoadTodos();
    }

    /** `updateDisplay`, the countdown's tick callback: the face text. */
    method UpdateDisplay(remaining: nat)
      modifies this`display
      ensures display == Clock.Format(remaining)
    {
      display := Clock.Format(remaining);
    }

    /** The interval's callback, with the timer's tick, the display callback and,
        on completion, `switchMode`. */
    method Tick()
      requires Valid()
      modifies this, timer
      ensures Valid()
      ensures State() == old(State()).Tick()
      ensures todos == old(todos)
    {
      if !timer.isRunning {
        return;
      }
      var completed := timer.Tick();
      UpdateDisplay(timer.remaining);
      if completed {
        SwitchMode();
      }
    }

    method SwitchMode()
      requires Wired()
      modifies this, timer
      ensures Valid()
      ensures State() == old(State()).SwitchMode()
      ensures todos == old(todos)
    {
      if isStudyMode {
        completedSessions := completedSessions + 1;
      }
      isStudyMode := !isStudyMode;
      audio := audio.CueGong();
      if isStudyMode {
        timer.Reset(studyTime);
      } else {
        timer.Reset(breakTime);
      }
      UpdateDisplay(timer.remaining);
      timer.Start();
      pendingAmbient := pendingAmbient + 1;
    }

    method PlayAudio()
      modifies this`audio
      ensures State() == old(State()).PlayAudio()
    {
      if !timer.isRunning {
        return;
      }
      if isStudyMode {
        audio := audio.PauseLofi();
        audio := audio.PlayZen();
      } else {
        audio := audio.PauseZen();
        audio := audio.PlayLofi();
      }
    }

    method PauseAudio()
      modifies this`audio
      ensures State() == old(State()).PauseAudio()
    {
      audio := audio.PauseZen();
      audio := audio.PauseLofi();
    }

    method ResetAudio()
      modifies this`audio
      ensures State() == old(State()).ResetAudio()
    {
      audio := audio.(zenAtStart := true);
      audio := audio.(lofiAtStart := true);
    }

    /** The delayed `playAudio` scheduled by a mode switch. */
    method AmbientDue()
      requires Valid()
      modifies this`audio, this`pendingAmbient
      ensures Valid()
      ensures State() == old(State()).AmbientDue()
    {
      if pendingAmbient == 0 {
        return;
      }
      pendingAmbient := pendingAmbient - 1;
      PlayAudio();
    }

    method ToggleTimer()
      requires Valid()
      modifies this`audio, timer
      ensures Valid()
      ensures State() == old(State()).ToggleTimer()
    {
      if timer.isRunning {
        timer.Pause();
        PauseAudio();
      } else {
        timer.Start();
        PlayAudio();
      }
    }

    method ResetTimer()
      requires Valid()
      modifies this`audio, this`display, timer
      ensures Valid()
      ensures State() == old(State()).ResetTimer()
    {
      timer.Reset(0);
      UpdateDisplay(timer.remaining);
      PauseAudio();
      ResetAudio();
    }

    /** Answers whether the values were taken (and the settings dialog closes). */
    method SaveSettings(newStudy: int, newBreak: int) returns (accepted: bool)
      requires Valid()
      modifies this`studyTime, this`breakTime, this`display, timer
      ensures Valid()
      ensures accepted == (0 < newStudy && 0 < newBreak)
      ensures State() == old(State()).SaveSettings(newStudy, newBreak)
    {
      accepted := 0 < newStudy && 0 < newBreak;
      if accepted {
        studyTime := newStudy;
        breakTime := newBreak;
        if isStudyMode {
          timer.Reset(studyTime);
        } else {
          timer.Reset(breakTime);
        }
        UpdateDisplay(timer.remaining);
      }
    }

    method AddTodo(input: string)
      requires Valid()
      modifies this`todos, store
      ensures Valid()
      ensures todos == Add(old(todos), input)
      ensures AllWhitespace(input) ==> store.slots == old(store.slots)
      ensures !AllWhitespace(input) ==> store.slots == old(store.slots)[StorageKey := todos]
    {
      var text := Trim(input);
      if text != [] {
        todos := todos + [Todo(text, false)];
        SaveTodos();
      }
    }

    method ToggleTodo(i: nat)
      requires Valid() && i < |todos|
      modifies this`todos, store
      ensures Valid()
      ensures todos == Toggle(old(todos), i)
      ensures store.slots == old(store.slots)[StorageKey := todos]
    {
      todos := todos[i := Todo(todos[i].text, !todos[i].completed)];
      SaveTodos();
    }

    method DeleteTodo(i: nat)
      requires Valid() && i < |todos|
      modifies this`todos, store
      ensures Valid()
      ensures todos == Delete(old(todos), i)
      ensures store.slots == old(store.slots)[StorageKey := todos]
    {
      todos := todos[..i] + todos[i + 1..];
      SaveTodos();
    }

    /** `saveTodos`: collects every task, in order, and writes the list under
        the storage key, replacing what was there. */
    method SaveTodos()
      modifies store
      ensures store.slots == old(store.slots)[StorageKey := todos]
    {
      var records: seq<Todo> := [];
      var i := 0;
      while i < |todos|
        invariant 0 <= i <= |todos|
        invariant records == todos[..i]
      {
        records := records + [Todo(todos[i].text, todos[i].completed)];
        i := i + 1;
      }
      assert records == todos;
      store.slots := store.slots[StorageKey := records];
    }

    /** `loadTodos`: appends the stored tasks, in their stored order. */
    method LoadTodos()
      modifies this`todos
      ensures todos == old(todos) + Load(store.slots)
    {
      if StorageKey !in store.slots {
        return;
      }
      var saved := store.slots[StorageKey];
      var i := 0;
      while i < |saved|
        invariant 0 <= i <= |saved|
        invariant todos == old(todos) + saved[..i]
      {
        todos := todos + [saved[i]];
        i := i + 1;
      }
    }
  }

  /** Opening the page again over the same storage shows the same tasks in the
      same order. */
  method Reload(app: App) returns (next: App)
    requires app.Valid()
    ensures next.Valid() && next.State() == Initial()
    ensures next.store == app.store && next.todos == app.todos
  {
    next := new App(app.store);
  }
}
