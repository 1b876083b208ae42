/**
 * The activity's transport and progress rules as a state machine over values.
 *
 * The engine (one MediaPlayer instance) is opaque: the activity only ever
 * sees its position, its duration and whether it is playing, so a session is
 * those three fields. The views are the seek bar's progress and range and
 * the two time labels. The self-rescheduling progress task is a count of
 * queued runs: posting it twice queues it twice, and one run is one atomic
 * step, with no notion of real time.
 *
 * An event that the platform would not deliver in a state (a click before
 * the listeners are wired, a run of the task that was never queued, anything
 * after teardown) leaves the state unchanged.
 */
module PlaybackModel {
  import opened TimeFormat

  /** What the activity can observe of one engine instance. */
  datatype Session = Session(position: nat, duration: nat, playing: bool)

  /** The seek bar's progress and range, and the current / total time labels. */
  datatype Ui = Ui(progress: nat, max: nat, currentLabel: string, totalLabel: string)

  datatype State = State(
    resourceDuration: nat,  // length of the bundled audio resource
    initialized: bool,      // the engine field has been assigned
    session: Session,       // the current engine
    listenerAttached: bool, // the current engine carries the prepared listener
    pendingTicks: nat,      // queued runs of the progress task
    ui: Ui,
    created: nat,           // engine instances created so far
    released: nat,          // engine instances released so far
    destroyed: bool)        // the activity has been torn down

  datatype Event =
    | Create                                    // the activity is created
    | Play                                      // play button
    | Pause                                     // pause button
    | Stop                                      // stop button
    | SeekBarChanged(progress: nat, fromUser: bool) // the seek bar's progress changed
    | Prepared                                  // the engine reports it is ready
    | Tick                                      // one queued run of the progress task
    | Destroy                                   // the activity is torn down
    | Advance(elapsed: nat)                     // the engine plays on for a while
    | Complete                                  // the engine reaches the end of the audio

  /** The activity before it is created: no engine yet, views as the layout defines them. */
  function Initial(resourceDuration: nat, layout: Ui): State {
    State(resourceDuration, false, Session(0, 0, false), false, 0, layout, 0, 0, false)
  }

  /** A newly created engine for the bundled resource: at the start, not playing. */
  function FreshSession(resourceDuration: nat): (r: Session)
    ensures r.position == 0 && !r.playing
    ensures r.duration == resourceDuration
  {
    Session(0, resourceDuration, false)
  }

  /** The position the engine lands on when asked to seek to `p`: never past its end. */
  function SeekTarget(session: Session, p: nat): (r: nat)
    ensures r <= session.duration
    ensures p <= session.duration ==> r == p
  {
    if p <= session.duration then p else session.duration
  }

  /**
   * Whether the platform delivers event `e` in state `s`. Button clicks,
   * seek-bar reports and readiness reach listeners that exist only after
   * onCreate and before teardown; a run of the progress task needs a queued
   * post; the seek bar reports user changes only within its range.
   */
  predicate Delivered(s: State, e: Event): (b: bool)
    ensures s.destroyed && s.pendingTicks == 0 ==> !b
    ensures b && !e.Create? && !e.Tick? && !e.Destroy? ==> s.initialized
    ensures b && e.SeekBarChanged? && e.fromUser ==> e.progress <= s.ui.max
    ensures b && e.Tick? ==> s.pendingTicks > 0
  {
    match e
    case Create => !s.initialized && !s.destroyed
    case Tick => s.pendingTicks > 0
    case Destroy => !s.destroyed
    case SeekBarChanged(p, fromUser) => s.initialized && !s.destroyed && (fromUser ==> p <= s.ui.max)
    case _ => s.initialized && !s.destroyed
  }

  /**
   * The effect of one event. The resource never changes and the engine
   * counters only grow, by at most one; an undelivered event does nothing;
   * the progress task, readiness, teardown and programmatic seek-bar changes
   * never touch the engine; and the views change only through the progress
   * task, stop, the seek bar and readiness.
   */
  function Step(s: State, e: Event): (r: State)
    ensures r.resourceDuration == s.resourceDuration
    ensures s.created <= r.created <= s.created + 1 && s.released <= r.released <= s.released + 1
    ensures !Delivered(s, e) ==> r == s
    ensures e.Tick? || e.Prepared? || e.Destroy? || (e.SeekBarChanged? && !e.fromUser) ==> r.session == s.session
    ensures e.Create? || e.Play? || e.Pause? || e.Destroy? || e.Advance? || e.Complete? ==> r.ui == s.ui
  {
    if !Delivered(s, e) then s
    else
      match e
      case Create =>
        s.(initialized := true, session := FreshSession(s.resourceDuration),
           listenerAttached := true, created := s.created + 1)
      case Play =>
        s.(session := s.session.(playing := true), pendingTicks := s.pendingTicks + 1)
      case Pause =>
        s.(session := s.session.(playing := false))
      case Stop =>
        s.(session := FreshSession(s.resourceDuration), listenerAttached := false,
           created := s.created + 1,
           ui := s.ui.(progress := 0, currentLabel := "0:00",
                       totalLabel := FormatTime(s.resourceDuration)))
      case SeekBarChanged(p, fromUser) =>
        if fromUser then
          s.(session := s.session.(position := SeekTarget(s.session, p)),
             ui := s.ui.(progress := p, currentLabel := FormatTime(p)))
        else
          s.(ui := s.ui.(progress := p))
      case Prepared =>
        if s.listenerAttached then
          s.(ui := s.ui.(max := s.session.duration,
                         totalLabel := FormatTime(s.session.duration)))
        else s
      case Tick =>
        if s.initialized && s.session.playing then
          s.(ui := s.ui.(progress := s.session.position,
                         currentLabel := FormatTime(s.session.position)))
        else
          s.(pendingTicks := s.pendingTicks - 1)
      case Destroy =>
        s.(pendingTicks := 0, destroyed := true,
           released := if s.initialized then s.released + 1 else s.released)
      case Advance(elapsed) =>
        if s.session.playing then
          s.(session := s.session.(position := SeekTarget(s.session, s.session.position + elapsed)))
        else s
      case Complete =>
        if s.session.playing then
          s.(session := s.session.(position := s.session.duration, playing := false))
        else s
  }

  /** The effect of a sequence of events, first to last. */
  function Run(s: State, events: seq<Event>): State
    decreases |events|
  {
    if events == [] then s else Run(Step(s, events[0]), events[1..])
  }

  /**
   * What holds in every reachable state: while an engine plays the progress
   * task is queued; nothing is queued after teardown; an engine exists once
   * the activity was created; exactly the one engine current at teardown is
   * released, at most once; and the engine's position lies within its length.
   */
  ghost predicate Inv(s: State) {
    && s.session.position <= s.session.duration
    && (s.initialized && s.session.playing && !s.destroyed ==> s.pendingTicks > 0)
    && (s.destroyed ==> s.pendingTicks == 0)
    && (s.initialized <==> s.created > 0)
    && s.released == (if s.destroyed && s.initialized then 1 else 0)
  }

  // ---------------------------------------------------------------------
  // The invariant
  // ---------------------------------------------------------------------

  lemma InitialInv(resourceDuration: nat, layout: Ui)
    ensures Inv(Initial(resourceDuration, layout))
  {
  }

  lemma StepInv(s: State, e: Event)
    requires Inv(s)
    ensures Inv(Step(s, e))
  {
  }

  /** Every state reached from one satisfying the invariant satisfies it. */
  lemma {:induction false} RunInv(s: State, events: seq<Event>)
    requires Inv(s)
    ensures Inv(Run(s, events))
    decreases |events|
  {
    if events != [] {
      StepInv(s, events[0]);
      RunInv(Step(s, events[0]), events[1..]);
    }
  }

  // ---------------------------------------------------------------------
  // The progress task
  // ---------------------------------------------------------------------

  /**
   * A run of the progress task queues itself again exactly when an engine
   * exists and plays; when it does not, it changes nothing but the queue.
   */
  lemma TickReschedulesIffPlaying(s: State)
    requires s.pendingTicks > 0
    ensures Step(s, Tick).pendingTicks == s.pendingTicks <==> s.initialized && s.session.playing
    ensures Step(s, Tick).pendingTicks == s.pendingTicks - 1 <==> !(s.initialized && s.session.playing)
    ensures !(s.initialized && s.session.playing) ==> Step(s, Tick) == s.(pendingTicks := s.pendingTicks - 1)
    ensures s.initialized && s.session.playing ==>
              Step(s, Tick).ui.progress == s.session.position
              && Step(s, Tick).ui.currentLabel == FormatTime(s.session.position)
  {
  }

  /** Runs of the progress task and the engine playing on: what happens between clicks. */
  predicate Unattended(events: seq<Event>) {
    forall i :: 0 <= i < |events| ==> events[i] == Tick || events[i].Advance? || events[i] == Complete
  }

  /**
   * Once the engine stops playing, nothing shown changes and the engine
   * stays where it is, however many queued runs of the task follow.
   */
  lemma {:induction false} IdleDisplayFrozen(s: State, events: seq<Event>)
    requires !s.session.playing && Unattended(events)
    ensures Run(s, events).ui == s.ui
    ensures Run(s, events).session == s.session
    decreases |events|
  {
    if events != [] {
      assert events[0] == Tick || events[0].Advance? || events[0] == Complete;
      assert Unattended(events[1..]) by {
        forall i | 0 <= i < |events[1..]| ensures events[1..][i] == Tick || events[1..][i].Advance? || events[1..][i] == Complete {
          assert events[1..][i] == events[i + 1];
        }
      }
      IdleDisplayFrozen(Step(s, events[0]), events[1..]);
    }
  }

  /** After a pause, the displayed position does not move while the task runs out. */
  lemma PauseFreezesDisplay(s: State, events: seq<Event>)
    requires s.initialized && !s.destroyed && Unattended(events)
    ensures Run(Step(s, Pause), events).ui == s.ui
    ensures Run(Step(s, Pause), events).session == s.session.(playing := false)
  {
    IdleDisplayFrozen(Step(s, Pause), events);
  }

  /** Each queued run of a paused engine's task ends the task instead of requeuing it. */
  lemma {:induction false} IdleTicksDrain(s: State, n: nat)
    requires !s.session.playing && n <= s.pendingTicks
    ensures Run(s, seq(n, _ => Tick)).pendingTicks == s.pendingTicks - n
    decreases n
  {
    if n > 0 {
      var events := seq(n, _ => Tick);
      assert events[0] == Tick && events[1..] == seq(n - 1, _ => Tick);
      IdleTicksDrain(Step(s, Tick), n - 1);
    }
  }

  /**
   * Between clicks the engine only plays forward and each run of the task
   * shows where it is now, so the displayed position never goes back.
   */
  lemma {:induction false} DisplayNeverGoesBack(s: State, events: seq<Event>)
    requires s.ui.progress <= s.session.position <= s.session.duration && Unattended(events)
    ensures s.ui.progress <= Run(s, events).ui.progress
    ensures Run(s, events).ui.progress <= Run(s, events).session.position
    ensures s.session.position <= Run(s, events).session.position <= Run(s, events).session.duration
    decreases |events|
  {
    if events != [] {
      assert events[0] == Tick || events[0].Advance? || events[0] == Complete;
      assert Unattended(events[1..]) by {
        forall i | 0 <= i < |events[1..]| ensures events[1..][i] == Tick || events[1..][i].Advance? || events[1..][i] == Complete {
          assert events[1..][i] == events[i + 1];
        }
      }
      DisplayNeverGoesBack(Step(s, events[0]), events[1..]);
    }
  }

  // ---------------------------------------------------------------------
  // Seeking, stopping, readiness, teardown
  // ---------------------------------------------------------------------

  /**
   * Only a change the user made moves the engine and the current-time label;
   * a change the program made moves the bar alone. The engine lands on the
   * requested position, or on its end if the bar's range reaches past it.
   */
  lemma SeekOnlyFromUser(s: State, p: nat, fromUser: bool)
    requires s.initialized && !s.destroyed && (fromUser ==> p <= s.ui.max)
    ensures Step(s, SeekBarChanged(p, fromUser)).ui.progress == p
    ensures fromUser ==> Step(s, SeekBarChanged(p, true)).session.position <= s.session.duration
                         && (p <= s.session.duration ==> Step(s, SeekBarChanged(p, true)).session.position == p)
                         && Step(s, SeekBarChanged(p, true)).ui.currentLabel == FormatTime(p)
    ensures !fromUser ==> Step(s, SeekBarChanged(p, false)) == s.(ui := s.ui.(progress := p))
  {
  }

  /**
   * Stop shows position zero, installs an engine that is at the start, not
   * playing and as long as the resource, and leaves the bar's range alone;
   * the replacement engine has no prepared listener, so a later readiness
   * report leaves the range alone too.
   */
  lemma StopResets(s: State)
    requires s.initialized && !s.destroyed
    ensures Step(s, Stop).ui.progress == 0
    ensures Step(s, Stop).ui.currentLabel == FormatTime(0)
    ensures Step(s, Stop).ui.totalLabel == FormatTime(Step(s, Stop).session.duration)
    ensures Step(s, Stop).session == Session(0, s.resourceDuration, false)
    ensures Step(s, Stop).ui.max == s.ui.max
    ensures Run(s, [Stop, Prepared]).ui == Step(s, Stop).ui
  {
    FormatTimeExamples();
    assert [Stop, Prepared][1..] == [Prepared];
    assert [Prepared][1..] == [];
  }

  /** The effect of stop, field by field. */
  lemma StopStep(s: State)
    requires s.initialized && !s.destroyed
    ensures Step(s, Stop) == s.(session := FreshSession(s.resourceDuration), listenerAttached := false,
                                created := s.created + 1,
                                ui := s.ui.(progress := 0, currentLabel := "0:00",
                                            totalLabel := FormatTime(s.resourceDuration)))
  {
  }

  /** The readiness report of the first engine publishes its range and total time. */
  lemma PreparedPublishesDuration(s: State)
    requires s.initialized && !s.destroyed && s.listenerAttached
    ensures Step(s, Prepared).ui.max == s.session.duration
    ensures Step(s, Prepared).ui.totalLabel == FormatTime(s.session.duration)
    ensures Step(s, Prepared).session == s.session
  {
  }

  /**
   * After teardown nothing is queued and no event has any effect, so the
   * engine current at teardown is released exactly once, and only if one
   * was ever created.
   */
  lemma {:induction false} DestroyIsFinal(s: State, events: seq<Event>)
    requires Inv(s) && !s.destroyed
    ensures Run(Step(s, Destroy), events) == Step(s, Destroy)
    ensures Step(s, Destroy).pendingTicks == 0
    ensures Step(s, Destroy).released == s.released + (if s.initialized then 1 else 0)
    decreases |events|
  {
    if events != [] {
      var d := Step(s, Destroy);
      assert Step(d, events[0]) == d;
      DestroyTail(d, events[1..]);
    }
  }

  /** A torn-down activity with nothing queued ignores every event. */
  lemma {:induction false} DestroyTail(d: State, events: seq<Event>)
    requires d.destroyed && d.pendingTicks == 0
    ensures Run(d, events) == d
    decreases |events|
  {
    if events != [] {
      assert Step(d, events[0]) == d;
      DestroyTail(d, events[1..]);
    }
  }

  /**
   * Stop replaces the engine without releasing the old one: over the life
   * of an activity that is stopped once, two engines are created and only
   * the one current at teardown is released.
   */
  lemma StopLeavesReplacedEngineUnreleased(resourceDuration: nat, layout: Ui)
    ensures Run(Initial(resourceDuration, layout), [Create, Stop, Destroy]).created == 2
    ensures Run(Initial(resourceDuration, layout), [Create, Stop, Destroy]).released == 1
  {
    var s0 := Initial(resourceDuration, layout);
    var s1 := Step(s0, Create);
    var s2 := Step(s1, Stop);
    var s3 := Step(s2, Destroy);
    assert [Create, Stop, Destroy][1..] == [Stop, Destroy];
    assert [Stop, Destroy][1..] == [Destroy];
    assert [Destroy][1..] == [];
    assert Run(s0, [Create, Stop, Destroy]) == s3;
  }
}
