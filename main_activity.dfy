/**
 * The activity itself: its fields, and one method per callback that updates
 * them. Each method is tied to the state machine of PlaybackModel (its
 * Snapshot moves by one Step) and states the effect on the fields directly.
 */
module App {
  import opened TimeFormat
  import opened PlaybackModel

  class MainActivity {
    const resourceDuration: nat   // length of the bundled audio resource

    var initialized: bool         // the engine field has been assigned
    var session: Session          // the current engine
    var listenerAttached: bool    // the current engine carries the prepared listener
    var pendingTicks: nat         // queued runs of the progress task
    var progress: nat             // seek bar position
    var max: nat                  // seek bar range bound
    var currentLabel: string      // current-time label
    var totalLabel: string        // total-time label
    var created: nat              // engine instances created
    var released: nat             // engine instances released
    var destroyed: bool           // torn down

    /** The fields as a value of the state machine. */
    function Snapshot(): State
      reads this
    {
      State(resourceDuration, initialized, session, listenerAttached, pendingTicks,
            Ui(progress, max, currentLabel, totalLabel), created, released, destroyed)
    }

    ghost predicate Valid()
      reads this
    {
      Inv(Snapshot())
    }

    /** The activity object before onCreate: no engine, views as laid out. */
    constructor (resourceDuration: nat, layout: Ui)
      ensures Snapshot() == Initial(resourceDuration, layout)
      ensures Valid()
    {
      this.resourceDuration := resourceDuration;
      initialized, session, listenerAttached := false, Session(0, 0, false), false;
      pendingTicks := 0;
      progress, max := layout.progress, layout.max;
      currentLabel, totalLabel := layout.currentLabel, layout.totalLabel;
      created, released, destroyed := 0, 0, false;
    }

    /** onCreate: creates the engine for the resource and attaches the prepared listener to it. */
    method OnCreate()
      requires Valid() && Delivered(Snapshot(), Create)
      modifies this
      ensures Valid() && Snapshot() == Step(old(Snapshot()), Create)
      ensures initialized && session == FreshSession(resourceDuration) && listenerAttached
    {
      session := FreshSession(resourceDuration);
      created := created + 1;
      initialized := true;
      listenerAttached := true;
    }

    /**
     * The seek bar's change listener; the bar itself has already moved to
     * `p`. A user change asks the engine to seek to `p`, which it does up to
     * its end.
     */
    method OnProgressChanged(p: nat, fromUser: bool)
      requires Valid() && Delivered(Snapshot(), SeekBarChanged(p, fromUser))
      modifies this
      ensures Valid() && Snapshot() == Step(old(Snapshot()), SeekBarChanged(p, fromUser))
      ensures progress == p
      ensures fromUser ==> session == old(session).(position := SeekTarget(old(session), p))
                           && currentLabel == FormatTime(p)
      ensures !fromUser ==> session == old(session) && currentLabel == old(currentLabel)
    {
      progress := p;
      if fromUser {
        session := session.(position := SeekTarget(session, p));
        currentLabel := FormatTime(p);
      }
    }

    /** One run of the progress task. */
    method UpdateSeekBarRun()
      requires Valid() && Delivered(Snapshot(), Tick)
      modifies this
      ensures Valid() && Snapshot() == Step(old(Snapshot()), Tick)
      ensures pendingTicks == old(pendingTicks) <==> old(initialized && session.playing)
      ensures old(initialized && session.playing) ==>
                progress == session.position && currentLabel == FormatTime(session.position)
      ensures !old(initialized && session.playing) ==>
                Snapshot() == old(Snapshot()).(pendingTicks := old(pendingTicks) - 1)
      ensures session == old(session)
    {
      if initialized && session.playing {
        // setting the bar from code reports a change that is not from the user
        OnProgressChanged(session.position, false);
        currentLabel := FormatTime(session.position);
        // this run leaves the queue and is posted again: the count is unchanged
      } else {
        pendingTicks := pendingTicks - 1;
      }
    }

    /** Play button: starts the engine and queues a run of the progress task. */
    method PlayClicked()
      requires Valid() && Delivered(Snapshot(), Play)
      modifies this
      ensures Valid() && Snapshot() == Step(old(Snapshot()), Play)
      ensures session == old(session).(playing := true)
      ensures pendingTicks == old(pendingTicks) + 1
    {
      session := session.(playing := true);
      pendingTicks := pendingTicks + 1;
    }

    /** Pause button: the engine stops where it is; the queue is left to run out. */
    method PauseClicked()
      requires Valid() && Delivered(Snapshot(), Pause)
      modifies this
      ensures Valid() && Snapshot() == Step(old(Snapshot()), Pause)
      ensures session == old(session).(playing := false)
      ensures pendingTicks == old(pendingTicks)
    {
      session := session.(playing := false);
    }

    /**
     * Stop button: stops the engine and replaces it by a new one, which has
     * no prepared listener, then resets the bar and the labels. The replaced
     * engine is not released.
     */
    method StopClicked()
      requires Valid() && Delivered(Snapshot(), Stop)
      modifies this
      ensures Valid() && Snapshot() == Step(old(Snapshot()), Stop)
      ensures session == FreshSession(resourceDuration) && !listenerAttached
      ensures progress == 0 && currentLabel == "0:00"
      ensures totalLabel == FormatTime(session.duration) && max == old(max)
      ensures created == old(created) + 1 && released == old(released)
    {
      ghost var before := Snapshot();
      StopStep(before);
      // the old engine is stopped and dropped, not released
      session := FreshSession(resourceDuration);
      created := created + 1;
      listenerAttached := false;
      // the listener's report of this change is not from the user, so it does nothing
      progress := 0;
      currentLabel := "0:00";
      totalLabel := FormatTime(session.duration);
    }

    /** The prepared listener, which only the first engine carries. */
    method OnPrepared()
      requires Valid() && Delivered(Snapshot(), Prepared)
      modifies this
      ensures Valid() && Snapshot() == Step(old(Snapshot()), Prepared)
      ensures listenerAttached ==> max == session.duration && totalLabel == FormatTime(session.duration)
      ensures !listenerAttached ==> Snapshot() == old(Snapshot())
    {
      if listenerAttached {
        max := session.duration;
        totalLabel := FormatTime(session.duration);
      }
    }

    /** onDestroy: drops every queued run of the task and releases the engine if there is one. */
    method OnDestroy()
      requires Valid() && Delivered(Snapshot(), Destroy)
      modifies this
      ensures Valid() && Snapshot() == Step(old(Snapshot()), Destroy)
      ensures pendingTicks == 0 && destroyed
      ensures released == old(released) + (if initialized then 1 else 0)
    {
      pendingTicks := 0;
      if initialized {
        released := released + 1;
      }
      destroyed := true;
    }

    /**
     * The engine plays on for `elapsed` milliseconds (its own clock, outside
     * the activity); its position never passes its end.
     */
    method EngineAdvanced(elapsed: nat)
      requires Valid() && Delivered(Snapshot(), Advance(elapsed))
      modifies this
      ensures Valid() && Snapshot() == Step(old(Snapshot()), Advance(elapsed))
      ensures session == if old(session.playing)
                         then old(session).(position := SeekTarget(old(session), old(session.position) + elapsed))
                         else old(session)
      ensures old(session.position) <= session.position <= session.duration
    {
      if session.playing {
        session := session.(position := SeekTarget(session, session.position + elapsed));
      }
    }

    /** The engine reaches the end of the audio and stops playing there. */
    method EngineCompleted()
      requires Valid() && Delivered(Snapshot(), Complete)
      modifies this
      ensures Valid() && Snapshot() == Step(old(Snapshot()), Complete)
      ensures session == if old(session.playing)
                         then old(session).(position := old(session.duration), playing := false)
                         else old(session)
    {
      if session.playing {
        session := session.(position := session.duration, playing := false);
      }
    }
  }

  /**
   * Use with a 200-second resource: create, become ready, press play, let
   * the engine play for a second and the task run once, then drag the bar.
   */
  method PlayAndSeek(layout: Ui)
  {
    var a := new MainActivity(200000, layout);
    a.OnCreate();
    a.OnPrepared();
    assert a.max == 200000;
    a.PlayClicked();
    a.EngineAdvanced(1000);
    a.UpdateSeekBarRun();
    assert a.progress == 1000 && a.currentLabel == FormatTime(1000);
    a.OnProgressChanged(30000, true);
    assert a.session.position == 30000 && a.currentLabel == FormatTime(30000);
  }

  /**
   * Use with a 200-second resource: create, press play, pause, let the
   * queued run drain, stop, then tear down.
   */
  method PauseStopAndLeave(layout: Ui)
  {
    var a := new MainActivity(200000, layout);
    a.OnCreate();
    a.PlayClicked();
    a.PauseClicked();
    a.UpdateSeekBarRun();
    assert a.pendingTicks == 0 && a.progress == layout.progress;
    a.StopClicked();
    assert a.currentLabel == "0:00" && a.session.position == 0 && a.max == layout.max;
    a.OnDestroy();
    assert a.released == 1 && a.created == 2;
  }
}
