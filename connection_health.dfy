/**
 * Connection health as FrontendController sees it: three independent flags
 * driven by five transport notifications. This module is the value-level
 * specification; FrontendController (frontend_controller.dfy) keeps the
 * same flags as mutable fields and is proved to agree with it.
 */
module ConnectionHealth {

  /** The five notifications the controller subscribes to on the transport. */
  datatype Event = Timein | Timeout | Connected | Disconnected | Failed

  /** The three flags. They are independent: any combination may be current. */
  datatype Health = Health(timeout: bool, disconnected: bool, failed: bool)

  /** The state a freshly constructed controller starts in. */
  function Initial(): (h: Health)
    ensures !h.timeout && !h.disconnected && !h.failed
  {
    Health(false, false, false)
  }

  /**
   * The effect of one notification, written per event as the callbacks are.
   * The contract reads it per flag instead: which events may touch which flag.
   */
  function Step(h: Health, e: Event): (r: Health)
    ensures r.timeout == (e == Timeout || (h.timeout && e != Timein && e != Connected))
    ensures r.disconnected == (e == Disconnected || (h.disconnected && e != Connected))
    ensures r.failed == (e == Failed || (h.failed && e != Connected))
  {
    match e
    case Timein => h.(timeout := false)
    case Timeout => h.(timeout := true)
    case Connected => Health(false, false, false)
    case Disconnected => h.(disconnected := true)
    case Failed => h.(failed := true)
  }

  /** The flags after delivering `events`, oldest first, starting from `h`. */
  function Run(h: Health, events: seq<Event>): Health
    decreases |events|
  {
    if events == [] then h
    else Step(Run(h, events[..|events| - 1]), events[|events| - 1])
  }

  /**
   * Some `setter` event occurs in `events` and none of `clearers` occurs after it.
   */
  predicate OccurredSince(events: seq<Event>, setter: Event, clearers: set<Event>)
  {
    exists i :: 0 <= i < |events| && events[i] == setter &&
      forall j :: i < j < |events| ==> events[j] !in clearers
  }

  /** No event of `touching` occurs in `events`. */
  predicate NoneOf(events: seq<Event>, touching: set<Event>)
  {
    forall i :: 0 <= i < |events| ==> events[i] !in touching
  }

  /**
   * Reference definition of the flags after a history delivered to a fresh
   * controller, stated without replaying it.
   */
  predicate TimedOutAfter(events: seq<Event>)
  {
    OccurredSince(events, Timeout, {Timein, Connected})
  }

  predicate DisconnectedAfter(events: seq<Event>)
  {
    OccurredSince(events, Disconnected, {Connected})
  }

  predicate FailedAfter(events: seq<Event>)
  {
    OccurredSince(events, Failed, {Connected})
  }

  lemma RunSnoc(h: Health, events: seq<Event>, e: Event)
    ensures Run(h, events + [e]) == Step(Run(h, events), e)
  {
    assert (events + [e])[..|events|] == events;
  }

  /** Replaying a concatenation is replaying its parts one after the other. */
  lemma {:induction false} RunAppend(h: Health, first: seq<Event>, second: seq<Event>)
    ensures Run(h, first + second) == Run(Run(h, first), second)
    decreases |second|
  {
    if second == [] {
      assert first + second == first;
    } else {
      var front, last := second[..|second| - 1], second[|second| - 1];
      assert second == front + [last];
      assert first + second == (first + front) + [last];
      RunSnoc(h, first + front, last);
      RunAppend(h, first, front);
      RunSnoc(Run(h, first), front, last);
    }
  }

  /** How one more event changes whether a setter has occurred since its clearers. */
  lemma OccurredSinceSnoc(events: seq<Event>, e: Event, setter: Event, clearers: set<Event>)
    requires setter !in clearers
    ensures OccurredSince(events + [e], setter, clearers) ==
      if e == setter then true
      else if e in clearers then false
      else OccurredSince(events, setter, clearers)
  {
    var longer := events + [e];
    var n := |events|;
    if e == setter {
      assert longer[n] == setter;
    } else if e in clearers {
      assert longer[n] in clearers;
    } else {
      if OccurredSince(events, setter, clearers) {
        var i :| 0 <= i < n && events[i] == setter &&
          forall j :: i < j < n ==> events[j] !in clearers;
        assert longer[i] == setter;
        assert forall j :: i < j < |longer| ==> longer[j] !in clearers;
      }
      if OccurredSince(longer, setter, clearers) {
        var i :| 0 <= i < |longer| && longer[i] == setter &&
          forall j :: i < j < |longer| ==> longer[j] !in clearers;
        assert i < n;
        assert events[i] == setter;
        assert forall j :: i < j < n ==> events[j] !in clearers by {
          forall j | i < j < n ensures events[j] !in clearers {
            assert events[j] == longer[j];
          }
        }
      }
    }
  }

  lemma NoneOfSnoc(events: seq<Event>, e: Event, touching: set<Event>)
    ensures NoneOf(events + [e], touching) == (NoneOf(events, touching) && e !in touching)
  {
    var longer := events + [e];
    if NoneOf(longer, touching) {
      assert longer[|events|] == e;
      forall i | 0 <= i < |events| ensures events[i] !in touching {
        assert longer[i] == events[i];
      }
    }
  }

  /**
   * `timeout` is set iff a `timeout` arrived after the last `timein` and the
   * last `connected`; when neither of the three arrived it keeps its value.
   */
  lemma {:induction false} TimeoutFlagAfter(h: Health, events: seq<Event>)
    ensures Run(h, events).timeout <==>
      TimedOutAfter(events) ||
      (h.timeout && NoneOf(events, {Timeout, Timein, Connected}))
    decreases |events|
  {
    if events != [] {
      var front, last := events[..|events| - 1], events[|events| - 1];
      assert events == front + [last];
      TimeoutFlagAfter(h, front);
      OccurredSinceSnoc(front, last, Timeout, {Timein, Connected});
      NoneOfSnoc(front, last, {Timeout, Timein, Connected});
    }
  }

  /**
   * `disconnected` is set iff a `disconnected` arrived after the last
   * `connected`; with neither it keeps its value.
   */
  lemma {:induction false} DisconnectedFlagAfter(h: Health, events: seq<Event>)
    ensures Run(h, events).disconnected <==>
      DisconnectedAfter(events) ||
      (h.disconnected && NoneOf(events, {Disconnected, Connected}))
    decreases |events|
  {
    if events != [] {
      var front, last := events[..|events| - 1], events[|events| - 1];
      assert events == front + [last];
      DisconnectedFlagAfter(h, front);
      OccurredSinceSnoc(front, last, Disconnected, {Connected});
      NoneOfSnoc(front, last, {Disconnected, Connected});
    }
  }

  /**
   * `failed` is set iff a `failed` arrived after the last `connected`; with
   * neither it keeps its value.
   */
  lemma {:induction false} FailedFlagAfter(h: Health, events: seq<Event>)
    ensures Run(h, events).failed <==>
      FailedAfter(events) ||
      (h.failed && NoneOf(events, {Failed, Connected}))
    decreases |events|
  {
    if events != [] {
      var front, last := events[..|events| - 1], events[|events| - 1];
      assert events == front + [last];
      FailedFlagAfter(h, front);
      OccurredSinceSnoc(front, last, Failed, {Connected});
      NoneOfSnoc(front, last, {Failed, Connected});
    }
  }

  /** From a fresh controller the flags are exactly the reference definitions. */
  lemma HistoryDeterminesHealth(events: seq<Event>)
    ensures Run(Initial(), events) ==
      Health(TimedOutAfter(events), DisconnectedAfter(events), FailedAfter(events))
  {
    TimeoutFlagAfter(Initial(), events);
    DisconnectedFlagAfter(Initial(), events);
    FailedFlagAfter(Initial(), events);
  }

  /**
   * `connected` is the single reset point: whatever happened before the last
   * `connected`, and whatever the flags were, only the later events count.
   */
  lemma {:induction false} ConnectedForgetsHistory(h: Health, before: seq<Event>, after: seq<Event>)
    ensures Run(h, before + [Connected] + after) == Run(Initial(), after)
    decreases |after|
  {
    if after == [] {
      assert before + [Connected] + after == before + [Connected];
      RunSnoc(h, before, Connected);
    } else {
      var front, last := after[..|after| - 1], after[|after| - 1];
      assert after == front + [last];
      assert before + [Connected] + after == (before + [Connected] + front) + [last];
      RunSnoc(h, before + [Connected] + front, last);
      ConnectedForgetsHistory(h, before, front);
      RunSnoc(Initial(), front, last);
    }
  }

  /**
   * Link events leave `timeout` alone, and timeout events leave the link
   * flags alone, over any number of them.
   */
  lemma {:induction false} FlagsIndependent(h: Health, events: seq<Event>)
    ensures NoneOf(events, {Timeout, Timein, Connected}) ==> Run(h, events).timeout == h.timeout
    ensures NoneOf(events, {Disconnected, Connected}) ==> Run(h, events).disconnected == h.disconnected
    ensures NoneOf(events, {Failed, Connected}) ==> Run(h, events).failed == h.failed
    decreases |events|
  {
    if events != [] {
      var front, last := events[..|events| - 1], events[|events| - 1];
      assert events == front + [last];
      FlagsIndependent(h, front);
      NoneOfSnoc(front, last, {Timeout, Timein, Connected});
      NoneOfSnoc(front, last, {Disconnected, Connected});
      NoneOfSnoc(front, last, {Failed, Connected});
    }
  }

  /**
   * Every combination of flags is reachable from a fresh controller: the
   * returned history produces `target`.
   */
  function HistoryFor(target: Health): (events: seq<Event>)
    ensures Run(Initial(), events) == target
  {
    var t := if target.timeout then [Timeout] else [];
    var d := if target.disconnected then [Disconnected] else [];
    var f := if target.failed then [Failed] else [];
    RunAppend(Initial(), t, d);
    RunAppend(Initial(), t + d, f);
    t + d + f
  }
}
