/**
 * FrontendController: the controller object whose `timeout`, `disconnected`
 * and `failed` fields the transport callbacks assign in place, and whose
 * `host` is read from the stored credentials when it is constructed.
 */
module Frontend {
  import opened ConnectionHealth

  datatype Option<T> = None | Some(value: T)

  /** The stored credentials cookie; only its `host` is read here. */
  datatype Credentials = Credentials(host: string)

  class FrontendController {
    var timeout: bool
    var disconnected: bool
    var failed: bool
    /** Set only when a credentials cookie was found at construction. */
    var host: Option<string>

    /** Every transport notification delivered so far, oldest first. */
    ghost var history: seq<Event>

    ghost function Flags(): Health
      reads this
    {
      Health(timeout, disconnected, failed)
    }

    /** The flags are always what replaying the delivered notifications gives. */
    ghost predicate Valid()
      reads this
    {
      Flags() == Run(Initial(), history)
    }

    /**
     * All three flags start false; `host` is copied from the credentials
     * cookie when there is one and left unset otherwise.
     */
    constructor (cookie: Option<Credentials>)
      ensures Valid() && history == []
      ensures !timeout && !disconnected && !failed
      ensures cookie.Some? ==> host == Some(cookie.value.host)
      ensures cookie.None? ==> host == None
    {
      timeout, disconnected, failed := false, false, false;
      host := if cookie.Some? then Some(cookie.value.host) else None;
      history := [];
    }

    /** `timein`: clears `timeout` and nothing else. */
    method OnTimein()
      requires Valid()
      modifies this
      ensures Valid() && history == old(history) + [Timein]
      ensures !timeout
      ensures disconnected == old(disconnected) && failed == old(failed)
      ensures host == old(host)
    {
      ghost var before := Flags();
      RunSnoc(Initial(), history, Timein);
      timeout := false;
      history := history + [Timein];
      assert Flags() == Step(before, Timein);
    }

    /** `timeout`: sets `timeout` and nothing else. */
    method OnTimeout()
      requires Valid()
      modifies this
      ensures Valid() && history == old(history) + [Timeout]
      ensures timeout
      ensures disconnected == old(disconnected) && failed == old(failed)
      ensures host == old(host)
    {
      ghost var before := Flags();
      RunSnoc(Initial(), history, Timeout);
      timeout := true;
      history := history + [Timeout];
      assert Flags() == Step(before, Timeout);
    }

    /** `connected`: clears all three flags, whatever they were. */
    method OnConnected()
      requires Valid()
      modifies this
      ensures Valid() && history == old(history) + [Connected]
      ensures !timeout && !disconnected && !failed
      ensures host == old(host)
    {
      ghost var before := Flags();
      RunSnoc(Initial(), history, Connected);
      disconnected := false;
      timeout := false;
      failed := false;
      history := history + [Connected];
      assert Flags() == Step(before, Connected);
    }

    /** `disconnected`: sets `disconnected` and nothing else. */
    method OnDisconnected()
      requires Valid()
      modifies this
      ensures Valid() && history == old(history) + [Disconnected]
      ensures disconnected
      ensures timeout == old(timeout) && failed == old(failed)
      ensures host == old(host)
    {
      ghost var before := Flags();
      RunSnoc(Initial(), history, Disconnected);
      disconnected := true;
      history := history + [Disconnected];
      assert Flags() == Step(before, Disconnected);
    }

    /** `failed`: sets `failed` and nothing else. */
    method OnFailed()
      requires Valid()
      modifies this
      ensures Valid() && history == old(history) + [Failed]
      ensures failed
      ensures timeout == old(timeout) && disconnected == old(disconnected)
      ensures host == old(host)
    {
      ghost var before := Flags();
      RunSnoc(Initial(), history, Failed);
      failed := true;
      history := history + [Failed];
      assert Flags() == Step(before, Failed);
    }
  }

  /**
   * A controller's flags read off its history: `timeout` iff the last of
   * `timein`, `timeout` and `connected` was `timeout`; each link flag iff its
   * event arrived after the last `connected`.
   */
  lemma ControllerFlagsFromHistory(c: FrontendController)
    requires c.Valid()
    ensures c.timeout <==> TimedOutAfter(c.history)
    ensures c.disconnected <==> DisconnectedAfter(c.history)
    ensures c.failed <==> FailedAfter(c.history)
  {
    HistoryDeterminesHealth(c.history);
  }

  /** Drop, then reconnect: `disconnected` alone is raised, then every flag is clear again. */
  lemma DisconnectThenReconnect()
    ensures Run(Initial(), [Disconnected]) == Health(false, true, false)
    ensures Run(Initial(), [Disconnected, Connected]) == Initial()
  {
    RunSnoc(Initial(), [], Disconnected);
    assert [Disconnected, Connected] == [Disconnected] + [Connected];
    RunSnoc(Initial(), [Disconnected], Connected);
  }
}
