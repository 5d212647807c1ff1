/** The part of the browser the poll app talks to: the origin's local storage,
    the tab's session storage, and the window's custom-event dispatch.
    Local storage holds decoded snapshots (the JSON text round-trips exactly);
    dispatched custom events are kept as a log in dispatch order. */
module WebStorage {
  import opened PollModel

  /** A custom window event: its name and its `{pollType, data}` detail. */
  datatype WindowEvent = CustomEvent(name: string, pollType: string, data: PollData)

  class Browser {
    var localStorage: map<string, PollData>
    var sessionStorage: map<string, string>
    var dispatched: seq<WindowEvent>

    constructor ()
      ensures localStorage == map[] && sessionStorage == map[] && dispatched == []
    {
      localStorage := map[];
      sessionStorage := map[];
      dispatched := [];
    }

    method SetItem(key: string, value: PollData)
      modifies this
      ensures localStorage == old(localStorage)[key := value]
      ensures sessionStorage == old(sessionStorage) && dispatched == old(dispatched)
    {
      localStorage := localStorage[key := value];
    }

    /** Removing a key that is not there is allowed and changes nothing. */
    method RemoveItem(key: string)
      modifies this
      ensures localStorage == old(localStorage) - {key}
      ensures sessionStorage == old(sessionStorage) && dispatched == old(dispatched)
    {
      localStorage := localStorage - {key};
    }

    method SetSessionItem(key: string, value: string)
      modifies this
      ensures sessionStorage == old(sessionStorage)[key := value]
      ensures localStorage == old(localStorage) && dispatched == old(dispatched)
    {
      sessionStorage := sessionStorage[key := value];
    }

    method RemoveSessionItem(key: string)
      modifies this
      ensures sessionStorage == old(sessionStorage) - {key}
      ensures localStorage == old(localStorage) && dispatched == old(dispatched)
    {
      sessionStorage := sessionStorage - {key};
    }

    method DispatchEvent(e: WindowEvent)
      modifies this
      ensures dispatched == old(dispatched) + [e]
      ensures localStorage == old(localStorage) && sessionStorage == old(sessionStorage)
    {
      dispatched := dispatched + [e];
    }
  }
}
