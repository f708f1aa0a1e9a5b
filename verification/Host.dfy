/**
 The host side of the event channel (host/host.go): the world table, the join
 queue and the activity counters of the peers.
 */
module HostModel {
  import opened Abyss

  /** What the waiter of a world is handed. */
  datatype JoinResult = Entered(lsid: Uuid, url: string) | Refused(lsid: Uuid, code: int)

  /**
   `worlds` maps a session id to whether the table holds a world object (true)
   or nil (false).  `fault` covers the explicit panics of the event loop, the
   use of a nil world, a negative activity counter, and the event loop
   blocking for ever on a missing join waiter.
   */
  datatype Host = Host(worlds: map<Uuid, bool>, queue: set<Uuid>, results: seq<JoinResult>,
                       active: map<PeerId, int>, fault: bool)

  const NEW_HOST := Host(map[], {}, [], map[], false)

  function ActiveCount(h: Host, p: PeerId): int {
    if p in h.active then h.active[p] else 0
  }

  function Register(h: Host, l: Uuid): Host {
    h.(queue := h.queue + {l})
  }

  predicate HasWorld(h: Host, l: Uuid) {
    l in h.worlds && h.worlds[l]
  }

  function OnResult(h: Host, r: JoinResult): Host {
    if r.lsid !in h.queue then h.(fault := true)
    else h.(worlds := h.worlds[r.lsid := r.Entered?], queue := h.queue - {r.lsid}, results := h.results + [r])
  }

  function HandleEvent(h: Host, ev: Event): Host {
    if h.fault then h
    else match ev
      case SessionRequest(l, _, _) => if HasWorld(h, l) then h else h.(fault := true)
      case SessionReady(l, p, _) =>
        if HasWorld(h, l) then h.(active := h.active[p := ActiveCount(h, p) + 1]) else h.(fault := true)
      case SessionClose(l, p, _) =>
        if HasWorld(h, l) && ActiveCount(h, p) > 0 then h.(active := h.active[p := ActiveCount(h, p) - 1])
        else h.(fault := true)
      case ObjectAppend(l, _, _, _) => if HasWorld(h, l) then h else h.(fault := true)
      case ObjectDelete(l, _, _, _) => if HasWorld(h, l) then h else h.(fault := true)
      case JoinSuccess(l, url) => OnResult(h, Entered(l, url))
      case JoinFail(l, code) => OnResult(h, Refused(l, code))
      case WorldLeave(l) => if l in h.worlds then h.(worlds := h.worlds - {l}) else h.(fault := true)
      case _ => h
  }

  function HandleAll(h: Host, log: seq<Event>): Host {
    if log == [] then h else HandleEvent(HandleAll(h, log[..|log| - 1]), log[|log| - 1])
  }

  /** The maps that eventLoop and the two calls OpenWorld and JoinWorld update in place. */
  class AbyssHost {
    var worlds: map<Uuid, bool>
    var joinQueue: set<Uuid>
    var results: seq<JoinResult>
    var active: map<PeerId, int>
    var panicked: bool

    ghost function View(): Host
      reads this
    {
      Host(worlds, joinQueue, results, active, panicked)
    }

    constructor ()
      ensures View() == NEW_HOST
    {
      worlds, joinQueue, results, active, panicked := map[], {}, [], map[], false;
    }

    /** The waiter is queued before AND is called, so its result can never be missed. */
    method Enqueue(l: Uuid)
      modifies this
      ensures View() == Register(old(View()), l)
    {
      joinQueue := joinQueue + {l};
    }

    method Activate(p: PeerId)
      modifies this`active
      ensures active == old(active)[p := ActiveCount(old(View()), p) + 1]
    {
      active := active[p := (if p in active then active[p] else 0) + 1];
    }

    method Deactivate(p: PeerId)
      modifies this`active, this`panicked
      ensures ActiveCount(old(View()), p) > 0 ==>
                active == old(active)[p := ActiveCount(old(View()), p) - 1] && panicked == old(panicked)
      ensures ActiveCount(old(View()), p) <= 0 ==> active == old(active) && panicked
    {
      var next := (if p in active then active[p] else 0) - 1;
      if next < 0 {
        panicked := true;
        return;
      }
      active := active[p := next];
    }

    method Publish(r: JoinResult)
      modifies this
      ensures View() == OnResult(old(View()), r)
    {
      if r.lsid !in joinQueue {
        panicked := true;
        return;
      }
      worlds := worlds[r.lsid := r.Entered?];
      joinQueue := joinQueue - {r.lsid};
      results := results + [r];
    }

    method Handle(ev: Event)
      requires !panicked
      modifies this
      ensures View() == HandleEvent(old(View()), ev)
    {
      match ev
      case SessionRequest(l, _, _) =>
        if l !in worlds || !worlds[l] { panicked := true; }
      case SessionReady(l, p, _) =>
        if l !in worlds || !worlds[l] { panicked := true; return; }
        Activate(p);
      case SessionClose(l, p, _) =>
        if l !in worlds || !worlds[l] { panicked := true; return; }
        Deactivate(p);
      case JoinSuccess(l, url) => Publish(Entered(l, url));
      case JoinFail(l, code) => Publish(Refused(l, code));
      case WorldLeave(l) =>
        if l !in worlds { panicked := true; return; }
        worlds := worlds - {l};
      case ObjectAppend(l, _, _, _) =>
        if l !in worlds || !worlds[l] { panicked := true; }
      case ObjectDelete(l, _, _, _) =>
        if l !in worlds || !worlds[l] { panicked := true; }
      case _ =>
    }

    /** Works through the queued events until the first panic. */
    method EventLoop(log: seq<Event>) returns (handled: nat)
      modifies this
      ensures handled <= |log| && (handled < |log| ==> panicked)
      ensures View() == HandleAll(old(View()), log)
    {
      handled := 0;
      while handled < |log| && !panicked
        invariant handled <= |log|
        invariant View() == HandleAll(old(View()), log[..handled])
      {
        assert log[..handled + 1][..handled] == log[..handled];
        Handle(log[handled]);
        handled := handled + 1;
      }
      assert log[..handled] + log[handled..] == log;
      FaultSticks(old(View()), log, handled);
      assert log[..|log|] == log;
    }
  }

  lemma {:induction false} FaultSticks(h: Host, log: seq<Event>, k: nat)
    requires k <= |log|
    ensures HandleAll(h, log[..k]).fault ==> HandleAll(h, log) == HandleAll(h, log[..k])
    decreases |log|
  {
    if k == |log| {
      assert log[..k] == log;
    } else {
      assert log[..|log| - 1][..k] == log[..k];
      FaultSticks(h, log[..|log| - 1], k);
    }
  }
}
