/**
 net_service/peer_context.go: the map of known peers with its waiters.
 Append, Wait (up to the unlock), Find and the Cleaner's sweep each hold the
 mutex; a waiter then blocks on its own one-slot channel or on its context.
 */
module PeerMap {
  import opened Prelude
  import opened Abyss
  import Activity

  type Peer = nat
  type WaiterId = nat // one call of Wait, with its channel and context

  /**
   `slot` is the content of a waiter's channel, `asked` the id it waits for,
   `got` how its call returned (None: its context ended), `sends` the number of
   times it was signalled.  `stuck`: a send met a full channel under the mutex.
   */
  datatype State = State(peers: map<PeerId, Peer>, waiters: map<PeerId, seq<WaiterId>>, slot: map<WaiterId, Option<Peer>>,
                                live: set<WaiterId>, asked: map<WaiterId, PeerId>, got: map<WaiterId, Option<Peer>>,
                                sends: map<WaiterId, nat>, stuck: bool)

  datatype Act =
    | Append(id: PeerId, peer: Peer)
    | Wait(id: PeerId, waiter: WaiterId, alive: bool)
    | Clean
    | Cancel(waiter: WaiterId)
    | Receive(waiter: WaiterId)
    | GiveUp(waiter: WaiterId)

  function Find(s: State, id: PeerId): Option<Peer> {
    if id in s.peers then Some(s.peers[id]) else None
  }

  function SendOne(s: State, w: WaiterId, p: Peer): State {
    if w in s.slot && s.slot[w].Some? then s.(stuck := true)
    else s.(slot := s.slot[w := Some(p)], sends := s.sends[w := (if w in s.sends then s.sends[w] else 0) + 1])
  }

  function SendAll(s: State, ws: seq<WaiterId>, p: Peer): State {
    if ws == [] then s else SendOne(SendAll(s, ws[..|ws| - 1], p), ws[|ws| - 1], p)
  }

  function LiveOnly(ws: seq<WaiterId>, live: set<WaiterId>): seq<WaiterId> {
    if ws == [] then [] else
      LiveOnly(ws[..|ws| - 1], live) + if ws[|ws| - 1] in live then [ws[|ws| - 1]] else []
  }

  function Waiting(s: State, id: PeerId): seq<WaiterId> {
    if id in s.waiters then s.waiters[id] else []
  }

  predicate Registered(s: State, id: PeerId, w: WaiterId) {
    id in s.waiters && w in s.waiters[id]
  }

  /** A new call of Wait with its own channel and context. */
  function Called(s: State, id: PeerId, w: WaiterId, alive: bool): State {
    s.(slot := s.slot[w := None], asked := s.asked[w := id], sends := s.sends[w := 0],
       live := if alive then s.live + {w} else s.live - {w})
  }

  function Step(s: State, a: Act): State {
    match a
    case Append(id, p) =>
      if id in s.peers then s
      else SendAll(s, Waiting(s, id), p).(peers := s.peers[id := p], waiters := s.waiters - {id})
    case Wait(id, w, alive) =>
      var s' := Called(s, id, w, alive);
      if id in s.peers then s'.(got := s.got[w := Some(s.peers[id])])
      else s'.(waiters := s.waiters[id := Waiting(s, id) + [w]])
    case Clean =>
      s.(waiters := map id | id in s.waiters && LiveOnly(s.waiters[id], s.live) != [] :: LiveOnly(s.waiters[id], s.live))
    case Cancel(w) => s.(live := s.live - {w})
    case Receive(w) =>
      if w in s.slot && s.slot[w].Some? then s.(got := s.got[w := s.slot[w]], slot := s.slot[w := None]) else s
    case GiveUp(w) => s.(got := s.got[w := None])
  }

  predicate Enabled(s: State, a: Act) {
    match a
    case Wait(_, w, _) => w !in s.asked
    case Receive(w) => w in s.asked && w !in s.got && w in s.slot && s.slot[w].Some?
    case GiveUp(w) => w in s.asked && w !in s.got && w !in s.live
    case Cancel(w) => w in s.asked
    case _ => true
  }

  function Start(): State {
    State(map[], map[], map[], {}, map[], map[], map[], false)
  }

  function Run(acts: seq<Act>): State {
    if acts == [] then Start() else Step(Run(acts[..|acts| - 1]), acts[|acts| - 1])
  }

  ghost predicate Possible(acts: seq<Act>) {
    acts == [] || (Possible(acts[..|acts| - 1]) && Enabled(Run(acts[..|acts| - 1]), acts[|acts| - 1]))
  }

  // ---- invariant ----

  ghost predicate Distinct(ws: seq<WaiterId>) {
    forall i, j :: 0 <= i < j < |ws| ==> ws[i] != ws[j]
  }

  /** The state of one call of Wait. */
  ghost predicate WaiterOk(s: State, w: WaiterId)
    requires w in s.asked
  {
    && w in s.slot && w in s.sends
    && (Registered(s, s.asked[w], w) ==> s.slot[w].None? && s.sends[w] == 0 && s.asked[w] !in s.peers)
    && s.sends[w] <= 1
    && (s.slot[w].Some? ==> s.slot[w] == Find(s, s.asked[w]) && s.sends[w] == 1)
    && (w !in s.got && w in s.live ==> Registered(s, s.asked[w], w) || s.slot[w].Some?)
    && (w in s.got && s.got[w].Some? ==> s.got[w] == Find(s, s.asked[w]))
  }

  ghost predicate Inv(s: State) {
    && !s.stuck
    && s.peers.Keys !! s.waiters.Keys
    && (forall id :: id in s.waiters ==> s.waiters[id] != [] && Distinct(s.waiters[id]))
    && (forall id, w {:trigger Registered(s, id, w)} :: Registered(s, id, w) ==> w in s.asked && s.asked[w] == id)
    && (forall w {:trigger WaiterOk(s, w)} :: w in s.asked ==> WaiterOk(s, w))
    && (forall w :: w in s.got ==> w in s.asked)
  }

  lemma {:induction false} LiveOnlyFilters(ws: seq<WaiterId>, live: set<WaiterId>)
    requires Distinct(ws)
    ensures Distinct(LiveOnly(ws, live))
    ensures forall w :: w in LiveOnly(ws, live) <==> w in ws && w in live
    decreases |ws|
  {
    if ws != [] {
      var init := ws[..|ws| - 1];
      LiveOnlyFilters(init, live);
      assert forall w :: w in ws <==> w in init || w == ws[|ws| - 1];
      assert ws[|ws| - 1] !in init;
    }
  }

  /** t is s after one send of p to each of ws. */
  ghost predicate Filled(s: State, t: State, ws: seq<WaiterId>, p: Peer) {
    && t == s.(slot := t.slot, sends := t.sends) && t.slot.Keys == s.slot.Keys && t.sends.Keys == s.sends.Keys
    && (forall w :: w in s.slot ==> t.slot[w] == if w in ws then Some(p) else s.slot[w])
    && (forall w :: w in s.sends ==> t.sends[w] == s.sends[w] + if w in ws then 1 else 0)
  }

  lemma FillOne(s: State, t: State, ws: seq<WaiterId>, w: WaiterId, p: Peer)
    requires Filled(s, t, ws, p) && w !in ws && w in s.slot && s.slot[w].None? && w in s.sends
    ensures Filled(s, SendOne(t, w, p), ws + [w], p)
  {
    assert forall v :: v in ws + [w] <==> v in ws || v == w;
  }

  /** Signalling distinct waiters with empty channels fills each channel once and never blocks. */
  lemma {:induction false} SendAllFills(s: State, ws: seq<WaiterId>, p: Peer)
    requires Distinct(ws) && !s.stuck
    requires forall w :: w in ws ==> w in s.slot && s.slot[w].None? && w in s.sends
    ensures Filled(s, SendAll(s, ws, p), ws, p)
    decreases |ws|
  {
    if ws != [] {
      var init, w := ws[..|ws| - 1], ws[|ws| - 1];
      assert w in ws && w !in init && ws == init + [w];
      SendAllFills(s, init, p);
      FillOne(s, SendAll(s, init, p), init, w, p);
    }
  }

  lemma RoomForAll(s: State, id: PeerId)
    requires Inv(s)
    ensures Distinct(Waiting(s, id))
    ensures forall w :: w in Waiting(s, id) ==> w in s.slot && s.slot[w].None? && w in s.sends
  {
    forall w | w in Waiting(s, id) ensures w in s.slot && s.slot[w].None? && w in s.sends {
      assert Registered(s, id, w);
      assert WaiterOk(s, w);
    }
  }

  lemma AppendKeeps(s: State, id: PeerId, p: Peer)
    requires Inv(s)
    ensures Inv(Step(s, Append(id, p)))
  {
    if id !in s.peers {
      var ws := Waiting(s, id);
      RoomForAll(s, id);
      SendAllFills(s, ws, p);
      var t := Step(s, Append(id, p));
      assert forall i, w :: Registered(t, i, w) ==> Registered(s, i, w);
      assert forall w :: w in ws <==> Registered(s, id, w);
      forall w | w in t.asked ensures WaiterOk(t, w) {
        assert WaiterOk(s, w);
        assert w in ws ==> s.asked[w] == id;
      }
    }
  }

  /** t is s with every group cut to its live waiters and empty groups dropped. */
  ghost predicate Cleaned(s: State, t: State) {
    && t == s.(waiters := t.waiters)
    && (forall id :: id in t.waiters ==> t.waiters[id] != [] && Distinct(t.waiters[id]))
    && t.waiters.Keys <= s.waiters.Keys
    && (forall id, w {:trigger Registered(t, id, w)} {:trigger Registered(s, id, w)} ::
          Registered(t, id, w) <==> Registered(s, id, w) && w in s.live)
  }

  lemma CleanFilters(s: State)
    requires forall id :: id in s.waiters ==> Distinct(s.waiters[id])
    ensures Cleaned(s, Step(s, Clean))
  {
    forall id | id in s.waiters ensures Distinct(LiveOnly(s.waiters[id], s.live))
                                && forall w :: w in LiveOnly(s.waiters[id], s.live) <==> w in s.waiters[id] && w in s.live {
      LiveOnlyFilters(s.waiters[id], s.live);
    }
  }

  lemma CleanKeeps(s: State, t: State)
    requires Inv(s) && Cleaned(s, t)
    ensures Inv(t)
  {
    forall w | w in t.asked ensures WaiterOk(t, w) {
      assert WaiterOk(s, w);
    }
  }

  lemma WaitKnown(s: State, id: PeerId, w: WaiterId, alive: bool, t: State)
    requires Inv(s) && w !in s.asked && t == Step(s, Wait(id, w, alive)) && id in s.peers
    ensures Inv(t)
  {
    assert forall i, v :: Registered(t, i, v) ==> Registered(s, i, v);
    forall v | v in t.asked ensures WaiterOk(t, v) {
      if v != w { assert WaiterOk(s, v); }
    }
  }

  lemma OthersWait(s: State, id: PeerId, w: WaiterId, alive: bool, t: State, v: WaiterId)
    requires w !in s.asked && t == Step(s, Wait(id, w, alive)) && id !in s.peers
    requires v != w && v in s.asked && WaiterOk(s, v)
    requires Registered(t, s.asked[v], v) <==> Registered(s, s.asked[v], v)
    ensures WaiterOk(t, v)
  {
  }

  lemma WaitUnknown(s: State, id: PeerId, w: WaiterId, alive: bool, t: State)
    requires Inv(s) && w !in s.asked && t == Step(s, Wait(id, w, alive)) && id !in s.peers
    ensures Inv(t)
  {
    assert !Registered(s, id, w);
    assert forall v, i :: Registered(t, i, v) <==> Registered(s, i, v) || (v == w && i == id);
    forall v | v in t.asked ensures WaiterOk(t, v) {
      if v != w { OthersWait(s, id, w, alive, t, v); }
    }
  }

  lemma ReturnKeeps(s: State, a: Act, t: State)
    requires Inv(s) && Enabled(s, a) && t == Step(s, a) && (a.Cancel? || a.Receive? || a.GiveUp?)
    ensures Inv(t)
  {
    assert forall i, w :: Registered(t, i, w) ==> Registered(s, i, w);
    forall v | v in s.asked ensures WaiterOk(t, v) { assert WaiterOk(s, v); }
  }

  lemma StepKeeps(s: State, a: Act)
    requires Inv(s) && Enabled(s, a)
    ensures Inv(Step(s, a))
  {
    match a
    case Append(id, p) => AppendKeeps(s, id, p);
    case Wait(id, w, alive) => if id in s.peers { WaitKnown(s, id, w, alive, Step(s, a)); } else { WaitUnknown(s, id, w, alive, Step(s, a)); }
    case Clean => CleanFilters(s); CleanKeeps(s, Step(s, a));
    case _ => ReturnKeeps(s, a, Step(s, a));
  }

  lemma Moved(s: State, a: Act, t: State)
    requires Inv(s) && Enabled(s, a) && t == Step(s, a)
    ensures Inv(t)
  {
    StepKeeps(s, a);
  }

  lemma {:induction false} RunKeeps(acts: seq<Act>)
    requires Possible(acts)
    ensures Inv(Run(acts))
    decreases |acts|
  {
    if acts != [] {
      RunKeeps(acts[..|acts| - 1]);
      StepKeeps(Run(acts[..|acts| - 1]), acts[|acts| - 1]);
    }
  }

  /**
   No id is both known and waited for, no send blocks, a waiter is signalled at most once, a waiter with a live
   context is registered exactly as long as its peer is unknown and holds that peer as soon as it is known, and a
   call that returned a peer returned the one Find returns.
   */
  ghost predicate Safe(s: State) {
    && !s.stuck && s.peers.Keys !! s.waiters.Keys
    && (forall id :: id in s.waiters ==> Distinct(s.waiters[id]))
    && (forall w :: w in s.asked ==> w in s.sends && s.sends[w] <= 1)
    && (forall w :: w in s.asked && w !in s.got && w in s.live ==>
          && (Registered(s, s.asked[w], w) <==> Find(s, s.asked[w]).None?)
          && (Find(s, s.asked[w]).Some? ==> w in s.slot && s.slot[w] == Find(s, s.asked[w])))
    && (forall w :: w in s.got && s.got[w].Some? ==> w in s.asked && s.got[w] == Find(s, s.asked[w]))
  }

  lemma InvIsSafe(s: State)
    requires Inv(s)
    ensures Safe(s)
  {
    assert forall w :: w in s.asked ==> WaiterOk(s, w);
  }

  /** In every interleaving of Append, Wait, the Cleaner, cancellations and returns. */
  lemma NoLostWakeup(acts: seq<Act>)
    requires Possible(acts)
    ensures Safe(Run(acts))
  {
    RunKeeps(acts);
    InvIsSafe(Run(acts));
  }

  // ---- the map as the program keeps it; a channel is an entry of `channels` ----

  class ContextedPeerMap {
    var peers: map<PeerId, Peer>
    var waiters: map<PeerId, seq<WaiterId>>
    var channels: map<WaiterId, Option<Peer>>
    var live: set<WaiterId>
    var activity: map<PeerId, Activity.Record>
    ghost var asked: map<WaiterId, PeerId>
    ghost var got: map<WaiterId, Option<Peer>>
    ghost var sends: map<WaiterId, nat>

    ghost function View(): State
      reads this
    {
      State(peers, waiters, channels, live, asked, got, sends, false)
    }

    ghost predicate Valid()
      reads this
    {
      Inv(View()) && activity.Keys == peers.Keys
    }

    constructor ()
      ensures Valid() && View() == Start()
    {
      peers, waiters, channels, live, activity := map[], map[], map[], {}, map[];
      asked, got, sends := map[], map[], map[];
    }

    /** A peer that is found has just been active; its count is left alone. */
    method FindPeer(id: PeerId, now: int) returns (found: Option<Peer>)
      requires Valid()
      modifies this`activity
      ensures Valid() && found == Find(View(), id)
      ensures forall w :: w in asked && w in got && got[w].Some? && asked[w] == id ==> found == got[w]
      ensures activity == if found.None? then old(activity) else old(activity)[id := Activity.Record(old(activity[id]).count, now)]
    {
      InvIsSafe(View());
      if id !in peers {
        return None;
      }
      activity := activity[id := activity[id].(last := now)];
      return Some(peers[id]);
    }

    /** The sends of Append, under the mutex: no channel is full, so none of them blocks. */
    method SignalAll(ws: seq<WaiterId>, p: Peer)
      requires Distinct(ws)
      requires forall w :: w in ws ==> w in channels && channels[w].None? && w in sends
      modifies this`sends, this`channels
      ensures View() == SendAll(old(View()), ws, p)
    {
      var i := 0;
      while i < |ws|
        invariant i <= |ws| && View() == SendAll(old(View()), ws[..i], p)
        invariant forall k :: i <= k < |ws| ==> ws[k] in channels && channels[ws[k]].None? && ws[k] in sends
      {
        channels := channels[ws[i] := Some(p)];
        sends := sends[ws[i] := sends[ws[i]] + 1];
        i := i + 1;
        assert ws[..i][..i - 1] == ws[..i - 1];
      }
      assert ws[..i] == ws;
    }

    /** All waiters for the id are signalled and forgotten. */
    method Release(id: PeerId, p: Peer)
      requires Distinct(Waiting(View(), id))
      requires forall w :: w in Waiting(View(), id) ==> w in channels && channels[w].None? && w in sends
      modifies this`waiters, this`sends, this`channels
      ensures View() == if id in old(waiters) then SendAll(old(View()), old(waiters)[id], p).(waiters := old(waiters) - {id}) else old(View())
    {
      if id in waiters {
        SignalAll(waiters[id], p);
        waiters := waiters - {id};
      }
    }

    method AppendPeer(id: PeerId, p: Peer, now: int) returns (added: bool)
      requires Valid()
      modifies this`peers, this`waiters, this`sends, this`channels, this`activity
      ensures Valid() && View() == Step(old(View()), Append(id, p)) && (added <==> id !in old(peers))
      ensures activity == if added then old(activity)[id := Activity.Record(0, now)] else old(activity)
    {
      ghost var was := View();
      if id in peers {
        return false;
      }
      RoomForAll(was, id);
      peers, activity := peers[id := p], activity[id := Activity.Record(0, now)];
      Release(id, p);
      AppendedByParts(was, id, p, View());
      Moved(was, Append(id, p), View());
      return true;
    }

    method NewWaiter(id: PeerId, w: WaiterId, alive: bool)
      modifies this`channels, this`live, this`asked, this`sends
      ensures View() == Called(old(View()), id, w, alive)
    {
      asked, sends := asked[w := id], sends[w := 0];
      channels := channels[w := None];
      live := if alive then live + {w} else live - {w};
    }

    /** Wait up to the unlock: the peer if it is known, otherwise the waiter is registered. */
    method Register(id: PeerId, w: WaiterId, alive: bool) returns (found: Option<Peer>)
      requires Valid() && w !in asked
      modifies this
      ensures Valid() && View() == Step(old(View()), Wait(id, w, alive))
      ensures found == Find(old(View()), id) && activity == old(activity)
    {
      ghost var was := View();
      NewWaiter(id, w, alive);
      if id in peers {
        found := Some(peers[id]);
        got := got[w := found];
      } else {
        found := None;
        waiters := waiters[id := (if id in waiters then waiters[id] else []) + [w]];
      }
      Moved(was, Wait(id, w, alive), View());
    }

    method LiveWaiters(group: seq<WaiterId>) returns (kept: seq<WaiterId>)
      ensures kept == LiveOnly(group, live)
    {
      kept := [];
      var i := 0;
      while i < |group|
        invariant i <= |group| && kept == LiveOnly(group[..i], live)
      {
        assert group[..i + 1][..i] == group[..i];
        if group[i] in live { kept := kept + [group[i]]; }
        i := i + 1;
      }
      assert group[..i] == group;
    }

    /** Cuts one group to its live waiters, unless none is left. */
    method KeepGroup(id: PeerId, ghost want: seq<WaiterId>) returns (empty: bool)
      requires id in waiters && want == LiveOnly(waiters[id], live)
      modifies this`waiters
      ensures (empty <==> want == []) && waiters == if empty then old(waiters) else old(waiters)[id := want]
    {
      var kept := LiveWaiters(waiters[id]);
      if kept != [] { waiters := waiters[id := kept]; }
      return kept == [];
    }

    /** The Cleaner's pass over the waiters; `want` is what must be left of each group. */
    method KeepLive(ghost want: map<PeerId, seq<WaiterId>>)
      requires want.Keys == waiters.Keys && forall id :: id in want ==> want[id] == LiveOnly(waiters[id], live)
      modifies this`waiters
      ensures waiters == Groups(want)
    {
      ghost var was := waiters;
      var todo, dead := waiters.Keys, {};
      while todo != {}
        invariant todo <= want.Keys && Pruned(was, want, todo, dead, waiters)
        decreases |todo|
      {
        var id :| id in todo;
        ghost var before := waiters;
        var empty := KeepGroup(id, want[id]);
        PrunedStep(was, want, todo, dead, before, id, empty, waiters);
        if empty { dead := dead + {id}; }
        todo := todo - {id};
      }
      PrunedDone(was, want, dead, waiters);
      waiters := waiters - dead;
    }

    /** One sweep of the Cleaner. */
    method Sweep()
      requires Valid()
      modifies this`waiters
      ensures Valid() && View() == Step(old(View()), Clean)
    {
      ghost var was := View();
      ghost var want := map id | id in waiters :: LiveOnly(waiters[id], live);
      KeepLive(want);
      assert View() == Step(was, Clean);
      Moved(was, Clean, View());
    }

    /** The end of a waiting call: the select takes the channel, or the context if that has ended. */
    method Finish(w: WaiterId, ended: bool) returns (found: Option<Peer>)
      requires Valid() && w in asked && w !in got && w in channels && (if ended then w !in live else channels[w].Some?)
      modifies this`got, this`channels
      ensures Valid() && View() == Step(old(View()), if ended then GiveUp(w) else Receive(w))
      ensures found == if ended then None else old(channels[w])
    {
      ghost var was := View();
      if ended {
        found := None;
      } else {
        found := channels[w];
        channels := channels[w := None];
      }
      got := got[w := found];
      Moved(was, if ended then GiveUp(w) else Receive(w), View());
    }
  }

  /** The groups that are not empty. */
  ghost function Groups(want: map<PeerId, seq<WaiterId>>): map<PeerId, seq<WaiterId>> {
    map id | id in want && want[id] != [] :: want[id]
  }

  /** The Cleaner has visited all groups but `todo` and found those in `dead` empty. */
  ghost predicate Pruned(was: map<PeerId, seq<WaiterId>>, want: map<PeerId, seq<WaiterId>>, todo: set<PeerId>, dead: set<PeerId>,
                         now: map<PeerId, seq<WaiterId>>) {
    && now.Keys == want.Keys == was.Keys
    && (forall id :: id in dead <==> id in want && id !in todo && want[id] == [])
    && (forall id :: id in now ==> now[id] == if id in todo || id in dead then was[id] else want[id])
  }

  lemma PrunedStep(was: map<PeerId, seq<WaiterId>>, want: map<PeerId, seq<WaiterId>>, todo: set<PeerId>, dead: set<PeerId>,
                   now: map<PeerId, seq<WaiterId>>, id: PeerId, empty: bool, now': map<PeerId, seq<WaiterId>>)
    requires Pruned(was, want, todo, dead, now) && id in todo && todo <= want.Keys && (empty <==> want[id] == [])
    requires now' == if empty then now else now[id := want[id]]
    ensures Pruned(was, want, todo - {id}, if empty then dead + {id} else dead, now')
  {
  }

  lemma PrunedDone(was: map<PeerId, seq<WaiterId>>, want: map<PeerId, seq<WaiterId>>, dead: set<PeerId>, now: map<PeerId, seq<WaiterId>>)
    requires Pruned(was, want, {}, dead, now)
    ensures now - dead == Groups(want)
  {
  }

  lemma AppendedByParts(s: State, id: PeerId, p: Peer, t: State)
    requires id !in s.peers
    requires var s1 := s.(peers := s.peers[id := p]);
             t == if id in s.waiters then SendAll(s1, s.waiters[id], p).(waiters := s.waiters - {id}) else s1
    ensures t == Step(s, Append(id, p))
  {
    SendAllFrame(s, s.peers[id := p], Waiting(s, id), p);
    if id !in s.waiters { assert s.waiters - {id} == s.waiters; }
  }

  lemma {:induction false} SendAllFrame(s: State, peers: map<PeerId, Peer>, ws: seq<WaiterId>, p: Peer)
    ensures SendAll(s.(peers := peers), ws, p) == SendAll(s, ws, p).(peers := peers)
    decreases |ws|
  {
    if ws != [] { SendAllFrame(s, peers, ws[..|ws| - 1], p); }
  }
}
