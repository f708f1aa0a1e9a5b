/**
 and/world.go as it is written: a world object whose handlers update the peer
 map in place, push events and send messages.  Each handler is proved to do
 what the entry machine says.
 */
module WorldImpl {
  import opened Prelude
  import opened Abyss
  import opened PeerEntry
  import opened WorldModel
  import opened Outcomes

  /** The event channel, the outgoing connections, and whether the process has panicked. */
  class Environment {
    var events: seq<Event>
    var out: seq<Send>
    var panicked: bool

    constructor ()
      ensures events == [] && out == [] && !panicked
    {
      events, out, panicked := [], [], false;
    }

    method Push(ev: Event)
      modifies this`events
      ensures events == old(events) + [ev]
    {
      events := events + [ev];
    }

    method TrySend(dst: PeerId, msg: Msg)
      modifies this`out
      ensures out == old(out) + [Send(dst, msg)]
    {
      out := out + [Send(dst, msg)];
    }

    method Panic()
      modifies this`panicked
      ensures panicked
    {
      panicked := true;
    }
  }

  /** One walk over the keys of a Go map: every key once, in an order the caller cannot rely on. */
  method RangeOver<T(==, !new)>(keys: set<T>) returns (order: seq<T>)
    ensures Enumerates(order, keys)
  {
    order := [];
    var rest := keys;
    while rest != {}
      invariant rest <= keys
      invariant forall x :: x in order <==> x in keys && x !in rest
      invariant forall i, j :: 0 <= i < j < |order| ==> order[i] != order[j]
      decreases rest
    {
      var x :| x in rest;
      assert x !in order;
      order := order + [x];
      rest := rest - {x};
    }
  }

  /** The state reached is the one specified; after a panic only the panic itself matters. */
  predicate Matches(now: State, spec: State) {
    now.fault == spec.fault && (!spec.fault ==> now == spec)
  }

  function Applied(st: State, p: PeerId, o: Outcome): State {
    State(st.id, Put(st.peers, p, o.entry), st.events + o.events, st.out + o.sends, st.fault || o.fault)
  }

  class ANDWorld {
    const id: WorldId
    const env: Environment
    var peers: Peers

    ghost function View(): State
      reads this, env
    {
      State(id, peers, env.events, env.out, env.panicked)
    }

    constructor Open(id: WorldId, connected: set<PeerId>, env: Environment)
      requires !env.panicked
      modifies env
      ensures this.id == id && this.env == env
      ensures View() == Opened(id, connected, old(env.events), old(env.out))
    {
      this.id, this.env := id, env;
      peers := map p | p in connected :: IDLE;
      new;
      env.Push(JoinSuccess(id.lsid, id.url));
      env.Push(TimerRequest(id.lsid, 500));
      assert env.events == old(env.events) + [JoinSuccess(id.lsid, id.url), TimerRequest(id.lsid, 500)];
    }

    constructor Join(id: WorldId, connected: set<PeerId>, env: Environment)
      requires !env.panicked
      modifies env
      ensures this.id == id && this.env == env
      ensures View() == Joining(id, connected, old(env.events), old(env.out))
    {
      this.id, this.env := id, env;
      peers := map p | p in connected :: IDLE;
      new;
      if id.joinHash in peers {
        peers := peers[id.joinHash := peers[id.joinHash].(status := Jt)];
        env.TrySend(id.joinHash, MJN(id.lsid, id.joinPath, TruncMs(id.stamp)));
      } else {
        peers := peers[id.joinHash := Entry(false, NIL, ZERO_TIME, DcJt, false, 0)];
        env.Push(ConnectRequest(id.joinHash));
      }
    }

    /** Clear of an entry; panics when the peer is not connected. */
    method Clear(p: PeerId)
      requires p in peers && !env.panicked
      modifies this, env`panicked
      ensures if old(peers[p]).linked then peers == old(peers)[p := IDLE] && !env.panicked
              else peers == old(peers) && env.panicked
    {
      if !peers[p].linked {
        env.Panic();
        return;
      }
      peers := peers[p := Entry(true, NIL, ZERO_TIME, Cc, false, 0)];
    }

    method ClearStates(p: PeerId)
      requires p in peers && !env.panicked
      modifies this, env
      ensures Matches(View(), Applied(old(View()), p, Cleared(id, p, old(peers[p]))))
    {
      var info := peers[p];
      match info.status
      case DcJt => peers := peers - {p};
      case DcJni => peers := peers - {p};
      case Cc => Clear(p);
      case Jt =>
        env.TrySend(p, MRST(id.lsid, info.session));
        env.Push(JoinFail(id.lsid, CODE_INVALID_STATES));
        Clear(p);
      case Jn =>
        env.TrySend(p, MJDN(info.session, CODE_INVALID_STATES));
        Clear(p);
      case Mem =>
        env.Push(SessionClose(id.lsid, p, info.session));
        env.TrySend(p, MRST(id.lsid, info.session));
        Clear(p);
      case _ =>
        env.TrySend(p, MRST(id.lsid, info.session));
        Clear(p);
    }

    /** On success the entry is cleared and holds the newer session; its status is up to the caller. */
    method TryUpdateSessionID(p: PeerId, session: Uuid, stamp: Time) returns (updated: bool)
      requires p in peers && !env.panicked && !Disconnected(peers[p].status)
      modifies this, env
      ensures env.panicked <==> !old(peers[p]).linked && old(peers[p]).stamp < stamp
      ensures !env.panicked ==> (updated <==> old(peers[p]).stamp < stamp)
      ensures !env.panicked && !updated ==> View() == old(View())
      ensures !env.panicked && updated ==>
                p in peers && View() == Applied(old(View()), p,
                  var o := Cleared(id, p, old(peers[p])); o.(entry := Some(IDLE.(session := session, stamp := stamp))))
    {
      updated := peers[p].stamp < stamp;
      if updated {
        ClearStates(p);
        if env.panicked { return; }
        peers := peers[p := peers[p].(session := session, stamp := stamp)];
      }
    }

    method IsProperMemberOrReset(p: PeerId, session: Uuid) returns (proper: bool)
      requires !env.panicked
      modifies this, env
      ensures Matches(View(), Do(old(View()), On(p, Vouch(session))))
      ensures !env.panicked ==> (proper <==> IsProper(old(peers), p, session))
    {
      if p !in peers || peers[p].status.DcJt? || peers[p].status.DcJni? {
        env.Panic();
        return false;
      }
      if peers[p].status.Mem? && peers[p].session == session {
        assert Put(peers, p, Get(peers, p)) == peers;
        return true;
      }
      ClearStates(p);
      return false;
    }

    method PeerConnected(p: PeerId)
      requires !env.panicked
      modifies this, env
      ensures Matches(View(), Do(old(View()), On(p, Connect)))
    {
      if p in peers {
        var info := peers[p];
        match info.status {
          case DcJt =>
            env.TrySend(p, MJN(id.lsid, id.joinPath, TruncMs(id.stamp)));
            peers := peers[p := info.(linked := true, status := Jt)];
          case DcJni =>
            peers := peers[p := info.(linked := true, status := Jni)];
            env.Push(SessionRequest(id.lsid, p, info.session));
          case _ => env.Panic();
        }
        return;
      }
      peers := peers[p := IDLE];
    }

    method SetStatus(p: PeerId, status: Status)
      requires p in peers
      modifies this`peers
      ensures peers == old(peers)[p := old(peers[p]).(status := status)]
    {
      peers := peers[p := peers[p].(status := status)];
    }

    method JN(p: PeerId, session: Uuid, stamp: Time)
      requires !env.panicked
      modifies this, env
      ensures Matches(View(), Do(old(View()), On(p, RecvJN(session, stamp))))
    {
      if p !in peers {
        env.Panic();
        return;
      }
      var status := peers[p].status;
      if status.Cc? {
        peers := peers[p := peers[p].(linked := true, session := session, stamp := stamp, status := Jn)];
        env.Push(SessionRequest(id.lsid, p, session));
      } else if status.Jt? {
        assert Put(peers, p, Get(peers, p)) == peers;
        env.TrySend(p, MJDN(session, CODE_INVALID_STATES));
      } else if status.DcJt? || status.DcJni? {
        env.Panic();
      } else {
        var updated := TryUpdateSessionID(p, session, stamp);
        if env.panicked { return; }
        if updated {
          SetStatus(p, Jn);
          env.Push(SessionRequest(id.lsid, p, session));
        } else {
          assert Put(peers, p, Get(peers, p)) == peers;
          env.TrySend(p, MJDN(session, CODE_DUPLICATE));
        }
      }
    }

    /** JNI_MEMS. */
    method IntroduceMember(m: Member)
      requires !env.panicked
      modifies this, env
      ensures Matches(View(), DoAll(old(View()), PlanIntroductions(id.local, [m])))
    {
      OneIntroduction(id.local, m);
      if m.peer == id.local { return; }
      DoAllOne(View(), On(m.peer, Introduce(m.session, m.stamp)));
      IntroduceOther(m);
    }

    /** Introduction of a member other than the local host. */
    method IntroduceOther(m: Member)
      requires !env.panicked
      modifies this, env
      ensures Matches(View(), Applied(old(View()), m.peer, OnIntroduce(id, m.peer, Get(old(peers), m.peer), m.session, m.stamp)))
    {
      ghost var st := View();
      var p := m.peer;
      if p !in peers {
        peers := peers[p := Entry(false, m.session, m.stamp, DcJni, false, 0)];
        env.Push(PeerRegister(p));
        env.Push(ConnectRequest(p));
        assert env.events == st.events + [PeerRegister(p), ConnectRequest(p)];
        return;
      }
      match peers[p].status
      case DcJt => env.Panic();
      case Jt => env.Panic();
      case DcJni =>
        assert Put(peers, p, Get(peers, p)) == peers;
        if peers[p].stamp < m.stamp {
          peers := peers[p := peers[p].(session := m.session, stamp := m.stamp)];
        }
      case Cc =>
        peers := peers[p := peers[p].(session := m.session, stamp := m.stamp, status := Jni)];
        env.Push(SessionRequest(id.lsid, p, m.session));
      case RmemNjni =>
        var updated := TryUpdateSessionID(p, m.session, m.stamp);
        if env.panicked { return; }
        if updated {
          SetStatus(p, Jni);
          env.Push(SessionRequest(id.lsid, p, m.session));
          return;
        }
        assert Put(peers, p, Get(peers, p)) == peers;
        if peers[p].session == m.session {
          SetStatus(p, Rmem);
          env.Push(SessionRequest(id.lsid, p, m.session));
        }
      case _ =>
        var updated := TryUpdateSessionID(p, m.session, m.stamp);
        if env.panicked { return; }
        if updated {
          SetStatus(p, Jni);
          env.Push(SessionRequest(id.lsid, p, m.session));
        } else {
          assert Put(peers, p, Get(peers, p)) == peers;
        }
    }

    method JOK(p: PeerId, session: Uuid, stamp: Time, url: string, members: seq<Member>)
      requires !env.panicked
      modifies this, env
      ensures Matches(View(), DoAll(old(View()), PlanJOK(id, old(peers), p, session, stamp, url, members)))
    {
      ghost var st := View();
      ghost var head := On(p, RecvJOK(session, stamp, url));
      DoAllOne(st, head);
      if id.joinHash == p && p !in peers {
        env.Panic();
        assert PlanJOK(id, st.peers, p, session, stamp, url, members) == [head];
        return;
      }
      if id.joinHash != p || !peers[p].status.Jt? {
        assert Put(peers, p, Get(peers, p)) == peers;
        env.TrySend(p, MRST(id.lsid, session));
        assert PlanJOK(id, st.peers, p, session, stamp, url, members) == [head];
        return;
      }
      peers := peers[p := peers[p].(linked := true, session := session, stamp := stamp)];
      env.Push(JoinSuccess(id.lsid, url));
      env.Push(SessionRequest(id.lsid, p, session));
      peers := peers[p := peers[p].(status := Rmem, sjnp := true)];
      assert env.events == st.events + [JoinSuccess(id.lsid, url), SessionRequest(id.lsid, p, session)];
      ghost var st1 := Do(st, head);
      assert View() == st1;
      DoAllAppend(st, [head], PlanIntroductions(id.local, members));
      IntroduceAll(members);
    }

    /** The loop over the listed members. */
    method IntroduceAll(members: seq<Member>)
      requires !env.panicked
      modifies this, env
      ensures Matches(View(), DoAll(old(View()), PlanIntroductions(id.local, members)))
    {
      ghost var st := View();
      var i := 0;
      while i < |members|
        invariant i <= |members| && !env.panicked
        invariant View() == DoAll(st, PlanIntroductions(id.local, members[..i]))
      {
        OneMoreIntroduction(st, id.local, members, i);
        IntroduceMember(members[i]);
        i := i + 1;
        if env.panicked {
          IntroductionsFault(st, id.local, members, i);
          return;
        }
      }
      assert members[..|members|] == members;
    }

    method JDN(p: PeerId, code: int)
      requires !env.panicked
      modifies this, env
      ensures Matches(View(), Do(old(View()), On(p, RecvJDN(code))))
    {
      assert Put(peers, p, Get(peers, p)) == peers;
      if id.joinHash != p { return; }
      if p !in peers {
        env.Panic();
        return;
      }
      if !peers[p].status.Jt? { return; }
      env.Push(JoinFail(id.lsid, code));
      Clear(p);
    }

    method JNI(p: PeerId, session: Uuid, member: Member)
      requires !env.panicked
      modifies this, env
      ensures Matches(View(), DoAll(old(View()), PlanJNI(id, old(peers), p, session, member)))
    {
      ghost var st, head := View(), On(p, Vouch(session));
      ghost var rest := if IsProper(peers, p, session) then PlanIntroductions(id.local, [member]) else [];
      DoAllAppend(st, [head], rest);
      DoAllOne(st, head);
      var proper := IsProperMemberOrReset(p, session);
      if env.panicked {
        FaultMonotone(Do(st, head), rest);
        return;
      }
      if !proper { return; }
      IntroduceMember(member);
    }

    method MEM(p: PeerId, session: Uuid, stamp: Time)
      requires !env.panicked
      modifies this, env
      ensures Matches(View(), Do(old(View()), On(p, RecvMEM(session, stamp))))
    {
      if p !in peers {
        env.Panic();
        return;
      }
      assert Put(peers, p, Get(peers, p)) == peers;
      match peers[p].status
      case Cc => peers := peers[p := peers[p].(linked := true, session := session, stamp := stamp, status := RmemNjni)];
      case Jt => ClearStates(p);
      case Jni =>
        var updated := TryUpdateSessionID(p, session, stamp);
        if env.panicked { return; }
        if updated {
          SetStatus(p, RmemNjni);
          return;
        }
        if peers[p].session == session { SetStatus(p, Rmem); }
      case Tmem =>
        var updated := TryUpdateSessionID(p, session, stamp);
        if env.panicked { return; }
        if updated {
          SetStatus(p, RmemNjni);
          return;
        }
        if peers[p].session == session {
          SetStatus(p, Mem);
          env.Push(SessionReady(id.lsid, p, session));
        }
      case DcJt => env.Panic();
      case DcJni => env.Panic();
      case _ =>
        var updated := TryUpdateSessionID(p, session, stamp);
        if env.panicked { return; }
        if updated { SetStatus(p, RmemNjni); }
    }

    /** SJN_MEMS. */
    method GossipMember(origin: SessionRef, r: SessionRef)
      requires !env.panicked
      modifies this, env
      ensures View() == DoAll(old(View()), PlanGossip(id, origin, [r])) && !env.panicked
    {
      ghost var st := View();
      assert [r][..0] == [];
      if r.peer == id.local {
        assert PlanGossip(id, origin, [r]) == [];
        return;
      }
      assert PlanGossip(id, origin, [r]) == [On(r.peer, Gossip(origin, r.session))];
      DoAllOne(st, On(r.peer, Gossip(origin, r.session)));
      assert Put(peers, r.peer, Get(peers, r.peer)) == peers;
      if r.peer in peers && peers[r.peer].status.Mem? && peers[r.peer].session == r.session {
        peers := peers[r.peer := peers[r.peer].(sjnc := peers[r.peer].sjnc + 1)];
        return;
      }
      env.TrySend(origin.peer, MCRR(id.lsid, origin.session, [r]));
    }

    method SJN(p: PeerId, session: Uuid, refs: seq<SessionRef>)
      requires !env.panicked
      modifies this, env
      ensures Matches(View(), DoAll(old(View()), PlanSJN(id, old(peers), p, session, refs)))
    {
      ghost var st, head, origin := View(), On(p, Vouch(session)), SessionRef(p, session);
      ghost var rest := if IsProper(peers, p, session) then PlanGossip(id, origin, refs) else [];
      DoAllAppend(st, [head], rest);
      DoAllOne(st, head);
      var proper := IsProperMemberOrReset(p, session);
      if env.panicked {
        FaultMonotone(Do(st, head), rest);
        return;
      }
      if !proper { return; }
      GossipAll(SessionRef(p, session), refs);
    }

    method GossipAll(origin: SessionRef, refs: seq<SessionRef>)
      requires !env.panicked
      modifies this, env
      ensures View() == DoAll(old(View()), PlanGossip(id, origin, refs)) && !env.panicked
    {
      ghost var st := View();
      var i := 0;
      while i < |refs|
        invariant i <= |refs| && !env.panicked
        invariant View() == DoAll(st, PlanGossip(id, origin, refs[..i]))
      {
        ghost var pre, one := PlanGossip(id, origin, refs[..i]), PlanGossip(id, origin, [refs[i]]);
        assert refs[..i + 1][..i] == refs[..i] && [refs[i]][..0] == [];
        assert PlanGossip(id, origin, refs[..i + 1]) == pre + one;
        DoAllAppend(st, pre, one);
        GossipMember(origin, refs[i]);
        i := i + 1;
      }
      assert refs[..|refs|] == refs;
    }

    /** CRR_MEMS. */
    method RelayMember(source: Member, r: SessionRef)
      requires !env.panicked
      modifies this, env
      ensures Matches(View(), DoAll(old(View()), PlanRelay(id, source, [r])))
      ensures peers == old(peers)
    {
      ghost var st := View();
      assert [r][..0] == [];
      if r.peer == id.local {
        assert PlanRelay(id, source, [r]) == [];
        return;
      }
      assert PlanRelay(id, source, [r]) == [On(r.peer, Relay(source, r.session))];
      DoAllOne(st, On(r.peer, Relay(source, r.session)));
      assert Put(peers, r.peer, Get(peers, r.peer)) == peers;
      if r.peer in peers && peers[r.peer].session == r.session {
        if !peers[r.peer].linked {
          env.Panic();
          return;
        }
        env.TrySend(source.peer, MJNI(id.lsid, source.session, MemberOf(r.peer, peers[r.peer])));
        env.TrySend(r.peer, MJNI(id.lsid, peers[r.peer].session, source));
        assert env.out == st.out + [Send(source.peer, MJNI(id.lsid, source.session, MemberOf(r.peer, peers[r.peer]))),
                                    Send(r.peer, MJNI(id.lsid, peers[r.peer].session, source))];
      }
    }

    method CRR(p: PeerId, session: Uuid, refs: seq<SessionRef>)
      requires !env.panicked
      modifies this, env
      ensures Matches(View(), DoAll(old(View()), PlanCRR(id, old(peers), p, session, refs)))
    {
      ghost var st, head := View(), On(p, Vouch(session));
      ghost var rest := if IsProper(peers, p, session) then PlanRelay(id, MemberOf(p, peers[p]), refs) else [];
      DoAllAppend(st, [head], rest);
      DoAllOne(st, head);
      ghost var before := peers;
      var proper := IsProperMemberOrReset(p, session);
      if env.panicked {
        FaultMonotone(Do(st, head), rest);
        return;
      }
      if !proper { return; }
      assert Put(before, p, Get(before, p)) == before;
      assert peers == before;
      var source := MemberOf(p, peers[p]);
      RelayAll(source, refs);
    }

    method RelayAll(source: Member, refs: seq<SessionRef>)
      requires !env.panicked
      modifies this, env
      ensures Matches(View(), DoAll(old(View()), PlanRelay(id, source, refs)))
    {
      ghost var st := View();
      var i := 0;
      while i < |refs|
        invariant i <= |refs| && !env.panicked
        invariant View() == DoAll(st, PlanRelay(id, source, refs[..i]))
      {
        ghost var pre, one := PlanRelay(id, source, refs[..i]), PlanRelay(id, source, [refs[i]]);
        assert refs[..i + 1][..i] == refs[..i] && [refs[i]][..0] == [];
        assert PlanRelay(id, source, refs[..i + 1]) == pre + one;
        DoAllAppend(st, pre, one);
        RelayMember(source, refs[i]);
        i := i + 1;
        if env.panicked {
          RelaySplit(id, source, refs, i);
          ghost var now := PlanRelay(id, source, refs[..i]);
          DoAllAppend(st, now, PlanRelay(id, source, refs)[|now|..]);
          FaultMonotone(DoAll(st, now), PlanRelay(id, source, refs)[|now|..]);
          return;
        }
      }
      assert refs[..|refs|] == refs;
    }

    /** SOA and SOD differ only in the event they push. */
    method Objects(p: PeerId, session: Uuid, ev: Event)
      requires !env.panicked
      modifies this, env
      ensures Matches(View(), Applied(old(View()), p, OnObjects(id, p, Get(old(peers), p), session, ev)))
    {
      if p !in peers {
        env.Panic();
        return;
      }
      assert Put(peers, p, Get(peers, p)) == peers;
      if peers[p].session != session {
        env.TrySend(p, MRST(id.lsid, session));
        return;
      }
      if peers[p].status.Mem? { env.Push(ev); }
    }

    method SOA(p: PeerId, session: Uuid, objects: seq<ObjectId>)
      requires !env.panicked
      modifies this, env
      ensures Matches(View(), Do(old(View()), On(p, RecvSOA(session, objects))))
    {
      Objects(p, session, ObjectAppend(id.lsid, p, session, objects));
    }

    method SOD(p: PeerId, session: Uuid, objects: seq<ObjectId>)
      requires !env.panicked
      modifies this, env
      ensures Matches(View(), Do(old(View()), On(p, RecvSOD(session, objects))))
    {
      Objects(p, session, ObjectDelete(id.lsid, p, session, objects));
    }

    method RST(p: PeerId)
      requires !env.panicked
      modifies this, env
      ensures Matches(View(), Do(old(View()), On(p, RecvRST)))
    {
      if p !in peers || !peers[p].linked {
        env.Panic();
        return;
      }
      ClearStates(p);
    }

    method DeclineSession(p: PeerId, session: Uuid)
      requires !env.panicked
      modifies this, env
      ensures Matches(View(), Do(old(View()), On(p, Decline(session))))
    {
      assert Put(peers, p, Get(peers, p)) == peers;
      if p !in peers { return; }
      if peers[p].session == session { ClearStates(p); }
    }

    method RemovePeer(p: PeerId)
      requires !env.panicked
      modifies this, env
      ensures Matches(View(), Do(old(View()), On(p, Remove)))
    {
      if p !in peers {
        env.Panic();
        return;
      }
      ghost var st := View();
      ClearStates(p);
      peers := peers - {p};
      assert !env.panicked ==> peers == st.peers - {p};
    }

    /** Accepting a joiner: tell every member about it, and the joiner about every member. */
    method AdmitJoiner(p: PeerId, order: seq<PeerId>)
      requires !env.panicked && p in peers
      modifies this, env
      ensures View() == Admitted(old(View()), p, order)
    {
      var info := peers[p];
      var members: seq<Member> := [];
      var i := 0;
      while i < |order|
        invariant i <= |order| && peers == old(peers) && env.events == old(env.events) && !env.panicked
        invariant members == Roster(peers, order[..i])
        invariant env.out == old(env.out) + RosterSends(id, peers, order[..i], MemberOf(p, info))
      {
        var q := order[i];
        assert order[..i + 1][..i] == order[..i];
        if q in peers && peers[q].status.Mem? {
          members := members + [MemberOf(q, peers[q])];
          env.TrySend(q, MJNI(id.lsid, peers[q].session, MemberOf(p, info)));
        }
        i := i + 1;
      }
      assert order[..|order|] == order;
      env.TrySend(p, MJOK(id.lsid, info.session, TruncMs(id.stamp), id.url, members));
      SetStatus(p, Tmem);
    }

    method AcceptSession(p: PeerId, session: Uuid) returns (order: seq<PeerId>)
      requires !env.panicked
      modifies this, env
      ensures Enumerates(order, old(peers).Keys)
      ensures Matches(View(), DoAll(old(View()), PlanAccept(id, old(peers), p, session, order)))
    {
      ghost var st := View();
      order := RangeOver(peers.Keys);
      DoAllOne(st, On(p, Accept(session, [])));
      assert Put(peers, p, Get(peers, p)) == peers;
      if p !in peers { return; }
      match peers[p].status
      case DcJt => env.Panic();
      case Jt => env.Panic();
      case Jn =>
        if peers[p].session != session { return; }
        AdmittedByPlan(st, p, order);
        AdmitJoiner(p, order);
      case Jni =>
        if peers[p].session != session { return; }
        env.TrySend(p, MMEM(id.lsid, session, TruncMs(id.stamp)));
        SetStatus(p, Tmem);
      case Rmem =>
        if peers[p].session != session { return; }
        env.TrySend(p, MMEM(id.lsid, session, TruncMs(id.stamp)));
        env.Push(SessionReady(id.lsid, p, session));
        SetStatus(p, Mem);
      case _ =>
    }

    /** The first loop of TimerExpire: collect and count the peers to list. */
    method CollectListed(now: Time, order: seq<PeerId>) returns (refs: seq<SessionRef>)
      requires forall i :: 0 <= i < |order| ==> order[i] in peers
      requires Distinct(order)
      modifies this
      ensures refs == Listing(old(peers), order, now) && peers == Ticked(old(peers), order, now)
    {
      ghost var was := peers;
      refs := [];
      var i := 0;
      assert peers == Ticked(peers, [], now);
      while i < |order|
        invariant i <= |order| && ListedUpTo(was, order, i, now, refs, peers)
      {
        ListedMore(was, order, i, now, refs, peers);
        var more := ListOne(now, order[i]);
        refs := refs + more;
        i := i + 1;
      }
      assert order[..|order|] == order;
    }

    /** The body of that loop. */
    method ListOne(now: Time, q: PeerId) returns (refs: seq<SessionRef>)
      requires q in peers
      modifies this
      ensures (refs, peers) == Counted(old(peers), q, now)
    {
      refs := [];
      if peers[q].status.Mem? && now - peers[q].stamp >= SECOND && !peers[q].sjnp && peers[q].sjnc <= 3 {
        refs := [SessionRef(q, peers[q].session)];
        peers := peers[q := peers[q].(sjnc := peers[q].sjnc + 1)];
      }
    }

    /** The second loop: count the members and send them the list. */
    method SpreadList(refs: seq<SessionRef>, order: seq<PeerId>) returns (count: nat)
      requires forall i :: 0 <= i < |order| ==> order[i] in peers
      modifies env`out
      ensures count == MemberCount(peers, order)
      ensures env.out == old(env.out) + SpreadSends(id, peers, order, refs)
    {
      count := 0;
      var i := 0;
      while i < |order|
        invariant i <= |order|
        invariant count == MemberCount(peers, order[..i])
        invariant env.out == old(env.out) + SpreadSends(id, peers, order[..i], refs)
      {
        var q := order[i];
        assert order[..i + 1][..i] == order[..i];
        if peers[q].status.Mem? {
          count := count + 1;
          if |refs| != 0 {
            env.TrySend(q, MSJN(id.lsid, peers[q].session, refs));
          }
        }
        i := i + 1;
      }
      assert order[..|order|] == order;
    }

    /** The body of TimerExpire, in closed form; `seed` stands for the random generator. */
    method Tick(now: Time, seed: nat) returns (order: seq<PeerId>, order2: seq<PeerId>)
      requires !env.panicked
      modifies this, env
      ensures Enumerates(order, old(peers).Keys) && Enumerates(order2, old(peers).Keys)
      ensures View() == AfterTick(old(View()), now, order, order2, seed) && !env.panicked
    {
      order := RangeOver(peers.Keys);
      var refs := CollectListed(now, order);
      order2 := RangeOver(peers.Keys);
      var count := SpreadList(refs, order2);
      SameCensus(id, old(peers), order, now, order2, refs);
      env.Push(TimerRequest(id.lsid, Delay(seed, count)));
    }

    method TimerExpire(now: Time, seed: nat) returns (order: seq<PeerId>, order2: seq<PeerId>)
      requires !env.panicked
      modifies this, env
      ensures Enumerates(order, old(peers).Keys) && Enumerates(order2, old(peers).Keys)
      ensures View() == DoAll(old(View()), PlanTimer(id, old(peers), now, order, order2, seed)) && !env.panicked
    {
      order, order2 := Tick(now, seed);
      TickByPlan(old(View()), now, order, order2, seed);
    }

    /** What Close does for one entry. */
    method ShutEntry(p: PeerId)
      requires p in peers
      modifies env`events, env`out
      ensures env.events == old(env.events) + OnShut(id, p, peers[p]).events
      ensures env.out == old(env.out) + OnShut(id, p, peers[p]).sends
    {
      var info := peers[p];
      match info.status {
        case DcJt =>
        case DcJni =>
        case Cc =>
        case Jt =>
          env.TrySend(p, MRST(id.lsid, info.session));
          env.Push(JoinFail(id.lsid, CODE_CANCELED));
        case Mem =>
          env.TrySend(p, MRST(id.lsid, info.session));
          env.Push(SessionClose(id.lsid, p, info.session));
        case _ => env.TrySend(p, MRST(id.lsid, info.session));
      }
    }

    /** The world object is dropped afterwards, so only the events and messages matter. */
    method Close() returns (order: seq<PeerId>)
      requires !env.panicked
      modifies env
      ensures Enumerates(order, peers.Keys) && !env.panicked
      ensures var spec := DoAll(old(View()), PlanClose(id, order)); env.events == spec.events && env.out == spec.out && !spec.fault
    {
      order := RangeOver(peers.Keys);
      ShutEntries(order);
      ShutDone(old(View()), order, env.events, env.out);
      env.Push(WorldLeave(id.lsid));
    }

    method ShutEntries(order: seq<PeerId>)
      requires !env.panicked && Distinct(order)
      requires forall i :: 0 <= i < |order| ==> order[i] in peers
      modifies env`events, env`out
      ensures ShutUpTo(old(View()), order, |order|, env.events, env.out)
    {
      ghost var st := View();
      var i := 0;
      while i < |order|
        invariant i <= |order|
        invariant ShutUpTo(st, order, i, env.events, env.out)
      {
        ShutMore(st, order, i, env.events, env.out);
        ShutEntry(order[i]);
        i := i + 1;
      }
    }
  }

  predicate Distinct(order: seq<PeerId>) {
    forall i, j :: 0 <= i < j < |order| ==> order[i] != order[j]
  }

  lemma NextOf(order: seq<PeerId>, i: nat)
    requires Distinct(order) && i < |order|
    ensures order[..i + 1] == order[..i] + [order[i]] && order[..i + 1][..i] == order[..i] && order[i] !in order[..i]
  {
  }

  // ---- the loops, one round at a time ----

  ghost predicate ShutUpTo(st: State, order: seq<PeerId>, i: nat, events: seq<Event>, out: seq<Send>) {
    && i <= |order|
    && var s := DoAll(st, PlanShut(order[..i]));
    && events == s.events && out == s.out && !s.fault && s.id == st.id
    && (forall j :: i <= j < |order| ==> order[j] in s.peers && order[j] in st.peers && s.peers[order[j]] == st.peers[order[j]])
  }

  lemma ShutMore(st: State, order: seq<PeerId>, i: nat, events: seq<Event>, out: seq<Send>)
    requires ShutUpTo(st, order, i, events, out) && i < |order| && Distinct(order)
    ensures order[i] in st.peers
    ensures var o := Step(st.id, order[i], Some(st.peers[order[i]]), Shut); ShutUpTo(st, order, i + 1, events + o.events, out + o.sends)
  {
    var p := order[i];
    var s := DoAll(st, PlanShut(order[..i]));
    assert order[..i + 1][..i] == order[..i];
    assert PlanShut(order[..i + 1])[..i] == PlanShut(order[..i]);
    assert DoAll(st, PlanShut(order[..i + 1])) == Do(s, On(p, Shut));
  }

  lemma ShutDone(st: State, order: seq<PeerId>, events: seq<Event>, out: seq<Send>)
    requires ShutUpTo(st, order, |order|, events, out)
    ensures var spec := DoAll(st, PlanClose(st.id, order));
            spec.events == events + [WorldLeave(st.id.lsid)] && spec.out == out && !spec.fault
  {
    assert order[..|order|] == order;
    DoAllAppend(st, PlanShut(order), [Emit(WorldLeave(st.id.lsid))]);
    DoAllOne(DoAll(st, PlanShut(order)), Emit(WorldLeave(st.id.lsid)));
  }

  /** The share of one peer in the counting loop: what is listed for it, and the peer map afterwards. */
  function Counted(peers: Peers, q: PeerId, now: Time): (seq<SessionRef>, Peers)
    requires q in peers
  {
    if Listable(peers, q, now) then ([SessionRef(q, peers[q].session)], peers[q := peers[q].(sjnc := peers[q].sjnc + 1)])
    else ([], peers)
  }

  ghost predicate ListedUpTo(was: Peers, order: seq<PeerId>, i: nat, now: Time, refs: seq<SessionRef>, peers: Peers) {
    i <= |order| && refs == Listing(was, order[..i], now) && peers == Ticked(was, order[..i], now)
  }

  lemma ListedMore(was: Peers, order: seq<PeerId>, i: nat, now: Time, refs: seq<SessionRef>, peers: Peers)
    requires ListedUpTo(was, order, i, now, refs, peers) && i < |order| && Distinct(order) && order[i] in was
    ensures order[i] in peers
    ensures var (more, counted) := Counted(peers, order[i], now); ListedUpTo(was, order, i + 1, now, refs + more, counted)
  {
    NextOf(order, i);
    TickMore(was, order[..i], order[i], now);
    ListMore(was, order[..i], order[i], now);
  }

  lemma TickMore(peers: Peers, walked: seq<PeerId>, q: PeerId, now: Time)
    requires q in peers && q !in walked
    ensures var t := Ticked(peers, walked, now);
            && q in t && t[q] == peers[q]
            && Ticked(peers, walked + [q], now) == if Listable(peers, q, now) then t[q := peers[q].(sjnc := peers[q].sjnc + 1)] else t
  {
    var t := Ticked(peers, walked, now);
    assert Ticked(peers, walked + [q], now) == if Listable(peers, q, now) then t[q := peers[q].(sjnc := peers[q].sjnc + 1)] else t;
  }

  lemma ListMore(peers: Peers, walked: seq<PeerId>, q: PeerId, now: Time)
    requires q in peers
    ensures Listing(peers, walked + [q], now) ==
            Listing(peers, walked, now) + if Listable(peers, q, now) then [SessionRef(q, peers[q].session)] else []
  {
    assert (walked + [q])[..|walked|] == walked;
  }

  /** Counting does not change who is a member. */
  lemma {:induction false} SameCensus(id: WorldId, peers: Peers, order: seq<PeerId>, now: Time, order2: seq<PeerId>, refs: seq<SessionRef>)
    ensures MemberCount(Ticked(peers, order, now), order2) == MemberCount(peers, order2)
    ensures SpreadSends(id, Ticked(peers, order, now), order2, refs) == SpreadSends(id, peers, order2, refs)
    decreases |order2|
  {
    if order2 != [] { SameCensus(id, peers, order, now, order2[..|order2| - 1], refs); }
  }

  lemma {:induction false} RelaySplit(id: WorldId, source: Member, refs: seq<SessionRef>, k: nat)
    requires k <= |refs|
    ensures var pre := PlanRelay(id, source, refs[..k]);
            var all := PlanRelay(id, source, refs);
            |pre| <= |all| && all == pre + all[|pre|..]
    decreases |refs|
  {
    if k == |refs| {
      assert refs[..k] == refs;
    } else {
      assert refs[..|refs| - 1][..k] == refs[..k];
      RelaySplit(id, source, refs[..|refs| - 1], k);
    }
  }

  lemma OneMoreIntroduction(st: State, local: PeerId, members: seq<Member>, i: nat)
    requires i < |members|
    ensures DoAll(st, PlanIntroductions(local, members[..i + 1])) ==
            DoAll(DoAll(st, PlanIntroductions(local, members[..i])), PlanIntroductions(local, [members[i]]))
  {
    var pre, one := PlanIntroductions(local, members[..i]), PlanIntroductions(local, [members[i]]);
    var more := members[..i + 1];
    assert |more| == i + 1 && more[..i] == members[..i] && more[i] == members[i];
    OneIntroduction(local, members[i]);
    assert PlanIntroductions(local, more) == pre + one;
    DoAllAppend(st, pre, one);
  }

  lemma IntroductionsFault(st: State, local: PeerId, members: seq<Member>, k: nat)
    requires k <= |members|
    ensures DoAll(st, PlanIntroductions(local, members[..k])).fault ==> DoAll(st, PlanIntroductions(local, members)).fault
  {
    IntroductionsSplit(local, members, k);
    var pre, all := PlanIntroductions(local, members[..k]), PlanIntroductions(local, members);
    DoAllAppend(st, pre, all[|pre|..]);
    FaultMonotone(DoAll(st, pre), all[|pre|..]);
  }

  lemma {:induction false} IntroductionsSplit(local: PeerId, members: seq<Member>, k: nat)
    requires k <= |members|
    ensures var pre := PlanIntroductions(local, members[..k]);
            var all := PlanIntroductions(local, members);
            |pre| <= |all| && all == pre + all[|pre|..]
    decreases |members|
  {
    if k == |members| {
      assert members[..k] == members;
    } else {
      assert members[..|members| - 1][..k] == members[..k];
      IntroductionsSplit(local, members[..|members| - 1], k);
    }
  }
}
