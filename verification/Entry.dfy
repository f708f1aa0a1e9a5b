/**
 One peer's entry in one world: the ten-state machine of and/world.go, as a
 table indexed by what happens to the entry.

 `None` is a peer the world does not know.  An outcome lists the events pushed
 to the application, the messages sent and whether the Go code panics (an
 explicit panic or the use of a nil entry or a nil Peer).
 */
module PeerEntry {
  import opened Prelude
  import opened Abyss

  datatype Status = DcJt | DcJni | Cc | Jt | Jn | RmemNjni | Jni | Rmem | Tmem | Mem

  /** `linked` says that the Peer field is not nil. */
  datatype Entry = Entry(linked: bool, session: Uuid, stamp: Time, status: Status, sjnp: bool, sjnc: nat)

  /** The fields of a world that never change. */
  datatype WorldId = WorldId(local: PeerId, lsid: Uuid, stamp: Time, joinHash: PeerId, joinPath: string, url: string)

  const IDLE := Entry(true, NIL, ZERO_TIME, Cc, false, 0)

  datatype Op =
    | Connect                                          // PeerConnected
    | RecvJN(session: Uuid, stamp: Time)
    | RecvJOK(session: Uuid, stamp: Time, url: string)
    | RecvJDN(code: int)
    | Vouch(session: Uuid)                             // IsProperMemberOrReset
    | Introduce(session: Uuid, stamp: Time)            // JNI_MEMS
    | RecvMEM(session: Uuid, stamp: Time)
    | Gossip(origin: SessionRef, session: Uuid)        // SJN_MEMS
    | Relay(source: Member, session: Uuid)             // CRR_MEMS
    | RecvSOA(session: Uuid, objects: seq<ObjectId>)
    | RecvSOD(session: Uuid, objects: seq<ObjectId>)
    | RecvRST
    | Accept(session: Uuid, members: seq<Member>)
    | Decline(session: Uuid)
    | Count                                            // listed in an outgoing SJN
    | Tell(msg: Msg)                                   // message to the peer, entry untouched
    | Remove                                           // RemovePeer
    | Shut                                             // the entry's share of Close

  datatype Outcome = Outcome(entry: Option<Entry>, events: seq<Event>, sends: seq<Send>, fault: bool)

  function Keep(e: Option<Entry>): Outcome {
    Outcome(e, [], [], false)
  }

  function Crash(e: Option<Entry>): Outcome {
    Outcome(e, [], [], true)
  }

  predicate Disconnected(s: Status) {
    s.DcJt? || s.DcJni?
  }

  function MemberOf(p: PeerId, e: Entry): Member {
    Member(p, e.session, TruncMs(e.stamp))
  }

  /** ClearStates. */
  function Cleared(w: WorldId, p: PeerId, e: Entry): Outcome {
    if Disconnected(e.status) then Keep(None)
    else if !e.linked then Crash(Some(e))
    else match e.status
      case Cc => Keep(Some(IDLE))
      case Jt => Outcome(Some(IDLE), [JoinFail(w.lsid, CODE_INVALID_STATES)], [Send(p, MRST(w.lsid, e.session))], false)
      case Jn => Outcome(Some(IDLE), [], [Send(p, MJDN(e.session, CODE_INVALID_STATES))], false)
      case Mem => Outcome(Some(IDLE), [SessionClose(w.lsid, p, e.session)], [Send(p, MRST(w.lsid, e.session))], false)
      case _ => Outcome(Some(IDLE), [], [Send(p, MRST(w.lsid, e.session))], false)
  }

  /** A successful TryUpdateSessionID: the entry is cleared and takes over the newer session. */
  function Renewed(w: WorldId, p: PeerId, e: Entry, session: Uuid, stamp: Time, status: Status, request: bool): Outcome {
    var o := Cleared(w, p, e);
    if o.fault || o.entry.None? then Crash(Some(e))
    else Outcome(Some(o.entry.value.(session := session, stamp := stamp, status := status)),
                 o.events + (if request then [SessionRequest(w.lsid, p, session)] else []), o.sends, false)
  }

  function OnConnect(w: WorldId, p: PeerId, e: Option<Entry>): Outcome {
    match e
    case None => Keep(Some(IDLE))
    case Some(x) =>
      if x.status.DcJt? then
        Outcome(Some(x.(linked := true, status := Jt)), [], [Send(p, MJN(w.lsid, w.joinPath, TruncMs(w.stamp)))], false)
      else if x.status.DcJni? then
        Outcome(Some(x.(linked := true, status := Jni)), [SessionRequest(w.lsid, p, x.session)], [], false)
      else Crash(e)
  }

  function OnJN(w: WorldId, p: PeerId, e: Option<Entry>, session: Uuid, stamp: Time): Outcome {
    if e.None? || Disconnected(e.value.status) then Crash(e)
    else if e.value.status.Cc? then
      Outcome(Some(e.value.(linked := true, session := session, stamp := stamp, status := Jn)),
              [SessionRequest(w.lsid, p, session)], [], false)
    else if e.value.status.Jt? then Outcome(e, [], [Send(p, MJDN(session, CODE_INVALID_STATES))], false)
    else if e.value.stamp < stamp then Renewed(w, p, e.value, session, stamp, Jn, true)
    else Outcome(e, [], [Send(p, MJDN(session, CODE_DUPLICATE))], false)
  }

  /** The sender's own entry; the caller introduces the listed members afterwards. */
  function OnJOK(w: WorldId, p: PeerId, e: Option<Entry>, session: Uuid, stamp: Time, url: string): Outcome {
    if w.joinHash != p then Outcome(e, [], [Send(p, MRST(w.lsid, session))], false)
    else if e.None? then Crash(e)
    else if !e.value.status.Jt? then Outcome(e, [], [Send(p, MRST(w.lsid, session))], false)
    else Outcome(Some(e.value.(linked := true, session := session, stamp := stamp, status := Rmem, sjnp := true)),
                 [JoinSuccess(w.lsid, url), SessionRequest(w.lsid, p, session)], [], false)
  }

  function OnJDN(w: WorldId, p: PeerId, e: Option<Entry>, code: int): Outcome {
    if w.joinHash != p then Keep(e)
    else if e.None? then Crash(e)
    else if !e.value.status.Jt? then Keep(e)
    else if !e.value.linked then Crash(e)
    else Outcome(Some(IDLE), [JoinFail(w.lsid, code)], [], false)
  }

  function OnVouch(w: WorldId, p: PeerId, e: Option<Entry>, session: Uuid): Outcome {
    if e.None? || Disconnected(e.value.status) then Crash(e)
    else if e.value.status.Mem? && e.value.session == session then Keep(e)
    else Cleared(w, p, e.value)
  }

  function OnIntroduce(w: WorldId, p: PeerId, e: Option<Entry>, session: Uuid, stamp: Time): Outcome {
    if e.None? then
      Outcome(Some(Entry(false, session, stamp, DcJni, false, 0)), [PeerRegister(p), ConnectRequest(p)], [], false)
    else
      var x := e.value;
      match x.status
      case DcJt => Crash(e)
      case Jt => Crash(e)
      case DcJni => Keep(Some(if x.stamp < stamp then x.(session := session, stamp := stamp) else x))
      case Cc => Outcome(Some(x.(session := session, stamp := stamp, status := Jni)), [SessionRequest(w.lsid, p, session)], [], false)
      case RmemNjni =>
        if x.stamp < stamp then Renewed(w, p, x, session, stamp, Jni, true)
        else if x.session == session then Outcome(Some(x.(status := Rmem)), [SessionRequest(w.lsid, p, session)], [], false)
        else Keep(e)
      case _ => if x.stamp < stamp then Renewed(w, p, x, session, stamp, Jni, true) else Keep(e)
  }

  function OnMEM(w: WorldId, p: PeerId, e: Option<Entry>, session: Uuid, stamp: Time): Outcome {
    if e.None? || Disconnected(e.value.status) then Crash(e)
    else
      var x := e.value;
      if x.status.Cc? then Keep(Some(x.(linked := true, session := session, stamp := stamp, status := RmemNjni)))
      else if x.status.Jt? then Cleared(w, p, x)
      else if x.stamp < stamp then Renewed(w, p, x, session, stamp, RmemNjni, false)
      else if x.status.Jni? && x.session == session then Keep(Some(x.(status := Rmem)))
      else if x.status.Tmem? && x.session == session then
        Outcome(Some(x.(status := Mem)), [SessionReady(w.lsid, p, session)], [], false)
      else Keep(e)
  }

  function OnGossip(w: WorldId, e: Option<Entry>, p: PeerId, origin: SessionRef, session: Uuid): Outcome {
    if e.Some? && e.value.status.Mem? && e.value.session == session then Keep(Some(e.value.(sjnc := e.value.sjnc + 1)))
    else Outcome(e, [], [Send(origin.peer, MCRR(w.lsid, origin.session, [SessionRef(p, session)]))], false)
  }

  function OnRelay(w: WorldId, p: PeerId, e: Option<Entry>, source: Member, session: Uuid): Outcome {
    if e.None? || e.value.session != session then Keep(e)
    else if !e.value.linked then Crash(e)
    else Outcome(e, [], [Send(source.peer, MJNI(w.lsid, source.session, MemberOf(p, e.value))),
                         Send(p, MJNI(w.lsid, e.value.session, source))], false)
  }

  /** SOA and SOD: the event is pushed only for the member session itself. */
  function OnObjects(w: WorldId, p: PeerId, e: Option<Entry>, session: Uuid, ev: Event): Outcome {
    if e.None? then Crash(e)
    else if e.value.session != session then Outcome(e, [], [Send(p, MRST(w.lsid, session))], false)
    else Outcome(e, if e.value.status.Mem? then [ev] else [], [], false)
  }

  function OnAccept(w: WorldId, p: PeerId, e: Option<Entry>, session: Uuid, members: seq<Member>): Outcome {
    if e.None? then Keep(e)
    else
      var x := e.value;
      if x.status.DcJt? || x.status.Jt? then Crash(e)
      else if x.session != session then Keep(e)
      else match x.status
        case Jn => Outcome(Some(x.(status := Tmem)), [],
                           [Send(p, MJOK(w.lsid, session, TruncMs(w.stamp), w.url, members))], false)
        case Jni => Outcome(Some(x.(status := Tmem)), [], [Send(p, MMEM(w.lsid, session, TruncMs(w.stamp)))], false)
        case Rmem => Outcome(Some(x.(status := Mem)), [SessionReady(w.lsid, p, session)],
                             [Send(p, MMEM(w.lsid, session, TruncMs(w.stamp)))], false)
        case _ => Keep(e)
  }

  function OnShut(w: WorldId, p: PeerId, e: Entry): Outcome {
    if Disconnected(e.status) || e.status.Cc? then Keep(None)
    else Outcome(None, if e.status.Jt? then [JoinFail(w.lsid, CODE_CANCELED)]
                       else if e.status.Mem? then [SessionClose(w.lsid, p, e.session)] else [],
                 [Send(p, MRST(w.lsid, e.session))], false)
  }

  function Step(w: WorldId, p: PeerId, e: Option<Entry>, op: Op): Outcome {
    match op
    case Connect => OnConnect(w, p, e)
    case RecvJN(s, t) => OnJN(w, p, e, s, t)
    case RecvJOK(s, t, url) => OnJOK(w, p, e, s, t, url)
    case RecvJDN(code) => OnJDN(w, p, e, code)
    case Vouch(s) => OnVouch(w, p, e, s)
    case Introduce(s, t) => OnIntroduce(w, p, e, s, t)
    case RecvMEM(s, t) => OnMEM(w, p, e, s, t)
    case Gossip(origin, s) => OnGossip(w, e, p, origin, s)
    case Relay(source, s) => OnRelay(w, p, e, source, s)
    case RecvSOA(s, objects) => OnObjects(w, p, e, s, ObjectAppend(w.lsid, p, s, objects))
    case RecvSOD(s, objects) => OnObjects(w, p, e, s, ObjectDelete(w.lsid, p, s, objects))
    case RecvRST => if e.None? || !e.value.linked then Crash(e) else Cleared(w, p, e.value)
    case Accept(s, members) => OnAccept(w, p, e, s, members)
    case Decline(s) => if e.None? || e.value.session != s then Keep(e) else Cleared(w, p, e.value)
    case Count => if e.None? then Keep(e) else Keep(Some(e.value.(sjnc := e.value.sjnc + 1)))
    case Tell(m) => Outcome(e, [], [Send(p, m)], false)
    case Remove => if e.None? then Crash(e) else Cleared(w, p, e.value).(entry := None)
    case Shut => if e.None? then Keep(e) else OnShut(w, p, e.value)
  }
}
