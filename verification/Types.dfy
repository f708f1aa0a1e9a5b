/**
 Vocabulary of Abyss Neighbor Discovery: identities, wire messages, events.

 A `Msg` is what the receiver decodes: every time stamp in it has been cut to
 whole milliseconds by the sender's encoder.
 */
module Abyss {

  type PeerId = string    // identity hash of a host
  type Uuid = nat         // session id
  type ObjectId = nat
  type Time = int         // nanoseconds since the zero time

  const NIL: Uuid := 0
  const ZERO_TIME: Time := 0
  const MILLISECOND: int := 1_000_000
  const SECOND: int := 1_000_000_000

  /** UnixMilli followed by time.UnixMilli. */
  function TruncMs(t: Time): Time {
    t / MILLISECOND * MILLISECOND
  }

  const CODE_NOT_FOUND := 404
  const CODE_DUPLICATE := 480
  const CODE_CANCELED := 498
  const CODE_INVALID_STATES := 521

  /** A session of a peer together with the creation time of its world. */
  datatype Member = Member(peer: PeerId, session: Uuid, stamp: Time)

  /** A session of a peer, as gossiped by SJN and CRR. */
  datatype SessionRef = SessionRef(peer: PeerId, session: Uuid)

  datatype Msg =
    | MJN(sender: Uuid, path: string, stamp: Time)
    | MJOK(sender: Uuid, recver: Uuid, stamp: Time, url: string, members: seq<Member>)
    | MJDN(recver: Uuid, code: int)
    | MJNI(sender: Uuid, recver: Uuid, member: Member)
    | MMEM(sender: Uuid, recver: Uuid, stamp: Time)
    | MSJN(sender: Uuid, recver: Uuid, refs: seq<SessionRef>)
    | MCRR(sender: Uuid, recver: Uuid, refs: seq<SessionRef>)
    | MRST(sender: Uuid, recver: Uuid)
    | MSOA(sender: Uuid, recver: Uuid, objects: seq<ObjectId>)
    | MSOD(sender: Uuid, recver: Uuid, objects: seq<ObjectId>)

  /** A message handed to the connection of peer `dst`. */
  datatype Send = Send(dst: PeerId, msg: Msg)

  datatype Event =
    | SessionRequest(lsid: Uuid, peer: PeerId, session: Uuid)
    | SessionReady(lsid: Uuid, peer: PeerId, session: Uuid)
    | SessionClose(lsid: Uuid, peer: PeerId, session: Uuid)
    | ObjectAppend(lsid: Uuid, peer: PeerId, session: Uuid, objects: seq<ObjectId>)
    | ObjectDelete(lsid: Uuid, peer: PeerId, session: Uuid, objects: seq<ObjectId>)
    | JoinSuccess(lsid: Uuid, url: string)
    | JoinFail(lsid: Uuid, code: int)
    | WorldLeave(lsid: Uuid)
    | TimerRequest(lsid: Uuid, ms: int)
    | ConnectRequest(target: PeerId)
    | PeerRegister(target: PeerId)

  /** `order` lists every element of `keys` exactly once: one possible order of a Go map iteration. */
  ghost predicate Enumerates<T(!new)>(order: seq<T>, keys: set<T>) {
    && (forall x :: x in order <==> x in keys)
    && (forall i, j :: 0 <= i < j < |order| ==> order[i] != order[j])
  }
}
