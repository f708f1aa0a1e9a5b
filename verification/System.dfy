/**
 Any number of AND instances exchanging messages.

 The network is as unreliable as can be: a message may be delivered any number
 of times, in any order, or never.  Every run over in-order connections is one
 of these runs.  Hosts never call PeerClose (host/host.go has no such call), so
 connections are not torn down.
 */
module SystemModel {
  import opened Abyss
  import opened PeerEntry
  import opened NodeModel
  import opened EntryInvariant

  type Sys = map<PeerId, Node>

  datatype Action =
    | Call(at: PeerId, call: Input)
    | Deliver(src: PeerId, dst: PeerId, target: Uuid, msg: Msg, sweep: seq<Uuid>)
    | Refuse(at: PeerId, src: PeerId, msg: Msg)   // JN for a path that leads nowhere

  function Boot(hosts: set<PeerId>): Sys {
    map h | h in hosts :: Start(h)
  }

  function SysStep(s: Sys, a: Action): Sys {
    match a
    case Call(at, call) => if at in s then s[at := NodeStep(s[at], call)] else s
    case Deliver(src, dst, target, msg, sweep) =>
      if dst in s then s[dst := NodeStep(s[dst], Recv(src, target, msg, sweep))] else s
    case Refuse(at, src, msg) =>
      if at in s && msg.MJN? then s[at := s[at].(out := s[at].out + [Send(src, MJDN(msg.sender, CODE_NOT_FOUND))])] else s
  }

  /** SOA and SOD are sent by applications directly, so their content is arbitrary. */
  predicate WasSent(s: Sys, src: PeerId, dst: PeerId, msg: Msg) {
    src in s && (Send(dst, msg) in s[src].out || msg.MSOA? || msg.MSOD?)
  }

  ghost predicate Possible(s: Sys, a: Action) {
    match a
    case Call(at, call) =>
      && at in s
      && !call.Recv? && !call.PeerClose?
      && (call.PeerConnected? || call.AcceptSession? || call.DeclineSession? ==> call.peer in s)
      && (call.JoinWorld? ==> call.target in s)
      && Admissible(s[at], call)
    case Deliver(src, dst, target, msg, sweep) =>
      && dst in s && WasSent(s, src, dst, msg) && src in s[dst].peers
      && (msg.MRST? ==> Enumerates(sweep, s[dst].worlds.Keys))
      && (if msg.MJN? then target in s[dst].worlds ==> JoinedIn(s[dst].events, target) else target == msg.recver)
    case Refuse(at, src, msg) => at in s && msg.MJN? && WasSent(s, src, at, msg)
  }

  function SysExec(hosts: set<PeerId>, acts: seq<Action>): Sys {
    if acts == [] then Boot(hosts) else SysStep(SysExec(hosts, acts[..|acts| - 1]), acts[|acts| - 1])
  }

  ghost predicate SysLegal(hosts: set<PeerId>, acts: seq<Action>) {
    acts == [] ||
    (SysLegal(hosts, acts[..|acts| - 1]) && Possible(SysExec(hosts, acts[..|acts| - 1]), acts[|acts| - 1]))
  }

  // ---- what messages and entries say about the rest of the system ----

  /** The session is a world of that host, and the stamp is its creation time in whole milliseconds. */
  predicate Genuine(s: Sys, m: Member) {
    && m.peer in s
    && m.session != NIL && m.session in s[m.peer].born
    && m.stamp == TruncMs(s[m.peer].born[m.session])
  }

  /** A JOK or MEM with which world a of host A accepted session b. */
  predicate IsVow(m: Msg, a: Uuid, b: Uuid) {
    (m.MJOK? || m.MMEM?) && m.sender == a && m.recver == b
  }

  /** World a of host A has accepted session b of host B. */
  ghost predicate Vowed(s: Sys, A: PeerId, a: Uuid, B: PeerId, b: Uuid) {
    A in s && exists i :: 0 <= i < |s[A].out| && s[A].out[i].dst == B && IsVow(s[A].out[i].msg, a, b)
  }

  ghost predicate SendGood(s: Sys, A: PeerId, x: Send) {
    && A in s && x.dst in s
    && match x.msg
       case MJN(l, _, t) => Genuine(s, Member(A, l, t))
       case MJOK(l, _, t, _, ms) => Genuine(s, Member(A, l, t)) && forall m :: m in ms ==> Genuine(s, m)
       case MMEM(l, _, t) => Genuine(s, Member(A, l, t))
       case MJNI(_, _, m) => Genuine(s, m)
       case MSJN(_, _, refs) => forall r :: r in refs ==> r.session != NIL && r.peer in s[A].peers
       case MCRR(_, _, refs) => forall r :: r in refs ==> r.session != NIL && r.peer in s[x.dst].peers
       case _ => true
  }

  ghost predicate EntryGood(s: Sys, A: PeerId, l: Uuid, p: PeerId, e: Entry) {
    && p in s
    && (if Idling(e.status) then e.session == NIL else Genuine(s, Member(p, e.session, e.stamp)))
    && (e.status.Tmem? || e.status.Mem? ==> Vowed(s, A, l, p, e.session))
    && (e.status.RmemNjni? || e.status.Rmem? || e.status.Mem? ==> Vowed(s, p, e.session, A, l))
  }

  ghost predicate WorldGood(s: Sys, A: PeerId, l: Uuid, w: World) {
    && A in s && w.id.lsid == l && w.id.local == A
    && l != NIL && l in s[A].born && w.id.stamp == s[A].born[l]
    && (forall p :: p in w.peers ==> EntryGood(s, A, l, p, w.peers[p]))
  }

  ghost predicate HostGood(s: Sys, A: PeerId)
    requires A in s
  {
    && s[A].local == A
    && s[A].peers <= s.Keys
    && NIL !in s[A].born
    && (forall i :: 0 <= i < |s[A].out| ==> SendGood(s, A, s[A].out[i]))
    && (forall l :: l in s[A].worlds ==> WorldGood(s, A, l, s[A].worlds[l]))
  }

  ghost predicate SysGood(s: Sys) {
    forall A :: A in s ==> HostGood(s, A)
  }

  /** Histories only grow. */
  ghost predicate Grows(s: Sys, s': Sys) {
    && s.Keys == s'.Keys
    && (forall A :: A in s ==> s[A].peers <= s'[A].peers)
    && (forall A :: A in s ==> s[A].out <= s'[A].out)
    && (forall A, l :: A in s && l in s[A].born ==> l in s'[A].born && s'[A].born[l] == s[A].born[l])
  }

  lemma VowedGrows(s: Sys, s': Sys, A: PeerId, a: Uuid, B: PeerId, b: Uuid)
    requires Grows(s, s') && Vowed(s, A, a, B, b)
    ensures Vowed(s', A, a, B, b)
  {
    var i :| 0 <= i < |s[A].out| && s[A].out[i].dst == B && IsVow(s[A].out[i].msg, a, b);
    assert s'[A].out[i] == s[A].out[i];
  }

  lemma SendGrows(s: Sys, s': Sys, A: PeerId, x: Send)
    requires Grows(s, s') && SendGood(s, A, x)
    ensures SendGood(s', A, x)
  {
  }

  lemma EntryGrows(s: Sys, s': Sys, A: PeerId, l: Uuid, p: PeerId, e: Entry)
    requires Grows(s, s') && EntryGood(s, A, l, p, e)
    ensures EntryGood(s', A, l, p, e)
  {
    if e.status.Tmem? || e.status.Mem? { VowedGrows(s, s', A, l, p, e.session); }
    if e.status.RmemNjni? || e.status.Rmem? || e.status.Mem? { VowedGrows(s, s', p, e.session, A, l); }
  }

  lemma WorldGrows(s: Sys, s': Sys, A: PeerId, l: Uuid, w: World)
    requires Grows(s, s') && WorldGood(s, A, l, w)
    ensures WorldGood(s', A, l, w)
  {
    forall p | p in w.peers ensures EntryGood(s', A, l, p, w.peers[p]) { EntryGrows(s, s', A, l, p, w.peers[p]); }
  }

  /** Replace one host by a grown version of itself whose new sends and worlds are good. */
  lemma HostReplaced(s: Sys, A: PeerId, n: Node)
    requires SysGood(s) && A in s && Grows(s, s[A := n]) && n.local == A && n.peers <= s.Keys && NIL !in n.born
    requires forall i :: |s[A].out| <= i < |n.out| ==> SendGood(s[A := n], A, n.out[i])
    requires forall l :: l in n.worlds ==> WorldGood(s[A := n], A, l, n.worlds[l])
    ensures SysGood(s[A := n])
  {
    var s' := s[A := n];
    forall B | B in s' ensures HostGood(s', B) {
      assert HostGood(s, B);
      forall i | 0 <= i < |s'[B].out| ensures SendGood(s', B, s'[B].out[i]) {
        if i < |s[B].out| {
          assert s'[B].out[i] == s[B].out[i];
          SendGrows(s, s', B, s[B].out[i]);
        }
      }
      forall l | l in s'[B].worlds ensures WorldGood(s', B, l, s'[B].worlds[l]) {
        if B != A { WorldGrows(s, s', B, l, s[B].worlds[l]); }
      }
    }
  }
}
