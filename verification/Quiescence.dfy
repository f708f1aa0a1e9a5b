/** Resets die out: from any state of all hosts, RST and JDN deliveries alone come to an end. */
module Quiescence {
  import opened Prelude
  import opened Abyss
  import opened PeerEntry
  import opened WorldModel
  import opened NodeModel

  datatype Envelope = Envelope(src: PeerId, dst: PeerId, msg: Msg)

  /** Arbitrary hosts, and the RST and JDN messages that are under way. */
  datatype Net = Net(hosts: map<PeerId, Node>, flight: multiset<Envelope>)

  datatype Delivery = Delivery(env: Envelope, sweep: seq<Uuid>)

  predicate IsReset(m: Msg) {
    m.MRST? || m.MJDN?
  }

  /** Entries that are not idle. */
  function Busy(n: Node): set<(Uuid, PeerId)> {
    set l, p | l in n.worlds && p in n.worlds[l].peers && !n.worlds[l].peers[p].status.Cc? :: (l, p)
  }

  function Outgoing(src: PeerId, sends: seq<Send>): multiset<Envelope> {
    if sends == [] then multiset{}
    else Outgoing(src, sends[..|sends| - 1]) + multiset{Envelope(src, sends[|sends| - 1].dst, sends[|sends| - 1].msg)}
  }

  lemma {:induction false} OutgoingSize(src: PeerId, sends: seq<Send>)
    ensures |Outgoing(src, sends)| == |sends|
    decreases |sends|
  {
    if sends != [] { OutgoingSize(src, sends[..|sends| - 1]); }
  }

  function Received(g: Net, d: Delivery): Node
    requires d.env.dst in g.hosts && IsReset(d.env.msg)
  {
    NodeStep(g.hosts[d.env.dst], Recv(d.env.src, d.env.msg.recver, d.env.msg, d.sweep))
  }

  /** The messages that a delivery adds to a host's outbox. */
  function Fresh(n: Node, n': Node): seq<Send> {
    if |n.out| <= |n'.out| then n'.out[|n.out|..] else []
  }

  function DeliverReset(g: Net, d: Delivery): Net
    requires d.env.dst in g.hosts && IsReset(d.env.msg)
  {
    var n := g.hosts[d.env.dst];
    var n' := Received(g, d);
    Net(g.hosts[d.env.dst := n'], g.flight - multiset{d.env} + Outgoing(d.env.dst, Fresh(n, n')))
  }

  // ---- one host ----

  /** Every message sent is a reset and was paid for by an entry that became idle. */
  ghost predicate Paid(n: Node, n': Node) {
    && n.out <= n'.out
    && (forall i :: |n.out| <= i < |n'.out| ==> IsReset(n'.out[i].msg))
    && Busy(n') <= Busy(n)
    && |n'.out| - |n.out| <= |Busy(n)| - |Busy(n')|
  }

  lemma PaidTrans(n: Node, n1: Node, n2: Node)
    requires Paid(n, n1) && Paid(n1, n2)
    ensures Paid(n, n2)
  {
    forall i | |n.out| <= i < |n2.out| ensures IsReset(n2.out[i].msg) {
      if i < |n1.out| { assert n2.out[i] == n1.out[i]; }
    }
  }

  lemma ResetStep(w: WorldId, p: PeerId, e: Option<Entry>, op: Op)
    requires op.RecvRST? || op.RecvJDN?
    ensures var o := Step(w, p, e, op);
            && |o.sends| <= 1 && (forall i :: 0 <= i < |o.sends| ==> IsReset(o.sends[i].msg))
            && (o.entry == e || o.entry.None? || o.entry.value.status.Cc?)
            && (o.sends != [] ==> e.Some? && !e.value.status.Cc? && (o.entry.None? || o.entry.value.status.Cc?))
  {
  }

  lemma OneReset(n: Node, l: Uuid, p: PeerId, op: Op)
    requires op.RecvRST? || op.RecvJDN?
    ensures Paid(n, OnWorld(n, l, [On(p, op)]))
  {
    if l in n.worlds {
      var st, m := Inside(n, l), On(p, op);
      DoAllOne(st, m);
      var e := Get(st.peers, p);
      var o := Step(st.id, p, e, op);
      ResetStep(st.id, p, e, op);
      OneEntryPays(n, l, p, o, OnWorld(n, l, [m]));
    }
  }

  lemma OneEntryPays(n: Node, l: Uuid, p: PeerId, o: Outcome, n': Node)
    requires l in n.worlds && n'.out == n.out + o.sends
    requires n'.worlds == n.worlds[l := World(n.worlds[l].id, Put(n.worlds[l].peers, p, o.entry))]
    requires |o.sends| <= 1 && (forall i :: 0 <= i < |o.sends| ==> IsReset(o.sends[i].msg))
    requires o.entry == Get(n.worlds[l].peers, p) || o.entry.None? || o.entry.value.status.Cc?
    requires o.sends != [] ==> (l, p) in Busy(n) && (o.entry.None? || o.entry.value.status.Cc?)
    ensures Paid(n, n')
  {
    var gone := if o.sends != [] then {(l, p)} else {};
    assert Busy(n') <= Busy(n) - gone;
    assert gone <= Busy(n);
    Smaller(Busy(n'), Busy(n) - gone);
  }

  lemma {:induction false} Smaller<T>(a: set<T>, b: set<T>)
    requires a <= b
    ensures |a| <= |b|
    decreases a
  {
    if a != {} {
      var x :| x in a;
      Smaller(a - {x}, b - {x});
    }
  }

  lemma {:induction false} SweptReset(n: Node, sweep: seq<Uuid>, p: PeerId)
    ensures Paid(n, OnEach(n, sweep, On(p, RecvRST)))
    decreases |sweep|
  {
    if sweep != [] {
      SweptReset(n, sweep[..|sweep| - 1], p);
      var n1 := OnEach(n, sweep[..|sweep| - 1], On(p, RecvRST));
      OneReset(n1, sweep[|sweep| - 1], p, RecvRST);
      PaidTrans(n, n1, OnWorld(n1, sweep[|sweep| - 1], [On(p, RecvRST)]));
    }
  }

  /** A reset, even one fanned out to all worlds, sends at most one message per entry it makes idle. */
  lemma ResetIsPaid(n: Node, p: PeerId, m: Msg, sweep: seq<Uuid>)
    requires IsReset(m)
    ensures Paid(n, NodeStep(n, Recv(p, m.recver, m, sweep)))
  {
    if m.MRST? && m.recver == NIL {
      SweptReset(n, sweep, p);
    } else if m.recver in n.worlds {
      OneReset(n, m.recver, p, if m.MRST? then RecvRST else RecvJDN(m.code));
    }
  }

  // ---- all hosts ----

  function TotalBusy(hosts: map<PeerId, Node>, names: seq<PeerId>): nat {
    if names == [] then 0
    else
      var h := names[|names| - 1];
      TotalBusy(hosts, names[..|names| - 1]) + if h in hosts then |Busy(hosts[h])| else 0
  }

  /** Non-idle entries of all hosts plus resets under way. */
  function Measure(g: Net, names: seq<PeerId>): nat {
    TotalBusy(g.hosts, names) + |g.flight|
  }

  lemma {:induction false} TotalAfter(hosts: map<PeerId, Node>, names: seq<PeerId>, A: PeerId, n: Node)
    requires A in hosts && forall i, j :: 0 <= i < j < |names| ==> names[i] != names[j]
    ensures TotalBusy(hosts[A := n], names) - TotalBusy(hosts, names)
            == if A in names then |Busy(n)| - |Busy(hosts[A])| else 0
    decreases |names|
  {
    if names != [] {
      TotalAfter(hosts, names[..|names| - 1], A, n);
      assert names[|names| - 1] !in names[..|names| - 1];
    }
  }

  lemma DeliveryCosts(g: Net, d: Delivery, names: seq<PeerId>)
    requires d.env in g.flight && d.env.dst in g.hosts && IsReset(d.env.msg) && Enumerates(names, g.hosts.Keys)
    ensures Measure(DeliverReset(g, d), names) < Measure(g, names)
    ensures forall e :: e in DeliverReset(g, d).flight ==> e in g.flight || IsReset(e.msg)
  {
    var n, n' := g.hosts[d.env.dst], Received(g, d);
    ResetIsPaid(n, d.env.src, d.env.msg, d.sweep);
    TotalAfter(g.hosts, names, d.env.dst, n');
    OutgoingSize(d.env.dst, Fresh(n, n'));
    OutgoingResets(d.env.dst, Fresh(n, n'));
    assert |g.flight - multiset{d.env}| == |g.flight| - 1;
  }

  lemma {:induction false} OutgoingResets(src: PeerId, sends: seq<Send>)
    requires forall i :: 0 <= i < |sends| ==> IsReset(sends[i].msg)
    ensures forall e :: e in Outgoing(src, sends) ==> IsReset(e.msg)
    decreases |sends|
  {
    if sends != [] { OutgoingResets(src, sends[..|sends| - 1]); }
  }

  ghost predicate CanDeliver(g: Net, ds: seq<Delivery>)
    decreases |ds|
  {
    ds == [] ||
    (ds[0].env in g.flight && ds[0].env.dst in g.hosts && IsReset(ds[0].env.msg) && CanDeliver(DeliverReset(g, ds[0]), ds[1..]))
  }

  /** The number of RST and JDN deliveries is bounded by the non-idle entries plus the resets under way. */
  lemma {:induction false} ResetsDieOut(g: Net, ds: seq<Delivery>, names: seq<PeerId>)
    requires CanDeliver(g, ds) && Enumerates(names, g.hosts.Keys)
    ensures |ds| <= TotalBusy(g.hosts, names) + |g.flight|
    decreases |ds|
  {
    if ds != [] {
      DeliveryCosts(g, ds[0], names);
      ResetsDieOut(DeliverReset(g, ds[0]), ds[1..], names);
    }
  }
}
