/** What each stage of an actor holds, and sums of it over all actors. */
module WorkerWeights {
  import opened Prelude
  import opened Stock
  import opened RegistrationCircuit
  import opened Workers

  datatype Kind = KindT | KindQ

  datatype Weight =
    | Phys             // physical permits held
    | Send             // send permits held
    | Pend             // Q-pending permits held
    | Want             // Q-pending permits still to be acquired
    | Share            // shares of a Q lease whose release is still to come
    | ShareOf(l: nat)  // the same, of one lease
    | ToStoreQ         // Q that may still be stored
    | LeaseT           // T leases whose release is still to come
    | ToStoreT         // T that may still be stored
    | Hand(k: Kind)    // envelopes held by a worker or a pair lease
    | Holds(k: Kind, id: nat)  // holders of one envelope
    | Probe(t: nat)    // holders of probe token t

  /** Q-pending permits. */
  function PendOf(a: Actor): nat
  {
    match a
    case Batch(_, owned, _) => owned
    case Settle(_, t) => if t.ShareRel? then 0 else 1
    case _ => 0
  }

  function WantOf(a: Actor): nat { if a.Batch? && a.b.Acquire? then a.b.want else 0 }

  /** Every permit held or wanted has a lease share; some shares outlive their permit. */
  function ShareCount(a: Actor): nat
  {
    match a
    case Batch(_, owned, b) =>
      owned + WantOf(a) + if b.MailboxRel? || b.ResultRel? || b.UndoRel? then 1 else 0
    case Settle(_, _) => 1
    case _ => 0
  }

  predicate HasLease(a: Actor) { a.Batch? || a.Settle? }

  function ShareOfLease(l: nat, a: Actor): nat
  {
    if HasLease(a) && a.l == l then ShareCount(a) else 0
  }

  /** The envelope of kind `k` that an actor owns. */
  function Held(k: Kind, a: Actor): Option<Item>
  {
    match k
    case KindT => if a.Mint? && a.m.Put? then Some(a.m.x) else if a.Hold? then Some(a.p.t) else None
    case KindQ => if a.Settle? && a.t.Deposit? then Some(a.t.x) else if a.Hold? then Some(a.p.q) else None
  }

  function HandOf(k: Kind, a: Actor): nat { if Held(k, a).Some? then 1 else 0 }

  function HoldsOf(k: Kind, id: nat, a: Actor): nat
  {
    if Held(k, a).Some? && Held(k, a).value.id == id then 1 else 0
  }

  /** The probe a C worker answers for; `FalseArg` when it has none. */
  function ProbeOf(a: Actor): Arg { if a.Hold? || a.CLeave? then a.k else FalseArg }

  function PhysOf(c: Cfg, a: Actor): nat
  {
    match a
    case Mint(m) => if c.browserMint && m.Solving? then 1 else 0
    case Batch(_, _, b) => if b.Page? || b.Closing? || (b.Sending? && !c.http) then 1 else 0
    case Hold(_, _, h) => if !c.http && Consuming(h) && !h.PhysicalC? then 1 else 0
    case _ => 0
  }

  function SendOf(c: Cfg, a: Actor): nat
  {
    if c.sendCap.Some? && a.Batch? && (a.b.PhysicalP? || a.b.Page? || a.b.Sending? || a.b.Closing?)
    then 1 else 0
  }

  function LeaseTOf(a: Actor): nat { if a.Mint? then 1 else 0 }

  function ToStoreTOf(a: Actor): nat
  {
    if a.Mint? && (a.m.Physical? || a.m.Solving? || a.m.Slot? || a.m.Put?) then 1 else 0
  }

  function ToStoreQOf(a: Actor): nat { PendOf(a) + WantOf(a) }

  function W(c: Cfg, w: Weight, a: Actor): nat
  {
    match w
    case Phys => PhysOf(c, a)
    case Send => SendOf(c, a)
    case Pend => PendOf(a)
    case Want => WantOf(a)
    case Share => ShareCount(a)
    case ShareOf(l) => ShareOfLease(l, a)
    case ToStoreQ => ToStoreQOf(a)
    case LeaseT => LeaseTOf(a)
    case ToStoreT => ToStoreTOf(a)
    case Hand(k) => HandOf(k, a)
    case Holds(k, id) => HoldsOf(k, id, a)
    case Probe(t) => if ProbeOf(a) == Token(t) then 1 else 0
  }

  function Sum(c: Cfg, w: Weight, actors: seq<Actor>): nat
  {
    if actors == [] then 0 else W(c, w, actors[0]) + Sum(c, w, actors[1..])
  }

  lemma {:induction false} SumUpdate(c: Cfg, w: Weight, actors: seq<Actor>, i: nat, a: Actor)
    requires i < |actors|
    ensures Sum(c, w, actors[i := a]) == Sum(c, w, actors) - W(c, w, actors[i]) + W(c, w, a)
    ensures Sum(c, w, actors) >= W(c, w, actors[i])
  {
    if i == 0 {
      assert actors[0 := a][1..] == actors[1..];
    } else {
      assert actors[i := a][1..] == actors[1..][i - 1 := a];
      SumUpdate(c, w, actors[1..], i - 1, a);
    }
  }

  lemma {:induction false} SumPush(c: Cfg, w: Weight, actors: seq<Actor>, a: Actor)
    ensures Sum(c, w, actors + [a]) == Sum(c, w, actors) + W(c, w, a)
  {
    if actors == [] {
      assert actors + [a] == [a];
    } else {
      assert (actors + [a])[1..] == actors[1..] + [a];
      SumPush(c, w, actors[1..], a);
    }
  }

  /** A weight that is nowhere larger than another sums up to no more. */
  lemma {:induction false} SumBelow(c: Cfg, v: Weight, w: Weight, actors: seq<Actor>)
    requires forall i :: 0 <= i < |actors| ==> W(c, v, actors[i]) <= W(c, w, actors[i])
    ensures Sum(c, v, actors) <= Sum(c, w, actors)
  {
    if actors != [] {
      forall i | 0 <= i < |actors[1..]|
        ensures W(c, v, actors[1..][i]) <= W(c, w, actors[1..][i])
      {
        assert actors[1..][i] == actors[i + 1];
      }
      SumBelow(c, v, w, actors[1..]);
    }
  }

  lemma {:induction false} SumSplit(c: Cfg, actors: seq<Actor>)
    ensures Sum(c, ToStoreQ, actors) == Sum(c, Pend, actors) + Sum(c, Want, actors)
  {
    if actors != [] {
      SumSplit(c, actors[1..]);
    }
  }

  /** A positive sum has a holder. */
  lemma {:induction false} SumHolder(c: Cfg, w: Weight, actors: seq<Actor>) returns (i: nat)
    requires Sum(c, w, actors) > 0
    ensures i < |actors| && W(c, w, actors[i]) > 0
  {
    if W(c, w, actors[0]) > 0 {
      i := 0;
    } else {
      i := SumHolder(c, w, actors[1..]);
      assert actors[1..][i] == actors[i + 1];
      i := i + 1;
    }
  }

  /** Two holders make two. */
  lemma SumTwo(c: Cfg, w: Weight, actors: seq<Actor>, i: nat, j: nat)
    requires i < j < |actors|
    ensures Sum(c, w, actors) >= W(c, w, actors[i]) + W(c, w, actors[j])
  {
    SumUpdate(c, w, actors, i, Dead);
    SumUpdate(c, w, actors[i := Dead], j, Dead);
    assert W(c, w, Dead) == 0;
  }

  lemma {:induction false} SumNone(c: Cfg, w: Weight, actors: seq<Actor>)
    requires forall i :: 0 <= i < |actors| ==> W(c, w, actors[i]) == 0
    ensures Sum(c, w, actors) == 0
  {
    if actors != [] {
      forall i | 0 <= i < |actors[1..]|
        ensures W(c, w, actors[1..][i]) == 0
      {
        assert actors[1..][i] == actors[i + 1];
      }
      SumNone(c, w, actors[1..]);
    }
  }

  function WNew(c: Cfg, w: Weight, spawned: Option<Actor>): nat
  {
    if spawned.Some? then W(c, w, spawned.value) else 0
  }

  /** Sums change by what the moving actor changes and what it spawns. */
  lemma StepSum(c: Cfg, w: Weight, actors: seq<Actor>, i: nat, m: Move)
    requires i < |actors|
    ensures Sum(c, w, Joined(actors[i := m.actor], m.spawned)) + W(c, w, actors[i])
         == Sum(c, w, actors) + W(c, w, m.actor) + WNew(c, w, m.spawned)
    ensures Sum(c, w, actors) >= W(c, w, actors[i])
  {
    SumUpdate(c, w, actors, i, m.actor);
    if m.spawned.Some? {
      SumPush(c, w, actors[i := m.actor], m.spawned.value);
    }
  }
}
