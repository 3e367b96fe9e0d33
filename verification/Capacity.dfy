/** Capacity leases: concurrency slots reserved against a cap and returned per lease. */
module Capacity {
  import opened Wrappers
  import opened Text

  datatype CapacityError = BadExternalCount | AtCap

  datatype Lease = Lease(id: string, lane: string, ref: string)

  function LeaseId(lane: string, ref: string, sequence: nat): string {
    lane + ":" + ref + ":" + Decimal(sequence)
  }

  /** Different sequence numbers give different ids, whatever characters lanes and refs contain. */
  lemma LeaseIdsDiffer(lane: string, ref: string, m: nat, lane': string, ref': string, n: nat)
    requires LeaseId(lane, ref, m) == LeaseId(lane', ref', n)
    ensures m == n
  {
    assert LeaseId(lane, ref, m) == (lane + ":" + ref) + [':'] + Decimal(m);
    assert LeaseId(lane', ref', n) == (lane' + ":" + ref') + [':'] + Decimal(n);
    SplitLastUnique(lane + ":" + ref, Decimal(m), lane' + ":" + ref', Decimal(n), ':');
    DecimalInjective(m, n);
  }

  function CountOf(counts: map<string, nat>, ref: string): nat {
    if ref in counts then counts[ref] else 0
  }

  /** The ids of the live leases for one model. */
  function LiveLeases(leases: map<string, string>, ref: string): set<string> {
    set id | id in leases && leases[id] == ref
  }

  lemma LeaseAdded(leases: map<string, string>, id: string, ref: string, other: string)
    requires id !in leases
    ensures |LiveLeases(leases[id := ref], other)| == |LiveLeases(leases, other)| + (if other == ref then 1 else 0)
  {
    var more := leases[id := ref];
    if other == ref {
      assert LiveLeases(more, other) == LiveLeases(leases, other) + {id};
    } else {
      assert LiveLeases(more, other) == LiveLeases(leases, other);
    }
  }

  lemma LeaseRemoved(leases: map<string, string>, id: string, other: string)
    requires id in leases
    ensures |LiveLeases(leases - {id}, other)| + (if other == leases[id] then 1 else 0) == |LiveLeases(leases, other)|
  {
    var fewer := leases - {id};
    assert fewer[id := leases[id]] == leases;
    LeaseAdded(fewer, id, leases[id], other);
  }

  /** Counters match the live leases and external occupancy hangs on a live lease. */
  ghost predicate Balanced(leases: map<string, string>, outstanding: map<string, nat>, external: map<string, nat>) {
    && (forall ref :: CountOf(outstanding, ref) == |LiveLeases(leases, ref)|)
    && (forall ref | ref in external :: CountOf(outstanding, ref) > 0)
  }

  /** No model with a cap is overbooked. */
  ghost predicate WithinCaps(caps: map<string, nat>, outstanding: map<string, nat>, external: map<string, nat>) {
    forall ref | ref in caps :: CountOf(outstanding, ref) + CountOf(external, ref) <= caps[ref]
  }

  predicate Names(id: string, lane: string, ref: string, sequence: nat) {
    id == LeaseId(lane, ref, sequence)
  }

  ghost predicate IssuedBefore(id: string, sequence: nat) {
    exists lane: string, ref: string, n: nat {:trigger Names(id, lane, ref, n)} :: n < sequence && Names(id, lane, ref, n)
  }

  ghost predicate AllIssued(ids: set<string>, sequence: nat) {
    forall id | id in ids :: IssuedBefore(id, sequence)
  }

  lemma NewIdIsFresh(issued: set<string>, lane: string, ref: string, sequence: nat, id: string)
    requires AllIssued(issued, sequence) && Names(id, lane, ref, sequence)
    ensures id !in issued && AllIssued(issued + {id}, sequence + 1)
  {
    if id in issued {
      var lane', ref', n: nat :| n < sequence && Names(id, lane', ref', n);
      LeaseIdsDiffer(lane, ref, sequence, lane', ref', n);
      assert false;
    }
    forall other | other in issued + {id}
      ensures IssuedBefore(other, sequence + 1)
    {
      if other != id {
        var lane', ref', n: nat :| n < sequence && Names(other, lane', ref', n);
        assert n < sequence + 1;
      }
    }
  }

  lemma ReserveKeepsBalance(
    leases: map<string, string>, outstanding: map<string, nat>, external: map<string, nat>, id: string, ref: string, n: nat)
    requires Balanced(leases, outstanding, external) && id !in leases
    ensures Balanced(leases[id := ref], outstanding[ref := CountOf(outstanding, ref) + 1], external[ref := n])
  {
    var counts, more := outstanding[ref := CountOf(outstanding, ref) + 1], leases[id := ref];
    forall other
      ensures CountOf(counts, other) == |LiveLeases(more, other)|
    {
      LeaseAdded(leases, id, ref, other);
    }
  }

  lemma ReleaseKeepsBalance(leases: map<string, string>, outstanding: map<string, nat>, external: map<string, nat>, id: string)
    requires Balanced(leases, outstanding, external) && id in leases
    ensures CountOf(outstanding, leases[id]) > 0
    ensures var ref := leases[id]; var left: nat := CountOf(outstanding, ref) - 1;
            Balanced(leases - {id}, outstanding[ref := left], if left == 0 then external - {ref} else external)
  {
    var ref := leases[id];
    LeaseRemoved(leases, id, ref);
    var left: nat := CountOf(outstanding, ref) - 1;
    var counts, fewer := outstanding[ref := left], leases - {id};
    forall other
      ensures CountOf(counts, other) == |LiveLeases(fewer, other)|
    {
      LeaseRemoved(leases, id, other);
    }
  }

  /** The counters of the broker. */
  datatype Ledger = Ledger(outstanding: map<string, nat>, leases: map<string, string>, external: map<string, nat>) {
    function Occupied(ref: string, externalInFlight: nat): nat {
      if CountOf(external, ref) >= externalInFlight then CountOf(external, ref) else externalInFlight
    }

    function Granted(id: string, ref: string, occupied: nat): Ledger {
      Ledger(outstanding[ref := CountOf(outstanding, ref) + 1], leases[id := ref], external[ref := occupied])
    }

    function Returned(id: string): Ledger {
      if id !in leases || CountOf(outstanding, leases[id]) == 0 then this
      else
        var ref := leases[id];
        var left: nat := CountOf(outstanding, ref) - 1;
        Ledger(outstanding[ref := left], leases - {id}, if left == 0 then external - {ref} else external)
    }
  }

  ghost predicate Sound(caps: map<string, nat>, ledger: Ledger) {
    Balanced(ledger.leases, ledger.outstanding, ledger.external) && WithinCaps(caps, ledger.outstanding, ledger.external)
  }

  lemma GrantKeeps(caps: map<string, nat>, ledger: Ledger, id: string, ref: string, occupied: nat)
    requires Sound(caps, ledger) && id !in ledger.leases
    requires ref in caps ==> CountOf(ledger.outstanding, ref) + occupied < caps[ref]
    ensures Sound(caps, ledger.Granted(id, ref, occupied))
  {
    ReserveKeepsBalance(ledger.leases, ledger.outstanding, ledger.external, id, ref, occupied);
  }

  lemma ReturnKeeps(caps: map<string, nat>, ledger: Ledger, id: string)
    requires Sound(caps, ledger)
    ensures Sound(caps, ledger.Returned(id)) && ledger.Returned(id).leases == ledger.leases - {id}
    ensures id in ledger.leases ==> CountOf(ledger.outstanding, ledger.leases[id]) > 0
  {
    if id in ledger.leases {
      ReleaseKeepsBalance(ledger.leases, ledger.outstanding, ledger.external, id);
    } else {
      assert ledger.leases - {id} == ledger.leases;
    }
  }

  /** Releasing touches only the counters of the lease's own model; the second release is a no-op. */
  lemma ReturnIsLocal(caps: map<string, nat>, ledger: Ledger, id: string, ref: string)
    requires Sound(caps, ledger)
    ensures var after := ledger.Returned(id);
            && after.Returned(id) == after
            && (id !in ledger.leases ==> after == ledger)
            && (id !in ledger.leases || ref != ledger.leases[id] ==>
                  CountOf(after.outstanding, ref) == CountOf(ledger.outstanding, ref)
                  && CountOf(after.external, ref) == CountOf(ledger.external, ref))
            && (id in ledger.leases && ref == ledger.leases[id] ==>
                  CountOf(after.outstanding, ref) + 1 == CountOf(ledger.outstanding, ref))
  {
    ReturnKeeps(caps, ledger, id);
  }

  class PolicyBroker {
    /** Concurrency caps of the catalog entries that have one. */
    const caps: map<string, nat>
    var outstanding: map<string, nat>
    var leases: map<string, string>
    var external: map<string, nat>
    var nextSequence: nat
    /** Every lease id handed out so far. */
    ghost var issued: set<string>

    function State(): Ledger
      reads this
    {
      Ledger(outstanding, leases, external)
    }

    ghost predicate Valid()
      reads this
    {
      Sound(caps, State()) && leases.Keys <= issued && AllIssued(issued, nextSequence)
    }

    constructor (caps: map<string, nat>)
      ensures Valid() && this.caps == caps && leases == map[] && issued == {}
    {
      this.caps := caps;
      outstanding, leases, external, nextSequence, issued := map[], map[], map[], 0, {};
    }

    /** Claims one slot unless the model is at its cap; a refusal changes nothing. */
    method Reserve(lane: string, ref: string, externalInFlight: int) returns (r: Result<Lease, CapacityError>)
      requires Valid()
      modifies this
      ensures Valid()
      ensures r.Err? ==> State() == old(State()) && nextSequence == old(nextSequence) && issued == old(issued)
      ensures r.Ok? <==> externalInFlight >= 0 &&
                         (ref in caps ==> CountOf(old(outstanding), ref) + old(State()).Occupied(ref, externalInFlight) < caps[ref])
      ensures r.Ok? ==> r.value.lane == lane && r.value.ref == ref && r.value.id !in old(issued)
                        && issued == old(issued) + {r.value.id}
                        && State() == old(State()).Granted(r.value.id, ref, old(State()).Occupied(ref, externalInFlight))
    {
      if externalInFlight < 0 {
        return Err(BadExternalCount);
      }
      var occupied := State().Occupied(ref, externalInFlight);
      if ref in caps && CountOf(outstanding, ref) + occupied >= caps[ref] {
        return Err(AtCap);
      }
      var id := LeaseId(lane, ref, nextSequence);
      NewIdIsFresh(issued, lane, ref, nextSequence, id);
      GrantKeeps(caps, State(), id, ref, occupied);
      nextSequence := nextSequence + 1;
      outstanding := outstanding[ref := CountOf(outstanding, ref) + 1];
      external := external[ref := occupied];
      leases := leases[id := ref];
      issued := issued + {id};
      return Ok(Lease(id, lane, ref));
    }

    /** Returns the slot of a live lease; releasing anything else is a no-op. */
    method Release(id: string)
      requires Valid()
      modifies this`outstanding, this`leases, this`external
      ensures Valid()
      ensures State() == old(State()).Returned(id) && leases == old(leases) - {id}
    {
      ReturnKeeps(caps, State(), id);
      if id !in leases {
        return;
      }
      var ref := leases[id];
      leases := leases - {id};
      var current := CountOf(outstanding, ref);
      if current > 0 {
        outstanding := outstanding[ref := current - 1];
      }
      if CountOf(outstanding, ref) == 0 {
        external := external - {ref};
      }
    }
  }

  lemma LiveLeasesFit(caps: map<string, nat>, ledger: Ledger)
    requires Sound(caps, ledger)
    ensures forall ref | ref in caps :: |LiveLeases(ledger.leases, ref)| <= caps[ref]
  {
    forall ref | ref in caps
      ensures |LiveLeases(ledger.leases, ref)| <= caps[ref]
    {
      assert CountOf(ledger.outstanding, ref) == |LiveLeases(ledger.leases, ref)|;
    }
  }

  /** Reserving and releasing any interleaving of lanes: a trace of the broker. */
  datatype Call = Reserve(lane: string, ref: string, externalInFlight: int) | Release(id: string)

  /** After any trace the live leases of every capped model fit its cap. */
  method Trace(caps: map<string, nat>, calls: seq<Call>) returns (broker: PolicyBroker)
    ensures broker.Valid()
    ensures forall ref | ref in caps :: |LiveLeases(broker.leases, ref)| <= caps[ref]
  {
    broker := new PolicyBroker(caps);
    for i := 0 to |calls|
      invariant fresh(broker) && broker.Valid() && broker.caps == caps
    {
      match calls[i] {
        case Reserve(lane, ref, n) => var _ := broker.Reserve(lane, ref, n);
        case Release(id) => broker.Release(id);
      }
    }
    LiveLeasesFit(caps, broker.State());
  }
}
