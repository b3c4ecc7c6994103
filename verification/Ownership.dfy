/**
  Single-owner-per-knob enforcement.  Releasing a knob removes its entry without
  looking at who holds it; the invariant below is why that is safe.
 */
module Ownership {
  import opened Wrappers

  datatype OwnerConflict = OwnerConflict(capabilityId: string, heldBy: string) {
    function Display(): string {
      "capability " + capabilityId + " is already owned by " + heldBy
    }
  }

  // ----- every interleaving of holders -------------------------------------------

  datatype Guard = Guard(capabilityId: string, owner: string)

  /** The ledger's map and the guards that holders, numbered, have not dropped yet. */
  datatype Ledger = Ledger(owners: map<string, string>, held: map<nat, Guard>)

  datatype Event =
    | Acquire(holder: nat, capabilityId: string, owner: string)
    | Drop(holder: nat)

  function Happen(l: Ledger, event: Event): Ledger {
    match event
    case Acquire(holder, c, owner) =>
      if holder in l.held || c in l.owners then l
      else Ledger(l.owners[c := owner], l.held[holder := Guard(c, owner)])
    case Drop(holder) =>
      if holder !in l.held then l
      else Ledger(l.owners - {l.held[holder].capabilityId}, l.held - {holder})
  }

  function History(events: seq<Event>): Ledger {
    if events == [] then Ledger(map[], map[])
    else Happen(History(events[..|events| - 1]), events[|events| - 1])
  }

  /** Entries and live guards correspond one to one. */
  ghost predicate Exclusive(l: Ledger) {
    && (forall h :: h in l.held ==>
          l.held[h].capabilityId in l.owners && l.owners[l.held[h].capabilityId] == l.held[h].owner)
    && (forall h, k :: h in l.held && k in l.held && l.held[h].capabilityId == l.held[k].capabilityId ==> h == k)
    && (forall c :: c in l.owners ==> exists h :: h in l.held && l.held[h].capabilityId == c)
  }

  lemma AcquireKeepsExclusive(l: Ledger, holder: nat, c: string, owner: string)
    requires Exclusive(l)
    ensures Exclusive(Happen(l, Acquire(holder, c, owner)))
  {
    var l' := Happen(l, Acquire(holder, c, owner));
    if l' != l {
      assert l'.held[holder] == Guard(c, owner) && l'.owners[c] == owner;
      assert forall h :: h in l.held ==> l.held[h].capabilityId != c;
      forall k | k in l'.owners
        ensures exists h :: h in l'.held && l'.held[h].capabilityId == k
      {
        if k != c {
          var h :| h in l.held && l.held[h].capabilityId == k;
          assert l'.held[h] == l.held[h];
        }
      }
    }
  }

  lemma DropKeepsExclusive(l: Ledger, holder: nat)
    requires Exclusive(l)
    ensures Exclusive(Happen(l, Drop(holder)))
  {
    var l' := Happen(l, Drop(holder));
    if l' != l {
      forall k | k in l'.owners
        ensures exists h :: h in l'.held && l'.held[h].capabilityId == k
      {
        var h :| h in l.held && l.held[h].capabilityId == k;
        assert h != holder && l'.held[h] == l.held[h];
      }
    }
  }

  lemma HappenKeepsExclusive(l: Ledger, event: Event)
    requires Exclusive(l)
    ensures Exclusive(Happen(l, event))
  {
    match event
    case Acquire(holder, c, owner) => AcquireKeepsExclusive(l, holder, c, owner);
    case Drop(holder) => DropKeepsExclusive(l, holder);
  }

  /** However holders interleave, the map's keys are exactly the knobs of live guards, one guard each. */
  lemma {:induction false} AlwaysExclusive(events: seq<Event>)
    ensures Exclusive(History(events))
  {
    if events != [] {
      AlwaysExclusive(events[..|events| - 1]);
      HappenKeepsExclusive(History(events[..|events| - 1]), events[|events| - 1]);
    }
  }

  /**
    A drop frees its own knob for the next owner and takes nobody else's, although
    it removes the map entry unconditionally.
   */
  lemma {:induction false} DropIsPrivate(events: seq<Event>, holder: nat)
    requires holder in History(events).held
    ensures var l, l' := History(events), History(events + [Drop(holder)]);
            && l'.held == l.held - {holder}
            && l.held[holder].capabilityId !in l'.owners
            && forall h :: h in l.held && h != holder ==>
                 l.held[h].capabilityId in l'.owners && l'.owners[l.held[h].capabilityId] == l.held[h].owner
  {
    AlwaysExclusive(events);
    assert (events + [Drop(holder)])[..|events|] == events;
  }

  // ----- the ledger in use --------------------------------------------------------

  /**
    The ledger as a shared object.  Its history is every acquire and drop so far,
    in the order of its lock; its map is what that history leaves, and its live
    guards are the holders that have not dropped.
   */
  class OwnershipLedger {
    var owners: map<string, string>
    ghost var guards: set<OwnershipGuard>
    ghost var history: seq<Event>

    ghost predicate Valid()
      reads this
    {
      var l := History(history);
      && owners == l.owners
      && (forall g :: g in guards ==>
            g.ledger == this && g.holder in l.held && l.held[g.holder] == Guard(g.capabilityId, g.owner))
      && (forall g, h :: g in guards && h in guards && g.holder == h.holder ==> g == h)
      && (forall h :: h in l.held ==> h < |history| && exists g :: g in guards && g.holder == h)
    }

    constructor ()
      ensures Valid() && owners == map[] && guards == {} && history == []
    {
      owners := map[];
      guards := {};
      history := [];
    }

    /** Takes a free knob, or reports who holds it and changes nothing. */
    method Acquire(capabilityId: string, owner: string) returns (r: Result<OwnershipGuard, OwnerConflict>)
      requires Valid()
      modifies this
      ensures Valid()
      ensures history == old(history) + [Event.Acquire(|old(history)|, capabilityId, owner)]
      ensures capabilityId in old(owners) ==>
                && r == Err(OwnerConflict(capabilityId, old(owners)[capabilityId]))
                && owners == old(owners) && guards == old(guards)
      ensures capabilityId !in old(owners) ==>
                && r.Ok? && fresh(r.value) && r.value.ledger == this
                && r.value.capabilityId == capabilityId && r.value.owner == owner
                && owners == old(owners)[capabilityId := owner] && guards == old(guards) + {r.value}
    {
      ghost var holder, before := |history|, History(history);
      history := history + [Event.Acquire(holder, capabilityId, owner)];
      assert history[..holder] == old(history);
      assert History(history) == Happen(before, Event.Acquire(holder, capabilityId, owner));
      if capabilityId in owners {
        return Err(OwnerConflict(capabilityId, owners[capabilityId]));
      }
      owners := owners[capabilityId := owner];
      var guard := new OwnershipGuard(this, capabilityId, owner, holder);
      guards := guards + {guard};
      forall h | h in History(history).held
        ensures exists g :: g in guards && g.holder == h
      {
        if h == holder {
          assert guard in guards && guard.holder == h;
        } else {
          ghost var g :| g in old(guards) && g.holder == h;
          assert g in guards;
        }
      }
      r := Ok(guard);
    }

    /** The owner of the one live guard of a knob, if there is one. */
    method OwnerOf(capabilityId: string) returns (r: Option<string>)
      requires Valid()
      ensures r.Some? <==> exists g :: g in guards && g.capabilityId == capabilityId
      ensures forall g :: g in guards && g.capabilityId == capabilityId ==> r == Some(g.owner)
    {
      AlwaysExclusive(history);
      r := if capabilityId in owners then Some(owners[capabilityId]) else None;
      if capabilityId in owners {
        ghost var h :| h in History(history).held && History(history).held[h].capabilityId == capabilityId;
        ghost var g :| g in guards && g.holder == h;
        assert g.capabilityId == capabilityId;
      }
    }
  }

  class OwnershipGuard {
    const ledger: OwnershipLedger
    const capabilityId: string
    ghost const owner: string
    ghost const holder: nat

    constructor (ledger: OwnershipLedger, capabilityId: string, ghost owner: string, ghost holder: nat)
      ensures this.ledger == ledger && this.capabilityId == capabilityId
      ensures this.owner == owner && this.holder == holder
    {
      this.ledger := ledger;
      this.capabilityId := capabilityId;
      this.owner := owner;
      this.holder := holder;
    }

    /** Releases this guard's knob; every other live guard keeps its own. */
    method Drop()
      requires ledger.Valid() && this in ledger.guards
      modifies ledger
      ensures ledger.Valid()
      ensures ledger.history == old(ledger.history) + [Event.Drop(holder)]
      ensures ledger.guards == old(ledger.guards) - {this}
      ensures ledger.owners == old(ledger.owners) - {capabilityId}
      ensures forall g :: g in ledger.guards ==>
                            g.capabilityId in ledger.owners && ledger.owners[g.capabilityId] == g.owner
    {
      ghost var l, before := ledger, ledger.history;
      DropIsPrivate(before, holder);
      ledger.history := before + [Event.Drop(holder)];
      assert ledger.history[..|before|] == before;
      ledger.owners := ledger.owners - {capabilityId};
      ledger.guards := ledger.guards - {this};
      forall h | h in History(l.history).held
        ensures exists g :: g in l.guards && g.holder == h
      {
        ghost var g :| g in old(l.guards) && g.holder == h;
        assert g in l.guards;
      }
    }
  }
}
