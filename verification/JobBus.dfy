/** Limits on open event streams (`JobBus` and `StreamSlot` in app/control/executor.py): a counter per subject that must
    agree with the slots that are handed out and not yet released. */
module JobBus {
  type Key = string

  /** The slots of a subject that are not released. */
  ghost function OpenFor(slots: set<StreamSlot>, key: Key): set<StreamSlot>
    reads slots
  {
    set s | s in slots && !s.released && s.key == key
  }

  ghost function Unreleased(slots: set<StreamSlot>): set<StreamSlot>
    reads slots
  {
    set s | s in slots && !s.released
  }

  lemma OneMore(slots: set<StreamSlot>, slot: StreamSlot, key: Key)
    requires slot !in slots && !slot.released
    ensures Unreleased(slots + {slot}) == Unreleased(slots) + {slot}
    ensures OpenFor(slots + {slot}, key) == OpenFor(slots, key) + if slot.key == key then {slot} else {}
  {}

  /** The counters are exactly the open slots, and no entry is kept for a subject without any. */
  ghost predicate Counts(streams: map<Key, nat>, slots: set<StreamSlot>)
    reads slots
  {
    && (forall k :: k in streams ==> streams[k] == |OpenFor(slots, k)| > 0)
    && (forall k :: OpenFor(slots, k) != {} ==> k in streams)
  }

  lemma CountIs(streams: map<Key, nat>, slots: set<StreamSlot>, key: Key)
    requires Counts(streams, slots)
    ensures |OpenFor(slots, key)| == if key in streams then streams[key] else 0
  {
    if key !in streams {
      assert OpenFor(slots, key) == {};
    }
  }

  lemma CountsOneMore(streams: map<Key, nat>, slots: set<StreamSlot>, slot: StreamSlot)
    requires Counts(streams, slots) && slot !in slots && !slot.released
    ensures Counts(streams[slot.key := |OpenFor(slots, slot.key)| + 1], slots + {slot})
  {
    forall k ensures OpenFor(slots + {slot}, k) == OpenFor(slots, k) + if slot.key == k then {slot} else {} {
      OneMore(slots, slot, k);
    }
  }

  class StreamSlot {
    const bus: Bus
    const key: Key
    var released: bool

    constructor (bus: Bus, key: Key)
      ensures this.bus == bus && this.key == key && !released
    {
      this.bus, this.key, released := bus, key, false;
    }

    /** May be called any number of times: only the first call gives the place back. */
    method Release()
      requires bus.Valid() && this in bus.issued
      modifies this`released, bus`streams
      ensures bus.Valid() && released && bus.issued == old(bus.issued)
      ensures bus.Open() == old(bus.Open()) - {this}
    {
      if !released {
        assert this in bus.OpenOf(key);
        released := true;
        forall k ensures bus.OpenOf(k) == if k == key then old(bus.OpenOf(k)) - {this} else old(bus.OpenOf(k)) {}
        assert old(bus.OpenOf(key)) == bus.OpenOf(key) + {this};
        bus.Free(this);
      }
    }
  }

  class Bus {
    var streams: map<Key, nat>
    ghost var issued: set<StreamSlot>

    constructor ()
      ensures Valid() && Open() == {}
    {
      streams, issued := map[], {};
    }

    /** The slots handed out and not released. */
    ghost function Open(): set<StreamSlot>
      reads this`issued, issued
    {
      Unreleased(issued)
    }

    ghost function OpenOf(key: Key): set<StreamSlot>
      reads this`issued, issued
    {
      OpenFor(issued, key)
    }

    ghost predicate Valid()
      reads this, issued
    {
      (forall s :: s in issued ==> s.bus == this) && Counts(streams, issued)
    }

    /** `active_streams`: the sum of the counters is the number of open slots. */
    method ActiveStreams() returns (total: nat)
      requires Valid()
      ensures total == |Open()|
    {
      total := 0;
      var rest := streams.Keys;
      ghost var counted: set<StreamSlot> := {};
      while rest != {}
        invariant rest <= streams.Keys
        invariant counted == set s | s in Open() && s.key !in rest
        invariant total == |counted|
        decreases |rest|
      {
        var k :| k in rest;
        rest := rest - {k};
        assert counted !! OpenOf(k);
        assert (set s | s in Open() && s.key !in rest) == counted + OpenOf(k);
        total := total + streams[k];
        counted := counted + OpenOf(k);
      }
      assert counted == Open() by {
        forall s | s in Open() ensures s in counted {
          assert s in OpenOf(s.key);
        }
      }
    }

    /** A slot is given exactly when the subject and the server are below their limits. */
    method OpenStream(key: Key, perKey: int, total: int) returns (slot: StreamSlot?)
      requires Valid()
      modifies this
      ensures Valid()
      ensures slot == null <==> |old(OpenOf(key))| >= perKey || |old(Open())| >= total
      ensures slot == null ==> Open() == old(Open())
      ensures slot != null ==> fresh(slot) && slot.key == key && slot.bus == this && !slot.released
      ensures slot != null ==> issued == old(issued) + {slot} && Open() == old(Open()) + {slot}
    {
      var active := ActiveStreams();
      var mine := if key in streams then streams[key] else 0;
      CountIs(streams, issued, key);
      if mine >= perKey || active >= total {
        return null;
      }
      ghost var before := issued;
      slot := Grant(key, mine);
      OneMore(before, slot, key);
    }

    method Grant(key: Key, mine: nat) returns (granted: StreamSlot)
      requires Valid() && mine == |OpenOf(key)|
      modifies this
      ensures Valid() && fresh(granted) && granted.key == key && granted.bus == this && !granted.released
      ensures issued == old(issued) + {granted}
    {
      ghost var before := issued;
      granted := new StreamSlot(this, key);
      CountsOneMore(streams, before, granted);
      streams := streams[key := mine + 1];
      issued := issued + {granted};
    }

    /** `_release`: the slot is already marked as released. */
    method Free(slot: StreamSlot)
      requires slot in issued && slot.released
      requires forall s :: s in issued ==> s.bus == this
      requires forall k :: k in streams ==>
          streams[k] == |OpenOf(k)| + (if k == slot.key then 1 else 0) && streams[k] > 0
      requires slot.key in streams && forall k :: OpenOf(k) != {} ==> k in streams
      modifies this`streams
      ensures Valid()
    {
      var left := streams[slot.key] - 1;
      if left > 0 {
        streams := streams[slot.key := left];
      } else {
        assert OpenOf(slot.key) == {};
        streams := streams - {slot.key};
      }
    }
  }
}
