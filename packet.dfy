/**
 * The component slot table of a captured packet (`kis_packet` in packet.cc).
 *
 * A packet carries a fixed number of optional component slots. Each component says,
 * through its `selfDestruct` flag, whether the packet owns it: owned components are
 * released when they are erased from their slot and when the packet is destroyed.
 * Releasing is recorded in the ghost multiset `released`, so a component released
 * twice shows up twice.
 */
module Packet {
  import opened Wrappers

  /** Number of component slots of every packet (MAX_PACKET_COMPONENTS, packet.h). */
  const MAX_PACKET_COMPONENTS: nat := 64

  /** A packet component. Its identity is its address; the packet owns it iff `selfDestruct`. */
  class PacketComponent {
    const selfDestruct: bool

    constructor (selfDestruct: bool)
      ensures this.selfDestruct == selfDestruct
    {
      this.selfDestruct := selfDestruct;
    }
  }

  /** Why `Insert` refused its index (the source throws a runtime_error). */
  datatype PacketError = IndexOutOfBounds(index: nat)

  type Slots = seq<Option<PacketComponent>>

  /** What releasing the content of one slot frees: the component, if the packet owns it. */
  function Owned(slot: Option<PacketComponent>): multiset<PacketComponent>
  {
    if slot.Some? && slot.value.selfDestruct then multiset{slot.value} else multiset{}
  }

  /** What destroying a packet with these slots frees, slot by slot (see OwnedAllCount). */
  function OwnedAll(slots: Slots): multiset<PacketComponent>
  {
    if slots == [] then multiset{} else OwnedAll(slots[..|slots| - 1]) + Owned(slots[|slots| - 1])
  }

  /**
   * Destroying frees every self-destructing component once for every slot that holds it,
   * and frees nothing else.
   */
  lemma {:induction false} OwnedAllCount(slots: Slots, c: PacketComponent)
    ensures OwnedAll(slots)[c] == if c.selfDestruct then multiset(slots)[Some(c)] else 0
  {
    if slots != [] {
      var n := |slots| - 1;
      assert slots == slots[..n] + [slots[n]];
      OwnedAllCount(slots[..n], c);
    }
  }

  /** The slot table after `erase(index)`: the slot is emptied, an out-of-range index changes nothing. */
  function Erased(slots: Slots, index: nat): Slots
  {
    if index < |slots| then slots[index := None] else slots
  }

  /** What `erase(index)` releases: the slot's component, when it is there and owned. */
  function ReleasedByErase(slots: Slots, index: nat): multiset<PacketComponent>
  {
    if index < |slots| then Owned(slots[index]) else multiset{}
  }

  /** The content of slot `index` as `fetch` reports it: absent for an out-of-range index. */
  function SlotAt(slots: Slots, index: nat): Option<PacketComponent>
  {
    if index < |slots| then slots[index] else None
  }

  class KisPacket {
    var error: int
    var filtered: int
    var duplicate: int
    const contentVec: array<Option<PacketComponent>>
    /** Every component this packet has released so far, with multiplicity. */
    ghost var released: multiset<PacketComponent>

    ghost predicate Valid()
      reads this
    {
      contentVec.Length == MAX_PACKET_COMPONENTS
    }

    /** The slot table as a sequence. */
    ghost function Slots(): Slots
      reads this, contentVec
    {
      contentVec[..]
    }

    constructor ()
      ensures Valid() && fresh(contentVec)
      ensures forall i :: 0 <= i < MAX_PACKET_COMPONENTS ==> contentVec[i] == None
      ensures error == 0 && filtered == 0 && duplicate == 0
      ensures released == multiset{}
    {
      error, filtered, duplicate := 0, 0, 0;
      contentVec := new Option<PacketComponent>[MAX_PACKET_COMPONENTS](_ => None);
      released := multiset{};
    }

    /** Destruction: release every owned component still held in a slot. */
    method Destroy()
      requires Valid()
      modifies this`released
      ensures released == old(released) + OwnedAll(Slots())
    {
      var i := 0;
      while i < contentVec.Length
        invariant 0 <= i <= contentVec.Length
        invariant released == old(released) + OwnedAll(contentVec[..i])
      {
        var pcm := contentVec[i];
        if pcm.Some? && pcm.value.selfDestruct {
          released := released + multiset{pcm.value};
        }
        assert contentVec[..i + 1] == contentVec[..i] + [contentVec[i]];
        i := i + 1;
      }
      assert contentVec[..] == contentVec[..contentVec.Length];
    }

    /**
     * Store `data` in slot `index`. An index outside the table fails and changes nothing;
     * an occupied slot is overwritten without releasing what it held.
     */
    method Insert(index: nat, data: Option<PacketComponent>) returns (r: Outcome<PacketError>)
      requires Valid()
      modifies contentVec
      ensures Valid()
      ensures r == if index < MAX_PACKET_COMPONENTS then Pass else Fail(IndexOutOfBounds(index))
      ensures index < MAX_PACKET_COMPONENTS ==> Slots() == old(Slots())[index := data]
      ensures index >= MAX_PACKET_COMPONENTS ==> Slots() == old(Slots())
      ensures released == old(released)
    {
      if index >= MAX_PACKET_COMPONENTS {
        return Fail(IndexOutOfBounds(index));
      }
      contentVec[index] := data;
      r := Pass;
    }

    /** The component in slot `index`; absent for an empty slot or an index outside the table. */
    method Fetch(index: nat) returns (r: Option<PacketComponent>)
      requires Valid()
      ensures r == SlotAt(Slots(), index)
      ensures index >= MAX_PACKET_COMPONENTS ==> r == None
    {
      if index >= MAX_PACKET_COMPONENTS {
        return None;
      }
      r := contentVec[index];
    }

    /** Empty slot `index`, releasing its component if the packet owns it. */
    method Erase(index: nat)
      requires Valid()
      modifies contentVec, this`released
      ensures Valid()
      ensures Slots() == Erased(old(Slots()), index)
      ensures released == old(released) + ReleasedByErase(old(Slots()), index)
    {
      if index >= MAX_PACKET_COMPONENTS {
        return;
      }
      var pcm := contentVec[index];
      if pcm.Some? {
        if pcm.value.selfDestruct {
          released := released + multiset{pcm.value};
        }
        contentVec[index] := None;
      }
    }
  }

  /** After an insert at a valid index, fetch at that index returns what was inserted; other slots keep theirs. */
  lemma FetchAfterInsert(slots: Slots, index: nat, data: Option<PacketComponent>, other: nat)
    requires |slots| == MAX_PACKET_COMPONENTS && index < MAX_PACKET_COMPONENTS
    ensures SlotAt(slots[index := data], index) == data
    ensures other != index ==> SlotAt(slots[index := data], other) == SlotAt(slots, other)
  {
  }

  /** Erasing is idempotent: a second erase of the same slot changes nothing and releases nothing. */
  lemma EraseIdempotent(slots: Slots, index: nat)
    ensures Erased(Erased(slots, index), index) == Erased(slots, index)
    ensures ReleasedByErase(Erased(slots, index), index) == multiset{}
  {
  }

  /**
   * Erase then destroy releases exactly what destroying would have released alone:
   * a component is never released twice through one slot.
   */
  lemma {:induction false} EraseThenDestroy(slots: Slots, index: nat)
    ensures ReleasedByErase(slots, index) + OwnedAll(Erased(slots, index)) == OwnedAll(slots)
  {
    if index < |slots| {
      var n := |slots| - 1;
      var e := Erased(slots, index);
      var mine := Owned(slots[index]);
      assert OwnedAll(slots) == OwnedAll(slots[..n]) + Owned(slots[n]);
      assert OwnedAll(e) == OwnedAll(e[..n]) + Owned(e[n]);
      if index == n {
        assert e[..n] == slots[..n];
        assert Owned(e[n]) == multiset{};
      } else {
        assert e[..n] == Erased(slots[..n], index);
        assert e[n] == slots[n];
        EraseThenDestroy(slots[..n], index);
        assert ReleasedByErase(slots[..n], index) == mine;
      }
    }
  }

  /** A component that does not self-destruct is never released, whatever the slots hold. */
  lemma {:induction false} BorrowedNeverReleased(slots: Slots, index: nat, c: PacketComponent)
    requires !c.selfDestruct
    ensures c !in OwnedAll(slots) && c !in ReleasedByErase(slots, index)
  {
    OwnedAllCount(slots, c);
  }
}
