/**
 The socket table of one DPDK worker: handles are slot numbers, closed slots are reused
 through an index-linked free list, and pins keep a closed slot from being reused.
 */
module SocketTable {
  import opened Bits

  const NO_SLOT: nat := 0xffff_ffff
  const NO_SOCKET: nat := 0
  const INT_MAX: int := 0x7fff_ffff

  datatype Slot = Slot(socket: nat, pins: nat, nextFree: nat)

  /** A Pin object, by name; a moved-from or reset one refers to no table. */
  datatype Pin = NoPin | Pin(name: nat, slot: nat)

  /** What a pin was taken on. */
  datatype Hold = Hold(slot: nat, socket: nat)

  predicate IsFree(s: Slot) { s.socket == NO_SOCKET && s.pins == 0 }

  /** Live and draining slots. */
  function Busy(slots: seq<Slot>): nat {
    if slots == [] then 0 else (if IsFree(slots[0]) then 0 else 1) + Busy(slots[1..])
  }

  lemma {:induction false} BusyBounds(slots: seq<Slot>)
    ensures Busy(slots) <= |slots|
    ensures Busy(slots) == |slots| <==> forall i | 0 <= i < |slots| :: !IsFree(slots[i])
  {
    if slots != [] {
      BusyBounds(slots[1..]);
      if Busy(slots) == |slots| {
        forall i | 0 <= i < |slots| ensures !IsFree(slots[i]) { assert i == 0 || slots[i] == slots[1..][i - 1]; }
      } else {
        var i :| 0 <= i < |slots| && IsFree(slots[i]);
      }
    }
  }

  /** The list of free slots that starts at index free. */
  ghost predicate Chain(slots: seq<Slot>, free: nat, list: seq<nat>)
    decreases |list|
  {
    if list == [] then free == NO_SLOT
    else free == list[0] && free < |slots| && Chain(slots, slots[free].nextFree, list[1..])
  }

  lemma {:induction false} ChainFrame(slots: seq<Slot>, slots': seq<Slot>, free: nat, list: seq<nat>)
    requires Chain(slots, free, list) && |slots| <= |slots'|
    requires forall i | i in list && i < |slots| :: slots'[i].nextFree == slots[i].nextFree
    ensures Chain(slots', free, list)
    decreases |list|
  {
    if list != [] { ChainFrame(slots, slots', slots[free].nextFree, list[1..]); }
  }

  /** The free list visits every free slot once and nothing else. */
  ghost predicate FreeOk(slots: seq<Slot>, free: nat, list: seq<nat>) {
    && Chain(slots, free, list)
    && (forall i, j | 0 <= i < j < |list| :: list[i] != list[j])
    && (forall i | 0 <= i < |list| :: list[i] < |slots| && IsFree(slots[list[i]]))
    && (forall i | 0 <= i < |slots| && IsFree(slots[i]) :: i in list)
  }

  /** A slot is taken off the list. */
  lemma FreeTake(slots: seq<Slot>, free: nat, list: seq<nat>, socket: nat)
    requires FreeOk(slots, free, list) && list != [] && socket != NO_SOCKET
    ensures free < |slots| && IsFree(slots[free])
    ensures FreeOk(slots[free := slots[free].(socket := socket)], slots[free].nextFree, list[1..])
  {
    var slots' := slots[free := slots[free].(socket := socket)];
    ChainFrame(slots, slots', slots[free].nextFree, list[1..]);
    forall i | 0 <= i < |slots'| && IsFree(slots'[i]) ensures i in list[1..] {
      assert i != free && i in list;
    }
    forall i | 0 <= i < |list[1..]| ensures list[1..][i] < |slots'| && IsFree(slots'[list[1..][i]]) {
      assert list[1..][i] == list[i + 1] != list[0];
    }
  }

  lemma FreeAppend(slots: seq<Slot>, free: nat, list: seq<nat>, s: Slot)
    requires FreeOk(slots, free, list) && !IsFree(s)
    ensures FreeOk(slots + [s], free, list)
  {
    ChainFrame(slots, slots + [s], free, list);
  }

  /** A slot changes without being on the list before or after. */
  lemma FreeUpdate(slots: seq<Slot>, free: nat, list: seq<nat>, k: nat, s: Slot)
    requires FreeOk(slots, free, list) && k < |slots| && !IsFree(slots[k]) && !IsFree(s)
    ensures FreeOk(slots[k := s], free, list)
  {
    ChainFrame(slots, slots[k := s], free, list);
  }

  /** A slot that becomes free is put in front of the list. */
  lemma FreeRecycle(slots: seq<Slot>, free: nat, list: seq<nat>, k: nat, s: Slot)
    requires FreeOk(slots, free, list) && k < |slots| && !IsFree(slots[k]) && IsFree(s) && s.nextFree == free
    ensures FreeOk(slots[k := s], k, [k] + list)
  {
    var slots', list' := slots[k := s], [k] + list;
    ChainFrame(slots, slots', free, list);
    assert list'[1..] == list;
    forall i | 0 <= i < |slots'| && IsFree(slots'[i]) ensures i in list' {
      assert i == k || i in list;
      assert list'[0] == k;
    }
  }

  function Holders(pins: map<nat, Hold>, slot: nat): set<nat> { set n | n in pins && pins[n].slot == slot }

  /** A pinned slot shows the socket the pin was taken on, or none. */
  ghost predicate PinOk(slots: seq<Slot>, h: Hold) {
    h.slot < |slots| && (slots[h.slot].socket == NO_SOCKET || slots[h.slot].socket == h.socket)
  }

  ghost predicate PinsOk(slots: seq<Slot>, pins: map<nat, Hold>) {
    && (forall n | n in pins :: PinOk(slots, pins[n]))
    && (forall i | 0 <= i < |slots| :: slots[i].pins == |Holders(pins, i)|)
  }

  lemma Unpinned(slots: seq<Slot>, pins: map<nat, Hold>, k: nat)
    requires PinsOk(slots, pins) && k < |slots| && slots[k].pins == 0
    ensures forall n | n in pins :: pins[n].slot != k
  {
    forall n | n in pins ensures pins[n].slot != k { assert n !in Holders(pins, k); }
  }

  /** A slot is closed, or opened while nothing pins it. */
  lemma PinsKeep(slots: seq<Slot>, pins: map<nat, Hold>, k: nat, s: Slot)
    requires PinsOk(slots, pins) && k < |slots| && s.pins == slots[k].pins
    requires s.socket == NO_SOCKET || slots[k].pins == 0
    ensures PinsOk(slots[k := s], pins)
  {
    if slots[k].pins == 0 { Unpinned(slots, pins, k); }
    forall n | n in pins ensures PinOk(slots[k := s], pins[n]) { assert PinOk(slots, pins[n]); }
  }

  lemma PinsAppend(slots: seq<Slot>, pins: map<nat, Hold>, s: Slot)
    requires PinsOk(slots, pins) && s.pins == 0
    ensures PinsOk(slots + [s], pins)
  {
    forall n | n in pins ensures PinOk(slots + [s], pins[n]) && pins[n].slot != |slots| {
      assert PinOk(slots, pins[n]);
    }
    assert Holders(pins, |slots|) == {};
  }

  lemma HoldersAdd(pins: map<nat, Hold>, n: nat, h: Hold, i: nat)
    requires n !in pins
    ensures |Holders(pins[n := h], i)| == |Holders(pins, i)| + if h.slot == i then 1 else 0
  {
    var s := Holders(pins, i);
    assert Holders(pins[n := h], i) == if h.slot == i then s + {n} else s;
  }

  lemma HoldersRemove(pins: map<nat, Hold>, n: nat, i: nat)
    requires n in pins
    ensures |Holders(pins, i)| == |Holders(pins - {n}, i)| + if pins[n].slot == i then 1 else 0
  {
    var s := Holders(pins - {n}, i);
    assert Holders(pins, i) == if pins[n].slot == i then s + {n} else s;
  }

  lemma PinsAdd(slots: seq<Slot>, pins: map<nat, Hold>, n: nat, h: Hold)
    requires PinsOk(slots, pins) && n !in pins && PinOk(slots, h)
    ensures PinsOk(slots[h.slot := slots[h.slot].(pins := slots[h.slot].pins + 1)], pins[n := h])
  {
    var slots', pins' := slots[h.slot := slots[h.slot].(pins := slots[h.slot].pins + 1)], pins[n := h];
    forall m | m in pins' ensures PinOk(slots', pins'[m]) { assert m != n ==> PinOk(slots, pins[m]); }
    forall i | 0 <= i < |slots'| ensures slots'[i].pins == |Holders(pins', i)| { HoldersAdd(pins, n, h, i); }
  }

  lemma PinsRemove(slots: seq<Slot>, pins: map<nat, Hold>, n: nat)
    requires PinsOk(slots, pins) && n in pins
    ensures var k := pins[n].slot; k < |slots| && 0 < slots[k].pins
    ensures var k := pins[n].slot; PinsOk(slots[k := slots[k].(pins := slots[k].pins - 1)], pins - {n})
  {
    var k := pins[n].slot;
    assert PinOk(slots, pins[n]);
    HoldersRemove(pins, n, k);
    var slots', pins' := slots[k := slots[k].(pins := slots[k].pins - 1)], pins - {n};
    forall m | m in pins' ensures PinOk(slots', pins'[m]) { assert PinOk(slots, pins[m]); }
    forall i | 0 <= i < |slots'| ensures slots'[i].pins == |Holders(pins', i)| { HoldersRemove(pins, n, i); }
  }

  /** Pins count holders only; the link to the next free slot does not matter to them. */
  lemma PinsLink(slots: seq<Slot>, pins: map<nat, Hold>, k: nat, next: nat)
    requires PinsOk(slots, pins) && k < |slots|
    ensures PinsOk(slots[k := slots[k].(nextFree := next)], pins)
  {
    forall n | n in pins ensures PinOk(slots[k := slots[k].(nextFree := next)], pins[n]) {
      assert PinOk(slots, pins[n]);
    }
  }

  class DpdkSocketTable {
    var first: int
    var capacity: nat
    var free: nat
    var slots: seq<Slot>
    ghost var freeList: seq<nat>
    ghost var pins: map<nat, Hold>

    ghost predicate Valid()
      reads this
    {
      && 0 <= first && first + capacity <= INT_MAX && |slots| <= capacity
      && FreeOk(slots, free, freeList) && PinsOk(slots, pins)
    }

    constructor (base: int, size: nat)
      requires 0 <= base && base + size <= INT_MAX
      ensures Valid() && first == base && capacity == size && slots == [] && pins == map[]
    {
      first, capacity, free, slots := base, size, NO_SLOT, [];
      freeList, pins := [], map[];
    }

    function Index(handle: int): nat
      reads this
    {
      if handle < first then NO_SLOT else handle - first
    }

    function Find(handle: int): nat
      reads this
    {
      var i := Index(handle);
      if i < |slots| then slots[i].socket else NO_SOCKET
    }

    /** Puts the socket into the slot at the head of the free list. */
    method Reuse(socket: nat) returns (index: nat)
      requires Valid() && socket != NO_SOCKET && freeList != []
      modifies this`slots, this`free, this`freeList
      ensures index < |old(slots)| && IsFree(old(slots)[index])
      ensures Valid() && slots == old(slots)[index := old(slots)[index].(socket := socket)]
    {
      index := free;
      FreeTake(slots, free, freeList, socket);
      PinsKeep(slots, pins, index, slots[index].(socket := socket));
      free := slots[index].nextFree;
      freeList := freeList[1..];
      slots := slots[index := slots[index].(socket := socket)];
    }

    /** Puts the socket into a new slot. */
    method Extend(socket: nat) returns (index: nat)
      requires Valid() && socket != NO_SOCKET && |slots| < capacity
      modifies this`slots
      ensures Valid() && index == |old(slots)| && slots == old(slots) + [Slot(socket, 0, NO_SLOT)]
    {
      index := |slots|;
      PinsAppend(slots, pins, Slot(socket, 0, NO_SLOT));
      FreeAppend(slots, free, freeList, Slot(socket, 0, NO_SLOT));
      slots := slots + [Slot(socket, 0, NO_SLOT)];
    }

    /** Fails only when every slot is live or draining; a new handle never names a pinned slot. */
    method Insert(socket: nat) returns (handle: int)
      requires Valid() && socket != NO_SOCKET
      modifies this`slots, this`free, this`freeList
      ensures Valid()
      ensures handle == -1 <==> Busy(old(slots)) == capacity
      ensures handle == -1 ==> slots == old(slots)
      ensures handle != -1 ==> first <= handle < first + capacity && Find(handle) == socket
      ensures handle != -1 ==> old(Find(handle)) == NO_SOCKET && forall n | n in pins :: pins[n].slot != handle - first
      ensures forall h | h != handle :: Find(h) == old(Find(h))
    {
      BusyBounds(slots);
      var index;
      if free != NO_SLOT {
        index := Reuse(socket);
      } else {
        if |slots| == capacity { return -1; }
        index := Extend(socket);
      }
      Unpinned(slots, pins, index);
      handle := first + index;
    }

    /** Counts one more pin on a slot that is not free. */
    method AddPin(k: nat, ghost name: nat, ghost hold: Hold)
      requires Valid() && name !in pins && hold.slot == k && PinOk(slots, hold) && !IsFree(slots[k])
      modifies this`slots, this`pins
      ensures Valid() && pins == old(pins)[name := hold] && |slots| == |old(slots)|
      ensures forall i | 0 <= i < |slots| :: slots[i].socket == old(slots)[i].socket
    {
      PinsAdd(slots, pins, name, hold);
      FreeUpdate(slots, free, freeList, k, slots[k].(pins := slots[k].pins + 1));
      pins := pins[name := hold];
      slots := slots[k := slots[k].(pins := slots[k].pins + 1)];
    }

    /** The pin is taken on the socket the handle names now. */
    method Acquire(handle: int, name: nat) returns (pin: Pin)
      requires Valid() && name !in pins
      modifies this`slots, this`pins
      ensures Valid()
      ensures pin == if old(Find(handle)) == NO_SOCKET then NoPin else Pin(name, handle - first)
      ensures pins == if pin.NoPin? then old(pins) else old(pins)[name := Hold(handle - first, old(Find(handle)))]
      ensures forall h :: Find(h) == old(Find(h))
    {
      if Find(handle) == NO_SOCKET { return NoPin; }
      var k := Index(handle);
      AddPin(k, name, Hold(k, slots[k].socket));
      pin := Pin(name, k);
    }

    /** A copy holds the same slot for the same socket, even if that is closed meanwhile. */
    method Copy(pin: Pin, name: nat) returns (copy: Pin)
      requires Valid() && name !in pins && Held(pin)
      modifies this`slots, this`pins
      ensures Valid()
      ensures copy == if pin.NoPin? then NoPin else Pin(name, pin.slot)
      ensures pins == if pin.NoPin? then old(pins) else old(pins)[name := old(pins)[pin.name]]
      ensures forall h :: Find(h) == old(Find(h))
    {
      if pin.NoPin? { return NoPin; }
      var k := pin.slot;
      assert PinOk(slots, pins[pin.name]);
      assert pin.name in Holders(pins, k);
      AddPin(k, name, pins[pin.name]);
      copy := Pin(name, k);
    }

    /** The pin is one of those the table handed out and that was not reset. */
    ghost predicate Held(pin: Pin)
      reads this
    {
      pin.NoPin? || (pin.name in pins && pins[pin.name].slot == pin.slot)
    }

    /** A pin resolves to the socket it was taken on or to none, whatever happened to the handle. */
    method Get(pin: Pin) returns (socket: nat)
      requires Valid() && Held(pin)
      ensures pin.NoPin? ==> socket == NO_SOCKET
      ensures pin.Pin? ==> socket == Find(first + pin.slot) && socket in {NO_SOCKET, pins[pin.name].socket}
    {
      if pin.NoPin? { return NO_SOCKET; }
      assert PinOk(slots, pins[pin.name]);
      socket := slots[pin.slot].socket;
    }

    /** Puts a slot, busy until just now as s, on the free list. */
    method Recycle(k: nat, ghost s: Slot)
      requires 0 <= first && first + capacity <= INT_MAX && |slots| <= capacity && k < |slots|
      requires PinsOk(slots, pins) && IsFree(slots[k])
      requires !IsFree(s) && FreeOk(slots[k := s], free, freeList)
      modifies this`slots, this`free, this`freeList
      ensures Valid() && slots == old(slots)[k := old(slots)[k].(nextFree := old(free))]
    {
      var t := slots[k].(nextFree := free);
      FreeRecycle(slots[k := s], free, freeList, k, t);
      assert slots[k := s][k := t] == slots[k := t];
      PinsLink(slots, pins, k, free);
      slots := slots[k := t];
      free := k;
      freeList := [k] + freeList;
    }

    /** A busy slot changes, and is recycled if that leaves it without socket and pins. */
    method Settle(k: nat, t: Slot)
      requires 0 <= first && first + capacity <= INT_MAX && |slots| <= capacity && k < |slots|
      requires FreeOk(slots, free, freeList) && !IsFree(slots[k]) && PinsOk(slots[k := t], pins)
      modifies this`slots, this`free, this`freeList
      ensures Valid() && |slots| == |old(slots)| && slots[k].socket == t.socket
      ensures forall i | 0 <= i < |slots| && i != k :: slots[i] == old(slots)[i]
    {
      ghost var s := slots[k];
      if IsFree(t) {
        assert slots[k := t][k := s] == slots;
        slots := slots[k := t];
        Recycle(k, s);
      } else {
        FreeUpdate(slots, free, freeList, k, t);
        slots := slots[k := t];
      }
    }

    /** The last pin of a closed socket gives the slot back. */
    method Reset(pin: Pin)
      requires Valid() && Held(pin)
      modifies this`slots, this`pins, this`free, this`freeList
      ensures Valid() && pins == if pin.NoPin? then old(pins) else old(pins) - {pin.name}
      ensures forall h :: Find(h) == old(Find(h))
    {
      if pin.NoPin? { return; }
      PinsRemove(slots, pins, pin.name);
      pins := pins - {pin.name};
      Settle(pin.slot, slots[pin.slot].(pins := slots[pin.slot].pins - 1));
    }

    /** Gives the transport up; the slot itself only when nothing pins it. */
    method Close(handle: int) returns (socket: nat)
      requires Valid()
      modifies this`slots, this`free, this`freeList
      ensures Valid() && socket == old(Find(handle)) && Find(handle) == NO_SOCKET && |slots| == |old(slots)|
      ensures forall h | h != handle :: Find(h) == old(Find(h))
    {
      var k := Index(handle);
      if |slots| <= k { return NO_SOCKET; }
      socket := slots[k].socket;
      if socket == NO_SOCKET { return; }
      PinsKeep(slots, pins, k, slots[k].(socket := NO_SOCKET));
      Settle(k, slots[k].(socket := NO_SOCKET));
    }

    method CloseAll()
      requires Valid()
      modifies this`slots, this`free, this`freeList
      ensures Valid() && forall h :: Find(h) == NO_SOCKET
    {
      for i := 0 to |slots|
        invariant Valid() && |slots| == |old(slots)|
        invariant forall h | h < first + i :: Find(h) == NO_SOCKET
      {
        var socket := Close(first + i);
      }
    }
  }

  // ---------------------------------------------------------------- handle ranges

  const FIRST_HANDLE: nat := 0x4000_0000

  function HandleBits(maxWorkers: nat): (bits: nat)
    requires 0 < maxWorkers <= FIRST_HANDLE
  {
    Thirty();
    WidthFits(maxWorkers - 1, 30);
    30 - BitWidth(maxWorkers - 1)
  }

  /** The first handle of a worker and the number of handles it may give out. */
  function FirstOf(maxWorkers: nat, id: nat): nat
    requires 0 < maxWorkers <= FIRST_HANDLE
  {
    Or(FIRST_HANDLE, id * Exp(HandleBits(maxWorkers)))
  }

  function CapacityOf(maxWorkers: nat): nat
    requires 0 < maxWorkers <= FIRST_HANDLE
  {
    Exp(HandleBits(maxWorkers)) - 1
  }

  /** The workers' blocks of handles fit below the first handle's bit. */
  lemma BlockFits(maxWorkers: nat, id: nat)
    requires id < maxWorkers <= FIRST_HANDLE
    ensures id * Exp(HandleBits(maxWorkers)) + Exp(HandleBits(maxWorkers)) <= FIRST_HANDLE
  {
    var bits, width := HandleBits(maxWorkers), BitWidth(maxWorkers - 1);
    Thirty();
    WidthBounds(maxWorkers - 1);
    ExpSum(width, bits);
    MulStep(id, Exp(width), Exp(bits));
  }

  lemma FirstIs(maxWorkers: nat, id: nat)
    requires id < maxWorkers <= FIRST_HANDLE
    ensures FirstOf(maxWorkers, id) == FIRST_HANDLE + id * Exp(HandleBits(maxWorkers))
    ensures id * Exp(HandleBits(maxWorkers)) + Exp(HandleBits(maxWorkers)) <= FIRST_HANDLE
  {
    BlockFits(maxWorkers, id);
    Thirty();
    OrAbove(30, id * Exp(HandleBits(maxWorkers)));
  }

  /** The workers' ranges use all of the bits below the first handle, with the fewest for the worker. */
  lemma HandleSpaceIsUsed(maxWorkers: nat)
    requires 1 < maxWorkers <= FIRST_HANDLE
    ensures var width := BitWidth(maxWorkers - 1);
      Exp(width) * (CapacityOf(maxWorkers) + 1) == FIRST_HANDLE && maxWorkers <= Exp(width) < 2 * maxWorkers
  {
    var width := BitWidth(maxWorkers - 1);
    Thirty();
    WidthBounds(maxWorkers - 1);
    ExpSum(width, HandleBits(maxWorkers));
    WidthIsLeast(maxWorkers - 1);
  }

  lemma {:induction false} WidthIsLeast(n: nat)
    requires 0 < n
    ensures Exp(BitWidth(n)) <= 2 * n
  {
    if 1 < n { WidthIsLeast(n / 2); }
  }

  lemma HandlesFit(maxWorkers: nat, id: nat)
    requires id < maxWorkers <= FIRST_HANDLE
    ensures FIRST_HANDLE <= FirstOf(maxWorkers, id) && FirstOf(maxWorkers, id) + CapacityOf(maxWorkers) <= INT_MAX
  {
    FirstIs(maxWorkers, id);
  }

  lemma HandlesApart(maxWorkers: nat, id: nat, other: nat)
    requires id < other < maxWorkers <= FIRST_HANDLE
    ensures FirstOf(maxWorkers, id) + CapacityOf(maxWorkers) <= FirstOf(maxWorkers, other)
  {
    FirstIs(maxWorkers, id);
    FirstIs(maxWorkers, other);
    MulStep(id, other, Exp(HandleBits(maxWorkers)));
  }

  /** Every worker's handles are positive ints, and no two workers share one. */
  lemma HandleRanges(maxWorkers: nat, id: nat, other: nat)
    requires id < maxWorkers <= FIRST_HANDLE && other < maxWorkers
    ensures FIRST_HANDLE <= FirstOf(maxWorkers, id) && FirstOf(maxWorkers, id) + CapacityOf(maxWorkers) <= INT_MAX
    ensures id < other ==> FirstOf(maxWorkers, id) + CapacityOf(maxWorkers) <= FirstOf(maxWorkers, other)
  {
    HandlesFit(maxWorkers, id);
    if id < other { HandlesApart(maxWorkers, id, other); }
  }
}
