/**
 `SequenceReservation` of `sequence.py`, the stores `device.py` saves it to, and the proxy
 session that allocates from it, as the objects they are.
 */
module SequenceReservation {
  import opened Prelude
  import opened Sequence

  class SequenceStores {
    const dual: bool
    var stable: Option<Stored>
    var compatibility: Option<Stored>

    constructor (disk: Disk)
      ensures View() == disk
    {
      dual, stable, compatibility := disk.dual, disk.stable, disk.compatibility;
    }

    function View(): Disk
      reads this
    {
      Disk(stable, compatibility, dual)
    }

    /** `_async_load_sequence_stores` */
    method Load() returns (stored: Stored)
      ensures stored == LoadedStore(View())
    {
      var highWaters: seq<nat> := [];
      if HighWater(stable).Some? {
        highWaters := highWaters + [HighWater(stable).value];
      }
      if dual && HighWater(compatibility).Some? {
        highWaters := highWaters + [HighWater(compatibility).value];
      }
      if |highWaters| == 0 {
        return Stored(None, None);
      }
      var high := if |highWaters| == 1 then highWaters[0] else Max(highWaters[0], highWaters[1]);
      return Stored(Some(high), Some(high));
    }

    /** `_async_save_sequence_stores` */
    method Save(data: Stored, stableFate: Fate, compatibilityFate: Fate) returns (ok: bool)
      modifies this
      ensures (View(), ok) == Sequence.Save(old(View()), data, stableFate, compatibilityFate)
    {
      if !stableFate.RaisedBefore? {
        stable := Some(data);
      }
      if !stableFate.Saved? {
        return false;
      }
      if dual {
        if !compatibilityFate.RaisedBefore? {
          compatibility := Some(data);
        }
        return compatibilityFate.Saved?;
      }
      return true;
    }
  }

  class SequenceReservation {
    const blockSize: Block
    const stores: SequenceStores
    var nextSequence: nat
    var reservedUntil: nat

    constructor Create(stored: Stored, stores: SequenceStores, blockSize: Block, minimumSequence: nat)
      ensures this.stores == stores && this.blockSize == blockSize
      ensures nextSequence == reservedUntil == Created(stored, minimumSequence, blockSize)
    {
      this.stores, this.blockSize := stores, blockSize;
      var next: nat;
      if stored.reservedUntil.Some? {
        next := Max(stored.reservedUntil.value, minimumSequence);
      } else if stored.sequence.Some? {
        next := Max(stored.sequence.value + blockSize, minimumSequence);
      } else {
        var minimum := Max(minimumSequence, blockSize);
        next := RoundUp(minimum, blockSize);
      }
      nextSequence, reservedUntil := next, next;
    }

    method EnsureReserved(sequence: int, stableFate: Fate, compatibilityFate: Fate) returns (ok: bool)
      modifies this`reservedUntil, stores
      ensures (stores.View(), reservedUntil, ok)
              == Sequence.EnsureReserved(old(stores.View()), old(reservedUntil), blockSize, sequence, stableFate,
                                         compatibilityFate)
    {
      if sequence < 0 || sequence > MAX_SEQUENCE {
        return false;
      }
      if sequence < reservedUntil {
        return true;
      }
      var until := Min(sequence + blockSize, SEQUENCE_SPACE);
      ok := stores.Save(Stored(Some(until), Some(until)), stableFate, compatibilityFate);
      if ok {
        reservedUntil := until;
      }
    }

    method MarkNext(sequence: nat)
      modifies `nextSequence
      ensures nextSequence == sequence
    {
      nextSequence := sequence;
    }
  }

  /** The allocating side of one `ProxyClient`, wired to its device's reservation. */
  class ProxySequence {
    const reservation: SequenceReservation
    var seq_: nat

    /** A session starts where the device's last one stopped. */
    constructor (reservation: SequenceReservation)
      ensures this.reservation == reservation && seq_ == reservation.nextSequence
    {
      this.reservation, seq_ := reservation, reservation.nextSequence;
    }

    ghost function View(): State
      reads this, reservation, reservation.stores
    {
      State(reservation.stores.View(), Some(Process(reservation.reservedUntil, seq_)), reservation.blockSize)
    }

    /** `_next_seq` */
    method NextSeq(stableFate: Fate, compatibilityFate: Fate) returns (n: Option<nat>)
      requires seq_ == reservation.nextSequence
      modifies this, reservation, reservation.stores
      ensures (View(), n) == Step(old(View()), Allocate(stableFate, compatibilityFate))
      ensures seq_ == reservation.nextSequence
    {
      if seq_ > MAX_SEQUENCE {
        return None;
      }
      var ok := reservation.EnsureReserved(seq_, stableFate, compatibilityFate);
      if !ok {
        return None;
      }
      n := Some(seq_);
      seq_ := seq_ + 1;
      reservation.MarkNext(seq_);
    }
  }
}
