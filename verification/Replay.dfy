/** The sliding replay window of a peer channel: the highest sequence accepted so far and
    a bitmap of the 128 sequences ending there. The window is compared with a plain set of
    every sequence ever recorded. */
module Replay {
  import opened Prelude
  import opened U128

  datatype Window = Window(highest: Option<u64>, bitmap: u128)

  const EMPTY := Window(None, 0)

  predicate WouldAccept(w: Window, sequence: u64) {
    match w.highest
    case None => true
    case Some(highest) =>
      if sequence > highest then
        true
      else
        var distance := highest - sequence;
        distance < 128 && !TestBit(w.bitmap, distance)
  }

  /** The shift in the last case must stay below the width of the bitmap. */
  predicate ShiftInRange(w: Window, sequence: u64) {
    w.highest.Some? && sequence <= w.highest.value ==> w.highest.value - sequence < 128
  }

  function Record(w: Window, sequence: u64): Window
    requires ShiftInRange(w, sequence)
  {
    match w.highest
    case None => Window(Some(sequence), SetBit(0, 0))
    case Some(highest) =>
      if sequence > highest then
        var shift := sequence - highest;
        Window(Some(sequence), if shift >= 128 then SetBit(0, 0) else SetBit(ShiftLeft(w.bitmap, shift), 0))
      else
        Window(Some(highest), SetBit(w.bitmap, highest - sequence))
  }

  /** The window kept in place, as the peer owns it. */
  class ReplayWindow {
    var highest: Option<u64>
    var bitmap: u128

    constructor ()
      ensures View() == EMPTY
    {
      highest, bitmap := None, 0;
    }

    function View(): Window
      reads this
    {
      Window(highest, bitmap)
    }

    method Accepts(sequence: u64) returns (accept: bool)
      ensures accept <==> WouldAccept(View(), sequence)
    {
      if highest.None? {
        return true;
      }
      if sequence > highest.value {
        return true;
      }
      var distance := highest.value - sequence;
      return distance < 128 && !TestBit(bitmap, distance);
    }

    method Mark(sequence: u64)
      requires ShiftInRange(View(), sequence)
      modifies this
      ensures View() == Record(old(View()), sequence)
    {
      match highest
      case None =>
        highest := Some(sequence);
        bitmap := SetBit(0, 0);
      case Some(top) =>
        if sequence > top {
          var shift := sequence - top;
          if shift >= 128 {
            bitmap := SetBit(0, 0);
          } else {
            bitmap := SetBit(ShiftLeft(bitmap, shift), 0);
          }
          highest := Some(sequence);
        } else {
          bitmap := SetBit(bitmap, top - sequence);
        }
    }
  }

  // --- The set of recorded sequences -------------------------------------------------

  /** The sequence is no more than 127 below everything recorded. */
  ghost predicate Recent(recorded: set<u64>, sequence: u64) {
    forall s | s in recorded :: s < sequence + 128
  }

  /** `w` is the window reached by recording exactly the sequences in `recorded`. */
  ghost predicate Represents(w: Window, recorded: set<u64>) {
    match w.highest
    case None => recorded == {}
    case Some(highest) =>
      && highest in recorded
      && (forall s | s in recorded :: s <= highest)
      && forall k: nat | k < 128 :: TestBit(w.bitmap, k) <==> (k <= highest && highest - k in recorded)
  }

  /** Exactly the sequences that were never recorded and are recent enough are accepted. */
  lemma AcceptsExactlyTheFresh(w: Window, recorded: set<u64>, sequence: u64)
    requires Represents(w, recorded)
    ensures WouldAccept(w, sequence) <==> sequence !in recorded && Recent(recorded, sequence)
  {
    if w.highest.Some? && sequence <= w.highest.value {
      var highest := w.highest.value;
      var distance := highest - sequence;
      if distance < 128 {
        assert highest - distance == sequence;
        assert TestBit(w.bitmap, distance) <==> sequence in recorded;
      } else {
        assert highest in recorded && highest >= sequence + 128;
      }
    }
  }

  /** Recording keeps the window and the set in step, whatever the size of the shift. */
  lemma RecordRepresents(w: Window, recorded: set<u64>, sequence: u64)
    requires Represents(w, recorded) && WouldAccept(w, sequence)
    ensures Represents(Record(w, sequence), recorded + {sequence})
  {
    AcceptsExactlyTheFresh(w, recorded, sequence);
    var next := Record(w, sequence);
    var highest := next.highest.value;
    forall k: nat | k < 128
      ensures TestBit(next.bitmap, k) <==> (k <= highest && highest - k in recorded + {sequence})
    {
      RecordBit(w, recorded, sequence, k);
    }
  }

  lemma RecordBit(w: Window, recorded: set<u64>, sequence: u64, k: nat)
    requires Represents(w, recorded) && ShiftInRange(w, sequence) && k < 128
    ensures
      var next := Record(w, sequence);
      var highest := next.highest.value;
      TestBit(next.bitmap, k) <==> (k <= highest && highest - k in recorded + {sequence})
  {
    SetBitBit(0, 0, k);
    ZeroBit(k);
    if w.highest.Some? {
      var highest := w.highest.value;
      if sequence > highest {
        var shift := sequence - highest;
        if shift < 128 {
          SetBitBit(ShiftLeft(w.bitmap, shift), 0, k);
          ShiftLeftBit(w.bitmap, shift, k);
          if shift <= k {
            assert sequence - k == highest - (k - shift);
          } else if 0 < k {
            assert sequence - k > highest;
          }
        } else if 0 < k {
          assert sequence - k > highest;
        }
      } else {
        SetBitBit(w.bitmap, highest - sequence, k);
      }
    }
  }

  // --- Whole runs --------------------------------------------------------------------

  /** Offers are checked and, when accepted, recorded, in the order they arrive. */
  function WindowAfter(offers: seq<u64>): Window {
    if offers == [] then
      EMPTY
    else
      var w := WindowAfter(offers[..|offers| - 1]);
      var s := offers[|offers| - 1];
      if WouldAccept(w, s) then Record(w, s) else w
  }

  /** The same run kept as a set that grows without bound and has no bitmap. */
  ghost function RecordedAfter(offers: seq<u64>): set<u64> {
    if offers == [] then
      {}
    else
      var recorded := RecordedAfter(offers[..|offers| - 1]);
      var s := offers[|offers| - 1];
      if s !in recorded && Recent(recorded, s) then recorded + {s} else recorded
  }

  /** The bitmap window answers every offer of every run as the unbounded set does. */
  lemma {:induction false} WindowRefinesSet(offers: seq<u64>, next: u64)
    ensures Represents(WindowAfter(offers), RecordedAfter(offers))
    ensures
      var recorded := RecordedAfter(offers);
      WouldAccept(WindowAfter(offers), next) <==> next !in recorded && Recent(recorded, next)
  {
    if offers != [] {
      var before := offers[..|offers| - 1];
      var s := offers[|offers| - 1];
      WindowRefinesSet(before, s);
      if WouldAccept(WindowAfter(before), s) {
        RecordRepresents(WindowAfter(before), RecordedAfter(before), s);
      }
    }
    AcceptsExactlyTheFresh(WindowAfter(offers), RecordedAfter(offers), next);
  }
}
