/** From an interrupt, or the arguments of SYS5, to a device semaphore. */
module DeviceRouting {
  import opened NucleusState

  const LINE3 := 3
  const LINE4 := 4
  const LINE5 := 5
  const LINE6 := 6
  const READY: bv32 := 1
  const LOW_BYTE: bv32 := 0xFF

  predicate Bit(w: bv32, i: nat)
    requires i < 32
  {
    (w >> i) & 1 == 1
  }

  /** The device registers that the nucleus reads: pending bits per line, and two status words per device. */
  datatype DeviceArea = DeviceArea(pending: seq<bv32>, received: seq<bv32>, transmitted: seq<bv32>) {
    predicate Valid() {
      |pending| == 5 && |received| == |transmitted| == 40
    }
  }

  /** findInterruptDevice */
  function FindInterruptDevice(bitMap: bv32): nat {
    if bitMap & 0x01 != 0 then 0
    else if bitMap & 0x02 != 0 then 1
    else if bitMap & 0x04 != 0 then 2
    else if bitMap & 0x08 != 0 then 3
    else if bitMap & 0x10 != 0 then 4
    else if bitMap & 0x20 != 0 then 5
    else if bitMap & 0x40 != 0 then 6
    else 7
  }

  /** The line that nonTimerInterruptHandler takes from the pending bits of the Cause register. */
  function PendingLine(cause: bv32): int {
    if cause & 0x0800 != 0 then LINE3
    else if cause & 0x1000 != 0 then LINE4
    else if cause & 0x2000 != 0 then LINE5
    else if cause & 0x4000 != 0 then LINE6
    else LINE7
  }

  /** Index in semaphoreDevices that nonTimerInterruptHandler performs its V operation on. */
  function InterruptIndex(line: int, dev: int, transmStatus: bv32): int {
    var index := (line - BASE_LINE) * DEV_PER_INT + dev;
    if line == LINE7 && transmStatus & LOW_BYTE != READY then index + DEV_PER_INT else index
  }

  lemma MaskIsBit(w: bv32)
    ensures w & 0x01 != 0 <==> Bit(w, 0)
    ensures w & 0x02 != 0 <==> Bit(w, 1)
    ensures w & 0x04 != 0 <==> Bit(w, 2)
    ensures w & 0x08 != 0 <==> Bit(w, 3)
    ensures w & 0x10 != 0 <==> Bit(w, 4)
    ensures w & 0x20 != 0 <==> Bit(w, 5)
    ensures w & 0x40 != 0 <==> Bit(w, 6)
    ensures w & 0x0200 != 0 <==> Bit(w, 9)
    ensures w & 0x0400 != 0 <==> Bit(w, 10)
    ensures w & 0x0800 != 0 <==> Bit(w, 11)
    ensures w & 0x1000 != 0 <==> Bit(w, 12)
    ensures w & 0x2000 != 0 <==> Bit(w, 13)
    ensures w & 0x4000 != 0 <==> Bit(w, 14)
  {
  }

  /** The device found is the first pending one on its line, provided one is pending. */
  lemma LeastDevice(bitMap: bv32)
    ensures FindInterruptDevice(bitMap) < DEV_PER_INT
    ensures forall i: nat | i < FindInterruptDevice(bitMap) :: !Bit(bitMap, i)
    ensures (exists i: nat :: i < DEV_PER_INT && Bit(bitMap, i)) ==> Bit(bitMap, FindInterruptDevice(bitMap))
  {
    MaskIsBit(bitMap);
    hide Bit;
    forall i: nat | i < FindInterruptDevice(bitMap) ensures !Bit(bitMap, i) {
      assert i == 0 || i == 1 || i == 2 || i == 3 || i == 4 || i == 5 || i == 6;
    }
  }

  /** Cause.IP of a line. */
  predicate LinePending(cause: bv32, line: nat)
    requires line < 8
  {
    Bit(cause, line + 8)
  }

  /** The line taken is the lowest pending device line, provided one is pending. */
  lemma LeastLine(cause: bv32)
    ensures BASE_LINE <= PendingLine(cause) <= LINE7
    ensures forall l: nat | BASE_LINE <= l < PendingLine(cause) :: !LinePending(cause, l)
    ensures (exists l: nat :: BASE_LINE <= l <= LINE7 && LinePending(cause, l)) ==> LinePending(cause, PendingLine(cause))
  {
    MaskIsBit(cause);
    forall l: nat | BASE_LINE <= l < PendingLine(cause) ensures !LinePending(cause, l) {
      assert l == 3 || l == 4 || l == 5 || l == 6;
    }
  }

  /** The line and device are the first that are pending; without any, the last there are. */
  ghost predicate FirstPending(cause: bv32, area: DeviceArea, line: nat, dev: nat)
    requires area.Valid()
  {
    && 3 <= line <= 7 && dev < 8
    && (forall l: nat | 3 <= l < line :: !LinePending(cause, l)) && (LinePending(cause, line) || line == 7)
    && var bitMap := area.pending[line - 3];
      (forall i: nat | i < dev :: !Bit(bitMap, i)) && (Bit(bitMap, dev) || dev == 7)
  }

  lemma FirstPendingUnique(cause: bv32, area: DeviceArea, l1: nat, d1: nat, l2: nat, d2: nat)
    requires area.Valid() && FirstPending(cause, area, l1, d1) && FirstPending(cause, area, l2, d2)
    ensures l1 == l2 && d1 == d2
  {
    hide Bit;
  }

  lemma DeviceFirst(bitMap: bv32)
    ensures var dev := FindInterruptDevice(bitMap);
      && dev < 8 && (forall i: nat | i < dev :: !Bit(bitMap, i)) && (Bit(bitMap, dev) || dev == 7)
  {
    LeastDevice(bitMap);
    MaskIsBit(bitMap);
    hide Bit;
  }

  lemma LineFirst(cause: bv32)
    ensures var line: int := PendingLine(cause);
      && 3 <= line <= 7 && (forall l: nat | 3 <= l < line :: !LinePending(cause, l)) && (LinePending(cause, line) || line == 7)
  {
    LeastLine(cause);
    MaskIsBit(cause);
  }

  /** The terminal transmitter of SYS5 is the one asked for with a read flag other than TRUE. */
  predicate Transmitter(line: int, read: int) {
    line == LINE7 && read != 1
  }

  /** Distinct sub-devices have distinct semaphores, and none of them is the clock's. */
  lemma SemIndexInjective(l1: int, d1: int, r1: int, l2: int, d2: int, r2: int)
    requires LegalDevice(l1, d1) && LegalDevice(l2, d2)
    ensures 0 <= SemIndex(l1, d1, r1) < CLOCK_INDEX
    ensures SemIndex(l1, d1, r1) == SemIndex(l2, d2, r2) <==>
      l1 == l2 && d1 == d2 && Transmitter(l1, r1) == Transmitter(l2, r2)
  {
  }

  /** Every index below the clock's belongs to a sub-device. */
  lemma SemIndexOnto(i: nat) returns (line: int, dev: int, read: int)
    requires i < CLOCK_INDEX
    ensures LegalDevice(line, dev) && SemIndex(line, dev, read) == i
  {
    if i < 40 {
      line, dev, read := BASE_LINE + i / DEV_PER_INT, i % DEV_PER_INT, 1;
    } else {
      line, dev, read := LINE7, i - 40, 0;
    }
  }

  /**
    An interrupt performs its V operation on the semaphore on which SYS5 waits for the same sub-device. Of a terminal
    that is the receiver if and only if the low byte of the transmitter's status is 1.
    */
  lemma InterruptMeetsWait(line: int, dev: int, read: int, transmStatus: bv32)
    requires LegalDevice(line, dev)
    ensures InterruptIndex(line, dev, transmStatus) == SemIndex(line, dev, read) <==>
      (line == LINE7 ==> (read != 1 <==> transmStatus & LOW_BYTE != READY))
    ensures line == 7 && transmStatus & 0xFF == 1 ==> InterruptIndex(line, dev, transmStatus) == SemIndex(line, dev, 1) == 32 + dev
    ensures line == 7 && transmStatus & 0xFF != 1 ==> InterruptIndex(line, dev, transmStatus) == SemIndex(line, dev, 0) == 40 + dev
    ensures line != 7 ==> InterruptIndex(line, dev, transmStatus) == SemIndex(line, dev, read) == (line - 3) * 8 + dev
  {
  }
}
