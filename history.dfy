/** Bounded measurement history: DataManager.
    A fixed array of MAX_POINTS data points used as a ring buffer: appends write at
    the cursor and advance it, the oldest point is overwritten once the buffer is
    full, and logical index 0 is the oldest retained point. */
module History {
  import opened Ints

  /** Capacity of the ring buffer (MAX_DATA_POINTS). */
  const MAX_POINTS: nat := 100

  datatype DataPoint = DataPoint(timestamp: uint32, thickness: uint16, risePercentage: real)

  /** The zeroed point `{0, 0, 0.0}`. */
  const EMPTY_POINT := DataPoint(0, 0, 0.0)

  function Min(a: nat, b: nat): nat {
    if a < b then a else b
  }

  /** Physical slot of logical index `index` (0 = oldest of the `count` retained points). */
  function Slot(writeIndex: nat, count: nat, index: nat): (slot: nat)
    requires writeIndex < MAX_POINTS && count <= MAX_POINTS
    ensures slot < MAX_POINTS
  {
    (writeIndex + MAX_POINTS - count + index) % MAX_POINTS
  }

  /** With the cursor at `appended % MAX_POINTS`, logical index `index` lives in the slot
      that the `(appended - count + index)`-th append wrote. */
  lemma SlotOfAppend(appended: nat, count: nat, index: nat)
    requires count <= appended && count <= MAX_POINTS && index < count
    ensures Slot(appended % MAX_POINTS, count, index) == (appended - count + index) % MAX_POINTS
  {
    var q := appended / MAX_POINTS;
    assert appended == q * MAX_POINTS + appended % MAX_POINTS;
    ModShift(appended - count + index, 1 - q);
  }

  lemma ModShift(x: int, k: int)
    requires x >= 0 && x + k * MAX_POINTS >= 0
    ensures (x + k * MAX_POINTS) % MAX_POINTS == x % MAX_POINTS
  {
  }

  /** Distinct retained points occupy distinct slots. */
  lemma SlotsDistinct(writeIndex: nat, count: nat, i: nat, j: nat)
    requires writeIndex < MAX_POINTS && count <= MAX_POINTS
    requires i < j < count
    ensures Slot(writeIndex, count, i) != Slot(writeIndex, count, j)
  {
    ResiduesDistinct(writeIndex + MAX_POINTS - count + i, writeIndex + MAX_POINTS - count + j);
  }

  /** Advancing the cursor modulo the capacity tracks the append count. */
  lemma NextSlot(k: nat)
    ensures (k % MAX_POINTS + 1) % MAX_POINTS == (k + 1) % MAX_POINTS
  {
  }

  lemma ResiduesDistinct(a: nat, b: nat)
    requires a < b < a + MAX_POINTS
    ensures a % MAX_POINTS != b % MAX_POINTS
  {
  }

  /** C++ `a % MAX_POINTS` on `int` truncates toward zero: the remainder takes the sign
      of `a`, and differs from the Euclidean one by `MAX_POINTS` when `a` is negative and
      not a multiple of it. */
  function TruncatedRemainder(a: int): (r: int)
    ensures -(MAX_POINTS as int) < r < MAX_POINTS
    ensures a >= 0 ==> r == a % MAX_POINTS
    ensures a < 0 ==> r == if a % MAX_POINTS == 0 then 0 else a % MAX_POINTS - MAX_POINTS
  {
    if a >= 0 then a % MAX_POINTS else -((-a) % MAX_POINTS)
  }

  /** The slot computed as written in getMeasurement: `(writeIndex - count + index) % MAX_POINTS`
      in signed `int`, then stored into a `uint16_t`. */
  function SlotAsWritten(writeIndex: nat, count: nat, index: nat): (slot: uint16)
    ensures writeIndex + index >= count ==> slot == (writeIndex - count + index) % MAX_POINTS
    ensures writeIndex + index < count && (count - writeIndex - index) % MAX_POINTS != 0 ==>
              slot == 0x1_0000 - (count - writeIndex - index) % MAX_POINTS
    ensures writeIndex + index < count && (count - writeIndex - index) % MAX_POINTS == 0 ==> slot == 0
  {
    ToUInt16(TruncatedRemainder(writeIndex - count + index))
  }

  /** Before the buffer first wraps the cursor equals the count, and the code as
      written agrees with the intended slot. */
  lemma SlotAsWrittenBeforeWrap(count: nat, index: nat)
    requires count < MAX_POINTS && index < count
    ensures SlotAsWritten(count, count, index) == Slot(count, count, index) == index
  {
  }

  /** Once the buffer is full, every index that would have to wrap around the end of
      the array gives a slot outside it. */
  lemma SlotAsWrittenEscapes(writeIndex: nat, index: nat)
    requires 0 < writeIndex + index < MAX_POINTS
    ensures SlotAsWritten(writeIndex, MAX_POINTS, index) == 0x1_0000 + writeIndex + index - MAX_POINTS
    ensures SlotAsWritten(writeIndex, MAX_POINTS, index) >= MAX_POINTS
  {
  }

  /** The last MAX_POINTS entries of `h` (all of them while there are fewer). */
  function Window(h: seq<DataPoint>): (w: seq<DataPoint>)
    ensures |w| == Min(|h|, MAX_POINTS)
  {
    h[|h| - Min(|h|, MAX_POINTS)..]
  }

  /** An append extends the window, dropping its oldest entry once it is full. */
  lemma WindowAppend(h: seq<DataPoint>, p: DataPoint)
    ensures Window(h + [p]) == if |h| < MAX_POINTS then Window(h) + [p] else Window(h)[1..] + [p]
  {
  }

  /** Each of the last MAX_POINTS entries of `h` sits in the slot of its append number. */
  ghost predicate Ring(buf: seq<DataPoint>, h: seq<DataPoint>)
    requires |buf| == MAX_POINTS
  {
    forall n :: |h| - Min(|h|, MAX_POINTS) <= n < |h| ==> buf[n % MAX_POINTS] == h[n]
  }

  /** Writing an append into the slot of its number keeps the ring. */
  lemma RingAppend(buf: seq<DataPoint>, h: seq<DataPoint>, p: DataPoint)
    requires |buf| == MAX_POINTS && Ring(buf, h)
    ensures Ring(buf[|h| % MAX_POINTS := p], h + [p])
  {
    var buf', h' := buf[|h| % MAX_POINTS := p], h + [p];
    forall n | |h'| - Min(|h'|, MAX_POINTS) <= n < |h'|
      ensures buf'[n % MAX_POINTS] == h'[n]
    {
      if n < |h| {
        ResiduesDistinct(n, |h|);
      }
    }
  }

  class DataManager {
    var buffer: array<DataPoint>
    var count: nat
    var writeIndex: nat
    var firstMeasurementTime: uint32
    /** Every point appended since the last reset, oldest first. */
    ghost var history: seq<DataPoint>

    ghost predicate Valid()
      reads this, buffer
    {
      && buffer.Length == MAX_POINTS
      && count == Min(|history|, MAX_POINTS)
      && writeIndex == |history| % MAX_POINTS
      && Ring(buffer[..], history)
      && (history != [] ==> firstMeasurementTime == history[0].timestamp)
    }

    /** The retained points, oldest first: the last `count` appends. */
    ghost function Retained(): seq<DataPoint>
      reads this
    {
      Window(history)
    }

    constructor ()
      ensures Valid() && fresh(buffer) && history == []
      ensures count == 0 && writeIndex == 0 && firstMeasurementTime == 0
      ensures forall k :: 0 <= k < MAX_POINTS ==> buffer[k] == EMPTY_POINT
    {
      buffer := new DataPoint[MAX_POINTS](_ => EMPTY_POINT);
      count, writeIndex, firstMeasurementTime := 0, 0, 0;
      history := [];
    }

    /** Zeroes the scalars; the slots keep their contents but none is retained. */
    method Begin()
      requires Valid()
      modifies this
      ensures Valid() && buffer == old(buffer) && history == []
      ensures count == 0 && writeIndex == 0 && firstMeasurementTime == 0
    {
      count := 0;
      writeIndex := 0;
      firstMeasurementTime := 0;
      history := [];
    }

    /** Appends a point stamped with the clock value `now`. */
    method AddMeasurement(thickness: uint16, risePercentage: real, now: uint32)
      requires Valid()
      modifies this, buffer
      ensures Valid() && buffer == old(buffer)
      ensures history == old(history) + [DataPoint(now, thickness, risePercentage)]
      ensures buffer[..] == old(buffer[..])[old(writeIndex) := DataPoint(now, thickness, risePercentage)]
      ensures firstMeasurementTime == if old(count) == 0 then now else old(firstMeasurementTime)
      ensures Retained() == if old(count) < MAX_POINTS
                            then old(Retained()) + [DataPoint(now, thickness, risePercentage)]
                            else old(Retained())[1..] + [DataPoint(now, thickness, risePercentage)]
    {
      var point := DataPoint(now, thickness, risePercentage);
      ghost var before := buffer[..];
      RingAppend(before, history, point);
      WindowAppend(history, point);
      if count == 0 {
        firstMeasurementTime := now;
      }
      buffer[writeIndex] := point;
      assert buffer[..] == before[writeIndex := point];
      NextSlot(|history|);
      var retained := count;
      if retained < MAX_POINTS {
        retained := retained + 1;
      }
      writeIndex, count, history := (writeIndex + 1) % MAX_POINTS, retained, history + [point];
    }

    function GetCount(): (n: uint16)
      reads this, buffer
      requires Valid()
      ensures n == |Retained()| <= MAX_POINTS
      ensures n == Min(|history|, MAX_POINTS)
    {
      count
    }

    /** The point at logical index `index`, or the zeroed point when there is none. */
    function GetMeasurement(index: uint16): (p: DataPoint)
      reads this, buffer
      requires Valid()
      ensures index < count ==> p == Retained()[index] == history[|history| - count + index]
      ensures index >= count ==> p == EMPTY_POINT
    {
      if index >= count then EMPTY_POINT
      else
        SlotOfAppend(|history|, count, index);
        buffer[Slot(writeIndex, count, index)]
    }

    function HasData(): (b: bool)
      reads this, buffer
      requires Valid()
      ensures b <==> history != []
    {
      count > 0
    }

    /** Thickness of the oldest retained point. */
    function GetInitialThickness(): (t: uint16)
      reads this, buffer
      requires Valid()
      ensures history == [] ==> t == 0
      ensures history != [] ==> t == Retained()[0].thickness
    {
      if count == 0 then 0 else GetMeasurement(0).thickness
    }

    /** Thickness of the most recent append. */
    function GetCurrentThickness(): (t: uint16)
      reads this, buffer
      requires Valid()
      ensures history == [] ==> t == 0
      ensures history != [] ==> t == history[|history| - 1].thickness
    {
      if count == 0 then 0 else GetMeasurement(count - 1).thickness
    }

    function GetCurrentRisePercentage(): (r: real)
      reads this, buffer
      requires Valid()
      ensures history == [] ==> r == 0.0
      ensures history != [] ==> r == history[|history| - 1].risePercentage
    {
      if count == 0 then 0.0 else GetMeasurement(count - 1).risePercentage
    }

    function GetLastMeasurementTime(): (t: uint32)
      reads this, buffer
      requires Valid()
      ensures history == [] ==> t == 0
      ensures history != [] ==> t == history[|history| - 1].timestamp
    {
      if count == 0 then 0 else GetMeasurement(count - 1).timestamp
    }

    /** Seconds since the first append after the last reset, in `unsigned long` arithmetic,
        with the clock value `now` as input. */
    function GetElapsedTime(now: uint32): (t: uint32)
      reads this, buffer
      requires Valid()
      ensures history == [] ==> t == 0
      ensures history != [] && now >= history[0].timestamp ==> t == now - history[0].timestamp
      ensures history != [] ==> t == ToUInt32(now - history[0].timestamp)
    {
      if count == 0 then 0 else ToUInt32(now - firstMeasurementTime)
    }

    /** Zeroes the scalars and every slot. */
    method Reset()
      requires Valid()
      modifies this, buffer
      ensures Valid() && buffer == old(buffer) && history == []
      ensures count == 0 && writeIndex == 0 && firstMeasurementTime == 0
      ensures forall k :: 0 <= k < MAX_POINTS ==> buffer[k] == EMPTY_POINT
    {
      count := 0;
      writeIndex := 0;
      firstMeasurementTime := 0;
      history := [];
      for i := 0 to MAX_POINTS
        modifies buffer
        invariant forall k :: 0 <= k < i ==> buffer[k] == EMPTY_POINT
      {
        buffer[i] := EMPTY_POINT;
      }
    }
  }

  /** After MAX_POINTS + k appends since a reset the buffer is full and logical index 0
      holds the (k+1)-th appended point. */
  lemma OldestAfterWrap(d: DataManager, k: nat)
    requires d.Valid() && |d.history| == MAX_POINTS + k
    ensures d.GetCount() == MAX_POINTS
    ensures d.GetMeasurement(0) == d.history[k]
    ensures d.GetMeasurement((MAX_POINTS - 1) as uint16) == d.history[|d.history| - 1]
  {
  }
}
