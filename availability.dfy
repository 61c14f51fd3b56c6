/** The hourly availability grid of the calendar adapter
    (`CalendarService.getAvailableSlots` / `getDefaultAvailableSlots`):
    ten one-hour slots from 08:00 to 18:00, each marked unavailable when a
    busy interval of whole hours covers its starting hour. */
module Availability {
  import opened Text

  /** First hour of the business day and the hour the loop stops before. */
  const OpenHour: int := 8
  const CloseHour: int := 18
  const SlotCount: nat := 10

  /** A busy period, reduced to the hours of its start and end. */
  datatype Busy = Busy(start: int, end: int)

  /** One entry of the grid as sent to the client. */
  datatype Slot = Slot(start: string, end: string, available: bool)

  /** The `"HH:00"` label of an hour: its decimal digits padded to two with
      zeros, followed by `":00"`. */
  function HourLabel(h: nat): (hhmm: string)
    ensures |hhmm| >= 5 && EndsWith(hhmm, ":00")
  {
    PadStart(Decimal(h), 2, '0') + ":00"
  }

  /** The hour a label names: its first two digits. */
  function LabelHour(s: string): (h: nat)
    requires |s| >= 2 && AllDigits(s[..2])
  {
    ParseDecimal(s[..2])
  }

  /** For the hours a day has, the label is exactly two digits then `":00"`. */
  lemma HourLabelShape(h: nat)
    requires h < 100
    ensures HourLabel(h) == [DigitChar(h / 10), DigitChar(h % 10), ':', '0', '0']
  {
    if h >= 10 {
      assert Decimal(h) == Decimal(h / 10) + [DigitChar(h % 10)];
    }
  }

  /** Reading a label back gives its hour. */
  lemma LabelRoundTrip(h: nat)
    requires h < 100
    ensures |HourLabel(h)| == 5 && AllDigits(HourLabel(h)[..2])
    ensures LabelHour(HourLabel(h)) == h
  {
    HourLabelShape(h);
    var d1, d2 := DigitChar(h / 10), DigitChar(h % 10);
    assert HourLabel(h)[..2] == [d1, d2];
    ParseTwoDigits(d1, d2);
    DigitValueOfChar(h / 10);
    DigitValueOfChar(h % 10);
  }

  /** Tens digit first, then units digit: the order of two-digit numbers. */
  lemma TwoDigitOrder(h1: nat, h2: nat)
    requires h1 < h2 < 100
    ensures h1 / 10 < h2 / 10 || (h1 / 10 == h2 / 10 && h1 % 10 < h2 % 10)
  {
  }

  /** A later hour gets a label that is later in string order too. */
  lemma LabelOrder(h1: nat, h2: nat)
    requires h1 < h2 < 100
    ensures LexLess(HourLabel(h1), HourLabel(h2))
  {
    var a, b := HourLabel(h1), HourLabel(h2);
    HourLabelShape(h1);
    HourLabelShape(h2);
    TwoDigitOrder(h1, h2);
    assert a[0] < b[0] || (a[0] == b[0] && a[1] < b[1]);
    LexLessAtFirstTwo(a, b);
  }

  /** The half-open test `hour >= busy.start && hour < busy.end`. */
  predicate Covers(b: Busy, h: int): (r: bool)
    ensures r ==> b.start < b.end && h != b.end
  {
    b.start <= h < b.end
  }

  /** `busySlots.some(busy => hour >= busy.start && hour < busy.end)`. */
  predicate AnyCovers(busy: seq<Busy>, h: int): (r: bool)
    ensures r <==> exists i :: 0 <= i < |busy| && Covers(busy[i], h)
  {
    if busy == [] then false else Covers(busy[0], h) || AnyCovers(busy[1..], h)
  }

  /** The scan agrees with its declarative reading. */
  lemma {:induction false} AnyCoversIff(busy: seq<Busy>, h: int)
    ensures AnyCovers(busy, h) <==> Occupied(busy, h)
  {
    if busy != [] {
      AnyCoversIff(busy[1..], h);
      assert forall b :: b in busy <==> b == busy[0] || b in busy[1..];
    }
  }

  /** A slot labelled for hour h. */
  predicate LabelledFor(s: Slot, h: nat) {
    s.start == HourLabel(h) && s.end == HourLabel(h + 1)
  }

  /** Whether some busy period covers h. */
  ghost predicate Occupied(busy: seq<Busy>, h: int) {
    exists b :: b in busy && Covers(b, h)
  }

  /** The first slots of an hourly grid, each with its own labels. */
  predicate GridPrefix(slots: seq<Slot>) {
    forall i :: 0 <= i < |slots| ==> LabelledFor(slots[i], OpenHour + i)
  }

  /** The slots are the hours 8..17 in order, with their own labels. */
  predicate HourlyGrid(slots: seq<Slot>) {
    |slots| == SlotCount && GridPrefix(slots)
  }

  /** A grid in which every slot is open. */
  predicate AllAvailable(slots: seq<Slot>) {
    forall i :: 0 <= i < |slots| ==> slots[i].available
  }

  /** A grid whose slot for hour h is open exactly when no busy period covers h. */
  ghost predicate FreeExactly(slots: seq<Slot>, busy: seq<Busy>) {
    forall i :: 0 <= i < |slots| ==> (slots[i].available <==> !Occupied(busy, OpenHour + i))
  }

  /** Appending the slot of the next hour keeps a grid prefix. */
  lemma GridPrefixGrows(slots: seq<Slot>, slot: Slot)
    requires GridPrefix(slots) && LabelledFor(slot, OpenHour + |slots|)
    ensures GridPrefix(slots + [slot])
  {
    var grown := slots + [slot];
    forall i | 0 <= i < |grown|
      ensures LabelledFor(grown[i], OpenHour + i)
    {
      if i < |slots| {
        assert grown[i] == slots[i];
      }
    }
  }

  /** `getDefaultAvailableSlots`: the all-open grid. */
  method DefaultAvailableSlots() returns (slots: seq<Slot>)
    ensures HourlyGrid(slots) && AllAvailable(slots)
  {
    slots := [];
    var hour := OpenHour;
    while hour < CloseHour
      invariant OpenHour <= hour <= CloseHour
      invariant |slots| == hour - OpenHour
      invariant GridPrefix(slots)
      invariant AllAvailable(slots)
    {
      var slot := Slot(HourLabel(hour), HourLabel(hour + 1), true);
      GridPrefixGrows(slots, slot);
      slots := slots + [slot];
      hour := hour + 1;
    }
  }

  /** The loop of `getAvailableSlots` over the busy periods of the day. */
  method SlotsFromBusy(busy: seq<Busy>) returns (slots: seq<Slot>)
    ensures HourlyGrid(slots) && FreeExactly(slots, busy)
  {
    slots := [];
    var hour := OpenHour;
    while hour < CloseHour
      invariant OpenHour <= hour <= CloseHour
      invariant |slots| == hour - OpenHour
      invariant GridPrefix(slots)
      invariant FreeExactly(slots, busy)
    {
      var isAvailable := !AnyCovers(busy, hour);
      AnyCoversIff(busy, hour);
      var slot := Slot(HourLabel(hour), HourLabel(hour + 1), isAvailable);
      GridPrefixGrows(slots, slot);
      slots := slots + [slot];
      hour := hour + 1;
    }
  }

  /** Two grids with the same hours and the same availability are the same
      value: the postconditions above determine the result completely. */
  lemma {:induction false} GridUnique(s1: seq<Slot>, s2: seq<Slot>)
    requires HourlyGrid(s1) && HourlyGrid(s2)
    requires forall i :: 0 <= i < SlotCount ==> s1[i].available == s2[i].available
    ensures s1 == s2
  {
    assert forall i :: 0 <= i < SlotCount ==> s1[i] == s2[i];
  }

  /** With no busy period the computed grid is exactly the default one. */
  lemma EmptyBusyIsDefault(computed: seq<Slot>, default: seq<Slot>)
    requires HourlyGrid(computed) && FreeExactly(computed, [])
    requires HourlyGrid(default) && AllAvailable(default)
    ensures computed == default
  {
    GridUnique(computed, default);
  }

  /** Each slot starts before it ends, both as hours and as labels, and the
      grid runs from "08:00" to "18:00". */
  lemma {:induction false} SlotsAreOrdered(slots: seq<Slot>, i: nat)
    requires HourlyGrid(slots) && i < |slots|
    ensures LabelHour(slots[i].start) == OpenHour + i
    ensures LabelHour(slots[i].end) == OpenHour + i + 1
    ensures LexLess(slots[i].start, slots[i].end)
    ensures i + 1 < |slots| ==> slots[i].end == slots[i + 1].start
    ensures slots[0].start == "08:00" && slots[|slots| - 1].end == "18:00"
  {
    LabelRoundTrip(OpenHour + i);
    LabelRoundTrip(OpenHour + i + 1);
    LabelOrder(OpenHour + i, OpenHour + i + 1);
    HourLabelShape(OpenHour);
    HourLabelShape(CloseHour);
  }

  /** An event over hours [9, 11) closes the 09:00 and 10:00 slots and no other. */
  lemma NineToEleven(slots: seq<Slot>)
    requires HourlyGrid(slots) && FreeExactly(slots, [Busy(9, 11)])
    ensures forall i :: 0 <= i < |slots| ==> (!slots[i].available <==> i == 1 || i == 2)
  {
    forall i | 0 <= i < |slots|
      ensures !slots[i].available <==> i == 1 || i == 2
    {
      assert Occupied([Busy(9, 11)], OpenHour + i) <==> Covers(Busy(9, 11), OpenHour + i);
    }
  }
}
