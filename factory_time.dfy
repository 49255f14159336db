/** The factory clock of the production resolver: a time is a day and a
    time slot within it, with twelve slots to a day. Both fields are `u32`;
    an arithmetic overflow or underflow panics, which the model makes an
    explicit outcome (`Eval.Panic`) rather than a precondition. */
module FactoryClock {
  import opened RustInts
  import opened Wrappers

  /** Number of time slots in one factory day. */
  const TIME_SLOTS_IN_DAY: u32 := 12
  /** The slot in which finished orders are delivered. */
  const DELIVERY_WINDOW: u32 := 9

  /** A point on the factory clock; `FactoryTime::new(day, slot)` is the
      constructor `New`. Nothing forces `slot` below twelve. */
  datatype FactoryTime = New(day: u32, slot: u32)

  /** Why the Rust arithmetic panics (overflow checks of a debug build). */
  datatype ArithPanic = AddOverflow | SubOverflow

  /** The outcome of evaluating Rust arithmetic: a value, or a panic. */
  datatype Eval<+T> = Value(value: T) | Panic(reason: ArithPanic)

  /** The linear reading of a time: slots elapsed since slot 0 of day 0. */
  function Measure(t: FactoryTime): int {
    t.day as int * TIME_SLOTS_IN_DAY as int + t.slot as int
  }

  /** The slot does not spill into the next day (slot 12 still counts). */
  predicate WithinDay(t: FactoryTime) {
    t.slot <= TIME_SLOTS_IN_DAY
  }

  /** The time at which an order due on `dueDate` must be delivered. */
  function FromDueTime(dueDate: u32): (t: FactoryTime)
    ensures t.day == dueDate && t.slot == DELIVERY_WINDOW
    ensures WithinDay(t) && t.slot < TIME_SLOTS_IN_DAY
    ensures Measure(t) == dueDate as int * 12 + 9
  {
    New(dueDate, DELIVERY_WINDOW)
  }

  /** `self.checked_sub(rhs)`: subtraction with one borrow of a day.
      `Value(None)` when the day difference underflows, or when a borrow
      is needed and the day difference is at most one; a panic when the
      borrowed slot expression `slot + 12 - rhs.slot` leaves `u32`. */
  function CheckedSub(self: FactoryTime, rhs: FactoryTime): (r: Eval<Option<FactoryTime>>)
    ensures r == Value(None) <==>
              self.day < rhs.day
              || (self.slot < rhs.slot && self.day as int - rhs.day as int <= 1)
    ensures r.Panic? <==>
              && self.day as int >= rhs.day as int + 2
              && self.slot < rhs.slot
              && (self.slot as int + 12 > U32_MAX || rhs.slot as int > self.slot as int + 12)
    ensures r.Value? && r.value.Some? ==>
              && Measure(r.value.value) == Measure(self) - Measure(rhs)
              && r.value.value.day <= self.day
  {
    if self.day < rhs.day then Value(None)
    else
      var day := self.day - rhs.day;
      if rhs.slot <= self.slot then Value(Some(New(day, self.slot - rhs.slot)))
      else if day <= 1 then Value(None)
      else if self.slot as int + TIME_SLOTS_IN_DAY as int > U32_MAX then Panic(AddOverflow)
      else if self.slot as int + TIME_SLOTS_IN_DAY as int < rhs.slot as int then Panic(SubOverflow)
      else Value(Some(New(day - 1, (self.slot as int + TIME_SLOTS_IN_DAY as int - rhs.slot as int) as u32)))
  }

  /** Without a borrow the difference is taken field by field. */
  lemma CheckedSubComponentwise(self: FactoryTime, rhs: FactoryTime)
    requires rhs.day <= self.day && rhs.slot <= self.slot
    ensures CheckedSub(self, rhs) == Value(Some(New(self.day - rhs.day, self.slot - rhs.slot)))
  {
  }

  /** With a borrow, one day becomes twelve slots, provided more than one
      day separates the operands; a difference of exactly one day is
      refused even when its result would fit in day 0. */
  lemma CheckedSubBorrow(self: FactoryTime, rhs: FactoryTime)
    requires rhs.day <= self.day && self.slot < rhs.slot
    ensures self.day - rhs.day <= 1 ==> CheckedSub(self, rhs) == Value(None)
    ensures self.day - rhs.day > 1 && self.slot as int + 12 <= U32_MAX && rhs.slot as int <= self.slot as int + 12 ==>
              CheckedSub(self, rhs) == Value(Some(New(self.day - rhs.day - 1, self.slot + 12 - rhs.slot)))
  {
  }

  /** The refusal is real: from day 1 slot 0 back to day 0 slot 5 is seven
      slots, which day 0 slot 7 represents, yet the subtraction fails. */
  lemma CheckedSubRefusesOneDayBorrow()
    ensures Measure(New(1, 0)) - Measure(New(0, 5)) == Measure(New(0, 7))
    ensures CheckedSub(New(1, 0), New(0, 5)) == Value(None)
  {
  }

  /** On times within a day the subtraction never panics, and a result it
      gives is again within a day. */
  lemma CheckedSubWithinDay(self: FactoryTime, rhs: FactoryTime)
    requires WithinDay(self) && WithinDay(rhs)
    ensures CheckedSub(self, rhs).Value?
    ensures CheckedSub(self, rhs).value.Some? ==> WithinDay(CheckedSub(self, rhs).value.value)
  {
  }

  /** `self + rhs`: fieldwise sum with at most one carry, taken only when
      the slot sum exceeds twelve. Any `u32` overflow panics. */
  function Add(self: FactoryTime, rhs: FactoryTime): (r: Eval<FactoryTime>)
    ensures r.Panic? <==>
              var days := self.day as int + rhs.day as int;
              var slots := self.slot as int + rhs.slot as int;
              days > U32_MAX || slots > U32_MAX || (slots > 12 && days + 1 > U32_MAX)
    ensures r.Panic? ==> r.reason == AddOverflow
    ensures r.Value? ==> Measure(r.value) == Measure(self) + Measure(rhs)
    ensures r.Value? && WithinDay(self) && WithinDay(rhs) ==> WithinDay(r.value)
  {
    var day := self.day as int + rhs.day as int;
    if day > U32_MAX then Panic(AddOverflow)
    else
      var slot := self.slot as int + rhs.slot as int;
      if slot > U32_MAX then Panic(AddOverflow)
      else if slot > TIME_SLOTS_IN_DAY as int then
        if day + 1 > U32_MAX then Panic(AddOverflow)
        else Value(New((day + 1) as u32, (slot - TIME_SLOTS_IN_DAY as int) as u32))
      else Value(New(day as u32, slot as u32))
  }

  /** The carry happens once, and only past slot twelve. */
  lemma AddCarriesOnce(self: FactoryTime, rhs: FactoryTime)
    requires Add(self, rhs).Value?
    ensures self.slot as int + rhs.slot as int > 12 ==>
              Add(self, rhs).value == New(self.day + rhs.day + 1, self.slot + rhs.slot - 12)
    ensures self.slot as int + rhs.slot as int <= 12 ==>
              Add(self, rhs).value == New(self.day + rhs.day, self.slot + rhs.slot)
  {
  }

  /** Slot 12 is kept as it is: six slots plus six slots is slot 12 of the
      same day, not slot 0 of the next. */
  lemma AddKeepsSlotTwelve()
    ensures Add(New(0, 6), New(0, 6)) == Value(New(0, 12))
  {
  }

  /** The order of the operands does not matter. */
  lemma AddCommutes(a: FactoryTime, b: FactoryTime)
    ensures Add(a, b) == Add(b, a)
  {
  }

  /** Adding back what was subtracted restores the time, except when the
      subtraction borrowed from a time at slot 0: then the sum is slot 12
      of the previous day, the other spelling of the same instant. */
  lemma AddUndoesCheckedSub(a: FactoryTime, b: FactoryTime, d: FactoryTime)
    requires WithinDay(a)
    requires CheckedSub(a, b) == Value(Some(d))
    ensures a.slot == 0 && b.slot > 0 ==> a.day > 0 && Add(d, b) == Value(New(a.day - 1, 12))
    ensures !(a.slot == 0 && b.slot > 0) ==> Add(d, b) == Value(a)
    ensures Add(d, b).Value? && Measure(Add(d, b).value) == Measure(a)
  {
  }
}
