/** Secondary pacing (secondary.go): start slots are reserved under a mutex and waited out outside it. */
module Pacing {
  import opened Common
  import opened Http

  /**
    The slots granted to requests that arrive (take the mutex) at the given instants, one
    interval apart and never before the arrival.
   */
  function Slots(arrivals: seq<int>, interval: int): (slots: seq<int>)
    ensures |slots| == |arrivals|
  {
    if arrivals == [] then []
    else
      var before := Slots(arrivals[..|arrivals| - 1], interval);
      var now := arrivals[|arrivals| - 1];
      before + [if before == [] then now else Max(now, before[|before| - 1] + interval)]
  }

  /** A schedule in grant order that starts nobody early and keeps starts an interval apart. */
  ghost predicate Admissible(arrivals: seq<int>, interval: int, slots: seq<int>) {
    && |slots| == |arrivals|
    && (forall i :: 0 <= i < |slots| ==> slots[i] >= arrivals[i])
    && (forall i :: 0 < i < |slots| ==> slots[i] >= slots[i - 1] + interval)
  }

  lemma {:induction false} SlotsAdmissible(arrivals: seq<int>, interval: int)
    ensures Admissible(arrivals, interval, Slots(arrivals, interval))
  {
    if arrivals != [] {
      SlotsAdmissible(arrivals[..|arrivals| - 1], interval);
    }
  }

  /** Nobody waits longer than the spacing forces: the schedule is pointwise least. */
  lemma {:induction false} SlotsLeast(arrivals: seq<int>, interval: int, other: seq<int>)
    requires Admissible(arrivals, interval, other)
    ensures forall i :: 0 <= i < |arrivals| ==> Slots(arrivals, interval)[i] <= other[i]
  {
    if arrivals != [] {
      var n := |arrivals| - 1;
      SlotsLeast(arrivals[..n], interval, other[..n]);
    }
  }

  lemma {:induction false} Apart(arrivals: seq<int>, interval: int, slots: seq<int>, i: nat, j: nat)
    requires Admissible(arrivals, interval, slots) && i <= j < |slots|
    ensures slots[j] - slots[i] >= (j - i) * interval
    decreases j
  {
    if i < j {
      Apart(arrivals, interval, slots, i, j - 1);
      assert (j - i) * interval == (j - 1 - i) * interval + interval;
    }
  }

  /** Any window of length w holds at most w / interval + 1 slots. */
  lemma WindowBound(arrivals: seq<int>, interval: int, i: nat, j: nat, w: nat)
    requires interval > 0 && i <= j < |arrivals|
    requires Slots(arrivals, interval)[j] - Slots(arrivals, interval)[i] <= w
    ensures j - i + 1 <= w / interval + 1
  {
    var slots := Slots(arrivals, interval);
    SlotsAdmissible(arrivals, interval);
    Apart(arrivals, interval, slots, i, j);
    QuotientBound(j - i, interval, w);
  }

  lemma QuotientBound(k: nat, interval: int, w: nat)
    requires interval > 0 && k * interval <= w
    ensures k <= w / interval
  {
    var q := w / interval;
    assert w < (q + 1) * interval;
    assert k >= q + 1 ==> k * interval >= (q + 1) * interval;
  }

  /** Every request starts at its slot, or up to `late` after it: timers do not fire early. */
  ghost predicate StartsLate(slots: seq<int>, starts: seq<int>, late: nat) {
    |starts| == |slots| && forall i :: 0 <= i < |slots| ==> slots[i] <= starts[i] <= slots[i] + late
  }

  ghost predicate StartsApart(starts: seq<int>, interval: int) {
    forall i :: 0 < i < |starts| ==> starts[i] - starts[i - 1] >= interval
  }

  /**
    "Spaces the START of consecutive requests at least interval apart" (secondary.go:10-11): it
    spaces slots.  With timers up to `late` late, all starts they allow are an interval apart
    exactly when the arrivals leave that much more room between the slots.
   */
  lemma StartsApartIff(arrivals: seq<int>, interval: int, late: nat)
    ensures (forall starts :: StartsLate(Slots(arrivals, interval), starts, late) ==> StartsApart(starts, interval))
            <==> forall i :: 0 < i < |arrivals| ==>
                   Slots(arrivals, interval)[i] - Slots(arrivals, interval)[i - 1] >= interval + late
  {
    var slots := Slots(arrivals, interval);
    if i :| 0 < i < |arrivals| && slots[i] - slots[i - 1] < interval + late {
      var starts := slots[i - 1 := slots[i - 1] + late];
      assert StartsLate(slots, starts, late);
      assert starts[i] - starts[i - 1] < interval;
    }
  }

  /** The slot granted to the latest arrival. */
  function SlotOf(arrivals: seq<int>, interval: int): int
    requires arrivals != []
  {
    Slots(arrivals, interval)[|arrivals| - 1]
  }

  /**
    How an attempt fares whose slot is given: it waits if and only if the slot is still to
    come, goes out at once if it need not wait, after the slot if its wait is slept to the end,
    and never if that is cut short.
   */
  ghost predicate OnTime(slot: int, trip: Trip) {
    if slot <= trip.at then trip.pause == None && trip.start == Some(trip.at)
    else
      && trip.pause.Some? && trip.pause.value.d == slot - trip.at
      && (trip.start.Some? <==> trip.pause.value.ok)
      && (trip.start.Some? ==> trip.start.value >= slot)
  }

  /** Every attempt has a slot of its own in the one schedule, in the order of the attempts, and keeps to it. */
  ghost predicate Timely(interval: int, arrivals: seq<int>, trips: seq<Trip>) {
    if interval <= 0 then forall i :: 0 <= i < |trips| ==> OnTime(trips[i].at, trips[i])
    else
      && |arrivals| == |trips|
      && forall i :: 0 <= i < |trips| ==> arrivals[i] == trips[i].at && OnTime(Slots(arrivals, interval)[i], trips[i])
  }

  lemma SlotsMore(arrivals: seq<int>, interval: int, now: int)
    ensures SlotOf(arrivals + [now], interval) ==
            if arrivals == [] then now else Max(now, SlotOf(arrivals, interval) + interval)
  {
    assert (arrivals + [now])[..|arrivals|] == arrivals;
  }

  lemma TimelyMore(interval: int, arrivals: seq<int>, trips: seq<Trip>, trip: Trip)
    requires Timely(interval, arrivals, trips)
    requires OnTime(if interval > 0 then SlotOf(arrivals + [trip.at], interval) else trip.at, trip)
    ensures Timely(interval, if interval > 0 then arrivals + [trip.at] else arrivals, trips + [trip])
  {
    var more := arrivals + [trip.at];
    assert more[..|more| - 1] == arrivals;
  }

  /**
    The bottom of both stacks: the server, behind pacing when the interval is positive
    (client.go:66-70).
   */
  class PacingTransport {
    const interval: int
    const server: Server
    const clock: Clock
    var reserved: Option<int>
    ghost var arrivals: seq<int>

    /** `reserved` is the end of the last slot of the schedule; None is the zero time. */
    ghost predicate Scheduled()
      reads this
    {
      reserved == if arrivals == [] then None else Some(SlotOf(arrivals, interval) + interval)
    }

    ghost predicate Valid()
      reads this, server
    {
      server.Valid() && Scheduled() && Timely(interval, arrivals, server.trips)
    }

    /** An attempt that never went out had its wait cut short. */
    lemma Unsent()
      requires Valid()
      ensures forall i :: 0 <= i < |server.trips| && server.trips[i].start.None? ==>
                server.trips[i].reply.Fault? && server.trips[i].pause.Some? && !server.trips[i].pause.value.ok
    {
    }

    constructor (interval: int, server: Server, clock: Clock)
      requires server.Valid() && server.trips == []
      ensures Valid() && this.interval == interval && this.server == server && this.clock == clock
    {
      this.interval, this.server, this.clock := interval, server, clock;
      reserved := None;
      arrivals := [];
    }

    /** The critical section (secondary.go:47-56): it appends the next slot of the schedule. */
    method Reserve() returns (start: int)
      requires Scheduled()
      modifies this
      ensures Scheduled() && arrivals == old(arrivals) + [clock.now]
      ensures start == SlotOf(arrivals, interval) >= clock.now
    {
      var now := clock.now;
      start := if reserved.None? then now else reserved.value;
      if start < now {
        start := now;
      }
      SlotsMore(arrivals, interval, now);
      arrivals := arrivals + [now];
      reserved := Some(start + interval);
    }

    /**
      RoundTrip (secondary.go:41-71).  Without pacing the attempt goes out at once; otherwise it
      is given the next slot, waits exactly until then, and goes out unless that wait is cut
      short, when it never does and its slot stays spent.
     */
    method RoundTrip(req: Request) returns (reply: Reply, ghost trip: Trip)
      requires Valid()
      modifies this, server`trips, clock`now, clock`pauses, req`body
      ensures Valid() && server.trips == old(server.trips) + [trip] && clock.now >= old(clock.now)
      ensures trip.at == old(clock.now) && trip.verb == req.verb && trip.body == old(req.body) && trip.reply == reply
      ensures old(req.body).NoBody? ==> req.body.NoBody?
      ensures clock.pauses == old(clock.pauses) + PauseOf(trip)
      ensures trip.start.None? <==> trip.pause.Some? && !trip.pause.value.ok
      ensures trip.start.None? ==> reply.Fault? && req.body == old(req.body)
      ensures interval <= 0 ==> arrivals == old(arrivals) && trip.start == Some(old(clock.now))
      ensures interval > 0 ==> arrivals == old(arrivals) + [old(clock.now)] && OnTime(SlotOf(arrivals, interval), trip)
    {
      ghost var trips, asked := server.trips, arrivals;
      if interval <= 0 {
        reply, trip := server.RoundTrip(req, clock.now, None, clock);
      } else {
        reply, trip := Paced(req);
      }
      TimelyMore(interval, asked, trips, trip);
    }

    method Paced(req: Request) returns (reply: Reply, ghost trip: Trip)
      requires interval > 0 && server.Valid() && Scheduled()
      modifies this, server`trips, clock`now, clock`pauses, req`body
      ensures server.Valid() && Scheduled() && arrivals == old(arrivals) + [old(clock.now)]
      ensures server.trips == old(server.trips) + [trip] && clock.now >= old(clock.now)
      ensures trip.at == old(clock.now) && trip.verb == req.verb && trip.body == old(req.body) && trip.reply == reply
      ensures old(req.body).NoBody? ==> req.body.NoBody?
      ensures OnTime(SlotOf(arrivals, interval), trip)
      ensures trip.start.None? ==> reply.Fault? && req.body == old(req.body)
      ensures clock.pauses == old(clock.pauses) + PauseOf(trip)
    {
      var at := clock.now;
      var slot := Reserve();
      var wait := slot - at;
      var pause := None;
      if wait > 0 {
        var ok := clock.Pause(wait);
        pause := Some(Nap(wait, ok));
        if !ok {
          trip := server.Withhold(req, at, pause);
          return Fault, trip;
        }
      }
      reply, trip := server.RoundTrip(req, at, pause, clock);
    }
  }

  function PauseOf(trip: Trip): seq<Nap> {
    if trip.pause.Some? then [trip.pause.value] else []
  }

  /** The waits of these attempts, in order. */
  function Pauses(trips: seq<Trip>): seq<Nap> {
    if trips == [] then [] else Pauses(trips[..|trips| - 1]) + PauseOf(trips[|trips| - 1])
  }

  lemma PausesMore(trips: seq<Trip>, trip: Trip)
    ensures Pauses(trips + [trip]) == Pauses(trips) + PauseOf(trip)
  {
  }
}
