/** How late a delivery was: the service that stamps the task, and the evidence script that checks the
  * stamp. Instants are whole microseconds. */
module DeliveryTiming {
  import opened Wrappers

  const SECOND := 1_000_000
  const MINUTE := 60 * SECOND

  datatype Status = OnTime | Late | Unmeasurable

  datatype Stamp = Stamp(status: Status, lateBy: Option<int>)

  /** Whole minutes of a delay, rounded up by adding 59 seconds first, and never less than one. */
  function LateMinutes(delay: nat): nat
    requires delay > 0
  {
    var m := (delay + 59 * SECOND) / MINUTE;
    if m < 1 then 1 else m
  }

  /** `DeliveryTimingService.evaluate`. */
  function Evaluate(deadline: Option<int>, actual: int): Stamp {
    if deadline.None? then Stamp(Unmeasurable, None)
    else if actual <= deadline.value then Stamp(OnTime, Some(0))
    else Stamp(Late, Some(LateMinutes(actual - deadline.value)))
  }

  /** A delivery without a deadline is unmeasurable and has no delay; one at or before its deadline is on time
    * by no minutes at all; any other is late, by at least one. */
  lemma StampMeans(deadline: Option<int>, actual: int)
    ensures var s := Evaluate(deadline, actual);
            && (s == Stamp(Unmeasurable, None) <==> deadline.None?)
            && (s.status == OnTime <==> deadline.Some? && actual <= deadline.value)
            && (s.status == Late <==> deadline.Some? && actual > deadline.value)
            && (s.status == OnTime ==> s.lateBy == Some(0))
            && (s.status == Late ==> s.lateBy.Some? && s.lateBy.value >= 1)
  {
  }

  // ---- The minutes -----------------------------------------------------------------------------------

  /** The exact number of started minutes. */
  function Ceiling(delay: nat): nat {
    delay / MINUTE + (if delay % MINUTE == 0 then 0 else 1)
  }

  /** The reported minutes are within one second of the delay. */
  lemma MinutesAreClose(delay: nat)
    requires delay > 0
    ensures var m := LateMinutes(delay); m >= 1 && MINUTE * (m - 1) < delay < MINUTE * m + SECOND
  {
    var q, r := delay / MINUTE, delay % MINUTE;
    assert delay == MINUTE * q + r;
    assert (delay + 59 * SECOND) / MINUTE == if r < SECOND then q else q + 1;
  }

  /** They are the number of started minutes except when more than a minute has passed and less than a
    * second of the next one: that fraction is dropped. */
  lemma MinutesAreCeilingExactlyWhen(delay: nat)
    requires delay > 0
    ensures LateMinutes(delay) == Ceiling(delay) <==>
              delay < MINUTE || delay % MINUTE == 0 || delay % MINUTE >= SECOND
    ensures delay % SECOND == 0 ==> LateMinutes(delay) == Ceiling(delay)
  {
    var q, r := delay / MINUTE, delay % MINUTE;
    assert delay == MINUTE * q + r;
    assert (delay + 59 * SECOND) / MINUTE == if r < SECOND then q else q + 1;
    if delay % SECOND == 0 {
      assert delay == SECOND * (60 * q) + r;
      assert r % SECOND == 0;
    }
  }

  /** A delivery sixty and a half seconds late has started two minutes and is reported as one. */
  lemma HalfASecondIsDropped()
    ensures LateMinutes(60 * SECOND + SECOND / 2) == 1 && Ceiling(60 * SECOND + SECOND / 2) == 2
  {
  }

  lemma LaterIsNeverLess(delay: nat, longer: nat)
    requires 0 < delay <= longer
    ensures LateMinutes(delay) <= LateMinutes(longer)
  {
    MinutesAreClose(delay);
    MinutesAreClose(longer);
    var a, b := delay + 59 * SECOND, longer + 59 * SECOND;
    assert a == MINUTE * (a / MINUTE) + a % MINUTE && b == MINUTE * (b / MINUTE) + b % MINUTE;
  }

  // ---- The evidence script ----------------------------------------------------------------------------

  datatype Delivery = Delivery(deliveredAt: Option<int>, timing: Option<Status>, lateBy: Option<int>)

  /** The order as the API returns it. A missing or empty field is None. */
  datatype Order = Order(
    delivered: bool,
    windowStart: Option<int>,
    windowEnd: Option<int>,
    zone: Option<string>,
    delivery: Option<Delivery>
  )

  datatype Problem = NotDelivered | NoWindow | NoCompletion | NotMeasurable | StatusDiffers | MinutesDiffer

  /** The timing part of the script's decision. */
  method CheckTiming(o: Order) returns (failures: seq<Problem>)
    ensures NotDelivered in failures <==> !o.delivered
    ensures NoWindow in failures <==> o.windowStart.None? || o.windowEnd.None? || o.zone.None?
    ensures NoCompletion in failures <==> o.delivery.None? || o.delivery.value.deliveredAt.None?
    ensures NotMeasurable in failures <==> !Measurable(o)
    ensures StatusDiffers in failures <==> Comparable(o) && TimingOf(o) != Some(Expected(o).status)
    ensures MinutesDiffer in failures <==>
              Comparable(o) && Expected(o).status == Late && StoredMinutes(o) != Expected(o).lateBy.value
  {
    failures := [];
    if !o.delivered {
      failures := failures + [NotDelivered];
    }
    if o.windowStart.None? || o.windowEnd.None? || o.zone.None? {
      failures := failures + [NoWindow];
    }
    if o.delivery.None? || o.delivery.value.deliveredAt.None? {
      failures := failures + [NoCompletion];
    }
    var timing := if o.delivery.Some? then o.delivery.value.timing else None;
    if timing != Some(OnTime) && timing != Some(Late) {
      failures := failures + [NotMeasurable];
    }
    if o.windowEnd.Some? && o.delivery.Some? && o.delivery.value.deliveredAt.Some? {
      var deadline := o.windowEnd.value;
      var deliveredAt := o.delivery.value.deliveredAt.value;
      var expected := OnTime;
      var minutes := 0;
      if deliveredAt > deadline {
        expected := Late;
        minutes := (deliveredAt - deadline + 59 * SECOND) / MINUTE;
        if minutes < 1 {
          minutes := 1;
        }
      }
      if timing != Some(expected) {
        failures := failures + [StatusDiffers];
      }
      var stored := if o.delivery.value.lateBy.Some? then o.delivery.value.lateBy.value else 0;
      if expected == Late && stored != minutes {
        failures := failures + [MinutesDiffer];
      }
    }
  }

  function TimingOf(o: Order): Option<Status> {
    if o.delivery.Some? then o.delivery.value.timing else None
  }

  predicate Measurable(o: Order) {
    TimingOf(o) == Some(OnTime) || TimingOf(o) == Some(Late)
  }

  predicate Comparable(o: Order) {
    o.windowEnd.Some? && o.delivery.Some? && o.delivery.value.deliveredAt.Some?
  }

  function StoredMinutes(o: Order): int
    requires o.delivery.Some?
  {
    if o.delivery.value.lateBy.Some? then o.delivery.value.lateBy.value else 0
  }

  /** What the service would stamp. */
  function Expected(o: Order): (s: Stamp)
    requires Comparable(o)
    ensures s.lateBy.Some?
  {
    Evaluate(o.windowEnd, o.delivery.value.deliveredAt.value)
  }

  /** The script, which computes the outcome on its own, accepts every stamp of the service, and rejects
    * every other status, and every other number of minutes on a late delivery. */
  method CheckStamped(o: Order) returns (accepted: bool)
    requires Comparable(o)
    ensures accepted <==> TimingOf(o) == Some(Expected(o).status)
                          && (Expected(o).status == Late ==> StoredMinutes(o) == Expected(o).lateBy.value)
  {
    var failures := CheckTiming(o);
    accepted := StatusDiffers !in failures && MinutesDiffer !in failures && NotMeasurable !in failures;
  }
}
