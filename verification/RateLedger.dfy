/** The fixed-window counters that admit a key: one per key and minute, one per key and day. */
module RateLedger {
  type Id = x: nat | 0 < x witness 1

  /** A limit of zero or less does not limit. */
  datatype Limits = Limits(rpm: int, rpd: int) {
    predicate IsZero() {
      rpm <= 0 && rpd <= 0
    }
  }

  type Windows = map<(Id, nat), nat>

  datatype Counters = Counters(minutes: Windows, days: Windows)

  const MINUTE: nat := 60_000_000_000
  const DAY: nat := 86_400_000_000_000

  // ----- Specification; `now` is Unix time in nanoseconds -----

  function Count(w: Windows, id: Id, window: nat): nat {
    if (id, window) in w then w[(id, window)] else 0
  }

  function Bump(w: Windows, id: Id, window: nat): Windows {
    w[(id, window) := Count(w, id, window) + 1]
  }

  predicate Admits(c: Counters, id: Id, l: Limits, now: nat) {
    && (l.rpm > 0 ==> Count(c.minutes, id, now / MINUTE) < l.rpm)
    && (l.rpd > 0 ==> Count(c.days, id, now / DAY) < l.rpd)
  }

  function Recorded(c: Counters, id: Id, l: Limits, now: nat): Counters {
    Counters(if l.rpm > 0 then Bump(c.minutes, id, now / MINUTE) else c.minutes,
             if l.rpd > 0 then Bump(c.days, id, now / DAY) else c.days)
  }

  /** No window of any key holds more requests than its limit. */
  ghost predicate WithinLimits(c: Counters, l: Limits) {
    && (l.rpm > 0 ==> forall k :: k in c.minutes ==> c.minutes[k] <= l.rpm)
    && (l.rpd > 0 ==> forall k :: k in c.days ==> c.days[k] <= l.rpd)
  }

  /** Recording a request keeps every window within its limit exactly when the ledger admitted it. */
  lemma {:induction false} RecordWithinIff(c: Counters, id: Id, l: Limits, now: nat)
    requires WithinLimits(c, l)
    ensures WithinLimits(Recorded(c, id, l, now), l) <==> Admits(c, id, l, now)
  {
    var minute, day := now / MINUTE, now / DAY;
    if !Admits(c, id, l, now) {
      if l.rpm > 0 && Count(c.minutes, id, minute) >= l.rpm {
        assert (id, minute) in Recorded(c, id, l, now).minutes;
      } else {
        assert (id, day) in Recorded(c, id, l, now).days;
      }
    }
  }

  lemma {:induction false} NoLimitAdmits(c: Counters, id: Id, l: Limits, now: nat)
    ensures l.IsZero() ==> Admits(c, id, l, now) && Recorded(c, id, l, now) == c
  {
  }

  // ----- The ledger -----

  class Ledger {
    var minutes: Windows
    var days: Windows

    ghost function View(): Counters
      reads this
    {
      Counters(minutes, days)
    }

    constructor ()
      ensures View() == Counters(map[], map[])
    {
      minutes, days := map[], map[];
    }

    method Allow(id: Id, l: Limits, now: nat) returns (ok: bool)
      ensures ok <==> Admits(View(), id, l, now)
    {
      if l.IsZero() {
        return true;
      }
      if l.rpm > 0 {
        var n := Count(minutes, id, now / MINUTE);
        if n >= l.rpm {
          return false;
        }
      }
      if l.rpd > 0 {
        var n := Count(days, id, now / DAY);
        if n >= l.rpd {
          return false;
        }
      }
      ok := true;
    }

    method Record(id: Id, l: Limits, now: nat)
      modifies this
      ensures View() == Recorded(old(View()), id, l, now)
    {
      if l.IsZero() {
        return;
      }
      if l.rpm > 0 {
        minutes := Bump(minutes, id, now / MINUTE);
      }
      if l.rpd > 0 {
        days := Bump(days, id, now / DAY);
      }
    }
  }
}
