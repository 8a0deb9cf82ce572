/** The reservation document and the three predicates its compare-and-set updates use. */
module Reservations {

  type Pid = string

  datatype HoldStatus = Held | Confirmed | Expired | Released

  const RESERVATION_TTL_MS := 90_000
  const MAX_PER_TICK := 100

  /** `paid` and `unpaid` are history: refunds of this hold that were executed, and refunds
      whose caller died between the status flip and the INCRBY. */
  datatype Hold = Hold(pid: Pid, qty: nat, status: HoldStatus, expiresAt: int, paid: nat, unpaid: nat)

  function NewHold(pid: Pid, qty: nat, now: int): Hold {
    Hold(pid, qty, Held, now + RESERVATION_TTL_MS, 0, 0)
  }

  predicate Confirmable(h: Hold, now: int) { h.status == Held && h.expiresAt > now }

  predicate Releasable(h: Hold) { h.status == Held }

  predicate Sweepable(h: Hold, now: int) { h.status == Held && h.expiresAt <= now }

  /** Units a hold keeps out of the pool. */
  function HeldUnits(h: Hold): nat {
    if h.status == Held || h.status == Confirmed then h.qty else 0
  }

  /** Units of `pid` that a hold keeps out of the pool. */
  function UnitsOf(pid: Pid): Hold -> int {
    (h: Hold) => if h.pid == pid then HeldUnits(h) else 0
  }

  /** A new hold can be confirmed for 90 seconds, and swept from then on. */
  lemma NewHoldLasts(pid: Pid, qty: nat, now: int, later: int)
    ensures
      var h := NewHold(pid, qty, now);
      && h.pid == pid && h.qty == qty && Releasable(h) && HeldUnits(h) == qty
      && (Confirmable(h, later) <==> later < now + 90_000)
      && (Sweepable(h, later) <==> later >= now + 90_000)
  {}
}
