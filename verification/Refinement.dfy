/** Undisturbed, the split confirmation does to the dates and histories what the command of the booking model does. */
module Refinement {
  import opened Domain
  import Deals
  import Evolution
  import opened Interleaving
  import Locks
  import Market

  /** The changes of a history; its first entry creates the booking. */
  function Changes(history: seq<Deals.Entry>): seq<(BookingStatus, BookingStatus)> {
    if history == [] then []
    else
      var last := history[|history| - 1];
      Changes(history[..|history| - 1]) + if last.before.Some? then [(last.before.value, last.after)] else []
  }

  predicate ShowsRow(d: Deals.Deal, row: Row) {
    && row.item == d.item && row.start == d.start && row.end == d.end && row.status == d.status
    && (d.status == Pending ==> d.expiresAt == Some(row.expiresAt))
    && row.log == Changes(d.history)
  }

  /** The rows and periods are those of the booking model. */
  ghost predicate Shows(m: Market.Market, s: State) {
    && s.rows.Keys == m.deals.Keys && s.periods == m.periods
    && forall b | b in m.deals :: ShowsRow(m.deals[b], s.rows[b])
  }

  lemma Logged(d: Deals.Deal, e: Deals.Entry)
    requires e.before.Some?
    ensures Changes(d.history + [e]) == Changes(d.history) + [(e.before.value, e.after)]
  {
    assert (d.history + [e])[..|d.history|] == d.history;
  }

  lemma SelectShows(d: Deals.Deal, row: Row, lender: Id)
    requires ShowsRow(d, row) && d.status == Pending
    ensures ShowsRow(Evolution.Exec(d, Evolution.Select(lender)), Write(row, Pending, Confirmed))
  {
    hide Changes;
    Logged(d, Deals.Entry(Some(lender), Deals.Confirm, Some(Pending), Confirmed));
  }

  lemma DropShows(d: Deals.Deal, row: Row, lender: Id)
    requires ShowsRow(d, row) && d.status == Pending
    ensures ShowsRow(Evolution.Exec(d, Evolution.Drop(lender)), Drop(row))
  {
    hide Changes;
    Logged(d, Deals.Entry(Some(lender), Deals.CancelCompeting, Some(Pending), Cancelled));
  }

  lemma SameQueries(m: Market.Market, s: State, b: Id)
    requires Shows(m, s) && b in m.deals
    ensures var d := m.deals[b];
            CalendarTaken(s, d.item, d.start, d.end) == Market.CalendarTaken(m, d.item, d.start, d.end) &&
            ReservedBy(s, {b}, d.item, d.start, d.end) == Market.ReservedBy(m, {b}, d.item, d.start, d.end) &&
            Rivals(s, b, m.clock) == Market.Competitors(m, b) &&
            Live(s.rows[b], m.clock) == Deals.LivePending(d, m.clock)
  {
    hide Changes;
  }

  /** The whole confirmation over these rows is the command of the model. */
  lemma ConfirmShows(m: Market.Market, s: State, b: Id, lender: Id)
    requires Shows(m, s) && (b in m.deals ==> m.deals[b].lender == lender)
    ensures Shows(Market.Next(m, Market.ConfirmBooking(b, lender)), s.(rows := Confirm(s, b, m.clock)))
  {
    hide Changes, Evolution.Exec, CalendarTaken, ReservedBy, Rivals, Market.CalendarTaken, Market.ReservedBy,
      Market.Competitors, Write, Drop;
    if b in m.deals {
      SameQueries(m, s, b);
      if Market.ConfirmRefusal(m, b, lender).None? {
        SelectShows(m.deals[b], s.rows[b], lender);
        forall x | x in Market.Competitors(m, b)
          ensures x in m.deals && x != b &&
                  ShowsRow(Evolution.Exec(m.deals[x], Evolution.Drop(lender)), Drop(s.rows[x]))
        {
          CompetitorPending(m, b, x);
          DropShows(m.deals[x], s.rows[x], lender);
        }
      }
    }
  }

  lemma CompetitorPending(m: Market.Market, b: Id, x: Id)
    requires b in m.deals && x in Market.Competitors(m, b)
    ensures x in m.deals && x != b && m.deals[x].status == Pending
  {
  }

  /** So is the split one when no other transaction comes between its steps. */
  lemma SplitConfirmShows(hash: Locks.Hash, m: Market.Market, s: State, t: Locks.Tid, b: Id, lender: Id)
    requires Shows(m, s) && Idle(hash, s, t, b) && (b in m.deals ==> m.deals[b].lender == lender)
    ensures Shows(Market.Next(m, Market.ConfirmBooking(b, lender)), Run(hash, s, ConfirmAlone(t, b, m.clock)))
  {
    hide Shows, Idle, Run, ConfirmAlone, Confirm;
    AloneIsAtomic(hash, s, t, b, m.clock);
    ConfirmShows(m, s, b, lender);
  }
}
