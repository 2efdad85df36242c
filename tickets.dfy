/**
 * Ticket records: how an issued ticket is built from the sold count at the
 * moment of issue, the notification payload sent for an approval, and the
 * shape of a most-recent-first history whose pass ranges tile a block of
 * consecutive numbers.
 */
module Tickets {
  import opened Wrappers
  import opened Numbering

  const TicketPrice := 40
  const NoEmailProvided := "No Email Provided"
  const VipGuest := "VIP Guest"
  const EventDate := "Saturday 27th June 2026"
  const EventTime := "6.00pm"
  const EventVenue := "Pioneer Theatre, Castle Hill"

  /** An issued ticket, as stored in the ticket database and displayed. */
  datatype Ticket = Ticket(
    name: string,
    email: string,
    quantity: int,
    totalPrice: int,
    number: string,
    id: string,
    date: string,
    time: string,
    venue: string,
    timestamp: string)

  /** What an approval reports to the external recording endpoint. */
  datatype Payload = Payload(
    name: string,
    email: string,
    quantity: int,
    ticketId: string,
    ticketNumber: string,
    totalPrice: int)

  /**
   * The identifier a new ticket gets: the predefined one when there is a
   * (non-empty) one, otherwise one minted from the cumulative count after
   * this issue and a random suffix, whose third `-`-separated field reads
   * back as that count.
   */
  function IdFor(predefinedId: Option<string>, sold: nat, qty: nat, suffix: string): (id: string)
    ensures predefinedId.Some? && predefinedId.value != "" ==> id == predefinedId.value
    ensures (predefinedId.None? || predefinedId.value == "") && IsSuffix(suffix) ==>
      && Split(id, '-') == [EventCode, EventYear, SequenceNumber(sold + qty), suffix]
      && AllDigits(Split(id, '-')[2])
      && DigitsValue(Split(id, '-')[2]) == sold + qty
  {
    if predefinedId.Some? && predefinedId.value != "" then predefinedId.value
    else
      var minted := TicketId(sold + qty, suffix);
      if IsSuffix(suffix) then IdFields(sold + qty, suffix); minted else minted
  }

  /**
   * The ticket issued for `qty` passes when `sold` passes were already
   * sold: it covers passes `sold + 1` through `sold + qty`, is priced per
   * pass, and always carries an email (a placeholder when none was given).
   */
  function MakeTicket(sold: nat, guestName: string, guestEmail: string, qty: nat, id: string,
                      timestamp: string): (t: Ticket)
    requires qty >= 1
    ensures t.name == guestName && t.quantity == qty && t.id == id && t.timestamp == timestamp
    ensures t.email != ""
    ensures guestEmail != "" ==> t.email == guestEmail
    ensures guestEmail == "" ==> t.email == NoEmailProvided
    ensures t.totalPrice == t.quantity * TicketPrice
    ensures RangeFirst(t.number) == sold + 1 && RangeLast(t.number) == sold + qty
    ensures t.date == EventDate && t.time == EventTime && t.venue == EventVenue
  {
    RangeBounds(sold, qty);
    Ticket(
      name := guestName,
      email := if guestEmail != "" then guestEmail else NoEmailProvided,
      quantity := qty,
      totalPrice := qty * TicketPrice,
      number := NumberRange(sold, qty),
      id := id,
      date := EventDate,
      time := EventTime,
      venue := EventVenue,
      timestamp := timestamp)
  }

  /** The payload an approval sends, computed from the same state as the ticket it leads to. */
  function NotificationPayload(name: string, email: string, qty: nat, sold: nat, id: string): (p: Payload)
    requires qty >= 1
    ensures p.name == name && p.email == email && p.quantity == qty && p.ticketId == id
    ensures RangeFirst(p.ticketNumber) == sold + 1 && RangeLast(p.ticketNumber) == sold + qty
    ensures p.totalPrice == qty * TicketPrice
  {
    RangeBounds(sold, qty);
    Payload(name, email, qty, id, NumberRange(sold, qty), qty * TicketPrice)
  }

  /**
   * The payload reports the same identifier, pass numbers, quantity and
   * price as the ticket later materialised from the same state.
   */
  lemma PayloadMatchesTicket(name: string, email: string, qty: nat, sold: nat, id: string, timestamp: string)
    requires qty >= 1
    ensures var p := NotificationPayload(name, email, qty, sold, id);
            var t := MakeTicket(sold, name, email, qty, id, timestamp);
            p.ticketId == t.id && p.ticketNumber == t.number && p.quantity == t.quantity
            && p.totalPrice == t.totalPrice && p.name == t.name
  {
  }

  /** The number of passes a list of tickets accounts for. */
  function SumQty(tickets: seq<Ticket>): int
  {
    if tickets == [] then 0 else tickets[0].quantity + SumQty(tickets[1..])
  }

  lemma {:induction false} SumQtyAppend(a: seq<Ticket>, b: seq<Ticket>)
    ensures SumQty(a + b) == SumQty(a) + SumQty(b)
    decreases |a|
  {
    if a != [] {
      assert (a + b)[1..] == a[1..] + b;
      SumQtyAppend(a[1..], b);
    } else {
      assert a + b == b;
    }
  }

  /** `t` is a ticket for the passes `lo + 1` through `hi`, at least one of them. */
  ghost predicate Covers(t: Ticket, lo: int, hi: int)
  {
    && t.quantity >= 1
    && hi == lo + t.quantity
    && RangeFirst(t.number) == lo + 1
    && RangeLast(t.number) == hi
  }

  /**
   * `tickets` (most recent first) tiles a block of pass numbers at the
   * boundaries `marks`: ticket `i` covers the passes above `marks[i + 1]`
   * up to `marks[i]`, so the block runs from `marks[|tickets|] + 1` up to
   * `marks[0]` with no gap and no overlap.
   */
  ghost predicate Chain(tickets: seq<Ticket>, marks: seq<int>)
  {
    && |marks| == |tickets| + 1
    && forall i :: 0 <= i < |tickets| ==> Covers(tickets[i], marks[i + 1], marks[i])
  }

  /** Putting a ticket for the next passes on top of a chain extends it. */
  lemma ChainPrepend(t: Ticket, tickets: seq<Ticket>, marks: seq<int>)
    requires Chain(tickets, marks)
    requires Covers(t, marks[0], marks[0] + t.quantity)
    ensures Chain([t] + tickets, [marks[0] + t.quantity] + marks)
  {
    var tickets', marks' := [t] + tickets, [marks[0] + t.quantity] + marks;
    forall i | 0 <= i < |tickets'|
      ensures Covers(tickets'[i], marks'[i + 1], marks'[i])
    {
      if i > 0 {
        assert tickets'[i] == tickets[i - 1] && marks'[i] == marks[i - 1] && marks'[i + 1] == marks[i];
      }
    }
  }

  /** The tickets from position `k` on account for exactly the passes between their boundaries. */
  lemma {:induction false} ChainCount(tickets: seq<Ticket>, marks: seq<int>, k: nat)
    requires Chain(tickets, marks) && k <= |tickets|
    ensures marks[k] == marks[|tickets|] + SumQty(tickets[k..])
    decreases |tickets| - k
  {
    if k < |tickets| {
      assert tickets[k..][1..] == tickets[k + 1..];
      ChainCount(tickets, marks, k + 1);
    }
  }

  /** Boundaries only go down along the chain: later positions hold older, lower passes. */
  lemma {:induction false} ChainDescends(tickets: seq<Ticket>, marks: seq<int>, i: nat, j: nat)
    requires Chain(tickets, marks) && i < j <= |tickets|
    ensures marks[j] < marks[i]
    decreases j - i
  {
    assert Covers(tickets[i], marks[i + 1], marks[i]);
    if i + 1 < j {
      ChainDescends(tickets, marks, i + 1, j);
    }
  }

  /**
   * In a chain every ticket's passes lie within the block, each ticket
   * starts right after the one issued before it (the next in the list),
   * and an earlier ticket's passes all come before a later one's: ranges
   * are contiguous and never overlap.
   */
  lemma ChainOrdered(tickets: seq<Ticket>, marks: seq<int>)
    requires Chain(tickets, marks)
    ensures forall i :: 0 <= i < |tickets| ==>
      marks[|tickets|] < RangeFirst(tickets[i].number) <= RangeLast(tickets[i].number) <= marks[0]
    ensures forall i :: 0 <= i < |tickets| - 1 ==>
      RangeLast(tickets[i + 1].number) + 1 == RangeFirst(tickets[i].number)
    ensures forall i, j :: 0 <= i < j < |tickets| ==>
      RangeLast(tickets[j].number) < RangeFirst(tickets[i].number)
  {
    var n := |tickets|;
    forall i | 0 <= i < n
      ensures marks[n] < RangeFirst(tickets[i].number) <= RangeLast(tickets[i].number) <= marks[0]
    {
      assert Covers(tickets[i], marks[i + 1], marks[i]);
      if i + 1 < n { ChainDescends(tickets, marks, i + 1, n); }
      if 0 < i { ChainDescends(tickets, marks, 0, i); }
    }
    forall i | 0 <= i < n - 1
      ensures RangeLast(tickets[i + 1].number) + 1 == RangeFirst(tickets[i].number)
    {
      assert Covers(tickets[i], marks[i + 1], marks[i]);
      assert Covers(tickets[i + 1], marks[i + 2], marks[i + 1]);
    }
    forall i, j | 0 <= i < j < n
      ensures RangeLast(tickets[j].number) < RangeFirst(tickets[i].number)
    {
      assert Covers(tickets[i], marks[i + 1], marks[i]);
      assert Covers(tickets[j], marks[j + 1], marks[j]);
      if i + 1 < j { ChainDescends(tickets, marks, i + 1, j); }
    }
  }
}
