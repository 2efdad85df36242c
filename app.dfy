/**
 * The ticket-allocation component: capacity and sold count, the ticket
 * database (most recent first), the request being entered, the request
 * status, the ticket on display and the operator switch.
 *
 * Each event handler is one atomic step over the current state. The two
 * delayed callbacks are explicit steps: `SubmitDelayElapsed` (the review
 * delay after a guest submits) and `ApprovalDelayElapsed` (the delay after an
 * approval, which materialises the ticket). The random id suffix and the
 * issue timestamp are parameters; the outcome of the best-effort
 * notification call is a parameter too.
 */
module TicketApp {
  import opened Wrappers
  import opened Numbering
  import opened Tickets

  const DefaultMaxTickets := 372
  const DefaultTicketsSold := 145
  // The pass selector offers the counts 1 through 20.
  const MaxPerRequest := 20

  datatype Status = Idle | Submitting | Pending | Approving | Approved

  /** How the call to the external recording endpoint went. */
  datatype Notify = NotConfigured | Delivered | Failed

  /** What the approval callback captured when it was scheduled. */
  datatype ApprovalJob = ApprovalJob(name: string, email: string, qty: int, id: string)

  /** Every visible field of the component, as one value. */
  datatype AppState = AppState(
    maxTickets: int,
    ticketsSold: nat,
    isAdmin: bool,
    ticketDatabase: seq<Ticket>,
    name: string,
    email: string,
    quantity: int,
    requestStatus: Status,
    userTicket: Option<Ticket>,
    scheduledApproval: Option<ApprovalJob>)

  class App {
    var maxTickets: int
    var ticketsSold: nat
    var isAdmin: bool
    var ticketDatabase: seq<Ticket>
    var name: string
    var email: string
    var quantity: int
    var requestStatus: Status
    var userTicket: Option<Ticket>
    var scheduledApproval: Option<ApprovalJob>

    // The sold count and database as loaded from storage.
    ghost const loadedSold: nat
    ghost const loaded: seq<Ticket>
    // The tickets issued since loading, most recent first, and the pass
    // numbers at which their ranges meet (see `Chain`).
    ghost var session: seq<Ticket>
    ghost var marks: seq<int>

    function State(): AppState
      reads this
    {
      AppState(maxTickets, ticketsSold, isAdmin, ticketDatabase, name, email, quantity,
               requestStatus, userTicket, scheduledApproval)
    }

    /**
     * The request is for at least one pass, and the tickets issued since
     * loading sit on top of the loaded database with pass ranges that tile
     * the numbers from the loaded count up to the current one.
     */
    ghost predicate Valid()
      reads this
    {
      RequestValid() && LedgerValid()
    }

    /** The request being entered, or captured by a scheduled approval, is for at least one pass. */
    ghost predicate RequestValid()
      reads this`quantity, this`scheduledApproval
    {
      && quantity >= 1
      && (scheduledApproval.Some? ==> scheduledApproval.value.qty >= 1 && scheduledApproval.value.id != "")
    }

    ghost predicate LedgerValid()
      reads this`ticketDatabase, this`session, this`marks, this`ticketsSold
    {
      History(ticketDatabase, session, marks, ticketsSold, loaded, loadedSold)
    }

    /** The initial state, from the values found in storage (defaults when absent). */
    constructor (savedMax: Option<int>, savedSold: Option<nat>, savedDatabase: Option<seq<Ticket>>)
      ensures Valid()
      ensures maxTickets == (if savedMax.Some? then savedMax.value else DefaultMaxTickets)
      ensures ticketsSold == (if savedSold.Some? then savedSold.value else DefaultTicketsSold)
      ensures ticketDatabase == (if savedDatabase.Some? then savedDatabase.value else [])
      ensures !isAdmin && name == "" && email == "" && quantity == 1
      ensures requestStatus == Idle && userTicket == None && scheduledApproval == None
    {
      var sold := if savedSold.Some? then savedSold.value else DefaultTicketsSold;
      var database := if savedDatabase.Some? then savedDatabase.value else [];
      maxTickets := if savedMax.Some? then savedMax.value else DefaultMaxTickets;
      ticketsSold := sold;
      ticketDatabase := database;
      isAdmin := false;
      name, email, quantity := "", "", 1;
      requestStatus := Idle;
      userTicket := None;
      scheduledApproval := None;
      loadedSold := sold;
      loaded := database;
      session := [];
      marks := [sold];
      new;
      assert database == [] + database;
    }

    /**
     * Seats still on sale: negative, not zero, once the operator has set
     * the capacity below the sold count. The submit gate admits a request
     * exactly when its quantity fits in what remains.
     */
    function TicketsRemaining(): (r: int)
      reads this
      ensures r < 0 <==> ticketsSold > maxTickets
      ensures ticketsSold + quantity <= maxTickets <==> quantity <= r
    {
      maxTickets - ticketsSold
    }

    /**
     * Materialise a ticket for `qty` passes: it takes the next `qty` pass
     * numbers, the sold count grows by exactly `qty`, the ticket goes on top
     * of the database with every earlier entry kept in order, and it becomes
     * the ticket on display. Nothing else changes.
     */
    method GenerateFinalTicket(guestName: string, guestEmail: string, qty: int,
                               predefinedId: Option<string>, suffix: string, timestamp: string)
      requires Valid() && qty >= 1
      modifies this
      ensures var t := MakeTicket(old(ticketsSold), guestName, guestEmail, qty,
                                  IdFor(predefinedId, old(ticketsSold), qty, suffix), timestamp);
              State() == old(State()).(ticketsSold := old(ticketsSold) + qty,
                                       ticketDatabase := [t] + old(ticketDatabase),
                                       userTicket := Some(t),
                                       requestStatus := Approved)
      ensures Valid()
    {
      var uniqueId := IdFor(predefinedId, ticketsSold, qty, suffix);
      var finalTicket := MakeTicket(ticketsSold, guestName, guestEmail, qty, uniqueId, timestamp);
      Issue(finalTicket);
    }

    /**
     * The four state updates of an issue: the ticket goes on display, the
     * sold count moves up to its last pass, it goes on top of the database
     * and the request is approved. The ticket must cover the next passes.
     */
    method Issue(t: Ticket)
      requires Valid()
      requires Covers(t, ticketsSold, ticketsSold + t.quantity)
      modifies this
      ensures State() == old(State()).(ticketsSold := old(ticketsSold) + t.quantity,
                                       ticketDatabase := [t] + old(ticketDatabase),
                                       userTicket := Some(t),
                                       requestStatus := Approved)
      ensures Valid()
    {
      PrependKeepsHistory(t, ticketDatabase, session, marks, ticketsSold, loaded, loadedSold);
      userTicket, ticketsSold, ticketDatabase, requestStatus, session, marks :=
        Some(t), ticketsSold + t.quantity, [t] + ticketDatabase, Approved, [t] + session,
        [ticketsSold + t.quantity] + marks;
    }

    /**
     * Submit the entered request. Nothing changes when the quantity does
     * not fit in the remaining capacity, nor when a guest gave no name. An
     * operator's request is issued at once (an empty name becoming
     * "VIP Guest"); a guest's request only moves the status to submitting.
     */
    method HandleGenerateTicket(suffix: string, timestamp: string)
      requires Valid()
      modifies this
      ensures old(ticketsSold + quantity > maxTickets) ==> State() == old(State())
      ensures old(name == "" && !isAdmin) ==> State() == old(State())
      ensures old(ticketsSold + quantity <= maxTickets && name != "" && !isAdmin) ==>
        State() == old(State()).(requestStatus := Submitting)
      ensures old(ticketsSold + quantity <= maxTickets && isAdmin) ==>
        var t := MakeTicket(old(ticketsSold), if old(name) != "" then old(name) else VipGuest,
                            old(email), old(quantity), TicketId(old(ticketsSold + quantity), suffix),
                            timestamp);
        && State() == old(State()).(ticketsSold := old(ticketsSold + quantity),
                                    ticketDatabase := [t] + old(ticketDatabase),
                                    userTicket := Some(t),
                                    requestStatus := Approved)
        && ticketsSold <= maxTickets
        && t.id == TicketId(ticketsSold, suffix)
      ensures Valid()
    {
      if ticketsSold + quantity > maxTickets {
        return;
      }
      if name == "" && !isAdmin {
        return;
      }
      var guestName := if name != "" then name else VipGuest;

      if isAdmin {
        GenerateFinalTicket(guestName, email, quantity, None, suffix, timestamp);
      } else {
        requestStatus := Submitting;
      }
    }

    /** The simulated review delay after a guest's submit has elapsed. */
    method SubmitDelayElapsed()
      requires Valid()
      modifies this
      ensures State() == old(State()).(requestStatus := Pending)
      ensures Valid()
    {
      requestStatus := Pending;
    }

    /**
     * Approve the pending request: the status becomes approving, an id is
     * minted from the count the request will bring the sold count to, and
     * the materialisation is scheduled with the current name, email,
     * quantity and that id. The notification is sent only to a configured
     * endpoint, and the new state is the same whether it is skipped,
     * delivered or fails.
     */
    method HandleAdminApprove(suffix: string, notify: Notify) returns (sent: Option<Payload>)
      requires Valid()
      modifies this
      ensures var id := TicketId(old(ticketsSold + quantity), suffix);
              State() == old(State()).(requestStatus := Approving,
                                       scheduledApproval := Some(ApprovalJob(old(name), old(email), old(quantity), id)))
      ensures sent.None? <==> notify == NotConfigured
      ensures sent.Some? ==>
        sent.value == NotificationPayload(old(name), old(email), old(quantity), old(ticketsSold),
                                          TicketId(old(ticketsSold + quantity), suffix))
      ensures Valid()
    {
      var newTicketNumber := ticketsSold + quantity;
      var uniqueId := TicketId(newTicketNumber, suffix);
      var payload := NotificationPayload(name, email, quantity, ticketsSold, uniqueId);

      sent := None;
      if notify != NotConfigured {
        sent := Some(payload);
      }
      if notify == Failed {
        // the failure is logged and otherwise ignored
        Schedule(ApprovalJob(name, email, quantity, uniqueId));
      } else {
        Schedule(ApprovalJob(name, email, quantity, uniqueId));
      }
    }

    /** The state updates of an approval: the status becomes approving and `job` is scheduled. */
    method Schedule(job: ApprovalJob)
      requires Valid() && job.qty >= 1 && job.id != ""
      modifies this
      ensures State() == old(State()).(requestStatus := Approving, scheduledApproval := Some(job))
      ensures Valid()
    {
      requestStatus, scheduledApproval := Approving, Some(job);
    }

    /**
     * The delay after an approval has elapsed: the ticket is materialised
     * with what the approval captured, under the id it minted. The sold
     * count stays within capacity when the request fitted at this point.
     */
    method ApprovalDelayElapsed(timestamp: string)
      requires Valid() && scheduledApproval.Some?
      modifies this
      ensures var job := old(scheduledApproval.value);
              var t := MakeTicket(old(ticketsSold), job.name, job.email, job.qty, job.id, timestamp);
              State() == old(State()).(ticketsSold := old(ticketsSold) + job.qty,
                                       ticketDatabase := [t] + old(ticketDatabase),
                                       userTicket := Some(t),
                                       requestStatus := Approved,
                                       scheduledApproval := None)
      ensures old(ticketsSold + scheduledApproval.value.qty <= maxTickets) ==> ticketsSold <= maxTickets
      ensures Valid()
    {
      var job := scheduledApproval.value;
      GenerateFinalTicket(job.name, job.email, job.qty, Some(job.id), "", timestamp);
      scheduledApproval := None;
    }

    /**
     * Approval followed by its delayed materialisation, with nothing in
     * between: the stored ticket carries the id the approval minted, whose
     * third field is the new sold count, and the payload reports that
     * ticket's id, pass numbers and price.
     */
    method ApproveAndIssue(suffix: string, notify: Notify, timestamp: string) returns (sent: Option<Payload>)
      requires Valid()
      modifies this
      ensures var t := MakeTicket(old(ticketsSold), old(name), old(email), old(quantity),
                                  TicketId(old(ticketsSold + quantity), suffix), timestamp);
              && State() == old(State()).(ticketsSold := old(ticketsSold + quantity),
                                          ticketDatabase := [t] + old(ticketDatabase),
                                          userTicket := Some(t),
                                          requestStatus := Approved,
                                          scheduledApproval := None)
              && t.id == TicketId(ticketsSold, suffix)
              && (sent.Some? ==> sent.value.ticketId == t.id && sent.value.ticketNumber == t.number
                                 && sent.value.totalPrice == t.totalPrice)
      ensures Valid()
    {
      ghost var s0, q0, n0, e0 := ticketsSold, quantity, name, email;
      sent := HandleAdminApprove(suffix, notify);
      ApprovalDelayElapsed(timestamp);
      PayloadMatchesTicket(n0, e0, q0, s0, TicketId(s0 + q0, suffix), timestamp);
    }

    /** Back to an empty form: the ticket, the request and the status are cleared; sales are untouched. */
    method HandleReset()
      requires Valid()
      modifies this
      ensures State() == old(State()).(userTicket := None, name := "", email := "", quantity := 1,
                                       requestStatus := Idle)
      ensures Valid()
    {
      userTicket, name, email, quantity, requestStatus := None, "", "", 1, Idle;
    }

    /** Display a stored ticket again; nothing is allocated. */
    method ViewExistingTicket(ticket: Ticket)
      requires Valid()
      modifies this
      ensures State() == old(State()).(userTicket := Some(ticket), requestStatus := Approved)
      ensures Valid()
    {
      userTicket := Some(ticket);
      requestStatus := Approved;
    }

    /** The operator edits the capacity; an unreadable entry (or 0) gives 0. It may go below the sold count. */
    method SetMaxTickets(parsed: Option<int>)
      requires Valid()
      modifies this
      ensures State() == old(State()).(maxTickets := if parsed.Some? then parsed.value else 0)
      ensures Valid()
    {
      maxTickets := if parsed.Some? then parsed.value else 0;
    }

    method SetName(value: string)
      requires Valid()
      modifies this
      ensures State() == old(State()).(name := value)
      ensures Valid()
    {
      name := value;
    }

    method SetEmail(value: string)
      requires Valid()
      modifies this
      ensures State() == old(State()).(email := value)
      ensures Valid()
    {
      email := value;
    }

    /** The pass selector offers only the counts 1 through 20. */
    method SetQuantity(value: int)
      requires Valid() && 1 <= value <= MaxPerRequest
      modifies this
      ensures State() == old(State()).(quantity := value)
      ensures Valid()
    {
      quantity := value;
    }

    method ToggleAdmin()
      requires Valid()
      modifies this
      ensures State() == old(State()).(isAdmin := !old(isAdmin))
      ensures Valid()
    {
      isAdmin := !isAdmin;
    }

    /** The operator leaves the dashboard. */
    method ExitAdmin()
      requires Valid()
      modifies this
      ensures State() == old(State()).(isAdmin := false)
      ensures Valid()
    {
      isAdmin := false;
    }

    /**
     * What the invariant gives about the tickets issued since loading: the
     * sold count never fell below the loaded count and exceeds it by their
     * quantities, the sold count and the database's total quantity moved
     * together, and the session's pass ranges lie above the loaded count,
     * reach the current one, follow each other without a gap and never
     * overlap (later tickets get higher numbers).
     */
    lemma SessionHistory()
      requires Valid()
      ensures loadedSold <= ticketsSold
      ensures ticketsSold == loadedSold + SumQty(session)
      ensures ticketDatabase == session + loaded
      ensures ticketsSold - SumQty(ticketDatabase) == loadedSold - SumQty(loaded)
      ensures session != [] ==> RangeLast(session[0].number) == ticketsSold
      ensures forall i :: 0 <= i < |session| ==>
        loadedSold < RangeFirst(session[i].number) <= RangeLast(session[i].number) <= ticketsSold
      ensures forall i :: 0 <= i < |session| - 1 ==>
        RangeLast(session[i + 1].number) + 1 == RangeFirst(session[i].number)
      ensures forall i, j :: 0 <= i < j < |session| ==>
        RangeLast(session[j].number) < RangeFirst(session[i].number)
    {
      ChainCount(session, marks, 0);
      assert session[0..] == session;
      ChainOrdered(session, marks);
      SumQtyAppend(session, loaded);
      if session != [] {
        assert Covers(session[0], marks[1], marks[0]);
      }
    }
  }

  /**
   * The bookkeeping of `App.Valid`: the tickets of the session sit on top
   * of the loaded database and form a chain from the loaded sold count up
   * to the current one.
   */
  ghost predicate History(db: seq<Ticket>, session: seq<Ticket>, marks: seq<int>, sold: int,
                          loaded: seq<Ticket>, loadedSold: int)
  {
    && db == session + loaded
    && Chain(session, marks)
    && marks[0] == sold
    && marks[|session|] == loadedSold
  }

  /** Prepending a ticket for the next passes keeps the bookkeeping. */
  lemma PrependKeepsHistory(t: Ticket, db: seq<Ticket>, session: seq<Ticket>, marks: seq<int>, sold: int,
                            loaded: seq<Ticket>, loadedSold: int)
    requires History(db, session, marks, sold, loaded, loadedSold)
    requires Covers(t, sold, sold + t.quantity)
    ensures History([t] + db, [t] + session, [sold + t.quantity] + marks, sold + t.quantity, loaded, loadedSold)
  {
    assert [t] + db == ([t] + session) + loaded;
    ChainPrepend(t, session, marks);
  }

  /**
   * Worked scenarios: an operator issue of 3 passes at 145 of 372 sold
   * yields "146 - 148" and 148 sold; at 10 of 10 sold any request is
   * refused; a guest with no name is refused and the status stays idle.
   */
  method Scenarios(suffix: string, timestamp: string)
  {
    var app := new App(None, None, None);
    app.ToggleAdmin();
    app.SetQuantity(3);
    app.HandleGenerateTicket(suffix, timestamp);
    RangeExample();
    assert app.ticketsSold == 148;
    assert app.userTicket.value.number == "146 - 148";
    assert app.ticketDatabase == [app.userTicket.value];

    var full := new App(Some(10), Some(10), None);
    full.HandleGenerateTicket(suffix, timestamp);
    assert full.ticketsSold == 10 && full.ticketDatabase == [] && full.requestStatus == Idle;

    var guest := new App(None, None, None);
    guest.HandleGenerateTicket(suffix, timestamp);
    assert guest.requestStatus == Idle && guest.ticketsSold == 145;
  }
}
