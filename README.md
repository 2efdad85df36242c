# Ticket allocation for the DINALI 2026 show

This project models the ticket-allocation core of the single-page box-office
app `src/App.tsx`. The `App` component keeps:

- a capacity (`maxTickets`, 372 by default) and a sold count (`ticketsSold`,
  145 by default);
- a ticket database, most recent first;
- the request being entered (name, email, number of passes);
- a request status: idle, submitting, pending, approving or approved;
- the ticket on display;
- an organizer switch.

A guest's request goes through a submit step, a review delay and an
organizer approval before the ticket is materialised. An organizer's own
request is issued at once.

Every ticket takes the next block of pass numbers after the sold count. It
shows them as `"146"` or `"146 - 148"`. Its identifier is
`DINALI-26-<count after the issue, zero-padded to 3>-<random suffix>`.

Layout:

- `wrappers.dfy` (`Wrappers`): an `Option` type, for values that may be
  absent.
- `numbering.dfy` (`Numbering`) is pure. It covers:
  - the decimal printing of a count, JavaScript's `toString` on an exact
    integer;
  - `padStart`;
  - the range string and the identifier;
  - `split('-')`;
  - reading functions that parse these back, against which the printed forms
    are proved.
- `tickets.dfy` (`Tickets`) is pure. It holds the ticket record and how an
  issue builds one, and the notification payload. It also defines `Chain`: a
  list of tickets, most recent first, whose pass ranges tile a block of
  consecutive numbers.
- `app.dfy` (`TicketApp`) is imperative. The component is the class `App`,
  with one field per piece of React state. Each handler is a method that
  updates those fields; `modifies` states what it may change. Every method
  states its whole new state as `State() == old(State()).(...)`, so
  "nothing else changes" is part of each contract.

  `Valid()` is the invariant every method keeps. The request is for at least
  one pass. The tickets issued since loading sit on top of the loaded
  database. Their ranges tile the pass numbers from the loaded sold count up
  to the current one.

  The two `setTimeout` callbacks become explicit steps:
  - `SubmitDelayElapsed` is the review delay after a guest submits;
  - `ApprovalDelayElapsed` is the delay after an approval.

  The outside world comes in as parameters:
  - the random suffix of an identifier;
  - the issue timestamp;
  - how the call to the recording endpoint went (`Notify`).

## Model

| member | source | states |
|---|---|---|
| Numbering.Decimal | src/App.tsx:63 | The printed count is a non-empty digit string with no leading zero unless the count is 0. |
| Numbering.DecimalRoundTrip | src/App.tsx:71 | Reading back the printed form of a count gives the count. |
| Numbering.DecimalWidth | src/App.tsx:63 | The printed count has 1, at most 2 or at most 3 digits exactly when it is below 10, 100 or 1000. |
| Numbering.PadStart | src/App.tsx:63 | `padStart` returns the string unchanged when it is already wide enough. Otherwise it puts fill characters in front up to the width; the original stays at the end. |
| Numbering.LeadingZeros | src/App.tsx:63 | Zero padding keeps a digit string all digits and does not change its value. |
| Numbering.SequenceNumberMeaning | src/App.tsx:103 | The padded count in an identifier is all digits and denotes the count. It has at least 3 characters, and exactly 3 exactly when the count is below 1000. |
| Numbering.Split | src/App.tsx:364 | `split` on one character always yields at least one field. |
| Numbering.IdFields | src/App.tsx:63-64 | An identifier splits on `-` into exactly `DINALI`, `26`, the padded count and the suffix. The third field, which the organizer's table shows, reads back as the count. |
| Numbering.TicketIdInjective | src/App.tsx:103-104 | Two minted identifiers are equal exactly when their counts and their suffixes are equal. Identifiers minted at different counts never collide. |
| Numbering.SequenceNumber | src/App.tsx:103 | The padded count; what it means is stated by `Numbering.SequenceNumberMeaning`. |
| Numbering.TicketId | src/App.tsx:104 | The minted identifier; what it splits back into is stated by `Numbering.IdFields` and `Numbering.TicketIdInjective`. |
| Numbering.NumberRange | src/App.tsx:111 | The pass-number range; the passes it names are stated by `Numbering.RangeBounds`. |
| Numbering.RangeBounds | src/App.tsx:71 | A range string names exactly the passes sold+1 through sold+qty. It is the single number sold+1 exactly when qty is 1. |
| Numbering.RangeExample | src/App.tsx:111 | After 145 sold, three passes are `"146 - 148"`. The counts 148 and 7 are padded to `"148"` and `"007"`. |
| Tickets.IdFor | src/App.tsx:102-104 | A non-empty predefined identifier is used as given. Otherwise the minted identifier splits on `-` into `DINALI`, `26`, the padded count and the suffix, and its third field reads back as sold+qty, the count after this issue. |
| Tickets.MakeTicket | src/App.tsx:101-116 | The ticket has the given name, quantity, identifier and timestamp. The email is the one given, or the placeholder when that is empty. The price is 40 per pass. The passes are sold+1 through sold+qty, and the date, time and venue are the event's. |
| Tickets.NotificationPayload | src/App.tsx:66-73 | The payload carries the request's name, email, quantity and identifier. It reports passes sold+1 through sold+qty and 40 per pass. |
| Tickets.PayloadMatchesTicket | src/App.tsx:66-73 | The payload of an approval reports the same identifier, pass numbers, quantity, price and name as the ticket built from the same state. |
| Tickets.SumQtyAppend | src/App.tsx:120-121 | The passes of two joined lists of tickets are the sum of the passes of each. |
| Tickets.ChainPrepend | src/App.tsx:120-121 | A ticket for the next passes, put on top of a tiled list, extends the tiling up to the new count. |
| Tickets.ChainCount | src/App.tsx:120-121 | The tickets of a tiled list account for exactly the passes between its lowest and highest boundary. |
| Tickets.ChainDescends | src/App.tsx:111 | Boundaries strictly decrease along a tiled list: older tickets hold lower passes. |
| Tickets.ChainOrdered | src/App.tsx:111 | In a tiled list every ticket's passes lie within the block. Each ticket starts right after the one issued before it, and ranges never overlap. |
| TicketApp.App.constructor | src/App.tsx:11-33 | The initial state uses the stored capacity, sold count and database, or 372, 145 and an empty list when absent. It is not an organizer, the form is empty, the status is idle and no ticket is shown. The invariant holds. |
| TicketApp.App.TicketsRemaining | src/App.tsx:159 | Remaining seats are negative exactly when the sold count exceeds the capacity. A request fits under the submit gate exactly when its quantity is at most the remaining seats. |
| TicketApp.App.GenerateFinalTicket | src/App.tsx:101-123 | The sold count grows by exactly qty. The built ticket is prepended with the earlier entries kept in order, becomes the ticket on display, and the status becomes approved. Nothing else changes, and the invariant is kept. |
| TicketApp.App.Issue | src/App.tsx:119-122 | The four state updates of an issue, for a ticket covering the next passes, keep the invariant. Nothing else changes. |
| TicketApp.App.HandleGenerateTicket | src/App.tsx:45-57 | See the list below the table. |
| TicketApp.App.SubmitDelayElapsed | src/App.tsx:55 | Only the status changes, to pending. |
| TicketApp.App.HandleAdminApprove | src/App.tsx:59-99 | The status becomes approving. An identifier is minted from sold+quantity. The materialisation is scheduled with the current name, email, quantity and that identifier. A payload is sent exactly when an endpoint is configured, and the resulting state is the same whether the call is skipped, delivered or fails. |
| TicketApp.App.Schedule | src/App.tsx:60 | Only the status (approving) and the scheduled approval change, and the invariant is kept. |
| TicketApp.App.ApprovalDelayElapsed | src/App.tsx:89-97 | The scheduled ticket is issued under the identifier the approval minted, and the schedule is cleared. The sold count stays within capacity when the request fitted. |
| TicketApp.App.ApproveAndIssue | src/App.tsx:59-123 | See the list below the table. |
| TicketApp.App.HandleReset | src/App.tsx:125-131 | The ticket on display, name, email, quantity (to 1) and status (to idle) are reset. Capacity, sold count and database are untouched. |
| TicketApp.App.ViewExistingTicket | src/App.tsx:133-136 | Only the ticket on display and the status (approved) change; nothing is allocated. |
| TicketApp.App.SetMaxTickets | src/App.tsx:278 | Only the capacity changes: to the parsed entry, or 0 when it is unreadable. It may go below the sold count. |
| TicketApp.App.SetName | src/App.tsx:312 | Only the name changes. |
| TicketApp.App.SetEmail | src/App.tsx:319 | Only the email changes. |
| TicketApp.App.SetQuantity | src/App.tsx:327-332 | Only the quantity changes, to a selector value from 1 to 20. |
| TicketApp.App.ToggleAdmin | src/App.tsx:669 | Only the organizer switch flips. |
| TicketApp.App.ExitAdmin | src/App.tsx:261 | Only the organizer switch changes, to off. |
| TicketApp.App.SessionHistory | src/App.tsx:119-122 | See the list below the table. |
| TicketApp.PrependKeepsHistory | src/App.tsx:120-121 | Putting a ticket for the next passes on the database keeps the bookkeeping of the invariant. |

`TicketApp.App.HandleGenerateTicket` states:

- nothing changes when sold + quantity exceeds the capacity;
- nothing changes when a non-organizer gave no name;
- a non-organizer's accepted request changes only the status, to submitting;
- an organizer's accepted request issues a ticket at once, and:
  - the name becomes `VIP Guest` when it was empty;
  - the identifier is minted from the new sold count;
  - the sold count stays within capacity.

`TicketApp.App.ApproveAndIssue` is an approval followed directly by its
materialisation. It states:

- the sold count grows by the quantity;
- the stored ticket carries the identifier minted at approval, built from
  the new sold count;
- the sent payload reports that ticket's identifier, pass numbers and price.

`TicketApp.App.SessionHistory` states what follows from the invariant:

- the sold count never falls below the loaded count;
- the sold count exceeds the loaded count by the passes of the tickets issued
  since loading;
- those tickets sit on top of the loaded database;
- sold count minus the database's total passes stays what it was at loading;
- the newest ticket ends at the sold count;
- ranges are within bounds, contiguous, and never overlap.

## Left out

- The page itself is not modelled: rendering, styling, fonts, print styles,
  the tilt and glare effect, `progressPercentage` and the decorative random
  sparkles and barcode bars are all presentation.
- Persistence is not modelled. The loads from `localStorage` are the
  constructor's optional inputs. The effect that writes capacity, sold count
  and database back is browser I/O.
- The stored sold count is taken as a non-negative integer. A stored value
  that `parseInt` cannot read (NaN) is not modelled.
- The `fetch` to the recording endpoint is network I/O. Only its outcome is
  modelled, as the `Notify` parameter. In the source the endpoint is the
  placeholder, so `NotConfigured` is what the shipped code does.
- The 1500 ms and 800 ms `setTimeout` delays are explicit steps, with no
  timing.
- The random suffix (`Math.random().toString(36)`) and the timestamp
  (`new Date().toLocaleString()`) are parameters. `IsSuffix` states which
  characters a suffix can have; it is needed only where an identifier is
  split back.
- React's closures and batching are not modelled. Each handler is one atomic
  step over the current state.
- TicketApp.App.ApprovalDelayElapsed: in the source the callback runs the
  `generateFinalTicket` captured when the approval was made, with that
  render's sold count and database. The model uses the values when the step
  runs. The two agree unless another ticket is issued during the 800 ms
  delay. In that case the source would overwrite that issue, and the model
  does not capture that lost update.
- A reset does not cancel a scheduled approval, as in the source.
- TicketApp.App.Schedule: only one pending approval is modelled. A second
  approval within the 800 ms delay replaces the first one in
  `scheduledApproval`. In the source each approval sets its own timer, and
  the first timer briefly shows and stores the first request's ticket. The
  second timer then overwrites it, because both timers run with the same
  captured sold count and database. The end state is the same, but the
  model does not capture the first ticket's brief appearance.
- TicketApp.App.HandleAdminApprove: the same limit as for `Schedule`
  applies. A second approval before the first one's delay elapses replaces
  the scheduled job.
- Counts are unbounded integers in the model. In the source they are
  JavaScript numbers: integers are exact only up to 2^53, and `toString`
  switches to exponent notation (`"1e+21"`) from 10^21. `Numbering.Decimal`
  and the additions on counts assume the counts stay in the range where
  they are exact and printed as plain digits.
- TicketApp.App.TicketsRemaining: `ticketsRemaining` is `maxTickets -
  ticketsSold` and is not clamped at zero, so it goes negative once the
  capacity is set below the sold count. The model follows the code.
