/** The appointments endpoint (`/api/appointments`): booking, rescheduling, cancelling and
    listing appointments held in a module-level array, plus the preparation notes sent with a
    booking confirmation. The store is a class whose `records` field the handlers rewrite. */
module Appointments {
  import opened Wrappers
  import opened Js
  import opened Http
  import Seqs
  import Text
  import Availability

  datatype Reminder = Reminder(email: bool, sms: bool, daysBefore: nat)

  /** A stored appointment. `datetime`, `createdAt`, `updatedAt` and `cancelledAt` are instants in
      milliseconds (the source keeps them as ISO strings of the same instants). */
  datatype Appointment = Appointment(
    id: string, customerId: string, serviceType: string, date: string, time: string,
    datetime: int, teamMember: string, notes: string, status: string, createdAt: int,
    reminder: Reminder, updatedAt: Option<int>, cancelledAt: Option<int>)

  /** The fields of a booking request; `None` is a field the JSON body leaves out. */
  datatype BookingRequest = BookingRequest(
    customerId: Option<string>, serviceType: Option<string>, date: Option<string>,
    time: Option<string>, notes: Option<string>, teamMember: Option<string>)

  /** The fields of an update request. */
  datatype Update = Update(date: Option<string>, time: Option<string>, notes: Option<string>,
                           status: Option<string>)

  datatype Location = Location(name: string, address: string, phone: string, directions: string)

  datatype Body =
    | Error(error: string)
    | Listing(appointments: seq<Appointment>, total: nat)
    | Booked(appointment: Appointment, location: Location, preparation: seq<string>,
             cancellationPolicy: string, message: string)
    | Updated(appointment: Appointment, message: string)
    | Cancelled(message: string)

  const DefaultTeamMember := "rebecca"
  const Confirmed := "confirmed"
  const CancelledStatus := "cancelled"

  const Atelier := Location("Arthur Sleep Atelier", "42 Mount Street, Mayfair, London W1K 2RN",
                            "+44 20 7123 4567",
                            "https://maps.google.com/?q=42+Mount+Street+Mayfair+London")

  /** `new Date(`${date}T${time}:00`)`: the instant a date and a time name, or `None` when they
      name none (the source's `toISOString` then throws and the handler answers 500). */
  type DateParser = (string, string) -> Option<int>

  // ---------------------------------------------------------------- store-level predicates

  predicate SameSlot(a: Appointment, b: Appointment) {
    a.date == b.date && a.time == b.time
  }

  /** Some record, of any customer and any status, holds this date and time. */
  predicate SlotTaken(rs: seq<Appointment>, date: string, time: string) {
    exists k :: 0 <= k < |rs| && rs[k].date == date && rs[k].time == time
  }

  /** Some record other than the one at `except` holds this date and time. */
  predicate SlotTakenByOther(rs: seq<Appointment>, except: int, date: string, time: string) {
    exists k :: 0 <= k < |rs| && k != except && rs[k].date == date && rs[k].time == time
  }

  /** No two records share a date and time. */
  predicate UniqueSlots(rs: seq<Appointment>) {
    forall i, j :: 0 <= i < j < |rs| ==> !SameSlot(rs[i], rs[j])
  }

  /** Appending a record whose slot is free keeps the slots unique. */
  lemma AppendKeepsUnique(rs: seq<Appointment>, a: Appointment)
    requires UniqueSlots(rs)
    requires !SlotTaken(rs, a.date, a.time)
    ensures UniqueSlots(rs + [a])
  {
    forall i, j | 0 <= i < j < |rs + [a]| ensures !SameSlot((rs + [a])[i], (rs + [a])[j]) {
      if j == |rs| {
        assert (rs + [a])[i] == rs[i];
      }
    }
  }

  /** Replacing a record by one whose slot no other record holds keeps the slots unique. */
  lemma ReplaceKeepsUnique(rs: seq<Appointment>, i: nat, a: Appointment)
    requires i < |rs|
    requires UniqueSlots(rs)
    requires !SlotTakenByOther(rs, i, a.date, a.time)
    ensures UniqueSlots(rs[i := a])
  {
    var s := rs[i := a];
    forall p, q | 0 <= p < q < |s| ensures !SameSlot(s[p], s[q]) {
      if p == i {
        assert !(rs[q].date == a.date && rs[q].time == a.time);
      } else if q == i {
        assert !(rs[p].date == a.date && rs[p].time == a.time);
      }
    }
  }

  function IdOf(a: Appointment): string { a.id }

  // ---------------------------------------------------------------- booking

  /** `!customerId || !type || !date || !time` */
  predicate MissingField(req: BookingRequest) {
    !Present(req.customerId) || !Present(req.serviceType) || !Present(req.date) || !Present(req.time)
  }

  /** The record a valid booking creates at instant `now` for slot instant `datetime`. */
  function NewAppointment(req: BookingRequest, datetime: int, now: nat): (a: Appointment)
    requires !MissingField(req)
    ensures a.id == "apt_" + Text.NatToString(now)
    ensures a.customerId == req.customerId.value && a.serviceType == req.serviceType.value
    ensures a.date == req.date.value && a.time == req.time.value && a.datetime == datetime
    ensures a.notes == req.notes.GetOr("") && a.teamMember == req.teamMember.GetOr(DefaultTeamMember)
    ensures a.status == Confirmed && a.createdAt == now && a.updatedAt.None? && a.cancelledAt.None?
    ensures a.reminder == Reminder(true, true, 1)
  {
    Appointment("apt_" + Text.NatToString(now), req.customerId.value, req.serviceType.value,
                req.date.value, req.time.value, datetime, req.teamMember.GetOr(DefaultTeamMember),
                req.notes.GetOr(""), Confirmed, now, Reminder(true, true, 1), None, None)
  }

  /** `getPreparationInstructions(type)`: three lines for a known service, none otherwise. */
  function PreparationInstructions(serviceType: string): (r: seq<string>)
    ensures serviceType in Availability.ValidTypes ==> |r| == 3
    ensures serviceType !in Availability.ValidTypes ==> r == []
  {
    if serviceType == "scan" then
      ["Wear or bring thin socks for accurate measurements",
       "Remove any ankle jewellery",
       "Allow 30 minutes for the appointment"]
    else if serviceType == "consultation" then
      ["Bring inspiration photos or references",
       "Consider your lifestyle and occasion needs",
       "Rebecca will guide you through style options"]
    else if serviceType == "fitting" then
      ["Wear the type of socks you plan to wear with the shoes",
       "Allow time to walk and test comfort",
       "Adjustments can be made on the spot"]
    else []
  }

  /** A service has preparation notes exactly when the availability endpoint knows its details. */
  lemma PreparationMatchesServices(serviceType: string)
    ensures PreparationInstructions(serviceType) != [] <==> Availability.ServiceDetails(serviceType).Some?
  {
  }

  // ---------------------------------------------------------------- updates

  /** The record after an update request, or `None` when the new date and time name no instant.
      Date and time change only when one of them is given (truthy); notes change whenever given,
      status only when non-empty; nothing else changes except `updatedAt` on a reschedule. */
  function ApplyUpdate(a: Appointment, u: Update, parse: DateParser, now: nat): (r: Option<Appointment>)
    ensures var resched := Present(u.date) || Present(u.time);
            var d := OrElse(u.date, a.date);
            var t := OrElse(u.time, a.time);
            (r.None? <==> resched && parse(d, t).None?)
            && (r.Some? ==>
                  r.value.id == a.id && r.value.customerId == a.customerId
                  && r.value.serviceType == a.serviceType && r.value.teamMember == a.teamMember
                  && r.value.createdAt == a.createdAt && r.value.reminder == a.reminder
                  && r.value.cancelledAt == a.cancelledAt
                  && r.value.date == d && r.value.time == t
                  && (resched ==> r.value.datetime == parse(d, t).value && r.value.updatedAt == Some(now))
                  && (!resched ==> r.value.datetime == a.datetime && r.value.updatedAt == a.updatedAt)
                  && r.value.notes == u.notes.GetOr(a.notes)
                  && r.value.status == OrElse(u.status, a.status))
  {
    var moved :=
      if Present(u.date) || Present(u.time) then
        var d := OrElse(u.date, a.date);
        var t := OrElse(u.time, a.time);
        match parse(d, t)
        case None => None
        case Some(dt) => Some(a.(date := d, time := t, datetime := dt, updatedAt := Some(now)))
      else Some(a);
    match moved
    case None => None
    case Some(b) =>
      var withNotes := if u.notes.Some? then b.(notes := u.notes.value) else b;
      Some(if Present(u.status) then withNotes.(status := u.status.value) else withNotes)
  }

  /** An update that names neither a date nor a time never moves the record. */
  lemma UpdateWithoutSlotKeepsSlot(a: Appointment, u: Update, parse: DateParser, now: nat)
    requires !Present(u.date) && !Present(u.time)
    ensures ApplyUpdate(a, u, parse, now).Some?
    ensures SameSlot(ApplyUpdate(a, u, parse, now).value, a)
    ensures ApplyUpdate(a, u, parse, now).value.datetime == a.datetime
  {
  }

  /** The soft cancellation of a record. */
  function Cancel(a: Appointment, now: nat): (r: Appointment)
    ensures r.status == CancelledStatus && r.cancelledAt == Some(now)
    ensures r.id == a.id && r.customerId == a.customerId && r.serviceType == a.serviceType
    ensures SameSlot(r, a) && r.datetime == a.datetime && r.teamMember == a.teamMember
    ensures r.notes == a.notes && r.createdAt == a.createdAt && r.reminder == a.reminder
    ensures r.updatedAt == a.updatedAt
  {
    a.(status := CancelledStatus, cancelledAt := Some(now))
  }

  // ---------------------------------------------------------------- listing

  function DatetimeOf(a: Appointment): int { a.datetime }

  /** Which records a listing keeps: the customer's, and with `upcoming` only those after `now`. */
  predicate Listed(a: Appointment, customerId: string, upcoming: bool, now: int) {
    a.customerId == customerId && (upcoming ==> a.datetime > now)
  }

  /** The customer's appointments (upcoming ones only if asked), earliest first. The source
      filters twice, by customer and then by time; one filter by both tests keeps the same
      records in the same order. */
  function ListFor(rs: seq<Appointment>, customerId: string, upcoming: bool, now: int): (r: seq<Appointment>)
    ensures Seqs.SortedBy(r, DatetimeOf)
    ensures multiset(r) <= multiset(rs)
    ensures forall a :: multiset(r)[a] == if Listed(a, customerId, upcoming, now) then multiset(rs)[a] else 0
  {
    var p := (a: Appointment) => Listed(a, customerId, upcoming, now);
    Seqs.FilterCountsAll(rs, p);
    Seqs.SortBy(Seqs.Filter(rs, p), DatetimeOf)
  }

  /** A listing holds exactly the records its filter keeps. */
  lemma ListForMembers(rs: seq<Appointment>, customerId: string, upcoming: bool, now: int, a: Appointment)
    ensures a in ListFor(rs, customerId, upcoming, now) <==> a in rs && Listed(a, customerId, upcoming, now)
  {
    var p := (x: Appointment) => Listed(x, customerId, upcoming, now);
    var kept := Seqs.Filter(rs, p);
    var r := ListFor(rs, customerId, upcoming, now);
    assert multiset(r) == multiset(kept);
    if a in r {
      assert a in multiset(kept);
      var j :| 0 <= j < |kept| && kept[j] == a;
    }
    if a in rs && Listed(a, customerId, upcoming, now) {
      var k :| 0 <= k < |rs| && rs[k] == a;
      assert a in kept;
      assert a in multiset(r);
    }
  }

  // ---------------------------------------------------------------- the store

  /** The module-level `appointments` array and the handlers that change it. */
  class Store {
    var records: seq<Appointment>

    constructor()
      ensures records == []
    {
      records := [];
    }

    /** `GET ?customerId=&upcoming=` at instant `now`. */
    function Get(customerId: Option<string>, upcoming: Option<string>, now: int): (r: Response<Body>)
      reads this
      ensures !Present(customerId) ==> r == Response(BAD_REQUEST, Error("Customer ID required"))
      ensures Present(customerId) ==>
                r.status == OK && r.body.Listing?
                && r.body.appointments == ListFor(records, customerId.value, upcoming == Some("true"), now)
                && r.body.total == |r.body.appointments|
    {
      if !Present(customerId) then Response(BAD_REQUEST, Error("Customer ID required"))
      else
        var list := ListFor(records, customerId.value, upcoming == Some("true"), now);
        Response(OK, Listing(list, |list|))
    }

    /** `POST`: books a slot at instant `now`; `parse` reads the request's date and time. */
    method Post(req: BookingRequest, parse: DateParser, now: nat) returns (r: Response<Body>)
      modifies this
      ensures MissingField(req) ==>
                r == Response(BAD_REQUEST, Error("Missing required fields")) && records == old(records)
      ensures !MissingField(req) && SlotTaken(old(records), req.date.value, req.time.value) ==>
                r == Response(CONFLICT, Error("This slot is no longer available")) && records == old(records)
      ensures !MissingField(req) && !SlotTaken(old(records), req.date.value, req.time.value)
              && parse(req.date.value, req.time.value).None? ==>
                r == Response(SERVER_ERROR, Error("Failed to book appointment")) && records == old(records)
      ensures r.status == CREATED <==>
                !MissingField(req) && !SlotTaken(old(records), req.date.value, req.time.value)
                && parse(req.date.value, req.time.value).Some?
      ensures r.status == CREATED ==>
                var a := NewAppointment(req, parse(req.date.value, req.time.value).value, now);
                records == old(records) + [a]
                && r.body == Booked(a, Atelier, PreparationInstructions(a.serviceType),
                                    "Please provide 24 hours notice for cancellations",
                                    "Appointment confirmed. Confirmation email sent.")
      ensures UniqueSlots(old(records)) ==> UniqueSlots(records)
    {
      if MissingField(req) {
        return Response(BAD_REQUEST, Error("Missing required fields"));
      }
      if SlotTaken(records, req.date.value, req.time.value) {
        return Response(CONFLICT, Error("This slot is no longer available"));
      }
      var datetime := parse(req.date.value, req.time.value);
      if datetime.None? {
        return Response(SERVER_ERROR, Error("Failed to book appointment"));
      }
      var a := NewAppointment(req, datetime.value, now);
      if UniqueSlots(records) {
        AppendKeepsUnique(records, a);
      }
      records := records + [a];
      r := Response(CREATED, Booked(a, Atelier, PreparationInstructions(a.serviceType),
                                     "Please provide 24 hours notice for cancellations",
                                     "Appointment confirmed. Confirmation email sent."));
    }

    /** `PUT /[appointmentId]` as written: a new date or time is taken without looking at the
        other records, although the code announces a check of the new slot. */
    method Put(appointmentId: string, u: Update, parse: DateParser, now: nat) returns (r: Response<Body>)
      modifies this
      ensures Seqs.FindIndex(old(records), IdOf, appointmentId) == -1 ==>
                r == Response(NOT_FOUND, Error("Appointment not found")) && records == old(records)
      ensures var i := Seqs.FindIndex(old(records), IdOf, appointmentId);
              i >= 0 ==>
                var next := ApplyUpdate(old(records)[i], u, parse, now);
                (next.None? ==>
                   r == Response(SERVER_ERROR, Error("Failed to update appointment")) && records == old(records))
                && (next.Some? ==>
                   r == Response(OK, Updated(next.value, "Appointment updated successfully"))
                   && records == old(records)[i := next.value])
    {
      var i := Seqs.FindIndex(records, IdOf, appointmentId);
      if i == -1 {
        return Response(NOT_FOUND, Error("Appointment not found"));
      }
      var a := records[i];
      if Present(u.date) || Present(u.time) {
        var d := OrElse(u.date, a.date);
        var t := OrElse(u.time, a.time);
        var dt := parse(d, t);
        if dt.None? {
          return Response(SERVER_ERROR, Error("Failed to update appointment"));
        }
        a := a.(date := d, time := t, datetime := dt.value, updatedAt := Some(now));
      }
      if u.notes.Some? {
        a := a.(notes := u.notes.value);
      }
      if Present(u.status) {
        a := a.(status := u.status.value);
      }
      records := records[i := a];
      r := Response(OK, Updated(a, "Appointment updated successfully"));
    }

    /** `PUT` with the announced check: a move onto a slot another record holds is refused
        with 409, as a booking onto it would be. */
    method PutChecked(appointmentId: string, u: Update, parse: DateParser, now: nat) returns (r: Response<Body>)
      modifies this
      ensures Seqs.FindIndex(old(records), IdOf, appointmentId) == -1 ==>
                r == Response(NOT_FOUND, Error("Appointment not found")) && records == old(records)
      ensures var i := Seqs.FindIndex(old(records), IdOf, appointmentId);
              i >= 0 ==>
                var next := ApplyUpdate(old(records)[i], u, parse, now);
                (next.None? ==>
                   r == Response(SERVER_ERROR, Error("Failed to update appointment")) && records == old(records))
                && (next.Some? && SlotTakenByOther(old(records), i, next.value.date, next.value.time) ==>
                   r == Response(CONFLICT, Error("This slot is no longer available")) && records == old(records))
                && (next.Some? && !SlotTakenByOther(old(records), i, next.value.date, next.value.time) ==>
                   r == Response(OK, Updated(next.value, "Appointment updated successfully"))
                   && records == old(records)[i := next.value])
      ensures UniqueSlots(old(records)) ==> UniqueSlots(records)
    {
      var i := Seqs.FindIndex(records, IdOf, appointmentId);
      if i == -1 {
        return Response(NOT_FOUND, Error("Appointment not found"));
      }
      var next := ApplyUpdate(records[i], u, parse, now);
      if next.None? {
        return Response(SERVER_ERROR, Error("Failed to update appointment"));
      }
      if SlotTakenByOther(records, i, next.value.date, next.value.time) {
        return Response(CONFLICT, Error("This slot is no longer available"));
      }
      if UniqueSlots(records) {
        ReplaceKeepsUnique(records, i, next.value);
      }
      records := records[i := next.value];
      r := Response(OK, Updated(next.value, "Appointment updated successfully"));
    }

    /** `DELETE /[appointmentId]`: the record stays, marked cancelled at instant `now`. */
    method Delete(appointmentId: string, now: nat) returns (r: Response<Body>)
      modifies this
      ensures Seqs.FindIndex(old(records), IdOf, appointmentId) == -1 ==>
                r == Response(NOT_FOUND, Error("Appointment not found")) && records == old(records)
      ensures var i := Seqs.FindIndex(old(records), IdOf, appointmentId);
              i >= 0 ==>
                r == Response(OK, Cancelled("Appointment cancelled successfully"))
                && records == old(records)[i := Cancel(old(records)[i], now)]
      ensures |records| == |old(records)|
      ensures UniqueSlots(old(records)) ==> UniqueSlots(records)
    {
      var i := Seqs.FindIndex(records, IdOf, appointmentId);
      if i == -1 {
        return Response(NOT_FOUND, Error("Appointment not found"));
      }
      ghost var before := records;
      records := records[i := Cancel(records[i], now)];
      assert forall k :: 0 <= k < |records| ==> SameSlot(records[k], before[k]);
      r := Response(OK, Cancelled("Appointment cancelled successfully"));
    }
  }

  // ---------------------------------------------------------------- properties across calls

  /** As written, rescheduling one appointment onto another's slot succeeds and leaves two
      records in the same slot, though each booking alone was conflict-free. */
  lemma PutCanDuplicateSlot(parse: DateParser)
    requires parse("2024-06-01", "10:00").Some?
    ensures var a := Appointment("apt_1", "c1", "scan", "2024-06-01", "10:00", 0, "rebecca", "",
                                 "confirmed", 1, Reminder(true, true, 1), None, None);
            var b := Appointment("apt_2", "c2", "scan", "2024-06-01", "10:30", 0, "rebecca", "",
                                 "confirmed", 2, Reminder(true, true, 1), None, None);
            var u := Update(None, Some("10:00"), None, None);
            UniqueSlots([a, b])
            && ApplyUpdate(b, u, parse, 3).Some?
            && !UniqueSlots([a, b][1 := ApplyUpdate(b, u, parse, 3).value])
  {
    var a := Appointment("apt_1", "c1", "scan", "2024-06-01", "10:00", 0, "rebecca", "",
                         "confirmed", 1, Reminder(true, true, 1), None, None);
    var b := Appointment("apt_2", "c2", "scan", "2024-06-01", "10:30", 0, "rebecca", "",
                         "confirmed", 2, Reminder(true, true, 1), None, None);
    var u := Update(None, Some("10:00"), None, None);
    assert a.time != b.time by { assert a.time[3] != b.time[3]; }
    var moved := ApplyUpdate(b, u, parse, 3).value;
    assert SameSlot([a, b][1 := moved][0], [a, b][1 := moved][1]);
  }

  /** The checked update refuses exactly that move. */
  lemma PutCheckedRefusesDuplicate(rs: seq<Appointment>, i: nat, a: Appointment)
    requires i < |rs| && UniqueSlots(rs)
    requires SlotTakenByOther(rs, i, a.date, a.time)
    ensures !UniqueSlots(rs[i := a])
  {
    var k :| 0 <= k < |rs| && k != i && rs[k].date == a.date && rs[k].time == a.time;
    if k < i {
      assert SameSlot(rs[i := a][k], rs[i := a][i]);
    } else {
      assert SameSlot(rs[i := a][i], rs[i := a][k]);
    }
  }

  /** Cancelling keeps the record's slot, so a cancelled appointment still blocks new bookings. */
  lemma CancelledSlotStaysTaken(rs: seq<Appointment>, i: nat, now: nat)
    requires i < |rs|
    ensures SlotTaken(rs[i := Cancel(rs[i], now)], rs[i].date, rs[i].time)
  {
    assert rs[i := Cancel(rs[i], now)][i].date == rs[i].date;
  }
}
