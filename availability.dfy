/** The appointment availability endpoint (`GET /api/appointments/availability`): the day's free
    slots for a service, its details, and the first free time. The appointments route carries a
    copy of the same slot generator and handler; this module is the one model of both. */
module Availability {
  import opened Wrappers
  import opened Js
  import opened Http
  import Text

  /** Slot start times, as minutes after midnight, every half hour: the morning's 10:00 to 11:30
      and the afternoon's 14:00 to 16:30. */
  const MorningSlots: seq<nat> := [600, 630, 660, 690]
  const AfternoonSlots: seq<nat> := [840, 870, 900, 930, 960, 990]
  const BaseSlots: seq<nat> := MorningSlots + AfternoonSlots

  /** The slots the mock treats as taken on every date: 11:00, 14:30 and 15:00. */
  const BookedSlots: seq<nat> := [660, 870, 900]

  const ValidTypes: seq<string> := ["scan", "consultation", "fitting"]

  /** How a time is written in the response: `HH:MM`. */
  function TimeText(minutes: nat): (t: string)
    ensures minutes < 24 * 60 ==> |t| == 5 && t[2] == ':'
  {
    Text.Pad2(minutes / 60) + ":" + Text.Pad2(minutes % 60)
  }

  /** A slot of the response; `time` is shown as `TimeText(time)`. */
  datatype Slot = Slot(time: nat, available: bool, duration: nat)

  /** Minutes a slot lasts: 45 for a consultation, 30 for anything else. */
  function SlotMinutes(serviceType: string): nat {
    if serviceType == "consultation" then 45 else 30
  }

  /** `base.filter(slot => !booked.includes(slot))`, in order. */
  function Free(base: seq<nat>, booked: seq<nat>): (r: seq<nat>)
    ensures |r| <= |base|
    ensures forall k :: 0 <= k < |r| ==> r[k] !in booked
    decreases |base|
  {
    if |base| == 0 then []
    else (if base[0] in booked then [] else [base[0]]) + Free(base[1..], booked)
  }

  /** A time is free exactly when it is a base time and not booked. */
  lemma {:induction false} FreeMembers(base: seq<nat>, booked: seq<nat>, t: nat)
    ensures t in Free(base, booked) <==> t in base && t !in booked
    decreases |base|
  {
    if |base| > 0 {
      FreeMembers(base[1..], booked, t);
      assert base == [base[0]] + base[1..];
    }
  }

  /** Filtering a list in two parts filters each part. */
  lemma {:induction false} FreeAppend(a: seq<nat>, b: seq<nat>, booked: seq<nat>)
    ensures Free(a + b, booked) == Free(a, booked) + Free(b, booked)
    decreases |a|
  {
    if |a| > 0 {
      assert (a + b)[0] == a[0] && (a + b)[1..] == a[1..] + b;
      FreeAppend(a[1..], b, booked);
    } else {
      assert a + b == b;
    }
  }

  function Times(slots: seq<Slot>): (r: seq<nat>)
    ensures |r| == |slots|
    ensures forall k :: 0 <= k < |r| ==> r[k] == slots[k].time
  {
    seq(|slots|, k requires 0 <= k < |slots| => slots[k].time)
  }

  /** `generateAvailableSlots(date, serviceType)`: the base slots that are not booked, in order,
      each available and lasting as long as the service. The date does not matter. */
  function GenerateAvailableSlots(serviceType: string): (r: seq<Slot>)
    ensures Times(r) == Free(BaseSlots, BookedSlots)
    ensures forall k :: 0 <= k < |r| ==> r[k].available && r[k].duration == SlotMinutes(serviceType)
  {
    var free := Free(BaseSlots, BookedSlots);
    var m := SlotMinutes(serviceType);
    seq(|free|, k requires 0 <= k < |free| => Slot(free[k], true, m))
  }

  /** On the mock's lists the free times are 10:00, 10:30, 11:30, 14:00, 15:30, 16:00 and 16:30. */
  lemma FreeTimesValue()
    ensures Free(BaseSlots, BookedSlots) == [600, 630, 690, 840, 930, 960, 990]
  {
    FreeAppend(MorningSlots, AfternoonSlots, BookedSlots);
    FreeMorning();
    FreeAfternoon();
  }

  /** Of the morning slots, 11:00 is taken. */
  lemma FreeMorning()
    ensures Free(MorningSlots, BookedSlots) == [600, 630, 690]
  {
  }

  /** Of the afternoon slots, 14:30 and 15:00 are taken. */
  lemma FreeAfternoon()
    ensures Free(AfternoonSlots, BookedSlots) == [840, 930, 960, 990]
  {
  }

  /** The free times are exactly the base times that are not booked. */
  lemma FreeTimesAreBaseMinusBooked(serviceType: string, t: nat)
    ensures t in Times(GenerateAvailableSlots(serviceType)) <==> t in BaseSlots && t !in BookedSlots
  {
    FreeMembers(BaseSlots, BookedSlots, t);
  }

  /** What `serviceDetails[type]` holds. */
  datatype Service = Service(duration: string, location: string, description: string)

  const AtelierLocation := "Mount Street Atelier"

  function ServiceDetails(serviceType: string): (r: Option<Service>)
    ensures r.Some? <==> serviceType in ValidTypes
    ensures r.Some? ==> r.value.location == AtelierLocation
    ensures r.Some? ==> r.value.duration == (if serviceType == "consultation" then "45 minutes" else "30 minutes")
  {
    if serviceType == "scan" then Some(Service("30 minutes", AtelierLocation, "3D foot scanning for perfect fit"))
    else if serviceType == "consultation" then Some(Service("45 minutes", AtelierLocation, "Style consultation with your specialist"))
    else if serviceType == "fitting" then Some(Service("30 minutes", AtelierLocation, "Try on and adjust your new shoes"))
    else None
  }

  /** The details' duration agrees with the slots' length. */
  lemma ServiceMatchesSlots(serviceType: string)
    requires serviceType in ValidTypes
    ensures var s := GenerateAvailableSlots(serviceType);
            ServiceDetails(serviceType).value.duration == NatToMinutes(s[0].duration)
  {
  }

  function NatToMinutes(n: nat): string {
    if n == 45 then "45 minutes" else if n == 30 then "30 minutes" else ""
  }

  datatype Body =
    | Error(error: string)
    | Availability(date: string, serviceType: string, service: Service, slots: seq<Slot>,
                   nextAvailable: Option<nat>)

  /** `slots[0]?.time || null`: a slot's time text is never empty, so this is the first slot's time. */
  function NextAvailable(slots: seq<Slot>): (r: Option<nat>)
    ensures r.Some? <==> |slots| > 0
    ensures r.Some? ==> r.value == slots[0].time
  {
    if |slots| > 0 then Some(slots[0].time) else None
  }

  /** `GET ?type=&date=`; each parameter is absent (`None`) or a string. */
  function Get(serviceType: Option<string>, date: Option<string>): (r: Response<Body>)
    ensures !Present(serviceType) || !Present(date) ==>
              r == Response(BAD_REQUEST, Error("Service type and date required"))
    ensures Present(serviceType) && Present(date) && serviceType.value !in ValidTypes ==>
              r == Response(BAD_REQUEST, Error("Invalid service type"))
    ensures r.status == OK ==>
              r.body.Availability? && r.body.date == date.value && r.body.serviceType == serviceType.value
              && Some(r.body.service) == ServiceDetails(serviceType.value)
              && r.body.slots == GenerateAvailableSlots(serviceType.value)
              && r.body.nextAvailable == Some(600)
  {
    if !Present(serviceType) || !Present(date) then Response(BAD_REQUEST, Error("Service type and date required"))
    else if serviceType.value !in ValidTypes then Response(BAD_REQUEST, Error("Invalid service type"))
    else
      var slots := GenerateAvailableSlots(serviceType.value);
      FreeTimesValue();
      assert Times(slots)[0] == 600;
      Response(OK, Availability(date.value, serviceType.value, ServiceDetails(serviceType.value).value,
                                slots, NextAvailable(slots)))
  }

  /** The request succeeds exactly when both parameters are given and the type is known. */
  lemma GetSucceedsIff(serviceType: Option<string>, date: Option<string>)
    ensures Get(serviceType, date).status == OK <==>
              Present(serviceType) && Present(date) && serviceType.value in ValidTypes
    ensures Get(serviceType, date).status == OK || Get(serviceType, date).status == BAD_REQUEST
  {
  }
}
