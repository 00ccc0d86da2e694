/** The book-an-appointment modal (`BookScanModal`): choose a service, one of the dates that is
    not fully booked, and a time; the summary and Confirm need both a date and a time. */
module BookScan {
  datatype ServiceType = Scan | Consultation | Fitting

  datatype DateOption = DateOption(date: string, day: string, full: bool)

  const AvailableDates: seq<DateOption> := [
    DateOption("Tomorrow", "Thursday", false),
    DateOption("Friday", "23 June", false),
    DateOption("Monday", "26 June", true),
    DateOption("Tuesday", "27 June", false)]

  const AvailableTimes: seq<string> := ["10:00", "10:30", "11:00", "11:30", "14:00", "14:30",
                                        "15:00", "15:30", "16:00", "16:30"]

  /** The dates a click can select: those not fully booked. */
  function OpenDates(dates: seq<DateOption>): (r: seq<string>)
    ensures forall d :: d in r <==> exists k :: 0 <= k < |dates| && !dates[k].full && dates[k].date == d
    decreases |dates|
  {
    if |dates| == 0 then []
    else (if dates[0].full then [] else [dates[0].date]) + OpenDates(dates[1..])
  }

  /** Monday is the fully booked date. */
  lemma MondayIsFull()
    ensures "Monday" !in OpenDates(AvailableDates)
    ensures OpenDates(AvailableDates) == ["Tomorrow", "Friday", "Tuesday"]
  {
    assert AvailableDates[1..][1..][1..][1..] == [];
  }

  /** What the modal renders. */
  datatype View = View(timeGrid: bool, summary: bool, confirmEnabled: bool, confirmation: bool)

  function ViewOf(selectedDate: string, selectedTime: string, confirmed: bool): (v: View)
    ensures v.confirmation <==> confirmed
    ensures !confirmed ==> (v.timeGrid <==> selectedDate != "")
    ensures !confirmed ==> (v.summary <==> v.confirmEnabled)
    ensures !confirmed ==> (v.confirmEnabled <==> selectedDate != "" && selectedTime != "")
    ensures confirmed ==> !v.timeGrid && !v.summary && !v.confirmEnabled
  {
    if confirmed then View(false, false, false, true)
    else
      var both := selectedDate != "" && selectedTime != "";
      View(selectedDate != "", both, both, false)
  }

  class Modal {
    var serviceType: ServiceType
    var selectedDate: string
    var selectedTime: string
    var confirmed: bool

    /** A selected date was open; a selected time is one of the grid's. */
    ghost predicate Valid()
      reads this
    {
      && (selectedDate != "" ==> selectedDate in OpenDates(AvailableDates))
      && (selectedTime != "" ==> selectedTime in AvailableTimes)
    }

    function Shown(): View
      reads this
    {
      ViewOf(selectedDate, selectedTime, confirmed)
    }

    /** The modal opens on the scan service with no date or time. */
    constructor ()
      ensures Valid()
      ensures serviceType == Scan && selectedDate == "" && selectedTime == "" && !confirmed
      ensures !Shown().timeGrid && !Shown().confirmEnabled
    {
      serviceType := Scan;
      selectedDate := "";
      selectedTime := "";
      confirmed := false;
    }

    /** A service card: the date and time stay as they are. */
    method ChooseService(s: ServiceType)
      requires Valid() && !confirmed
      modifies this
      ensures Valid()
      ensures serviceType == s
      ensures selectedDate == old(selectedDate) && selectedTime == old(selectedTime) && confirmed == old(confirmed)
    {
      serviceType := s;
    }

    /** A date button: `!date.full && setSelectedDate(date.date)`. */
    method ClickDate(d: DateOption)
      requires Valid() && !confirmed && d in AvailableDates
      modifies this
      ensures Valid()
      ensures d.full ==> selectedDate == old(selectedDate)
      ensures !d.full ==> selectedDate == d.date
      ensures serviceType == old(serviceType) && selectedTime == old(selectedTime) && confirmed == old(confirmed)
    {
      if !d.full {
        selectedDate := d.date;
      }
    }

    /** A time button, rendered only once a date is chosen. */
    method ClickTime(t: string)
      requires Valid() && Shown().timeGrid && t in AvailableTimes
      modifies this
      ensures Valid()
      ensures selectedTime == t
      ensures serviceType == old(serviceType) && selectedDate == old(selectedDate) && confirmed == old(confirmed)
    {
      selectedTime := t;
    }

    /** `handleConfirm`, from the enabled Confirm button: the confirmation view. */
    method Confirm()
      requires Valid() && Shown().confirmEnabled
      modifies this
      ensures Valid()
      ensures confirmed && Shown().confirmation
      ensures serviceType == old(serviceType) && selectedDate == old(selectedDate) && selectedTime == old(selectedTime)
    {
      confirmed := true;
    }
  }

  /** Clicking the full Monday leaves Friday selected, and the booking goes through for Friday. */
  method BookFriday() returns (date: string, time: string, done: bool)
    ensures date == "Friday" && time == "10:30" && done
  {
    var m := new Modal();
    MondayIsFull();
    m.ClickDate(AvailableDates[1]);
    m.ClickDate(AvailableDates[2]);
    m.ClickTime("10:30");
    m.ChooseService(Consultation);
    m.Confirm();
    date, time, done := m.selectedDate, m.selectedTime, m.confirmed;
  }
}
