/** The voice-message modal (`VoiceMessageModal`): choose a team member and a voice or text
    message, record with a seconds counter, and send; sending shows "Sending..." and, in turn,
    the sent view and the close. Each timeout is an event the caller fires. */
module VoiceMessage {
  import opened Wrappers
  import Text
  import Team
  import Utils

  datatype Status = Idle | Recording | Sending | Sent

  datatype MessageType = Voice | TextMessage

  /** The quick-suggestion texts. */
  const Suggestions: seq<string> := ["How's my order progressing?", "Can we adjust the fit slightly?",
                                     "Thank you for the update!"]

  /** The Send button's `disabled`: while recording, or for a text message that is blank. */
  predicate SendDisabled(status: Status, messageType: MessageType, messageText: string) {
    status == Recording || (messageType == TextMessage && Text.Trim(messageText) == "")
  }

  lemma SendDisabledIff(status: Status, messageType: MessageType, messageText: string)
    ensures SendDisabled(status, messageType, messageText) <==>
              status == Recording || (messageType == TextMessage && Text.Blank(messageText))
  {
    Text.TrimEmptyIffBlank(messageText);
  }

  /** The recording counter as shown, `m:ss`; it reads back as the seconds it shows. */
  function ShownTime(seconds: nat): (r: string)
    ensures Utils.ParseClock(r) == Some(seconds)
  {
    Utils.FormatTimeRoundTrip(seconds);
    Utils.FormatTime(seconds)
  }

  /** The modal's state as a value. */
  datatype State = State(
    member: Team.Member, messageType: MessageType, messageText: string, status: Status,
    recordingTime: nat, intervalActive: bool, pendingSent: nat, pendingClose: nat, closeCalls: nat)

  class Modal {
    var selectedTeamMember: Team.Member
    var messageType: MessageType
    var messageText: string
    var status: Status
    var recordingTime: nat

    /** Whether the effect on `[status]` has a one-second interval running. */
    var intervalActive: bool

    /** Scheduled timeouts: those that will set the sent status, and those that will close. */
    var pendingSent: nat
    var pendingClose: nat

    /** How many times `onClose` was called by the close timeout. */
    var closeCalls: nat

    function Snapshot(): State
      reads this
    {
      State(selectedTeamMember, messageType, messageText, status, recordingTime, intervalActive,
            pendingSent, pendingClose, closeCalls)
    }

    /** The interval runs exactly while recording; "Sending..." always has a timeout pending. */
    ghost predicate Valid()
      reads this
    {
      && (intervalActive <==> status == Recording)
      && (status == Sending ==> pendingSent > 0)
    }

    /** The modal opens idle, for a voice message to the first team member. */
    constructor ()
      ensures Valid()
      ensures Snapshot() == State(Team.TeamData[0], Voice, "", Idle, 0, false, 0, 0, 0)
    {
      selectedTeamMember := Team.TeamData[0];
      messageType := Voice;
      messageText := "";
      status := Idle;
      recordingTime := 0;
      intervalActive := false;
      pendingSent := 0;
      pendingClose := 0;
      closeCalls := 0;
    }

    /** A team member's button. */
    method SelectMember(m: Team.Member)
      requires Valid() && status != Sent && m in Team.TeamData
      modifies this
      ensures Valid()
      ensures Snapshot() == old(Snapshot()).(member := m)
    {
      selectedTeamMember := m;
    }

    /** The Voice and Text buttons. */
    method SelectType(t: MessageType)
      requires Valid() && status != Sent
      modifies this
      ensures Valid()
      ensures Snapshot() == old(Snapshot()).(messageType := t)
    {
      messageType := t;
    }

    /** Typing in the text box, or a quick suggestion. */
    method SetText(text: string)
      requires Valid() && status != Sent
      modifies this
      ensures Valid()
      ensures Snapshot() == old(Snapshot()).(messageText := text)
    {
      messageText := text;
    }

    /** The effect on `[status]`: an interval runs from the moment the status is recording, and
        the cleanup clears it when the status changes. */
    method StatusEffect()
      requires status == Sending ==> pendingSent > 0
      modifies this
      ensures Valid()
      ensures Snapshot() == old(Snapshot()).(intervalActive := status == Recording)
    {
      intervalActive := status == Recording;
    }

    /** `handleStartRecording`, shown in voice mode when not recording; the counter restarts. */
    method StartRecording()
      requires Valid() && messageType == Voice && status != Recording && status != Sent
      modifies this
      ensures Valid()
      ensures Snapshot() == old(Snapshot()).(status := Recording, recordingTime := 0, intervalActive := true)
    {
      status := Recording;
      recordingTime := 0;
      StatusEffect();
    }

    /** `handleStopRecording`: idle again; the counter keeps the recorded time. */
    method StopRecording()
      requires Valid() && messageType == Voice && status == Recording
      modifies this
      ensures Valid()
      ensures Snapshot() == old(Snapshot()).(status := Idle, intervalActive := false)
    {
      status := Idle;
      StatusEffect();
    }

    /** One second of the interval, which runs only while recording. */
    method Second()
      requires Valid() && intervalActive
      modifies this
      ensures Valid() && status == Recording
      ensures Snapshot() == old(Snapshot()).(recordingTime := old(recordingTime) + 1)
    {
      recordingTime := recordingTime + 1;
    }

    /** `handleSend`, from an enabled Send button: "Sending..." and a 1.5 s timeout. */
    method Send()
      requires Valid() && status != Sent && !SendDisabled(status, messageType, messageText)
      modifies this
      ensures Valid()
      ensures Snapshot() == old(Snapshot()).(status := Sending, pendingSent := old(pendingSent) + 1)
    {
      status := Sending;
      pendingSent := pendingSent + 1;
      StatusEffect();
    }

    /** The send timeout fires: the sent view, and a further 1.5 s timeout for the close. */
    method SentTimeout()
      requires Valid() && pendingSent > 0
      modifies this
      ensures Valid()
      ensures Snapshot() == old(Snapshot()).(status := Sent, intervalActive := false,
                                             pendingSent := old(pendingSent) - 1,
                                             pendingClose := old(pendingClose) + 1)
    {
      status := Sent;
      pendingSent := pendingSent - 1;
      pendingClose := pendingClose + 1;
      StatusEffect();
    }

    /** The close timeout fires and calls `onClose`. */
    method CloseTimeout()
      requires Valid() && pendingClose > 0
      modifies this
      ensures Valid()
      ensures Snapshot() == old(Snapshot()).(pendingClose := old(pendingClose) - 1,
                                             closeCalls := old(closeCalls) + 1)
    {
      pendingClose := pendingClose - 1;
      closeCalls := closeCalls + 1;
    }
  }

  /** Record three seconds, stop and send: the counter shows 0:03, and the two timeouts lead to a
      single close. */
  method RecordAndSend() returns (shown: string, closes: nat, final: Status)
    ensures Utils.ParseClock(shown) == Some(3) && closes == 1 && final == Sent
  {
    var m := new Modal();
    m.StartRecording();
    m.Second();
    m.Second();
    m.Second();
    m.StopRecording();
    shown := ShownTime(m.recordingTime);
    m.Send();
    m.SentTimeout();
    m.CloseTimeout();
    closes, final := m.closeCalls, m.status;
  }

  /** Sending a text message needs text that is not all whitespace. */
  method BlankTextCannotBeSent() returns (disabled: bool)
    ensures disabled
  {
    var m := new Modal();
    m.SelectType(TextMessage);
    m.SetText("  ");
    assert Text.Blank(m.messageText);
    SendDisabledIff(m.status, m.messageType, m.messageText);
    disabled := SendDisabled(m.status, m.messageType, m.messageText);
  }
}
