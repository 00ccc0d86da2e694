/** The live-progress modal (`LiveProgressModal`): a feed of workshop updates that an interval
    extends every ten seconds while the modal is open, keeping the three newest. */
module LiveProgress {
  import Seqs

  datatype Update = Update(time: string, message: string, craftsperson: string)

  /** The feed the modal opens with. */
  const InitialUpdates: seq<Update> := [
    Update("2 mins ago", "Starting upper leather preparation", "David"),
    Update("15 mins ago", "Completed morning inspection", "David"),
    Update("1 hour ago", "Materials prepared for today's work", "Simon")]

  /** The update each tick adds. */
  const NewUpdate := Update("Just now", "Precision stitching in progress - 2mm adjustments", "David")

  /** The interval's period in milliseconds. */
  const TickMs := 10000

  /** `prev => [newUpdate, ...prev.slice(0, 2)]`: the new update first, then the two newest of
      the earlier ones, in their order. */
  function Prepend(u: Update, prev: seq<Update>): (r: seq<Update>)
    ensures |r| == if |prev| < 2 then |prev| + 1 else 3
    ensures r[0] == u
    ensures r[1..] == prev[..|r| - 1]
  {
    [u] + Seqs.Take(prev, 2)
  }

  /** The feed after `n` ticks from `feed`. */
  function AfterTicks(feed: seq<Update>, n: nat): seq<Update>
    decreases n
  {
    if n == 0 then feed else Prepend(NewUpdate, AfterTicks(feed, n - 1))
  }

  /** Starting from at most three updates, the feed never holds more than three. */
  lemma {:induction false} AfterTicksBounded(feed: seq<Update>, n: nat)
    requires |feed| <= 3
    ensures |AfterTicks(feed, n)| <= 3
    ensures n > 0 ==> |AfterTicks(feed, n)| == if |feed| + n < 3 then |feed| + n else 3
    decreases n
  {
    if n > 0 {
      AfterTicksBounded(feed, n - 1);
    }
  }

  /** After three ticks every earlier update has scrolled away. */
  lemma {:induction false} ThreeTicksReplaceAll(feed: seq<Update>, n: nat)
    requires |feed| <= 3 && n >= 3
    ensures AfterTicks(feed, n) == [NewUpdate, NewUpdate, NewUpdate]
    decreases n
  {
    AfterTicksBounded(feed, n - 1);
    AfterTicksBounded(feed, n - 2);
    AfterTicksBounded(feed, n - 3);
    if n > 3 {
      ThreeTicksReplaceAll(feed, n - 1);
    }
  }

  class Modal {
    var liveUpdates: seq<Update>
    var intervalActive: bool

    ghost predicate Valid()
      reads this
    {
      1 <= |liveUpdates| <= 3
    }

    /** Opening the modal: the initial feed, and the interval of the mount effect. */
    constructor ()
      ensures Valid() && liveUpdates == InitialUpdates && intervalActive
    {
      liveUpdates := InitialUpdates;
      intervalActive := true;
    }

    /** One firing of the interval. */
    method Tick()
      requires Valid() && intervalActive
      modifies this
      ensures Valid() && intervalActive
      ensures liveUpdates == Prepend(NewUpdate, old(liveUpdates))
    {
      liveUpdates := Prepend(NewUpdate, liveUpdates);
    }

    /** The effect's cleanup on unmount clears the interval; the feed no longer changes. */
    method Unmount()
      requires Valid()
      modifies this
      ensures Valid() && !intervalActive && liveUpdates == old(liveUpdates)
    {
      intervalActive := false;
    }
  }

  /** The first tick pushes the oldest initial update out. */
  method FirstTick() returns (feed: seq<Update>)
    ensures feed == [NewUpdate, InitialUpdates[0], InitialUpdates[1]]
  {
    var m := new Modal();
    m.Tick();
    feed := m.liveUpdates;
  }
}
