/** Threshold notification state machine: WebhookManager.
    Three "reached" flags (50%, 100%, 200% rise) only move from false to true, at
    most one per call, and only when the notification for that threshold was
    delivered; a reading below the previous one fires nothing. Network
    availability and the outcome of the HTTP send are inputs. */
module Webhook {

  datatype Level = Rise50 | Rise100 | Rise200

  /** The rise percentage at which a level's notification is due. */
  function Bound(level: Level): real {
    match level
    case Rise50 => 50.0
    case Rise100 => 100.0
    case Rise200 => 200.0
  }

  function Rank(level: Level): nat {
    match level
    case Rise50 => 0
    case Rise100 => 1
    case Rise200 => 2
  }

  /** The notification state of one fermentation cycle. */
  datatype Thresholds = Thresholds(reached50: bool, reached100: bool, reached200: bool, lastRise: real) {
    predicate Reached(level: Level) {
      match level
      case Rise50 => reached50
      case Rise100 => reached100
      case Rise200 => reached200
    }

    function Mark(level: Level): (t: Thresholds)
      ensures t.lastRise == lastRise
      ensures forall l :: t.Reached(l) <==> Reached(l) || l == level
    {
      match level
      case Rise50 => this.(reached50 := true)
      case Rise100 => this.(reached100 := true)
      case Rise200 => this.(reached200 := true)
    }
  }

  /** The state at the start of a fermentation cycle. */
  const CYCLE_START := Thresholds(false, false, false, 0.0)

  /** The message handed to the sender during a call, if any. */
  datatype Attempt = NoSend | Send(level: Level)

  /** Everything one checkAndNotify call depends on besides the thresholds. */
  datatype Call = Call(enabled: bool, url: string, wifiUp: bool, rise: real, sendOk: bool)

  datatype Outcome = Outcome(thresholds: Thresholds, attempt: Attempt)

  /** The call gets past the early returns: enabled, configured, network up. */
  predicate Open(call: Call) {
    call.enabled && |call.url| > 0 && call.wifiUp
  }

  /** `level` is due: not reached yet, and the rise meets its bound. */
  predicate Due(t: Thresholds, rise: real, level: Level) {
    !t.Reached(level) && rise >= Bound(level)
  }

  /** The highest due level, if any. */
  function HighestDue(t: Thresholds, rise: real): (a: Attempt)
    ensures a.Send? ==> Due(t, rise, a.level) && forall l :: Rank(l) > Rank(a.level) ==> !Due(t, rise, l)
    ensures a == NoSend <==> forall l :: !Due(t, rise, l)
  {
    if Due(t, rise, Rise200) then Send(Rise200)
    else if Due(t, rise, Rise100) then Send(Rise100)
    else if Due(t, rise, Rise50) then Send(Rise50)
    else NoSend
  }

  /** One checkAndNotify call. */
  function Step(t: Thresholds, call: Call): (o: Outcome)
    ensures o.attempt.Send? ==> Open(call) && call.rise >= t.lastRise && o.attempt == HighestDue(t, call.rise)
    ensures forall l :: t.Reached(l) ==> o.thresholds.Reached(l)
    ensures o.thresholds.lastRise == if Open(call) then call.rise else t.lastRise
  {
    if !Open(call) then Outcome(t, NoSend)
    else if call.rise < t.lastRise then Outcome(t.(lastRise := call.rise), NoSend)
    else
      var attempt := HighestDue(t, call.rise);
      var marked := if attempt.Send? && call.sendOk then t.Mark(attempt.level) else t;
      Outcome(marked.(lastRise := call.rise), attempt)
  }

  /** A closed gate changes nothing, not even the last rise. */
  lemma StepClosed(t: Thresholds, call: Call)
    requires !Open(call)
    ensures Step(t, call) == Outcome(t, NoSend)
  {
  }

  /** A falling reading only records itself. */
  lemma StepFalling(t: Thresholds, call: Call)
    requires Open(call) && call.rise < t.lastRise
    ensures Step(t, call) == Outcome(t.(lastRise := call.rise), NoSend)
  {
  }

  /** The send attempted is exactly for the highest due level, and only on an open call
      whose reading did not fall. */
  lemma StepSendsHighestDue(t: Thresholds, call: Call, level: Level)
    ensures Step(t, call).attempt == Send(level) <==>
              && Open(call) && call.rise >= t.lastRise
              && Due(t, call.rise, level)
              && forall higher :: Rank(higher) > Rank(level) ==> !Due(t, call.rise, higher)
  {
    var due := Due(t, call.rise, level);
    if Open(call) && call.rise >= t.lastRise && due {
      match level
      case Rise50 =>
        assert Rank(Rise100) > Rank(level) && Rank(Rise200) > Rank(level);
      case Rise100 =>
        assert Rank(Rise200) > Rank(level);
      case Rise200 =>
    }
  }

  /** A flag turns on exactly when its notification was attempted and delivered;
      no flag ever turns off; the last rise becomes the reading whenever the gate is open. */
  lemma StepFlags(t: Thresholds, call: Call, level: Level)
    ensures var o := Step(t, call);
            && (o.thresholds.Reached(level) <==>
                  t.Reached(level) || (o.attempt == Send(level) && call.sendOk))
            && (o.attempt == Send(level) ==> !t.Reached(level) && call.rise >= Bound(level))
            && o.thresholds.lastRise == (if Open(call) then call.rise else t.lastRise)
  {
  }

  /** At most one flag turns on per call. */
  lemma StepAtMostOne(t: Thresholds, call: Call, l1: Level, l2: Level)
    requires !t.Reached(l1) && Step(t, call).thresholds.Reached(l1)
    requires !t.Reached(l2) && Step(t, call).thresholds.Reached(l2)
    ensures l1 == l2
  {
    StepFlags(t, call, l1);
    StepFlags(t, call, l2);
  }

  /** Taking the 200% branch leaves the lower flags alone, whether or not the send succeeds. */
  lemma StepTopBranch(t: Thresholds, call: Call)
    requires Open(call) && call.rise >= t.lastRise && Due(t, call.rise, Rise200)
    ensures Step(t, call).attempt == Send(Rise200)
    ensures Step(t, call).thresholds.reached100 == t.reached100
    ensures Step(t, call).thresholds.reached50 == t.reached50
    ensures Step(t, call).thresholds.reached200 == call.sendOk
  {
  }

  /** The thresholds after a sequence of calls. */
  function Run(t: Thresholds, calls: seq<Call>): Thresholds
    decreases |calls|
  {
    if calls == [] then t else Run(Step(t, calls[0]).thresholds, calls[1..])
  }

  /** How many calls of the sequence handed `level`'s notification to the sender
      and had it delivered. */
  function Deliveries(t: Thresholds, calls: seq<Call>, level: Level): nat
    decreases |calls|
  {
    if calls == [] then 0
    else
      var out := Step(t, calls[0]);
      (if out.attempt == Send(level) && calls[0].sendOk then 1 else 0) + Deliveries(out.thresholds, calls[1..], level)
  }

  lemma {:induction false} RunKeepsReached(t: Thresholds, calls: seq<Call>, level: Level)
    requires t.Reached(level)
    ensures Run(t, calls).Reached(level)
    decreases |calls|
  {
    if calls != [] {
      StepFlags(t, calls[0], level);
      RunKeepsReached(Step(t, calls[0]).thresholds, calls[1..], level);
    }
  }

  /** Over any sequence of calls without a reset, each threshold is notified successfully
      at most once, and exactly once if its flag ends up set having started clear. */
  lemma {:induction false} DeliveredAtMostOnce(t: Thresholds, calls: seq<Call>, level: Level)
    ensures Deliveries(t, calls, level) == if !t.Reached(level) && Run(t, calls).Reached(level) then 1 else 0
    decreases |calls|
  {
    if calls != [] {
      var next := Step(t, calls[0]).thresholds;
      DeliveredAtMostOnce(next, calls[1..], level);
      if next.Reached(level) {
        RunKeepsReached(next, calls[1..], level);
      }
      StepFlags(t, calls[0], level);
    }
  }

  class WebhookManager {
    var webhookURL: string
    var enabled: bool
    var threshold50Reached: bool
    var threshold100Reached: bool
    var threshold200Reached: bool
    var lastRisePercentage: real

    function State(): Thresholds
      reads this
    {
      Thresholds(threshold50Reached, threshold100Reached, threshold200Reached, lastRisePercentage)
    }

    constructor ()
      ensures webhookURL == [] && enabled && State() == CYCLE_START
    {
      webhookURL := [];
      enabled := true;
      threshold50Reached, threshold100Reached, threshold200Reached := false, false, false;
      lastRisePercentage := 0.0;
    }

    method SetWebhookURL(url: string)
      modifies this
      ensures webhookURL == url && enabled == old(enabled) && State() == old(State())
    {
      webhookURL := url;
    }

    function IsConfigured(): (b: bool)
      reads this
      ensures b <==> webhookURL != []
    {
      |webhookURL| > 0
    }

    method SetEnabled(en: bool)
      modifies this
      ensures enabled == en && webhookURL == old(webhookURL) && State() == old(State())
    {
      enabled := en;
    }

    /** checkAndNotify, with the network's state and the outcome of the send as inputs;
        returns the notification it handed to the sender, if any. */
    method CheckAndNotify(currentRisePercentage: real, wifiUp: bool, sendOk: bool) returns (attempt: Attempt)
      modifies this
      ensures Outcome(State(), attempt)
              == Step(old(State()), Call(old(enabled), old(webhookURL), wifiUp, currentRisePercentage, sendOk))
      ensures webhookURL == old(webhookURL) && enabled == old(enabled)
    {
      attempt := NoSend;
      if !enabled || |webhookURL| == 0 {
        return;
      }
      if !wifiUp {
        return;
      }
      if currentRisePercentage < lastRisePercentage {
        lastRisePercentage := currentRisePercentage;
        return;
      }
      if !threshold200Reached && currentRisePercentage >= 200.0 {
        attempt := Send(Rise200);
        if sendOk {
          threshold200Reached := true;
        }
      } else if !threshold100Reached && currentRisePercentage >= 100.0 {
        attempt := Send(Rise100);
        if sendOk {
          threshold100Reached := true;
        }
      } else if !threshold50Reached && currentRisePercentage >= 50.0 {
        attempt := Send(Rise50);
        if sendOk {
          threshold50Reached := true;
        }
      }
      lastRisePercentage := currentRisePercentage;
    }

    /** Starts a new fermentation cycle. */
    method ResetThresholds()
      modifies this
      ensures State() == CYCLE_START
      ensures webhookURL == old(webhookURL) && enabled == old(enabled)
    {
      threshold50Reached := false;
      threshold100Reached := false;
      threshold200Reached := false;
      lastRisePercentage := 0.0;
    }

    /** sendTestNotification: a send is attempted only when configured and the network
        is up, and the result is the send's outcome. Enabling is not required. */
    method SendTestNotification(wifiUp: bool, sendOk: bool) returns (ok: bool, attempted: bool)
      ensures attempted <==> webhookURL != [] && wifiUp
      ensures ok <==> attempted && sendOk
    {
      if !IsConfigured() {
        return false, false;
      }
      if !wifiUp {
        return false, false;
      }
      return sendOk, true;
    }
  }
}
