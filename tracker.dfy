/** The assistant's behaviour tracker: what `process_image_analysis` does with one
    classified observation before it talks to the chat model.

    It counts observations per behaviour, times how long the same behaviour has gone
    on, runs a sitting timer that only "other" resets, picks at most one reminder from
    a fixed if/elif chain (each kind with its own cooldown), and decides whether to
    encourage. The encouragement condition is kept exactly as the program groups it:
    Python's `and` binds tighter than `or`, so long work is praised without any
    cooldown and only water drinking waits for the cooldown. */
module Tracker {
  import opened Text

  datatype Behavior = Work | Eating | DrinkingWater | DrinkingBeverage | Phone | Sleeping | Other

  /** The keys of `last_reminder_time`. */
  datatype Cooldown = EatingCooldown | BeverageCooldown | SittingCooldown | PhoneCooldown | EncouragementCooldown

  /** The `reminder_type` values. */
  datatype Reminder = EatingReminder | BeverageReminder | PhoneReminder | SittingReminder

  const AllBehaviors: set<Behavior> := {Work, Eating, DrinkingWater, DrinkingBeverage, Phone, Sleeping, Other}
  const AllCooldowns: set<Cooldown> := {EatingCooldown, BeverageCooldown, SittingCooldown, PhoneCooldown, EncouragementCooldown}

  const EatingThreshold: nat := 2
  const BeverageThreshold: nat := 2
  const PhoneThreshold: nat := 1
  /** Seconds of sitting before a reminder. */
  const SittingThreshold: real := 1800.0
  /** Seconds between two reminders of one kind, and between two encouragements. */
  const ReminderInterval: real := 600.0
  /** Seconds of continuous work before praise. */
  const WorkPraiseAfter: real := 600.0

  /** `behavior_map.get(num, "other")` in `process_image_analysis`. */
  function BehaviorOf(num: string): (b: Behavior)
    ensures num !in ["1", "2", "3", "4", "5", "6"] ==> b == Other
  {
    if num == "1" then Work
    else if num == "2" then Eating
    else if num == "3" then DrinkingWater
    else if num == "4" then DrinkingBeverage
    else if num == "5" then Phone
    else if num == "6" then Sleeping
    else Other
  }

  datatype TrackerState = TrackerState(
    counters: map<Behavior, nat>,
    lastBehavior: Option<Behavior>,
    continuousBehaviorTime: real,
    sittingStartTime: real,
    lastReminderTime: map<Cooldown, real>)

  /** Every counter and every cooldown has its entry, as the constructor creates them. */
  predicate Complete(t: TrackerState)
  {
    (forall b :: b in t.counters) && (forall c :: c in t.lastReminderTime)
  }

  /** The tracker as the app constructs it at time `startTime`. */
  function InitialTracker(startTime: real): (t: TrackerState)
    ensures Complete(t)
  {
    EveryKeyListed();
    TrackerState(
      map b: Behavior | b in AllBehaviors :: 0,
      None, 0.0, startTime,
      map c: Cooldown | c in AllCooldowns :: 0.0)
  }

  lemma EveryKeyListed()
    ensures forall b: Behavior :: b in AllBehaviors
    ensures forall c: Cooldown :: c in AllCooldowns
  {
    forall b: Behavior ensures b in AllBehaviors {
      match b
      case Work => case Eating => case DrinkingWater => case DrinkingBeverage =>
      case Phone => case Sleeping => case Other =>
    }
    forall c: Cooldown ensures c in AllCooldowns {
      match c
      case EatingCooldown => case BeverageCooldown => case SittingCooldown =>
      case PhoneCooldown => case EncouragementCooldown =>
    }
  }

  /** What the tracker concluded about one observation. */
  datatype Decision = Decision(behavior: Behavior, duration: real, sittingDuration: real, reminder: Option<Reminder>, encourage: bool)

  /** The reminder chain: the first kind whose condition holds, with its cooldown over. */
  function ChooseReminder(t: TrackerState, b: Behavior, sittingDuration: real, now: real): Option<Reminder>
    requires Complete(t)
  {
    var cooled := (c: Cooldown) => now - t.lastReminderTime[c] > ReminderInterval;
    if b == Eating && t.counters[Eating] >= EatingThreshold && cooled(EatingCooldown) then Some(EatingReminder)
    else if b == DrinkingBeverage && t.counters[DrinkingBeverage] >= BeverageThreshold && cooled(BeverageCooldown) then Some(BeverageReminder)
    else if b == Phone && t.counters[Phone] >= PhoneThreshold && cooled(PhoneCooldown) then Some(PhoneReminder)
    else if sittingDuration > SittingThreshold && cooled(SittingCooldown) then Some(SittingReminder)
    else None
  }

  function CooldownOf(r: Reminder): Cooldown
  {
    match r
    case EatingReminder => EatingCooldown
    case BeverageReminder => BeverageCooldown
    case PhoneReminder => PhoneCooldown
    case SittingReminder => SittingCooldown
  }

  /** The counter, run-timer and sitting-timer updates for one observation of `b`,
      with the duration of the current run. */
  function AdvanceSpec(t: TrackerState, b: Behavior, now: real): (TrackerState, real)
    requires Complete(t)
  {
    var sameAsBefore := t.lastBehavior == Some(b);
    var continuous := if sameAsBefore then t.continuousBehaviorTime else now;
    var duration := if sameAsBefore then now - t.continuousBehaviorTime else 0.0;
    var sitting := if b != Other then (if t.sittingStartTime == 0.0 then now else t.sittingStartTime) else 0.0;
    (t.(counters := t.counters[b := t.counters[b] + 1], lastBehavior := Some(b), continuousBehaviorTime := continuous,
        sittingStartTime := sitting),
     duration)
  }

  /** How long the user has been sitting, 0 when the timer is not running. */
  function SittingDuration(t: TrackerState, now: real): real
  {
    if t.sittingStartTime > 0.0 then now - t.sittingStartTime else 0.0
  }

  /** The tracking part of `process_image_analysis` for behaviour code `num` at time `now`. */
  function ObserveSpec(t: TrackerState, num: string, now: real): (TrackerState, Decision)
    requires Complete(t)
  {
    var b := BehaviorOf(num);
    var (t1, duration) := AdvanceSpec(t, b, now);
    var sittingDuration := SittingDuration(t1, now);
    var reminder := ChooseReminder(t1, b, sittingDuration, now);
    var last1 := if reminder.Some? then t.lastReminderTime[CooldownOf(reminder.value) := now] else t.lastReminderTime;
    var encourage := (b == Work && duration > WorkPraiseAfter)
                     || (b == DrinkingWater && now - last1[EncouragementCooldown] > ReminderInterval);
    var last2 := if encourage then last1[EncouragementCooldown := now] else last1;
    (t1.(lastReminderTime := last2), Decision(b, duration, sittingDuration, reminder, encourage))
  }

  /** Observing keeps every counter and cooldown entry present. */
  lemma ObserveComplete(t: TrackerState, num: string, now: real)
    requires Complete(t)
    ensures Complete(ObserveSpec(t, num, now).0)
  {
  }

  /** Exactly one counter, the one for the observed code (unknown codes count as
      "other"), goes up by one; no other counter changes. */
  lemma ObserveCountsOnce(t: TrackerState, num: string, now: real)
    requires Complete(t)
    ensures var (t', d) := ObserveSpec(t, num, now);
            d.behavior == BehaviorOf(num)
            && t'.counters[d.behavior] == t.counters[d.behavior] + 1
            && (forall b | b != d.behavior :: t'.counters[b] == t.counters[b])
            && t'.lastBehavior == Some(d.behavior)
  {
  }

  /** The continuous duration is 0 when the behaviour changed (and the timer restarts
      now), and the time since the run began when it did not. */
  lemma ObserveDuration(t: TrackerState, num: string, now: real)
    requires Complete(t)
    ensures var (t', d) := ObserveSpec(t, num, now);
            (t.lastBehavior != Some(BehaviorOf(num)) ==> d.duration == 0.0 && t'.continuousBehaviorTime == now)
            && (t.lastBehavior == Some(BehaviorOf(num)) ==>
                  d.duration == now - t.continuousBehaviorTime && t'.continuousBehaviorTime == t.continuousBehaviorTime)
  {
  }

  /** Only "other" resets the sitting timer; any other behaviour starts it if it is not
      running and otherwise leaves it alone. */
  lemma ObserveSitting(t: TrackerState, num: string, now: real)
    requires Complete(t)
    ensures var (t', d) := ObserveSpec(t, num, now);
            (d.behavior == Other ==> t'.sittingStartTime == 0.0 && d.sittingDuration == 0.0)
            && (d.behavior != Other && t.sittingStartTime == 0.0 ==> t'.sittingStartTime == now)
            && (d.behavior != Other && t.sittingStartTime != 0.0 ==> t'.sittingStartTime == t.sittingStartTime)
  {
  }

  /** At most one reminder fires. It fires only when its own condition holds with its
      cooldown over, only that kind's reminder time becomes `now`, and the other kinds'
      times stay as they were. */
  lemma ObserveReminder(t: TrackerState, num: string, now: real)
    requires Complete(t)
    ensures var (t', d) := ObserveSpec(t, num, now);
            var b := d.behavior;
            (d.reminder == Some(EatingReminder) ==>
               b == Eating && t'.counters[Eating] >= 2 && now - t.lastReminderTime[EatingCooldown] > 600.0)
            && (d.reminder == Some(BeverageReminder) ==>
               b == DrinkingBeverage && t'.counters[DrinkingBeverage] >= 2 && now - t.lastReminderTime[BeverageCooldown] > 600.0)
            && (d.reminder == Some(PhoneReminder) ==>
               b == Phone && t'.counters[Phone] >= 1 && now - t.lastReminderTime[PhoneCooldown] > 600.0)
            && (d.reminder == Some(SittingReminder) ==>
               d.sittingDuration > 1800.0 && now - t.lastReminderTime[SittingCooldown] > 600.0)
            && (d.reminder.Some? ==> t'.lastReminderTime[CooldownOf(d.reminder.value)] == now)
            && (forall c | c != EncouragementCooldown && (d.reminder.None? || c != CooldownOf(d.reminder.value)) ::
                  t'.lastReminderTime[c] == t.lastReminderTime[c])
  {
  }

  /** The chain's order: a behaviour's own reminder, when due, wins over the sitting one,
      and the sitting reminder fires only when no behaviour reminder is due. */
  lemma ObserveReminderOrder(t: TrackerState, num: string, now: real)
    requires Complete(t)
    ensures var (t', d) := ObserveSpec(t, num, now);
            var b := d.behavior;
            var ownDue := (b == Eating && t'.counters[Eating] >= 2 && now - t.lastReminderTime[EatingCooldown] > 600.0)
                          || (b == DrinkingBeverage && t'.counters[DrinkingBeverage] >= 2 && now - t.lastReminderTime[BeverageCooldown] > 600.0)
                          || (b == Phone && t'.counters[Phone] >= 1 && now - t.lastReminderTime[PhoneCooldown] > 600.0);
            (ownDue ==> d.reminder.Some? && d.reminder != Some(SittingReminder))
            && (d.reminder == Some(SittingReminder) <==>
                  !ownDue && d.sittingDuration > 1800.0 && now - t.lastReminderTime[SittingCooldown] > 600.0)
  {
  }

  /** Encouragement as the program groups it: after more than ten minutes of the same
      work run, or for water drinking once the encouragement cooldown is over. */
  lemma ObserveEncouragement(t: TrackerState, num: string, now: real)
    requires Complete(t)
    ensures var (t', d) := ObserveSpec(t, num, now);
            (d.encourage <==>
               (d.behavior == Work && d.duration > 600.0)
               || (d.behavior == DrinkingWater && now - t.lastReminderTime[EncouragementCooldown] > 600.0))
            && (d.encourage ==> t'.lastReminderTime[EncouragementCooldown] == now)
            && (!d.encourage ==> t'.lastReminderTime[EncouragementCooldown] == t.lastReminderTime[EncouragementCooldown])
  {
    var (t', d) := ObserveSpec(t, num, now);
    if d.reminder.Some? {
      assert CooldownOf(d.reminder.value) != EncouragementCooldown;
    }
  }

  /** Because of that grouping, a work run longer than ten minutes is praised at every
      observation, however recently it was praised last. */
  lemma WorkPraiseIgnoresCooldown(t: TrackerState, now: real)
    requires Complete(t) && t.lastBehavior == Some(Work)
    requires now - t.continuousBehaviorTime > 600.0
    ensures var (t', d) := ObserveSpec(t, "1", now);
            d.encourage && t'.lastReminderTime[EncouragementCooldown] == now
            && ObserveSpec(t', "1", now).1.encourage
  {
  }
}
