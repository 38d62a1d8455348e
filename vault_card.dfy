/** The vault card of `components/VaultCard.tsx`: the countdown shown on a locked
    card, the timer that refreshes it once a second until the unlock instant, and
    the choice between a locked and an openable card. Operands are integer
    milliseconds, so the floor divisions of the source are Dafny's `/` and `%` on
    non-negative values. */
module VaultCard {
  import opened Prelude
  import opened Types

  datatype TimeLeft = TimeLeft(days: int, hours: int, minutes: int, seconds: int)

  const Zero: TimeLeft := TimeLeft(0, 0, 0, 0)

  /** The time left until `unlockDate` at clock reading `now`, as whole days,
      hours within the day, minutes within the hour and seconds within the minute;
      all zero once the unlock instant has been reached. */
  function CalculateTimeLeft(unlockDate: int, now: int): (t: TimeLeft)
    ensures unlockDate - now <= 0 ==> t == Zero
    ensures 0 <= t.days
    ensures 0 <= t.hours < 24 && 0 <= t.minutes < 60 && 0 <= t.seconds < 60
  {
    var difference := unlockDate - now;
    if difference > 0 then
      TimeLeft(
        difference / DayMillis,
        (difference / HourMillis) % 24,
        (difference / MinuteMillis) % 60,
        (difference / SecondMillis) % 60)
    else Zero
  }

  /** The countdown read back as a number of seconds. */
  function TotalSeconds(t: TimeLeft): int
  {
    t.days * 86400 + t.hours * 3600 + t.minutes * 60 + t.seconds
  }

  /** The four components put together give the whole seconds left (zero once the
      instant has passed): the decomposition loses nothing but the milliseconds. */
  lemma Reconstruction(unlockDate: int, now: int)
    ensures TotalSeconds(CalculateTimeLeft(unlockDate, now))
         == if unlockDate - now > 0 then (unlockDate - now) / 1000 else 0
  {
    var d := unlockDate - now;
    if d > 0 {
      var s := d / 1000;
      assert d / MinuteMillis == s / 60;
      assert d / HourMillis == s / 3600;
      assert d / DayMillis == s / 86400;
      assert s / 3600 == (s / 60) / 60;
      assert s / 86400 == (s / 3600) / 24;
    }
  }

  /** 90065 seconds are one day, one hour, one minute and five seconds. */
  lemma OneDayOneHourOneMinuteFiveSeconds(now: int)
    ensures CalculateTimeLeft(now + 90065000, now) == TimeLeft(1, 1, 1, 5)
  {
  }

  /** As the clock advances the seconds left never grow. */
  lemma CountdownNeverGrows(unlockDate: int, now: int, later: int)
    requires now <= later
    ensures TotalSeconds(CalculateTimeLeft(unlockDate, later)) <= TotalSeconds(CalculateTimeLeft(unlockDate, now))
  {
    Reconstruction(unlockDate, now);
    Reconstruction(unlockDate, later);
  }

  /** The value a countdown cell displays: negative values are shown as zero. */
  function Displayed(value: int): (shown: nat)
    ensures value >= 0 ==> shown == value
  {
    if value < 0 then 0 else value
  }

  /** The four cells in display order: days, hours, minutes, seconds. */
  function DisplayedCells(t: TimeLeft): (cells: seq<(string, nat)>)
    ensures |cells| == 4
    ensures cells[0].0 == "Days" && cells[1].0 == "Hours" && cells[2].0 == "Mins" && cells[3].0 == "Secs"
  {
    [("Days", Displayed(t.days)), ("Hours", Displayed(t.hours)),
     ("Mins", Displayed(t.minutes)), ("Secs", Displayed(t.seconds))]
  }

  /** Every countdown the card computes is shown as computed: the clamp to zero
      never has anything to do. */
  lemma CountdownIsShownAsComputed(unlockDate: int, now: int)
    ensures var t := CalculateTimeLeft(unlockDate, now);
      DisplayedCells(t) == [("Days", t.days), ("Hours", t.hours), ("Mins", t.minutes), ("Secs", t.seconds)]
  {
  }

  /** The countdown component: its state and the effect that re-arms the timer. */
  class Countdown {
    const unlockDate: int
    var timeLeft: TimeLeft

    /** First render: the state starts as the time left at `now`. */
    constructor (unlockDate: int, now: int)
      ensures this.unlockDate == unlockDate
      ensures timeLeft == CalculateTimeLeft(unlockDate, now)
    {
      this.unlockDate := unlockDate;
      timeLeft := CalculateTimeLeft(unlockDate, now);
    }

    /** The effect after a render at `now`: once the instant is reached the state
        is zeroed and no timer is scheduled; before it, one timer is scheduled and
        the state is left for it to refresh. */
    method RunEffect(now: int) returns (scheduled: bool)
      modifies this
      ensures scheduled <==> unlockDate - now > 0
      ensures !scheduled ==> timeLeft == Zero
      ensures scheduled ==> timeLeft == old(timeLeft)
    {
      var difference := unlockDate - now;
      if difference <= 0 {
        timeLeft := Zero;
        return false;
      }
      scheduled := true;
    }

    /** The scheduled timer firing at `now`. */
    method TimerFires(now: int)
      modifies this
      ensures timeLeft == CalculateTimeLeft(unlockDate, now)
    {
      timeLeft := CalculateTimeLeft(unlockDate, now);
    }
  }

  /** Once an effect finds the unlock instant reached, every later effect finds it
      too: the countdown stays at zero and no timer is armed again. */
  lemma ExpiredCountdownStaysStopped(unlockDate: int, now: int, later: int)
    requires unlockDate - now <= 0 && now <= later
    ensures unlockDate - later <= 0
    ensures CalculateTimeLeft(unlockDate, later) == Zero
  {
  }

  /** What a card renders: a locked card with the title and a countdown to the
      unlock instant, or an open card that reacts to a click. */
  datatype Card =
    | LockedCard(title: string, countdownTo: int)
    | OpenCard(title: string, description: string, cover: Option<string>, unlockDate: int)
  {
    /** Only open cards wire `onSelect`. */
    predicate Selectable() { OpenCard? }
  }

  function RenderCard(vault: TimeVault): (card: Card)
    ensures card.Selectable() <==> !vault.isLocked
    ensures card.title == vault.title
    ensures vault.isLocked ==> card == LockedCard(vault.title, vault.unlockDate)
    ensures !vault.isLocked ==> card.cover == (if |vault.media| > 0 then Some(vault.media[0].url) else None)
  {
    if vault.isLocked then LockedCard(vault.title, vault.unlockDate)
    else OpenCard(vault.title, vault.description,
                  if |vault.media| > 0 then Some(vault.media[0].url) else None,
                  vault.unlockDate)
  }
}
