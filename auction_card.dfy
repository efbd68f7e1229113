/**
  One auction card: the once-a-second countdown, the "winning" badge, and the
  bid button with its fixed increment.

  All quantities are integer milliseconds. The countdown arithmetic only runs
  on a positive remaining time, where the truncating `%` and `Math.floor(a / b)`
  of the card agree with Dafny's Euclidean `%` and `/`. The card writes its
  divisors as `1000 * 60 * 60` and `1000 * 60`; they appear here as 3600000
  and 60000.
*/
module AuctionCard {
  import opened Optional
  import opened Decimal
  import opened AuctionItem

  const ENDED_TEXT: string := "Auction Ended"
  const WON_TEXT: string := "YOU WON!"
  const WINNING_TEXT: string := "YOU ARE WINNING"

  /** The amount a click adds to the displayed current bid. */
  const BID_INCREMENT: int := 10

  /** Milliseconds left until `endTime`, reading the local clock `now` corrected by `offset`. */
  function Remaining(endTime: int, now: int, offset: int): (diff: int)
    ensures diff <= 0 <==> now + offset >= endTime
  {
    endTime - (now + offset)
  }

  /** Whole minutes of `diff`, after whole hours are discarded. */
  function Minutes(diff: int): (m: nat)
    requires diff > 0
    ensures m < 60
  {
    (diff % 3600000) / 60000
  }

  /** Whole seconds of `diff`, after whole minutes are discarded. */
  function Seconds(diff: int): (s: nat)
    requires diff > 0
    ensures s < 60
  {
    (diff % 60000) / 1000
  }

  /**
    Any split of `diff` into hours, minutes below 60, seconds below 60 and
    milliseconds below 1000 has exactly the minutes and seconds the card shows.
  */
  lemma ClockFieldsUnique(diff: int, h: nat, m: nat, s: nat, ms: nat)
    requires diff > 0
    requires m < 60 && s < 60 && ms < 1000
    requires diff == h * 3600000 + m * 60000 + s * 1000 + ms
    ensures Minutes(diff) == m && Seconds(diff) == s
    ensures diff / 3600000 == h && diff % 1000 == ms
  {
    var r := m * 60000 + s * 1000 + ms;
    assert diff % 3600000 == r && diff / 3600000 == h;
    var r' := s * 1000 + ms;
    assert diff == (60 * h + m) * 60000 + r';
    assert diff % 60000 == r';
    assert r' / 1000 == s;
    assert diff == (3600 * h + 60 * m + s) * 1000 + ms;
  }

  /**
    `Minutes` and `Seconds` are the minute and second fields of `diff` read as
    hours : minutes : seconds . milliseconds; the hours are dropped.
  */
  lemma ClockFields(diff: int)
    requires diff > 0
    ensures diff == (diff / 3600000) * 3600000
                  + Minutes(diff) * 60000
                  + Seconds(diff) * 1000
                  + diff % 1000
  {
    var h, r := diff / 3600000, diff % 3600000;
    var m, r' := r / 60000, r % 60000;
    var s, ms := r' / 1000, r' % 1000;
    assert r' == s * 1000 + ms;
    assert r == m * 60000 + r';
    assert diff == h * 3600000 + r;
    ClockFieldsUnique(diff, h, m, s, ms);
  }

  /** Adding whole hours to the remaining time does not change what the card shows. */
  lemma HoursDiscarded(diff: int, hours: nat)
    requires diff > 0
    ensures Minutes(diff + hours * 3600000) == Minutes(diff)
    ensures Seconds(diff + hours * 3600000) == Seconds(diff)
  {
    ClockFields(diff);
    var ms := diff % 1000;
    ClockFieldsUnique(diff + hours * 3600000, diff / 3600000 + hours,
                      Minutes(diff), Seconds(diff), ms);
  }

  /**
    The running display, `${minutes}m ${seconds}s`: the one text that reads
    back as these minutes and seconds.
  */
  function CountdownText(minutes: nat, seconds: nat): (t: string)
    ensures ParseCountdown(t) == Some((minutes, seconds))
  {
    var ds := NatToString(seconds);
    var tail := "m " + ds + "s";
    ParseRenderedNat(minutes, tail);
    assert tail[..2] == "m " && tail[2..] == ds + "s";
    ParseRenderedNat(seconds, "s");
    assert NatToString(minutes) + tail == NatToString(minutes) + "m " + ds + "s";
    NatToString(minutes) + tail
  }

  /** Reads a running display back into its minutes and seconds; `None` for any other text. */
  function ParseCountdown(t: string): Option<(nat, nat)> {
    match ParseNat(t)
    case None => None
    case Some((minutes, rest)) =>
      if |rest| < 2 || rest[..2] != "m " then None
      else
        match ParseNat(rest[2..])
        case None => None
        case Some((seconds, rest')) => if rest' == "s" then Some((minutes, seconds)) else None
  }

  /** Whatever the parser accepts is exactly the running display of its result. */
  lemma ParseCountdownInverse(t: string, minutes: nat, seconds: nat)
    requires ParseCountdown(t) == Some((minutes, seconds))
    ensures t == CountdownText(minutes, seconds)
  {
    assert ParseNat(t).Some? && ParseNat(t).value.0 == minutes;
    var rest := ParseNat(t).value.1;
    ParseNatInverse(t, minutes, rest);
    assert ParseNat(rest[2..]) == Some((seconds, "s"));
    ParseNatInverse(rest[2..], seconds, "s");
    assert rest == "m " + (NatToString(seconds) + "s");
    assert t == NatToString(minutes) + ("m " + (NatToString(seconds) + "s"));
  }

  /** The terminal text is never a running display. */
  lemma EndedTextIsNotCountdown()
    ensures ParseCountdown(ENDED_TEXT) == None
  {
  }

  /**
    The text one tick of the card's interval shows: the terminal text once no
    time is left, the minutes and seconds of the remaining time before.
  */
  function TickText(endTime: int, now: int, offset: int): (t: string)
    ensures t == ENDED_TEXT <==> Remaining(endTime, now, offset) <= 0
    ensures Remaining(endTime, now, offset) > 0 ==>
      var diff := Remaining(endTime, now, offset);
      ParseCountdown(t) == Some((Minutes(diff), Seconds(diff)))
  {
    var diff := Remaining(endTime, now, offset);
    if diff <= 0 then
      ENDED_TEXT
    else
      EndedTextIsNotCountdown();
      CountdownText(Minutes(diff), Seconds(diff))
  }

  /** While time remains, a tick shows the minutes and seconds of the remaining time. */
  lemma TickTextRunning(endTime: int, now: int, offset: int)
    requires Remaining(endTime, now, offset) > 0
    ensures var diff := Remaining(endTime, now, offset);
      TickText(endTime, now, offset) == CountdownText(Minutes(diff), Seconds(diff))
  {
  }

  /** Once a tick shows the terminal text, every later tick with the same offset does too. */
  lemma EndedIsStable(endTime: int, now: int, later: int, offset: int)
    requires now <= later
    requires TickText(endTime, now, offset) == ENDED_TEXT
    ensures TickText(endTime, later, offset) == ENDED_TEXT
  {
  }

  /** 65 seconds before the end the card reads "1m 5s"; 66 seconds later it has ended. */
  lemma SixtyFiveSecondsExample()
    ensures TickText(65000, 0, 0) == "1m 5s"
    ensures TickText(65000, 66000, 0) == ENDED_TEXT
  {
    assert Minutes(65000) == 1 && Seconds(65000) == 5;
    assert NatToString(1) == "1" && NatToString(5) == "5";
  }

  /** One hour, one minute and five seconds before the end the card also reads "1m 5s". */
  lemma HourWrapExample()
    ensures TickText(3665000, 0, 0) == TickText(65000, 0, 0)
  {
    HoursDiscarded(65000, 1);
  }

  /** The bid button is disabled exactly while the card shows the terminal text. */
  function ButtonDisabled(timeLeft: string): (disabled: bool)
    ensures disabled <==> timeLeft == ENDED_TEXT
    ensures disabled ==> timeLeft != "" && ParseCountdown(timeLeft) == None
  {
    timeLeft == ENDED_TEXT
  }

  lemma DisabledIffEnded(endTime: int, now: int, offset: int)
    ensures ButtonDisabled(TickText(endTime, now, offset)) <==> Remaining(endTime, now, offset) <= 0
  {
  }

  /** The badge shown over the card, if any. */
  function Badge(isHighestBidder: bool, timeLeft: string): (b: Option<string>)
    ensures b.Some? <==> isHighestBidder
    ensures b == Some(WON_TEXT) <==> isHighestBidder && timeLeft == ENDED_TEXT
    ensures b == Some(WINNING_TEXT) <==> isHighestBidder && timeLeft != ENDED_TEXT
  {
    if isHighestBidder then Some(if timeLeft == ENDED_TEXT then WON_TEXT else WINNING_TEXT) else None
  }

  /** Before the first tick the card text is empty: the button is live and a leader reads "winning". */
  lemma BeforeFirstTick(isHighestBidder: bool)
    ensures !ButtonDisabled("")
    ensures Badge(isHighestBidder, "") == if isHighestBidder then Some(WINNING_TEXT) else None
  {
  }

  /** A bid intent: the item and the amount proposed for it. */
  datatype BidIntent = BidIntent(itemId: string, amount: int)

  /**
    What a click on the bid button hands to the dashboard: nothing while the
    button is disabled, else the displayed bid raised by the fixed increment.
  */
  function Click(item: Item, timeLeft: string): (r: Option<BidIntent>)
    ensures r.Some? <==> !ButtonDisabled(timeLeft)
    ensures r.Some? ==> r.value.itemId == item.id && r.value.amount - item.currentBid == BID_INCREMENT
  {
    if ButtonDisabled(timeLeft) then None else Some(BidIntent(item.id, item.currentBid + BID_INCREMENT))
  }

  /** A card whose tick shows the terminal text proposes no bid. */
  lemma NoBidAfterEnd(item: Item, now: int, offset: int)
    requires Remaining(item.endTime, now, offset) <= 0
    ensures Click(item, TickText(item.endTime, now, offset)) == None
  {
  }

  /**
    The card's interval timer and the text it shows. The clock offset is the
    one in force when the interval was (re)started; `Tick` is one firing of
    the interval at local time `now`.
  */
  class CountdownTimer {
    var endTime: int
    var offset: int
    var timeLeft: string
    var stopped: bool

    /** The shown text is the initial blank, the terminal text, or a running display. */
    ghost predicate Valid()
      reads this
    {
      timeLeft == "" || timeLeft == ENDED_TEXT || ParseCountdown(timeLeft).Some?
    }

    /** Mounting: the text starts blank and the interval starts. */
    constructor (endTime: int, offset: int)
      ensures this.endTime == endTime && this.offset == offset
      ensures timeLeft == "" && !stopped
      ensures Valid()
    {
      this.endTime := endTime;
      this.offset := offset;
      timeLeft := "";
      stopped := false;
    }

    /** One firing; a cleared interval no longer fires, so a stopped timer is left as it is. */
    method Tick(now: int)
      requires Valid()
      modifies this
      ensures Valid()
      ensures endTime == old(endTime) && offset == old(offset)
      ensures old(stopped) ==> timeLeft == old(timeLeft) && stopped
      ensures !old(stopped) ==> timeLeft == TickText(endTime, now, offset)
      ensures !old(stopped) ==> (stopped <==> Remaining(endTime, now, offset) <= 0)
    {
      if stopped {
        return;
      }
      var diff := endTime - (now + offset);
      if diff <= 0 {
        timeLeft := ENDED_TEXT;
        stopped := true;
      } else {
        var minutes := (diff % 3600000) / 60000;
        var seconds := (diff % 60000) / 1000;
        TickTextRunning(endTime, now, offset);
        timeLeft := CountdownText(minutes, seconds);
      }
    }

    /**
      The effect re-run on a new end time: the old interval is cleared and a
      new one starts with the offset of that render. The text is component
      state and carries over until the next firing.
    */
    method Restart(newEndTime: int, newOffset: int)
      requires Valid()
      modifies this
      ensures Valid()
      ensures endTime == newEndTime && offset == newOffset
      ensures !stopped && timeLeft == old(timeLeft)
    {
      endTime, offset := newEndTime, newOffset;
      stopped := false;
    }

    /** The unmount cleanup clears the interval and leaves the text as it was. */
    method Dispose()
      requires Valid()
      modifies this
      ensures Valid()
      ensures stopped && timeLeft == old(timeLeft)
      ensures endTime == old(endTime) && offset == old(offset)
    {
      stopped := true;
    }
  }
}
