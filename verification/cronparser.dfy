// From a crontab field to its bit mask.

module CronParser {
  import opened Cron
  import opened Calendar
  import opened Words

  // Testing a position of a mask by shifting reads that bit.
  lemma BitIs(mask: Word, i: nat)
    requires i < 64
    ensures Bit(mask, i) <==> i in mask
  {
    var w := And(Shl(ONE, i), mask);
    InShl(ONE, i, i);
    assert forall k :: k in w ==> k == i;
    assert i in mask ==> i in w;
  }

  lemma InShl(a: Word, n: nat, i: nat)
    requires i < 64
    ensures i in Shl(a, n) <==> i >= n && i - n in a
  {
    if i >= n && i - n in a {
      var j := i - n;
      assert j in a && j + n < 64;
    }
  }

  // ---------- what a mask denotes ----------

  ghost predicate Denotes(mask: Word, members: iset<nat>) {
    forall i: nat {:trigger Bit(mask, i)} :: i < 64 ==> (Bit(mask, i) <==> i in members)
  }

  ghost predicate InSteps(i: nat, min: nat, max: nat, step: nat)
    requires step >= 1
  {
    min <= i <= max && (i - min) % step == 0
  }

  ghost function Steps(min: nat, max: nat, step: nat): iset<nat>
    requires step >= 1
  {
    iset i: nat | InSteps(i, min, max, step)
  }

  lemma BitOfUnion(m: Word, n: Word, i: nat)
    requires i < 64
    ensures Bit(Or(m, n), i) <==> Bit(m, i) || Bit(n, i)
  {
    BitIs(Or(m, n), i);
    BitIs(m, i);
    BitIs(n, i);
  }

  lemma BitOfOne(j: nat, i: nat)
    requires i < 64
    ensures Bit(Shl(ONE, j), i) <==> i == j
  {
    InShl(ONE, j, i);
    BitIs(Shl(ONE, j), i);
  }

  // The shift form used for step one.
  function ShiftForm(min: nat, max: nat): Word {
    And(Not(Shl(ALL_ONES, max + 1)), Shl(ALL_ONES, min))
  }

  lemma ShiftFormDenotes(min: nat, max: nat)
    requires min <= max <= 59
    ensures Denotes(ShiftForm(min, max), Steps(min, max, 1))
  {
    forall i: nat {:trigger Bit(ShiftForm(min, max), i)} | i < 64 ensures Bit(ShiftForm(min, max), i) <==> min <= i <= max {
      InShl(ALL_ONES, min, i);
      InShl(ALL_ONES, max + 1, i);
      BitIs(ShiftForm(min, max), i);
    }
  }

  // getBits sets the bits of [min, max] that are a multiple of step above min.
  method GetBits(min: nat, max: nat, step: nat) returns (bits: Word)
    requires min <= max <= 59 && step >= 1
    ensures Denotes(bits, Steps(min, max, step))
  {
    if step == 1 {
      ShiftFormDenotes(min, max);
      return ShiftForm(min, max);
    }
    bits := LoopForm(min, max, step);
  }

  method LoopForm(min: nat, max: nat, step: nat) returns (bits: Word)
    requires min <= max <= 59 && step >= 1
    ensures Denotes(bits, Steps(min, max, step))
  {
    hide Bit, Shl, ShiftForm, Or;
    bits := ZERO;
    var i := min;
    NothingSet(ZERO);
    ghost var n: nat := 0;
    while i <= max
      invariant min <= i && i == min + n * step
      invariant forall k: nat {:trigger Bit(bits, k)} :: k < 64 ==> (Bit(bits, k) <==> InSteps(k, min, max, step) && k < i)
      decreases max + step - i
    {
      ghost var was := bits;
      bits := Or(bits, Shl(ONE, i));
      forall k: nat {:trigger Bit(bits, k)} | k < 64
        ensures Bit(bits, k) <==> InSteps(k, min, max, step) && k < i + step
      {
        OneStep(was, min, max, step, n, k);
      }
      i := i + step;
      n := n + 1;
    }
  }

  lemma OneStep(was: Word, min: nat, max: nat, step: nat, n: nat, k: nat)
    requires step >= 1 && k < 64 && min + n * step <= max
    requires Bit(was, k) <==> InSteps(k, min, max, step) && k < min + n * step
    ensures Bit(Or(was, Shl(ONE, min + n * step)), k) <==> InSteps(k, min, max, step) && k < min + n * step + step
  {
    hide Bit, Or, Shl;
    var i := min + n * step;
    BitOfUnion(was, Shl(ONE, i), k);
    BitOfOne(i, k);
    Multiples(k - min, n, step);
  }

  lemma NothingSet(mask: Word)
    requires mask == ZERO
    ensures forall i: nat {:trigger Bit(mask, i)} :: i < 64 ==> !Bit(mask, i)
  {
    forall i: nat {:trigger Bit(mask, i)} | i < 64 ensures !Bit(mask, i) { BitIs(mask, i); }
  }

  // Between one multiple of step and the next there is no other.
  lemma Multiples(d: int, n: nat, step: nat)
    requires step >= 1
    ensures d == n * step ==> d >= 0 && d % step == 0
    ensures n * step < d < n * step + step ==> d % step != 0
  {
    if d == n * step { Remainder(n, step, 0); }
    if n * step < d < n * step + step { Remainder(n, step, d - n * step); }
  }

  // The shift form and the loop form agree where both apply.
  method FormsAgree(min: nat, max: nat) returns (shifted: Word, looped: Word)
    requires min <= max <= 59
    ensures forall i: nat {:trigger Bit(shifted, i)} :: i < 64 ==> (Bit(shifted, i) <==> Bit(looped, i))
    ensures Denotes(looped, Steps(min, max, 1))
  {
    ShiftFormDenotes(min, max);
    shifted := ShiftForm(min, max);
    looped := LoopForm(min, max, 1);
  }

  // ---------- ranges and fields ----------

  datatype Bounds = Bounds(min: nat, max: nat)

  const SECONDS := Bounds(0, 59)
  const MINUTES := Bounds(0, 59)
  const HOURS := Bounds(0, 23)
  const DOM := Bounds(1, 31)
  const MONTHS := Bounds(1, 12)
  const DOW := Bounds(0, 6)

  // One item between hyphens, after names are replaced by their numbers.
  datatype Term = Star | Question | Number(n: nat)

  // A range as its text splits: the items between the hyphens of the part
  // before the first slash, and the items after each slash.
  datatype RangeText = RangeText(lowAndHigh: seq<Term>, steps: seq<nat>)

  datatype Result<T> = Ok(value: T) | Panic

  // Numbers are read before they are checked against the bounds, so a second
  // item that is no number fails first.
  function RangeEnds(e: RangeText, r: Bounds): (res: Result<(nat, nat)>)
    requires |e.lowAndHigh| > 0
  {
    var low := e.lowAndHigh[0];
    if !low.Number? then Ok((r.min, r.max))
    else if |e.lowAndHigh| == 1 then Ok((low.n, if |e.steps| == 1 then r.max else low.n))
    else if |e.lowAndHigh| == 2 && e.lowAndHigh[1].Number? then Ok((low.n, e.lowAndHigh[1].n))
    else Panic
  }

  ghost predicate WellFormed(e: RangeText, r: Bounds) {
    && |e.lowAndHigh| > 0 && |e.steps| <= 1
    && RangeEnds(e, r).Ok? && r.min <= RangeEnds(e, r).value.0 <= RangeEnds(e, r).value.1 <= r.max
  }

  ghost function Denoted(e: RangeText, r: Bounds): iset<nat>
    requires WellFormed(e, r) && (|e.steps| == 1 ==> e.steps[0] >= 1)
  {
    var ends := RangeEnds(e, r).value;
    Steps(ends.0, ends.1, if |e.steps| == 1 then e.steps[0] else 1)
      + (if e.lowAndHigh[0].Number? then iset{} else iset{STAR_BIT})
  }

  // What the forms of a range mean, i being a second, an hour and so on.
  lemma RangeMeans(r: Bounds, n: nat, m: nat, s: nat, i: nat)
    requires s >= 1 && i < STAR_BIT
    ensures var all := RangeText([Star], []); WellFormed(all, r) ==> (i in Denoted(all, r) <==> r.min <= i <= r.max)
    ensures var steps := RangeText([Star], [s]); WellFormed(steps, r) ==> (i in Denoted(steps, r) <==> r.min <= i <= r.max && (i - r.min) % s == 0)
    ensures var one := RangeText([Number(n)], []);
      (WellFormed(one, r) <==> r.min <= n <= r.max) && (WellFormed(one, r) ==> (i in Denoted(one, r) <==> i == n))
    ensures var on := RangeText([Number(n)], [s]);
      (WellFormed(on, r) <==> r.min <= n <= r.max) && (WellFormed(on, r) ==> (i in Denoted(on, r) <==> n <= i <= r.max && (i - n) % s == 0))
    ensures var part := RangeText([Number(n), Number(m)], []);
      (WellFormed(part, r) <==> r.min <= n <= m <= r.max) && (WellFormed(part, r) ==> (i in Denoted(part, r) <==> n <= i <= m))
    ensures var leap := RangeText([Number(n), Number(m)], [s]);
      (WellFormed(leap, r) <==> r.min <= n <= m <= r.max) && (WellFormed(leap, r) ==> (i in Denoted(leap, r) <==> n <= i <= m && (i - n) % s == 0))
  {
  }

  // The numbers each field takes, Sunday being 0.
  lemma FieldBounds(n: nat)
    ensures var one := RangeText([Number(n)], []);
      && (WellFormed(one, SECONDS) <==> n <= 59) && (WellFormed(one, MINUTES) <==> n <= 59) && (WellFormed(one, HOURS) <==> n <= 23)
      && (WellFormed(one, DOM) <==> 1 <= n <= 31) && (WellFormed(one, MONTHS) <==> 1 <= n <= 12) && (WellFormed(one, DOW) <==> n <= 6)
  {
  }

  // getRange, from the split text on. A step of zero never ends in the source.
  method GetRange(e: RangeText, r: Bounds) returns (res: Result<Word>)
    requires |e.lowAndHigh| > 0 && r.min <= r.max <= 59
    requires |e.steps| == 1 ==> e.steps[0] >= 1
    ensures res.Ok? <==> WellFormed(e, r)
    ensures res.Ok? ==> Denotes(res.value, Denoted(e, r))
  {
    hide Bit, Shl, InSteps;
    var start, end, step := 0, 0, 1;
    var extraStar: Word := ZERO;
    var singleDigit := |e.lowAndHigh| == 1;
    if e.lowAndHigh[0].Star? || e.lowAndHigh[0].Question? {
      start, end := r.min, r.max;
      extraStar := Shl(ONE, STAR_BIT);
    } else {
      start := e.lowAndHigh[0].n;
      match |e.lowAndHigh| {
        case 1 => end := start;
        case 2 =>
          if !e.lowAndHigh[1].Number? { return Panic; }
          end := e.lowAndHigh[1].n;
        case _ => return Panic;
      }
    }
    match |e.steps| {
      case 0 =>
      case 1 =>
        step := e.steps[0];
        if singleDigit { end := r.max; }
      case _ => return Panic;
    }
    if start < r.min || end > r.max || start > end { return Panic; }
    var bits := GetBits(start, end, step);
    res := Ok(Or(bits, extraStar));
    NothingSet(ZERO);
    forall i: nat {:trigger Bit(Or(bits, extraStar), i)} | i < 64 ensures Bit(Or(bits, extraStar), i) <==> i in Denoted(e, r) {
      BitOfUnion(bits, extraStar, i);
      BitOfOne(STAR_BIT, i);
    }
  }

  // The members of a comma-separated list.
  ghost predicate InSome(es: seq<RangeText>, r: Bounds, i: nat)
    requires forall e :: e in es ==> WellFormed(e, r) && (|e.steps| == 1 ==> e.steps[0] >= 1)
  {
    exists e :: e in es && i in Denoted(e, r)
  }

  ghost function DenotedAll(es: seq<RangeText>, r: Bounds): iset<nat>
    requires forall e :: e in es ==> WellFormed(e, r) && (|e.steps| == 1 ==> e.steps[0] >= 1)
  {
    iset i: nat | InSome(es, r, i)
  }

  method GetField(es: seq<RangeText>, r: Bounds) returns (res: Result<Word>)
    requires r.min <= r.max <= 59
    requires forall e :: e in es ==> |e.lowAndHigh| > 0 && (|e.steps| == 1 ==> e.steps[0] >= 1)
    ensures res.Ok? <==> forall e :: e in es ==> WellFormed(e, r)
    ensures res.Ok? ==> Denotes(res.value, DenotedAll(es, r))
    ensures res.Ok? ==> (Bit(res.value, STAR_BIT) <==> exists e :: e in es && !e.lowAndHigh[0].Number?)
  {
    hide Bit, Shl, ShiftForm;
    var bits: Word := ZERO;
    NothingSet(ZERO);
    for k := 0 to |es|
      invariant forall j :: 0 <= j < k ==> WellFormed(es[j], r)
      invariant forall i: nat {:trigger Bit(bits, i)} :: i < 64 ==>
        (Bit(bits, i) <==> exists j :: 0 <= j < k && i in Denoted(es[j], r))
    {
      var one := GetRange(es[k], r);
      if one.Panic? {
        assert es[k] in es;
        return Panic;
      }
      forall i: nat {:trigger Bit(Or(bits, one.value), i)} | i < 64
        ensures Bit(Or(bits, one.value), i) <==> exists j :: 0 <= j < k + 1 && i in Denoted(es[j], r)
      {
        BitOfUnion(bits, one.value, i);
      }
      bits := Or(bits, one.value);
    }
    return Ok(bits);
  }

  // ---------- the whole specification ----------

  datatype Fields = Fields(second: seq<RangeText>, minute: seq<RangeText>, hour: seq<RangeText>,
                           dom: seq<RangeText>, month: seq<RangeText>, dow: seq<RangeText>)

  // What the calls ask of the text: at least one item a range, and steps above zero.
  predicate Splits(es: seq<RangeText>) {
    forall e :: e in es ==> |e.lowAndHigh| > 0 && (|e.steps| == 1 ==> e.steps[0] >= 1)
  }

  ghost predicate Accepted(es: seq<RangeText>, r: Bounds) {
    Splits(es) && forall e :: e in es ==> WellFormed(e, r)
  }

  ghost predicate Member(i: nat, es: seq<RangeText>, r: Bounds)
    requires Accepted(es, r)
  {
    i in DenotedAll(es, r)
  }

  predicate Starred(es: seq<RangeText>)
    requires Splits(es)
  {
    exists e :: e in es && !e.lowAndHigh[0].Number?
  }

  // What the crontab says of an instant, in terms of its text: both days count
  // if one of them is a star, and either of them otherwise.
  ghost predicate Due(f: Fields, t: Civil)
    requires Accepted(f.second, SECONDS) && Accepted(f.minute, MINUTES) && Accepted(f.hour, HOURS)
    requires Accepted(f.dom, DOM) && Accepted(f.month, MONTHS) && Accepted(f.dow, DOW)
  {
    && Valid(t) && Member(t.second, f.second, SECONDS) && Member(t.minute, f.minute, MINUTES) && Member(t.hour, f.hour, HOURS)
    && Member(t.month, f.month, MONTHS)
    && (if Starred(f.dom) || Starred(f.dow) then Member(t.day, f.dom, DOM) && Member(Weekday(t), f.dow, DOW)
        else Member(t.day, f.dom, DOM) || Member(Weekday(t), f.dow, DOW))
  }

  const EVERY := [RangeText([Star], [])]

  function Only(n: nat): seq<RangeText> {
    [RangeText([Number(n)], [])]
  }

  // A day of the month and a day of the week, both given: either will do. With a
  // star for one of them the other decides.
  lemma DayRule(n: nat, w: nat, t: Civil)
    requires 1 <= n <= 31 && w <= 6 && Valid(t)
    ensures var dom, dow := Only(n), Only(w);
      && AllAccepted(Fields(EVERY, EVERY, EVERY, dom, EVERY, dow))
      && AllAccepted(Fields(EVERY, EVERY, EVERY, dom, EVERY, EVERY)) && AllAccepted(Fields(EVERY, EVERY, EVERY, EVERY, EVERY, dow))
      && (Due(Fields(EVERY, EVERY, EVERY, dom, EVERY, dow), t) <==> t.day == n || Weekday(t) == w)
      && (Due(Fields(EVERY, EVERY, EVERY, dom, EVERY, EVERY), t) <==> t.day == n)
      && (Due(Fields(EVERY, EVERY, EVERY, EVERY, EVERY, dow), t) <==> Weekday(t) == w)
  {
    hide Weekday, InSteps, Denoted;
    EveryMember(t.second, SECONDS);
    EveryMember(t.minute, MINUTES);
    EveryMember(t.hour, HOURS);
    EveryMember(t.month, MONTHS);
    EveryMember(t.day, DOM);
    EveryMember(Weekday(t), DOW);
    OneMember(n, t.day, DOM);
    OneMember(w, Weekday(t), DOW);
    hide Accepted, Member, Starred, DaysIn;
  }

  // A number in each field but the last is due at that date and time alone.
  lemma FieldRule(second: nat, minute: nat, hour: nat, day: nat, month: nat, t: Civil)
    requires second <= 59 && minute <= 59 && hour <= 23 && 1 <= day <= 31 && 1 <= month <= 12 && Valid(t)
    ensures var f := Fields(Only(second), Only(minute), Only(hour), Only(day), Only(month), EVERY);
      AllAccepted(f) && (Due(f, t) <==>
        t.second == second && t.minute == minute && t.hour == hour && t.day == day && t.month == month)
  {
    hide Weekday, InSteps, Denoted;
    OneMember(second, t.second, SECONDS);
    OneMember(minute, t.minute, MINUTES);
    OneMember(hour, t.hour, HOURS);
    OneMember(day, t.day, DOM);
    OneMember(month, t.month, MONTHS);
    EveryMember(Weekday(t), DOW);
    hide Accepted, Member, Starred, DaysIn;
  }

  lemma EveryMember(i: nat, r: Bounds)
    requires r.min <= i <= r.max <= 59
    ensures Accepted(EVERY, r) && Member(i, EVERY, r) && Starred(EVERY)
  {
    var e := EVERY[0];
    assert forall x :: x in EVERY ==> x == e;
    RangeMeans(r, 0, 0, 1, i);
    assert e in EVERY;
  }

  lemma OneMember(n: nat, i: nat, r: Bounds)
    requires r.min <= n <= r.max <= 59 && i <= 59
    ensures var one := Only(n); Accepted(one, r) && !Starred(one) && (Member(i, one, r) <==> i == n)
  {
    var one := Only(n);
    assert forall x :: x in one ==> x == one[0];
    RangeMeans(r, n, 0, 1, i);
    assert one[0] in one;
  }

  ghost predicate AllAccepted(f: Fields) {
    && Accepted(f.second, SECONDS) && Accepted(f.minute, MINUTES) && Accepted(f.hour, HOURS)
    && Accepted(f.dom, DOM) && Accepted(f.month, MONTHS) && Accepted(f.dow, DOW)
  }

  ghost predicate Reads(mask: Word, es: seq<RangeText>, r: Bounds)
    requires Accepted(es, r)
  {
    Denotes(mask, DenotedAll(es, r)) && (Bit(mask, STAR_BIT) <==> Starred(es))
  }

  lemma ReadsMember(mask: Word, es: seq<RangeText>, r: Bounds, i: nat)
    requires Accepted(es, r) && Reads(mask, es, r) && i < 64
    ensures Bit(mask, i) <==> Member(i, es, r)
    ensures Bit(mask, STAR_BIT) <==> Starred(es)
  {
  }

  lemma MatchesDue(s: Schedule, f: Fields, t: Civil)
    requires AllAccepted(f) && Valid(t)
    requires Reads(s.second, f.second, SECONDS) && Reads(s.minute, f.minute, MINUTES) && Reads(s.hour, f.hour, HOURS)
    requires Reads(s.dom, f.dom, DOM) && Reads(s.month, f.month, MONTHS) && Reads(s.dow, f.dow, DOW)
    ensures Matches(s, t) <==> Due(f, t)
  {
    hide Reads, Member, Starred, Accepted, Bit, Weekday;
    ReadsMember(s.second, f.second, SECONDS, t.second);
    ReadsMember(s.minute, f.minute, MINUTES, t.minute);
    ReadsMember(s.hour, f.hour, HOURS, t.hour);
    ReadsMember(s.month, f.month, MONTHS, t.month);
    ReadsMember(s.dom, f.dom, DOM, t.day);
    ReadsMember(s.dow, f.dow, DOW, Weekday(t));
  }

  method ReadField(es: seq<RangeText>, r: Bounds) returns (res: Result<Word>)
    requires r.min <= r.max <= 59 && Splits(es)
    ensures res.Ok? <==> Accepted(es, r)
    ensures res.Ok? ==> Reads(res.value, es, r)
  {
    res := GetField(es, r);
  }

  // Parse, from the split fields on: the schedule is due when its text says so.
  method Parse(f: Fields) returns (res: Result<Schedule>)
    requires Splits(f.second) && Splits(f.minute) && Splits(f.hour) && Splits(f.dom) && Splits(f.month) && Splits(f.dow)
    ensures res.Ok? <==> AllAccepted(f)
    ensures res.Ok? ==> forall t {:trigger Matches(res.value, t)} :: Valid(t) ==> (Matches(res.value, t) <==> Due(f, t))
  {
    hide Reads, Accepted, Splits, Matches, Due;
    var second := ReadField(f.second, SECONDS);
    if second.Panic? { return Panic; }
    var minute := ReadField(f.minute, MINUTES);
    if minute.Panic? { return Panic; }
    var hour := ReadField(f.hour, HOURS);
    if hour.Panic? { return Panic; }
    var dom := ReadField(f.dom, DOM);
    if dom.Panic? { return Panic; }
    var month := ReadField(f.month, MONTHS);
    if month.Panic? { return Panic; }
    var dow := ReadField(f.dow, DOW);
    if dow.Panic? { return Panic; }
    var s := Schedule(second.value, minute.value, hour.value, dom.value, month.value, dow.value);
    forall t {:trigger Matches(s, t)} | Valid(t) ensures Matches(s, t) <==> Due(f, t) {
      MatchesDue(s, f, t);
    }
    res := Ok(s);
  }

  // r is the first instant after t at which the text is due, or there is none
  // up to the horizon.
  ghost predicate FirstDue(f: Fields, t: Civil, nanos: nat, r: Option<Civil>)
    requires AllAccepted(f) && Valid(t)
  {
    match r
    case Some(n) =>
      && Due(f, n) && Later(n, t, nanos) && n.year <= Horizon(t)
      && (forall u {:trigger Due(f, u)} :: Due(f, u) && Later(u, t, nanos) ==> Seconds(n) <= Seconds(u))
    case None =>
      forall u {:trigger Due(f, u)} :: Due(f, u) && Later(u, t, nanos) ==> u.year > Horizon(t)
  }

  // nextRun: the schedule of a task, parsed and asked for its next run.
  method NextRun(f: Fields, now: Civil, nanos: nat) returns (res: Result<Option<Civil>>)
    requires Splits(f.second) && Splits(f.minute) && Splits(f.hour) && Splits(f.dom) && Splits(f.month) && Splits(f.dow)
    requires Valid(now) && nanos < 1_000_000_000
    ensures res.Ok? <==> AllAccepted(f)
    ensures res.Ok? ==> FirstDue(f, now, nanos, res.value)
  {
    var s := Parse(f);
    if s.Panic? { return Panic; }
    var r := Next(s.value, now, nanos);
    NextIsFirstDue(s.value, f, now, nanos, r);
    res := Ok(r);
  }

  lemma NextIsFirstDue(s: Schedule, f: Fields, t: Civil, nanos: nat, r: Option<Civil>)
    requires AllAccepted(f) && Valid(t) && IsNext(s, t, nanos, r)
    requires forall u {:trigger Matches(s, u)} :: Valid(u) ==> (Matches(s, u) <==> Due(f, u))
    ensures FirstDue(f, t, nanos, r)
  {
    hide Accepted, Later, Horizon, Seconds;
    forall u {:trigger Due(f, u)} | Valid(u) ensures Matches(s, u) <==> Due(f, u) {
    }
    forall u ensures (Matches(s, u) ==> Valid(u)) && (Due(f, u) ==> Valid(u)) {
    }
    hide Matches, Due;
  }
}
