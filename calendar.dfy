/**
 * The calendar event the Square drafts hand to the `ics` library: the start
 * tuple `[year, month, day, hours, minutes]` comes from splitting the pickup
 * date on '-' and the pickup time on ':' and passing each piece to `Number`.
 */
module Calendar {
  import opened Booking

  /** The pieces of `s` between occurrences of `sep`, as `String.prototype.split` with one character. */
  function Split(s: string, sep: char): (r: seq<string>)
    ensures |r| >= 1
    ensures forall k :: 0 <= k < |r| ==> sep !in r[k]
    ensures JoinWith(r, sep) == s
    decreases |s|
  {
    if s == [] then [""]
    else if s[0] == sep then
      var t := Split(s[1..], sep);
      assert [s[0]] + s[1..] == s;
      [""] + t
    else
      var t := Split(s[1..], sep);
      var r := [[s[0]] + t[0]] + t[1..];
      assert forall k :: 1 <= k < |r| ==> r[k] == t[k];
      JoinWithCons(s[0], t, sep);
      assert [s[0]] + s[1..] == s;
      r
  }

  /** The pieces glued back with the separator between them. */
  function JoinWith(ps: seq<string>, sep: char): string
    requires |ps| >= 1
  {
    if |ps| == 1 then ps[0] else ps[0] + [sep] + JoinWith(ps[1..], sep)
  }

  /** A character put in front of the first piece is put in front of the joined text. */
  lemma JoinWithCons(c: char, t: seq<string>, sep: char)
    requires |t| >= 1
    ensures JoinWith([[c] + t[0]] + t[1..], sep) == [c] + JoinWith(t, sep)
  {
    var r := [[c] + t[0]] + t[1..];
    if |t| > 1 {
      assert r[1..] == t[1..];
    }
  }

  /** Splitting text without the separator gives that text as the only piece. */
  lemma {:induction false} SplitNoSep(a: string, sep: char)
    requires sep !in a
    ensures Split(a, sep) == [a]
    decreases |a|
  {
    if a != [] {
      SplitNoSep(a[1..], sep);
      assert [a[0]] + a[1..] == a;
    }
  }

  /** Splitting at the first separator peels off the text before it. */
  lemma {:induction false} SplitAtFirst(a: string, sep: char, rest: string)
    requires sep !in a
    ensures Split(a + [sep] + rest, sep) == [a] + Split(rest, sep)
    decreases |a|
  {
    var s := a + [sep] + rest;
    if a == [] {
      assert s[0] == sep && s[1..] == rest;
    } else {
      assert s[0] == a[0] && s[1..] == a[1..] + [sep] + rest;
      SplitAtFirst(a[1..], sep, rest);
      assert [a[0]] + a[1..] == a;
    }
  }

  /** Splitting undoes joining pieces that hold no separator. */
  lemma {:induction false} SplitJoin(ps: seq<string>, sep: char)
    requires |ps| >= 1
    requires forall k :: 0 <= k < |ps| ==> sep !in ps[k]
    ensures Split(JoinWith(ps, sep), sep) == ps
    decreases |ps|
  {
    if |ps| == 1 {
      SplitNoSep(ps[0], sep);
    } else {
      SplitJoin(ps[1..], sep);
      SplitAtFirst(ps[0], sep, JoinWith(ps[1..], sep));
      assert [ps[0]] + ps[1..] == ps;
    }
  }

  predicate IsDigit(c: char) { '0' <= c <= '9' }

  predicate IsDigits(s: string) { |s| > 0 && forall k :: 0 <= k < |s| ==> IsDigit(s[k]) }

  /** The decimal value of a digit string. */
  function DigitsValue(s: string): (n: nat)
    requires forall k :: 0 <= k < |s| ==> IsDigit(s[k])
    ensures |s| == 1 ==> n == (s[0] as int) - ('0' as int)
  {
    if s == [] then 0
    else
      assert IsDigit(s[|s| - 1]);
      DigitsValue(s[..|s| - 1]) * 10 + ((s[|s| - 1] as int) - ('0' as int))
  }

  /**
   * `Number(piece)`: a digit string is its decimal value and the empty string
   * is 0; any other text is left uninterpreted.
   */
  function ToNumber(s: string): (n: JsNum)
    ensures n.Num? <==> s == "" || IsDigits(s)
    ensures s == "" ==> n == Num(0)
    ensures IsDigits(s) ==> n == Num(DigitsValue(s))
    ensures n.Unparsed? ==> n.text == s
  {
    if s == "" then Num(0)
    else if IsDigits(s) then Num(DigitsValue(s))
    else Unparsed(s)
  }

  /** The `i`-th element of a destructuring `[a, b, c] = pieces.map(Number)`: `undefined` past the end. */
  function Component(pieces: seq<string>, i: nat): (n: JsNum)
    ensures i < |pieces| ==> n == ToNumber(pieces[i])
    ensures i >= |pieces| ==> n == Undefined
  {
    if i < |pieces| then ToNumber(pieces[i]) else Undefined
  }

  /** `[year, month, day, hours, minutes]` from the date and time strings. */
  function Start(date: string, time: string): (st: seq<JsNum>)
    ensures |st| == 5
  {
    var d, t := Split(date, '-'), Split(time, ':');
    [Component(d, 0), Component(d, 1), Component(d, 2), Component(t, 0), Component(t, 1)]
  }

  /** A digit string holds no separator. */
  lemma DigitsHaveNoSep(s: string, sep: char)
    requires IsDigits(s) && !IsDigit(sep)
    ensures sep !in s
  {
    assert forall k :: 0 <= k < |s| ==> s[k] != sep;
  }

  /** Three separator-free pieces around two dashes split back into those pieces. */
  lemma SplitDate(y: string, m: string, d: string)
    requires '-' !in y && '-' !in m && '-' !in d
    ensures Split(y + "-" + m + "-" + d, '-') == [y, m, d]
  {
    SplitNoSep(d, '-');
    SplitAtFirst(m, '-', d);
    assert m + "-" + d == m + ['-'] + d;
    SplitAtFirst(y, '-', m + "-" + d);
    assert y + "-" + m + "-" + d == y + ['-'] + (m + "-" + d);
  }

  /** Two separator-free pieces around a colon split back into those pieces. */
  lemma SplitTime(h: string, mi: string)
    requires ':' !in h && ':' !in mi
    ensures Split(h + ":" + mi, ':') == [h, mi]
  {
    SplitNoSep(mi, ':');
    SplitAtFirst(h, ':', mi);
    assert h + ":" + mi == h + [':'] + mi;
  }

  /** A date `Y-M-D` and a time `h:m` of digit strings give the start `[Y, M, D, h, m]`. */
  lemma StartOfDigits(y: string, m: string, d: string, h: string, mi: string)
    requires IsDigits(y) && IsDigits(m) && IsDigits(d) && IsDigits(h) && IsDigits(mi)
    ensures Start(y + "-" + m + "-" + d, h + ":" + mi)
         == [Num(DigitsValue(y)), Num(DigitsValue(m)), Num(DigitsValue(d)), Num(DigitsValue(h)), Num(DigitsValue(mi))]
  {
    DigitsHaveNoSep(y, '-');
    DigitsHaveNoSep(m, '-');
    DigitsHaveNoSep(d, '-');
    DigitsHaveNoSep(h, ':');
    DigitsHaveNoSep(mi, ':');
    SplitDate(y, m, d);
    SplitTime(h, mi);
    StartOfPieces(y + "-" + m + "-" + d, h + ":" + mi, [y, m, d], [h, mi]);
  }

  /** The start tuple reads the digit pieces of the two splits in order. */
  lemma StartOfPieces(date: string, time: string, ds: seq<string>, ts: seq<string>)
    requires Split(date, '-') == ds && Split(time, ':') == ts && |ds| == 3 && |ts| == 2
    requires IsDigits(ds[0]) && IsDigits(ds[1]) && IsDigits(ds[2]) && IsDigits(ts[0]) && IsDigits(ts[1])
    ensures Start(date, time) == [Num(DigitsValue(ds[0])), Num(DigitsValue(ds[1])), Num(DigitsValue(ds[2])),
                                  Num(DigitsValue(ts[0])), Num(DigitsValue(ts[1]))]
  {
  }

  /**
   * A field the note decoder could not find reaches the calendar as
   * "Not provided": neither split finds a separator, so the year and the
   * hours are that text and the other three components are `undefined`.
   */
  lemma StartOfNotProvided()
    ensures Start("Not provided", "Not provided")
         == [Unparsed("Not provided"), Undefined, Undefined, Unparsed("Not provided"), Undefined]
  {
    var t := "Not provided";
    assert !IsDigits(t) by { assert !IsDigit(t[0]); }
    assert ToNumber(t) == Unparsed(t);
    assert '-' !in t && ':' !in t by {
      forall k | 0 <= k < |t| ensures t[k] != '-' && t[k] != ':' { }
    }
    SplitNoSep(t, '-');
    SplitNoSep(t, ':');
    StartOfSingles(t, t);
  }

  /** A date and a time that hold no separator give only the year and the hours. */
  lemma StartOfSingles(date: string, time: string)
    requires Split(date, '-') == [date] && Split(time, ':') == [time]
    ensures Start(date, time) == [ToNumber(date), Undefined, Undefined, ToNumber(time), Undefined]
  {
  }

  /** Pieces past the third are ignored: whatever follows a third dash leaves the start tuple as it was. */
  lemma StartIgnoresExtra(y: string, m: string, d: string, more: string, time: string)
    requires '-' !in y && '-' !in m && '-' !in d
    ensures Start(y + "-" + m + "-" + d + "-" + more, time) == Start(y + "-" + m + "-" + d, time)
  {
    SplitDate(y, m, d);
    SplitDateMore(y, m, d, more);
    StartOfSameDate(y + "-" + m + "-" + d + "-" + more, y + "-" + m + "-" + d, time);
  }

  /** A date with a fourth piece splits into the three pieces and the pieces of the rest. */
  lemma SplitDateMore(y: string, m: string, d: string, more: string)
    requires '-' !in y && '-' !in m && '-' !in d
    ensures Split(y + "-" + m + "-" + d + "-" + more, '-') == [y, m, d] + Split(more, '-')
  {
    var date := y + "-" + m + "-" + d;
    SplitDate(y, m, d);
    SplitConcat(date, '-', more);
    assert date + "-" + more == date + ['-'] + more;
  }

  /** Text joined at a separator splits into the pieces of each side. */
  lemma SplitConcat(a: string, sep: char, b: string)
    ensures Split(a + [sep] + b, sep) == Split(a, sep) + Split(b, sep)
  {
    var pa, pb := Split(a, sep), Split(b, sep);
    JoinWithConcat(pa, pb, sep);
    PiecesFreeConcat(pa, pb, sep);
    SplitJoin(pa + pb, sep);
  }

  /** Two runs of separator-free pieces make one. */
  lemma PiecesFreeConcat(pa: seq<string>, pb: seq<string>, sep: char)
    requires forall k :: 0 <= k < |pa| ==> sep !in pa[k]
    requires forall k :: 0 <= k < |pb| ==> sep !in pb[k]
    ensures forall k :: 0 <= k < |pa + pb| ==> sep !in (pa + pb)[k]
  {
    forall k | 0 <= k < |pa + pb| ensures sep !in (pa + pb)[k] {
      if k >= |pa| {
        assert (pa + pb)[k] == pb[k - |pa|];
      }
    }
  }

  /** Joining two runs of pieces is joining each and putting the separator between. */
  lemma {:induction false} JoinWithConcat(pa: seq<string>, pb: seq<string>, sep: char)
    requires |pa| >= 1 && |pb| >= 1
    ensures JoinWith(pa + pb, sep) == JoinWith(pa, sep) + [sep] + JoinWith(pb, sep)
    decreases |pa|
  {
    assert (pa + pb)[0] == pa[0];
    if |pa| == 1 {
      assert (pa + pb)[1..] == pb;
    } else {
      assert (pa + pb)[1..] == pa[1..] + pb;
      JoinWithConcat(pa[1..], pb, sep);
      var x, y, z := pa[0], JoinWith(pa[1..], sep), JoinWith(pb, sep);
      assert x + [sep] + (y + [sep] + z) == (x + [sep] + y) + [sep] + z;
    }
  }

  /** Dates whose first three pieces agree give the same start tuple. */
  lemma StartOfSameDate(date1: string, date2: string, time: string)
    requires |Split(date1, '-')| >= 3 && |Split(date2, '-')| >= 3
    requires Split(date1, '-')[..3] == Split(date2, '-')[..3]
    ensures Start(date1, time) == Start(date2, time)
  {
    var p1, p2 := Split(date1, '-'), Split(date2, '-');
    assert p1[0] == p1[..3][0] && p1[1] == p1[..3][1] && p1[2] == p1[..3][2];
    assert p2[0] == p2[..3][0] && p2[1] == p2[..3][1] && p2[2] == p2[..3][2];
  }

  /**
   * The event of `sendCalendarInvite` in the drafts public/index.js and
   * api/index.js: titled "Ride Reservation", one hour, at the pickup location,
   * with the customer as the only attendee.
   */
  function Invite(d: Reservation): (e: CalendarEvent)
    ensures e.start == Start(d.pickupDate, d.pickupTime) && e.durationHours == 1
    ensures e.location == d.pickupLocation && e.attendeeEmail == d.customerEmail
  {
    CalendarEvent(Start(d.pickupDate, d.pickupTime), 1, "Ride Reservation",
                  "Your booked ride reservation.", d.pickupLocation, "CONFIRMED",
                  "Customer", d.customerEmail)
  }

  /**
   * The event of public/checkout.js: titled after the customer, described and
   * located by the pickup and drop-off, with the customer's first name and
   * e-mail as the attendee.
   */
  function RideEvent(d: Reservation): (e: CalendarEvent)
    ensures e.start == Start(d.pickupDate, d.pickupTime) && e.durationHours == 1
    ensures e.attendeeName == d.customerFirstName && e.attendeeEmail == d.customerEmail
    ensures e.location == d.pickupLocation + " to " + d.dropoffLocation
    ensures e.description == "Your ride from " + e.location + "."
  {
    CalendarEvent(Start(d.pickupDate, d.pickupTime), 1,
                  "Ride Reservation for " + d.customerFirstName + " " + d.customerLastName,
                  "Your ride from " + d.pickupLocation + " to " + d.dropoffLocation + ".",
                  d.pickupLocation + " to " + d.dropoffLocation, "CONFIRMED",
                  d.customerFirstName, d.customerEmail)
  }

  /** The prefix "Ride Reservation for " is followed by the first name, a space and the last name. */
  lemma RideEventTitle(d: Reservation)
    ensures var t := RideEvent(d).title;
      |t| == 21 + |d.customerFirstName| + 1 + |d.customerLastName|
      && t[..21] == "Ride Reservation for "
      && t[21..21 + |d.customerFirstName|] == d.customerFirstName
      && t[21 + |d.customerFirstName|] == ' '
      && t[22 + |d.customerFirstName|..] == d.customerLastName
  {
    var f, l := d.customerFirstName, d.customerLastName;
    var t := RideEvent(d).title;
    assert t == "Ride Reservation for " + f + " " + l;
    assert t[..21] == "Ride Reservation for ";
  }
}
