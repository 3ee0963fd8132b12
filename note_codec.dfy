/**
 * The free-text order note through which the Square drafts carry the
 * reservation: the encoder writes `Label: value` pairs joined by ", ", and
 * the decoder `extractField` runs the regular expression `Label: ([^,]+)`
 * over the note and falls back to "Not provided".
 */
module NoteCodec {
  import opened Booking

  const NotProvided: string := "Not provided"

  /** The seven labels of the note, in the order the encoder writes them. */
  const NoteLabels: seq<string> :=
    ["Pickup Location", "Dropoff Location", "Pickup Date", "Pickup Time", "First Name", "Last Name", "Phone"]

  /** The eighth label the calendar draft appends. */
  const HoursLabel: string := "Hours"

  /** What the note writes in front of a value, and what the regular expression looks for. */
  function Key(name: string): string { name + ": " }

  predicate OccursAt(s: string, p: string, i: nat) {
    i + |p| <= |s| && s[i..i + |p|] == p
  }

  /** `s` holds no occurrence of the key of `name`. */
  predicate NoKey(s: string, name: string) {
    forall i: nat | i <= |s| :: !OccursAt(s, Key(name), i)
  }

  /** The key `p` followed by at least one non-comma character starts at `i`. */
  predicate MatchesAt(s: string, p: string, i: nat) {
    i + |p| < |s| && s[i..i + |p|] == p && s[i + |p|] != ','
  }

  /** `i` is where the regular expression matches: the leftmost position that matches. */
  predicate Leftmost(s: string, p: string, i: nat) {
    MatchesAt(s, p, i) && forall j: nat :: j < i ==> !MatchesAt(s, p, j)
  }

  /** The leftmost match at or after `from`. */
  function FirstMatchFrom(s: string, p: string, from: nat): (r: Option<nat>)
    decreases |s| - from
    ensures r.Some? ==> from <= r.value && MatchesAt(s, p, r.value)
    ensures r.Some? ==> forall j: nat :: from <= j < r.value ==> !MatchesAt(s, p, j)
    ensures r.None? ==> forall j: nat :: from <= j ==> !MatchesAt(s, p, j)
  {
    if |s| <= from + |p| then None
    else if MatchesAt(s, p, from) then Some(from)
    else FirstMatchFrom(s, p, from + 1)
  }

  /** Where `s.match(new RegExp(p ...))` matches, if anywhere. */
  function FirstMatch(s: string, p: string): (r: Option<nat>)
    ensures r.Some? ==> Leftmost(s, p, r.value)
    ensures r.None? ==> forall j: nat :: !MatchesAt(s, p, j)
  {
    FirstMatchFrom(s, p, 0)
  }

  /** The greedy capture `[^,]+`: the longest comma-free prefix. */
  function UpToComma(s: string): (r: string)
    ensures |r| <= |s| && r == s[..|r|]
    ensures ',' !in r
    ensures |r| == |s| || s[|r|] == ','
  {
    if s == [] || s[0] == ',' then [] else [s[0]] + UpToComma(s[1..])
  }

  /**
   * `extractField(note, fieldName)`: the text after the leftmost key of the
   * name that is followed by a non-comma, up to the next comma or the end;
   * "Not provided" when there is no such key.
   */
  function ExtractField(note: string, name: string): (r: string)
    ensures |r| > 0 && ',' !in r
  {
    match FirstMatch(note, Key(name))
    case None => NotProvided
    case Some(i) => UpToComma(note[i + |Key(name)|..])
  }

  /** What the extraction reads: the capture after the leftmost match, or the fallback when nothing matches. */
  lemma ExtractFieldMeaning(note: string, name: string)
    ensures (exists i: nat :: Leftmost(note, Key(name), i)
                && ExtractField(note, name) == UpToComma(note[i + |Key(name)|..]))
         || ((forall i: nat :: !MatchesAt(note, Key(name), i)) && ExtractField(note, name) == NotProvided)
  {
    match FirstMatch(note, Key(name))
    case None =>
    case Some(i) =>
      assert Leftmost(note, Key(name), i);
  }

  /** A label the note codec can use: no comma, no colon, and not starting with a space. */
  predicate WellFormedLabel(name: string) {
    |name| > 0 && name[0] != ' ' && ',' !in name && ':' !in name
  }

  predicate IsSuffix(a: string, b: string) {
    |a| <= |b| && b[|b| - |a|..] == a
  }

  // ---------------------------------------------------------------------
  // The encoder.

  datatype Field = Field(name: string, value: string)

  /** One pair of the note, preceded by `lead` ("" for the first pair, " " after each comma). */
  function Segment(lead: string, f: Field): string {
    lead + f.name + ": " + f.value
  }

  /** The pairs joined by ", ". */
  function Join(fs: seq<Field>, lead: string): (s: string)
    requires |fs| > 0
  {
    if |fs| == 1 then Segment(lead, fs[0])
    else Segment(lead, fs[0]) + "," + Join(fs[1..], " ")
  }

  /** The seven pairs of the note, in the encoder's order. */
  function NoteFields(r: Reservation): (fs: seq<Field>)
    ensures |fs| == |NoteLabels|
    ensures forall k :: 0 <= k < |fs| ==> fs[k].name == NoteLabels[k]
  {
    [Field("Pickup Location", r.pickupLocation), Field("Dropoff Location", r.dropoffLocation),
     Field("Pickup Date", r.pickupDate), Field("Pickup Time", r.pickupTime),
     Field("First Name", r.customerFirstName), Field("Last Name", r.customerLastName),
     Field("Phone", r.customerPhoneNumber)]
  }

  /** The note template of the drafts public/index.js and api/index.js. */
  function Note(r: Reservation): string {
    "Pickup Location: " + r.pickupLocation + ", Dropoff Location: " + r.dropoffLocation
    + ", Pickup Date: " + r.pickupDate + ", Pickup Time: " + r.pickupTime
    + ", First Name: " + r.customerFirstName + ", Last Name: " + r.customerLastName
    + ", Phone: " + r.customerPhoneNumber
  }

  /** The note template of public/checkout.js, which appends the service hours. */
  function NoteWithHours(r: Reservation): string {
    Note(r) + ", Hours: " + r.serviceHours
  }

  /** Joining a list of pairs unfolded once. */
  lemma JoinCons(f: Field, rest: seq<Field>, lead: string)
    requires |rest| > 0
    ensures Join([f] + rest, lead) == Segment(lead, f) + "," + Join(rest, " ")
  {
    assert ([f] + rest)[1..] == rest;
  }

  /** One more pair of the note: the comma, its key and its value after what is already joined. */
  lemma JoinStep(fs: seq<Field>, k: nat, p: string, key: string)
    requires 1 <= k < |fs| && Join(fs[..k], "") == p
    requires key == ", " + fs[k].name + ": "
    ensures Join(fs[..k + 1], "") == p + key + fs[k].value
  {
    assert fs[..k + 1] == fs[..k] + [fs[k]];
    JoinSnoc(fs[..k], fs[k], "");
    assert "," + Segment(" ", fs[k]) == key + fs[k].value;
    assert p + "," + Segment(" ", fs[k]) == p + ("," + Segment(" ", fs[k]));
    assert p + key + fs[k].value == p + (key + fs[k].value);
  }

  /** The keys of the note's pairs after the first, with the comma and space in front. */
  lemma NoteKeysHead()
    ensures ", Dropoff Location: " == ", " + "Dropoff Location" + ": "
    ensures ", Pickup Date: " == ", " + "Pickup Date" + ": "
    ensures ", Pickup Time: " == ", " + "Pickup Time" + ": "
  {
  }

  /** The keys of the last three pairs, likewise. */
  lemma NoteKeysTail()
    ensures ", First Name: " == ", " + "First Name" + ": "
    ensures ", Last Name: " == ", " + "Last Name" + ": "
    ensures ", Phone: " == ", " + "Phone" + ": "
  {
  }

  /** The first three pairs of the note, joined. */
  lemma NoteJoinThree(r: Reservation)
    ensures Join(NoteFields(r)[..3], "")
         == "Pickup Location: " + r.pickupLocation + ", Dropoff Location: " + r.dropoffLocation
            + ", Pickup Date: " + r.pickupDate
  {
    var fs := NoteFields(r);
    NoteKeysHead();
    var p1 := "Pickup Location: " + r.pickupLocation;
    assert Join(fs[..1], "") == p1 by {
      assert fs[..1] == [fs[0]];
      assert "" + "Pickup Location" + ": " == "Pickup Location: ";
    }
    JoinStep(fs, 1, p1, ", Dropoff Location: ");
    JoinStep(fs, 2, p1 + ", Dropoff Location: " + r.dropoffLocation, ", Pickup Date: ");
  }

  /** The first five pairs of the note, joined. */
  lemma NoteJoinFive(r: Reservation)
    ensures Join(NoteFields(r)[..5], "")
         == "Pickup Location: " + r.pickupLocation + ", Dropoff Location: " + r.dropoffLocation
            + ", Pickup Date: " + r.pickupDate + ", Pickup Time: " + r.pickupTime
            + ", First Name: " + r.customerFirstName
  {
    var fs := NoteFields(r);
    var p3 := "Pickup Location: " + r.pickupLocation + ", Dropoff Location: " + r.dropoffLocation
              + ", Pickup Date: " + r.pickupDate;
    NoteJoinThree(r);
    NoteKeysHead(); NoteKeysTail();
    JoinStep(fs, 3, p3, ", Pickup Time: ");
    JoinStep(fs, 4, p3 + ", Pickup Time: " + r.pickupTime, ", First Name: ");
  }

  /** The note is exactly the seven pairs, in order, joined by ", ". */
  lemma NoteIsJoin(r: Reservation)
    ensures Note(r) == Join(NoteFields(r), "")
  {
    var fs := NoteFields(r);
    var p5 := "Pickup Location: " + r.pickupLocation + ", Dropoff Location: " + r.dropoffLocation
              + ", Pickup Date: " + r.pickupDate + ", Pickup Time: " + r.pickupTime
              + ", First Name: " + r.customerFirstName;
    NoteJoinFive(r);
    NoteKeysTail();
    JoinStep(fs, 5, p5, ", Last Name: ");
    JoinStep(fs, 6, p5 + ", Last Name: " + r.customerLastName, ", Phone: ");
    assert fs[..7] == fs;
  }

  /** Joining one more pair at the end. */
  lemma {:induction false} JoinSnoc(fs: seq<Field>, f: Field, lead: string)
    requires |fs| > 0
    ensures Join(fs + [f], lead) == Join(fs, lead) + "," + Segment(" ", f)
    decreases |fs|
  {
    if |fs| == 1 {
      JoinCons(fs[0], [f], lead);
    } else {
      assert fs + [f] == [fs[0]] + (fs[1..] + [f]);
      JoinCons(fs[0], fs[1..] + [f], lead);
      JoinSnoc(fs[1..], f, " ");
      JoinCons(fs[0], fs[1..], lead);
      assert [fs[0]] + fs[1..] == fs;
    }
  }

  /** The calendar draft's note is the eight pairs, the hours last. */
  lemma NoteWithHoursIsJoin(r: Reservation)
    ensures NoteWithHours(r) == Join(NoteFields(r) + [Field(HoursLabel, r.serviceHours)], "")
  {
    NoteIsJoin(r);
    JoinSnoc(NoteFields(r), Field(HoursLabel, r.serviceHours), "");
  }

  // ---------------------------------------------------------------------
  // The decoder run on a note.

  /** The record the webhook builds from the note (seven extracted fields and the given e-mail). */
  function DecodeReservation(note: string, email: string): (r: Reservation)
    ensures r.serviceHours == "" && r.dropoffLocation2 == "" && r.flightNumber == ""
    ensures r.customerEmail == email
  {
    Reservation(
      pickupLocation := ExtractField(note, "Pickup Location"),
      dropoffLocation := ExtractField(note, "Dropoff Location"),
      dropoffLocation2 := "",
      pickupDate := ExtractField(note, "Pickup Date"),
      pickupTime := ExtractField(note, "Pickup Time"),
      numPassengers := "",
      rideChoice := "",
      flightNumber := "",
      serviceHours := "",
      customerFirstName := ExtractField(note, "First Name"),
      customerLastName := ExtractField(note, "Last Name"),
      customerPhoneNumber := ExtractField(note, "Phone"),
      customerEmail := email)
  }

  /** The part of a reservation the note carries, with the given e-mail. */
  function NoteView(r: Reservation, email: string): Reservation {
    Reservation(r.pickupLocation, r.dropoffLocation, "", r.pickupDate, r.pickupTime, "", "", "", "",
                r.customerFirstName, r.customerLastName, r.customerPhoneNumber, email)
  }

  // ---------------------------------------------------------------------
  // Matching over a note split at a comma.

  /** A value without a comma is captured whole. */
  lemma UpToCommaWhole(v: string)
    requires ',' !in v
    ensures UpToComma(v) == v
  {
  }

  lemma {:induction false} UpToCommaConcat(x: string, y: string)
    ensures UpToComma(x + "," + y) == UpToComma(x)
  {
    if x == [] {
      assert (x + "," + y)[0] == ',';
    } else if x[0] != ',' {
      assert (x + "," + y)[1..] == x[1..] + "," + y;
      UpToCommaConcat(x[1..], y);
    }
  }

  /** A key without a comma matches in `a,b` exactly where it matches in `a` or in `b`. */
  lemma MatchesAtConcat(a: string, b: string, p: string, i: nat)
    requires ',' !in p && |p| > 0
    ensures i <= |a| ==> (MatchesAt(a + "," + b, p, i) <==> MatchesAt(a, p, i))
    ensures i > |a| ==> (MatchesAt(a + "," + b, p, i) <==> MatchesAt(b, p, i - |a| - 1))
  {
    var s := a + "," + b;
    assert s[|a|] == ',';
    if i <= |a| {
      if i + |p| > |a| && i + |p| <= |s| {
        assert s[i..i + |p|][|a| - i] == ',';
        assert p[|a| - i] != ',';
      }
      if i + |p| < |a| {
        assert s[i..i + |p|] == a[i..i + |p|];
        assert s[i + |p|] == a[i + |p|];
      }
    } else {
      var j := i - |a| - 1;
      if i + |p| <= |s| {
        assert s[i..i + |p|] == b[j..j + |p|];
      }
      if i + |p| < |s| {
        assert s[i + |p|] == b[j + |p|];
      }
    }
  }

  lemma MatchesConcat(a: string, b: string, p: string)
    requires ',' !in p && |p| > 0
    ensures forall i: nat :: i <= |a| ==> (MatchesAt(a + "," + b, p, i) <==> MatchesAt(a, p, i))
    ensures forall i: nat :: i > |a| ==> (MatchesAt(a + "," + b, p, i) <==> MatchesAt(b, p, i - |a| - 1))
  {
    forall i: nat
      ensures i <= |a| ==> (MatchesAt(a + "," + b, p, i) <==> MatchesAt(a, p, i))
      ensures i > |a| ==> (MatchesAt(a + "," + b, p, i) <==> MatchesAt(b, p, i - |a| - 1))
    {
      MatchesAtConcat(a, b, p, i);
    }
  }

  /** The leftmost match in `a,b` is the one in `a` when `a` has one, else the one in `b`, shifted. */
  lemma FirstMatchConcat(a: string, b: string, p: string)
    requires ',' !in p && |p| > 0
    ensures FirstMatch(a, p).Some? ==> FirstMatch(a + "," + b, p) == FirstMatch(a, p)
    ensures FirstMatch(a, p).None? && FirstMatch(b, p).Some? ==>
              FirstMatch(a + "," + b, p) == Some(FirstMatch(b, p).value + |a| + 1)
    ensures FirstMatch(a, p).None? && FirstMatch(b, p).None? ==> FirstMatch(a + "," + b, p).None?
  {
    var s := a + "," + b;
    MatchesConcat(a, b, p);
    match FirstMatch(a, p)
    case Some(i) =>
      assert Leftmost(s, p, i);
    case None =>
      match FirstMatch(b, p)
      case Some(j) =>
        assert Leftmost(s, p, j + |a| + 1) by {
          forall k: nat | k < j + |a| + 1 ensures !MatchesAt(s, p, k) {
            if k > |a| { assert k - |a| - 1 < j; }
          }
        }
      case None =>
        forall k: nat ensures !MatchesAt(s, p, k) {
          if k > |a| { assert !MatchesAt(b, p, k - |a| - 1); }
        }
  }

  /** Where the key matches first, extraction reads the text after it. */
  lemma ExtractAt(s: string, name: string, i: nat)
    requires FirstMatch(s, Key(name)) == Some(i)
    ensures i + |Key(name)| <= |s| && ExtractField(s, name) == UpToComma(s[i + |Key(name)|..])
  {
  }

  /** Where the key never matches, extraction falls back to "Not provided". */
  lemma ExtractNone(s: string, name: string)
    requires FirstMatch(s, Key(name)).None?
    ensures ExtractField(s, name) == NotProvided
  {
  }

  /** The capture from inside `a` stops before the comma that joins `a` to `b`. */
  lemma UpToCommaTail(a: string, b: string, j: nat)
    requires j <= |a|
    ensures UpToComma((a + "," + b)[j..]) == UpToComma(a[j..])
  {
    assert (a + "," + b)[j..] == a[j..] + "," + b;
    UpToCommaConcat(a[j..], b);
  }

  /** When the key matches in `a`, extracting from `a,b` reads the same text as extracting from `a`. */
  lemma ExtractSplitLeft(a: string, b: string, name: string)
    requires ',' !in name && FirstMatch(a, Key(name)).Some?
    ensures ExtractField(a + "," + b, name) == ExtractField(a, name)
  {
    var p := Key(name);
    FirstMatchConcat(a, b, p);
    var i := FirstMatch(a, p).value;
    ExtractAt(a + "," + b, name, i);
    ExtractAt(a, name, i);
    UpToCommaTail(a, b, i + |p|);
  }

  /** When the key does not match in `a`, extracting from `a,b` is extracting from `b`. */
  lemma ExtractSplitRight(a: string, b: string, name: string)
    requires ',' !in name && FirstMatch(a, Key(name)).None?
    ensures ExtractField(a + "," + b, name) == ExtractField(b, name)
  {
    var p := Key(name);
    FirstMatchConcat(a, b, p);
    match FirstMatch(b, p)
    case Some(j) =>
      ExtractShifted(a, b, name, j);
    case None =>
      ExtractNone(a + "," + b, name);
      ExtractNone(b, name);
  }

  /** A match in `b` shifted past `a,` reads the same capture. */
  lemma ExtractShifted(a: string, b: string, name: string, j: nat)
    requires FirstMatch(b, Key(name)) == Some(j)
    requires FirstMatch(a + "," + b, Key(name)) == Some(j + |a| + 1)
    ensures ExtractField(a + "," + b, name) == ExtractField(b, name)
  {
    SliceAfterComma(a, b, j, |Key(name)|);
    ExtractSameTail(a + "," + b, b, name, j + |a| + 1, j);
  }

  /** Two matches followed by the same text read the same capture. */
  lemma ExtractSameTail(s: string, b: string, name: string, i: nat, j: nat)
    requires FirstMatch(s, Key(name)) == Some(i) && FirstMatch(b, Key(name)) == Some(j)
    requires i + |Key(name)| <= |s| && j + |Key(name)| <= |b|
    requires s[i + |Key(name)|..] == b[j + |Key(name)|..]
    ensures ExtractField(s, name) == ExtractField(b, name)
  {
    ExtractAt(s, name, i);
    ExtractAt(b, name, j);
  }

  /** Past `a` and its comma, `a,b` reads as `b`. */
  lemma SliceAfterComma(a: string, b: string, j: nat, t: nat)
    requires j + t <= |b|
    ensures (a + "," + b)[j + |a| + 1 + t..] == b[j + t..]
  {
  }

  /** Extracting from `a,b` finds the label in `a` if it matches there, and otherwise in `b`. */
  lemma ExtractSplit(a: string, b: string, name: string)
    requires ',' !in name
    ensures ExtractField(a + "," + b, name)
         == if FirstMatch(a, Key(name)).Some? then ExtractField(a, name) else ExtractField(b, name)
  {
    if FirstMatch(a, Key(name)).Some? {
      ExtractSplitLeft(a, b, name);
    } else {
      ExtractSplitRight(a, b, name);
    }
  }

  // ---------------------------------------------------------------------
  // Matching inside one pair.

  /** The layout of one pair: its lead and label, then ": ", then its value. */
  lemma SegmentLayout(lead: string, f: Field)
    ensures var a, c := Segment(lead, f), |lead| + |f.name|;
      |a| == c + 2 + |f.value| && a[..c] == lead + f.name && a[c] == ':' && a[c + 1] == ' '
      && a[c + 2..] == f.value
  {
    var a, c := Segment(lead, f), |lead| + |f.name|;
    assert a == (lead + f.name) + ": " + f.value;
  }

  /** Before the pair's colon the key cannot occur: its own colon would land in the lead or label. */
  lemma KeyNotBeforeColon(lead: string, f: Field, other: string, i: nat)
    requires lead == "" || lead == " "
    requires WellFormedLabel(f.name) && WellFormedLabel(other)
    requires !IsSuffix(other, f.name)
    requires i + |other| <= |lead| + |f.name|
    ensures !OccursAt(Segment(lead, f), Key(other), i)
  {
    if i + |other| < |lead| + |f.name| {
      KeyColonInLabel(lead, f, other, i);
    } else if i < |lead| {
      KeyInLead(lead, f, other, i);
    } else {
      KeyEndsAtColon(lead, f, other, i);
    }
  }

  /** A key ending inside the label would put its colon on a label character. */
  lemma KeyColonInLabel(lead: string, f: Field, other: string, i: nat)
    requires WellFormedLabel(f.name)
    requires i + |other| < |lead| + |f.name| && i + |other| >= |lead|
    ensures !OccursAt(Segment(lead, f), Key(other), i)
  {
    var a, q, m, c := Segment(lead, f), Key(other), |other|, |lead| + |f.name|;
    SegmentLayout(lead, f);
    assert q[m] == ':';
    assert a[i + m] == a[..c][i + m] == (lead + f.name)[i + m];
    assert a[i + m] == f.name[i + m - |lead|];
    if i + |q| <= |a| {
      assert a[i..i + |q|][m] != ':';
    }
  }

  /** A key starting in the lead would start with a space. */
  lemma KeyInLead(lead: string, f: Field, other: string, i: nat)
    requires lead == "" || lead == " "
    requires WellFormedLabel(other)
    requires i < |lead|
    ensures !OccursAt(Segment(lead, f), Key(other), i)
  {
    var a, q, c := Segment(lead, f), Key(other), |lead| + |f.name|;
    SegmentLayout(lead, f);
    assert i == 0 && lead == " ";
    assert a[0] == a[..c][0] == ' ';
    assert q[0] == other[0];
    if i + |q| <= |a| {
      assert a[i..i + |q|][0] == a[0];
    }
  }

  /** A key ending exactly at the pair's colon would make `other` a suffix of the pair's label. */
  lemma KeyEndsAtColon(lead: string, f: Field, other: string, i: nat)
    requires !IsSuffix(other, f.name)
    requires i + |other| == |lead| + |f.name| && i >= |lead|
    ensures !OccursAt(Segment(lead, f), Key(other), i)
  {
    var a, q, m, c := Segment(lead, f), Key(other), |other|, |lead| + |f.name|;
    SegmentLayout(lead, f);
    assert a[i..c] == a[..c][i..] == (lead + f.name)[i..];
    assert (lead + f.name)[i..] == f.name[i - |lead|..];
    if i + |q| <= |a| {
      assert a[i..i + |q|][..m] == a[i..c];
      assert q[..m] == other;
    }
  }

  /** From the pair's colon on, the key can only occur inside the value. */
  lemma KeyNotAfterColon(lead: string, f: Field, other: string, i: nat)
    requires WellFormedLabel(other)
    requires NoKey(f.value, other)
    requires i + |other| > |lead| + |f.name|
    ensures !OccursAt(Segment(lead, f), Key(other), i)
  {
    var a, q, m, c := Segment(lead, f), Key(other), |other|, |lead| + |f.name|;
    SegmentLayout(lead, f);
    if i + |q| <= |a| {
      if i <= c {
        // The key would straddle the pair's colon, putting a colon inside `other`.
        assert a[i..i + |q|][c - i] == a[c] == ':';
        assert q[c - i] == other[c - i];
      } else if i == c + 1 {
        assert a[i..i + |q|][0] == a[c + 1] == ' ';
        assert q[0] == other[0];
      } else {
        var j := i - (c + 2);
        assert a[i..i + |q|] == a[c + 2..][j..j + |q|];
        assert !OccursAt(f.value, q, j);
      }
    }
  }

  /** The key of a label that is not a suffix of `f.name` can only occur inside `f.value`. */
  lemma ForeignKeyAbsent(lead: string, f: Field, other: string)
    requires lead == "" || lead == " "
    requires WellFormedLabel(f.name) && WellFormedLabel(other)
    requires !IsSuffix(other, f.name)
    requires NoKey(f.value, other)
    ensures FirstMatch(Segment(lead, f), Key(other)).None?
  {
    var a, q := Segment(lead, f), Key(other);
    forall i: nat ensures !MatchesAt(a, q, i) {
      if i + |other| <= |lead| + |f.name| {
        KeyNotBeforeColon(lead, f, other, i);
      } else {
        KeyNotAfterColon(lead, f, other, i);
      }
    }
  }

  /** A pair's own key matches right after the lead, when the value starts with a non-comma. */
  lemma OwnKeyFirst(lead: string, f: Field)
    requires lead == "" || lead == " "
    requires WellFormedLabel(f.name)
    requires |f.value| > 0 && f.value[0] != ','
    ensures FirstMatch(Segment(lead, f), Key(f.name)) == Some(|lead|)
    ensures ExtractField(Segment(lead, f), f.name) == UpToComma(f.value)
  {
    var a := Segment(lead, f);
    var p := Key(f.name);
    assert a == lead + p + f.value;
    assert a[|lead|..|lead| + |p|] == p;
    assert a[|lead| + |p|] == f.value[0];
    assert MatchesAt(a, p, |lead|);
    if lead == " " {
      assert a[0] == ' ';
      assert !MatchesAt(a, p, 0) by { assert p[0] == f.name[0]; }
    }
    assert Leftmost(a, p, |lead|);
    assert a[|lead| + |p|..] == f.value;
  }

  // ---------------------------------------------------------------------
  // Round trip over any list of pairs.

  /** The labels of `fs` are usable and none is a suffix of another. */
  predicate LabelsUsable(fs: seq<Field>) {
    (forall j :: 0 <= j < |fs| ==> WellFormedLabel(fs[j].name))
    && (forall j, k :: 0 <= j < |fs| && 0 <= k < |fs| && j != k ==> !IsSuffix(fs[k].name, fs[j].name))
  }

  /**
   * Extracting the k-th name of a joined note gives the k-th value up to its
   * first comma, provided that value starts with a non-comma and no earlier
   * value contains the k-th key.
   */
  lemma {:induction false} ExtractFromJoin(fs: seq<Field>, lead: string, k: nat)
    requires lead == "" || lead == " "
    requires k < |fs| && LabelsUsable(fs)
    requires |fs[k].value| > 0 && fs[k].value[0] != ','
    requires forall j :: 0 <= j < k ==> NoKey(fs[j].value, fs[k].name)
    ensures ExtractField(Join(fs, lead), fs[k].name) == UpToComma(fs[k].value)
  {
    var name := fs[k].name;
    if k == 0 {
      OwnKeyFirst(lead, fs[0]);
      if |fs| > 1 {
        ExtractSplit(Segment(lead, fs[0]), Join(fs[1..], " "), name);
      }
    } else {
      ForeignKeyAbsent(lead, fs[0], name);
      ExtractSplit(Segment(lead, fs[0]), Join(fs[1..], " "), name);
      var rest := fs[1..];
      assert rest[k - 1] == fs[k];
      assert LabelsUsable(rest) by {
        forall j, i | 0 <= j < |rest| && 0 <= i < |rest| && j != i
          ensures !IsSuffix(rest[i].name, rest[j].name)
        {
          assert rest[i] == fs[i + 1] && rest[j] == fs[j + 1];
        }
      }
      forall j | 0 <= j < k - 1 ensures NoKey(rest[j].value, rest[k - 1].name) {
        assert rest[j] == fs[j + 1];
      }
      ExtractFromJoin(rest, " ", k - 1);
    }
  }

  // ---------------------------------------------------------------------
  // Round trip of the seven-field note.

  /** A label differing from the tail of another at one place is not a suffix of it. */
  lemma NotSuffixAt(a: string, b: string, i: nat)
    requires |a| > |b| || (i < |a| && b[|b| - |a| + i] != a[i])
    ensures !IsSuffix(a, b)
  {
    if |a| <= |b| {
      assert b[|b| - |a|..][i] == b[|b| - |a| + i];
    }
  }

  /** The seven labels of the note and the eighth of the calendar draft, in order. */
  const AllLabels: seq<string> := NoteLabels + [HoursLabel]

  /** No label of the note is a suffix of another (only the pickup date and time share a first letter at the same offset). */
  lemma AllLabelsSuffixFree(j: nat, k: nat)
    requires j < |AllLabels| && k < |AllLabels| && j != k
    ensures !IsSuffix(AllLabels[k], AllLabels[j])
  {
    var a, b := AllLabels[k], AllLabels[j];
    if (j == 2 && k == 3) || (j == 3 && k == 2) {
      NotSuffixAt(a, b, 7);
    } else {
      NotSuffixAt(a, b, 0);
    }
  }

  /** The labels of the note are usable. */
  lemma NoteLabelsUsable(fs: seq<Field>)
    requires |fs| == |NoteLabels| || |fs| == |NoteLabels| + 1
    requires forall k :: 0 <= k < |NoteLabels| ==> fs[k].name == NoteLabels[k]
    requires |fs| == |NoteLabels| + 1 ==> fs[|NoteLabels|].name == HoursLabel
    ensures LabelsUsable(fs)
  {
    forall j | 0 <= j < |fs| ensures fs[j].name == AllLabels[j] && WellFormedLabel(fs[j].name) {
      if j < |NoteLabels| {
        assert fs[j].name == NoteLabels[j];
      }
    }
    forall j, k | 0 <= j < |fs| && 0 <= k < |fs| && j != k ensures !IsSuffix(fs[k].name, fs[j].name) {
      AllLabelsSuffixFree(j, k);
    }
  }

  /** A value the note can carry up to its first comma: it starts with a non-comma and holds no name key. */
  predicate Capturable(v: string) {
    |v| > 0 && v[0] != ',' && forall k :: 0 <= k < |NoteLabels| ==> NoKey(v, NoteLabels[k])
  }

  /** A value the note carries unchanged. */
  predicate Carried(v: string) {
    Capturable(v) && ',' !in v
  }

  predicate NoteCapturable(r: Reservation) {
    Capturable(r.pickupLocation) && Capturable(r.dropoffLocation) && Capturable(r.pickupDate)
    && Capturable(r.pickupTime) && Capturable(r.customerFirstName) && Capturable(r.customerLastName)
    && Capturable(r.customerPhoneNumber)
  }

  predicate NoteCarried(r: Reservation) {
    Carried(r.pickupLocation) && Carried(r.dropoffLocation) && Carried(r.pickupDate)
    && Carried(r.pickupTime) && Carried(r.customerFirstName) && Carried(r.customerLastName)
    && Carried(r.customerPhoneNumber)
  }

  /** The seven pairs of the note, possibly followed by the hours, with capturable values. */
  predicate NotePairs(fs: seq<Field>) {
    |NoteLabels| <= |fs| <= |NoteLabels| + 1
    && (forall j :: 0 <= j < |NoteLabels| ==> fs[j].name == NoteLabels[j])
    && (|fs| == |NoteLabels| + 1 ==> fs[|NoteLabels|].name == HoursLabel)
    && (forall j :: 0 <= j < |NoteLabels| ==> Capturable(fs[j].value))
  }

  /** Extracting one of the seven names from the joined pairs reads its value up to the first comma. */
  lemma ExtractEach(fs: seq<Field>, k: nat)
    requires k < |NoteLabels| && NotePairs(fs)
    ensures ExtractField(Join(fs, ""), NoteLabels[k]) == UpToComma(fs[k].value)
  {
    NoteLabelsUsable(fs);
    var name := fs[k].name;
    assert name == NoteLabels[k];
    forall j | 0 <= j < k ensures NoKey(fs[j].value, name) {
      assert Capturable(fs[j].value);
    }
    assert Capturable(fs[k].value);
    ExtractFromJoin(fs, "", k);
  }

  /** Decoding a join of the note's pairs reads each value up to its first comma. */
  lemma DecodeJoin(fs: seq<Field>, email: string)
    requires NotePairs(fs)
    ensures DecodeReservation(Join(fs, ""), email) == Reservation(
      UpToComma(fs[0].value), UpToComma(fs[1].value), "", UpToComma(fs[2].value),
      UpToComma(fs[3].value), "", "", "", "", UpToComma(fs[4].value), UpToComma(fs[5].value),
      UpToComma(fs[6].value), email)
  {
    ExtractEach(fs, 0);
    ExtractEach(fs, 1);
    ExtractEach(fs, 2);
    ExtractEach(fs, 3);
    ExtractEach(fs, 4);
    ExtractEach(fs, 5);
    ExtractEach(fs, 6);
  }

  /**
   * Decoding the note gives back each field up to its first comma: a value
   * holding a comma comes back truncated before it.
   */
  lemma DecodeTruncates(r: Reservation, email: string)
    requires NoteCapturable(r)
    ensures DecodeReservation(Note(r), email) == Reservation(
      UpToComma(r.pickupLocation), UpToComma(r.dropoffLocation), "",
      UpToComma(r.pickupDate), UpToComma(r.pickupTime), "", "", "", "",
      UpToComma(r.customerFirstName), UpToComma(r.customerLastName),
      UpToComma(r.customerPhoneNumber), email)
  {
    NoteIsJoin(r);
    assert NotePairs(NoteFields(r));
    DecodeJoin(NoteFields(r), email);
  }

  /** Round trip: a note of non-empty, comma-free, name-free values decodes to the same values. */
  lemma NoteRoundTrip(r: Reservation, email: string)
    requires NoteCarried(r)
    ensures DecodeReservation(Note(r), email) == NoteView(r, email)
  {
    DecodeTruncates(r, email);
    UpToCommaWhole(r.pickupLocation);
    UpToCommaWhole(r.dropoffLocation);
    UpToCommaWhole(r.pickupDate);
    UpToCommaWhole(r.pickupTime);
    UpToCommaWhole(r.customerFirstName);
    UpToCommaWhole(r.customerLastName);
    UpToCommaWhole(r.customerPhoneNumber);
  }

  /**
   * The calendar draft's eight-pair note decodes like the seven-pair one,
   * whatever the hours value is: the Phone capture stops at the comma before
   * `Hours`, and the hours are never recovered.
   */
  lemma NoteWithHoursDecodes(r: Reservation, email: string)
    requires NoteCapturable(r)
    ensures DecodeReservation(NoteWithHours(r), email) == DecodeReservation(Note(r), email)
  {
    NoteWithHoursIsJoin(r);
    DecodeTruncates(r, email);
    HoursPairs(r);
    DecodeJoin(NoteFields(r) + [Field(HoursLabel, r.serviceHours)], email);
  }

  /** The eight pairs of the calendar draft are the note's pairs, and the seven values are the record's. */
  lemma HoursPairs(r: Reservation)
    requires NoteCapturable(r)
    ensures var fs := NoteFields(r) + [Field(HoursLabel, r.serviceHours)];
      NotePairs(fs)
      && fs[0].value == r.pickupLocation && fs[1].value == r.dropoffLocation
      && fs[2].value == r.pickupDate && fs[3].value == r.pickupTime
      && fs[4].value == r.customerFirstName && fs[5].value == r.customerLastName
      && fs[6].value == r.customerPhoneNumber
  {
    var fs := NoteFields(r) + [Field(HoursLabel, r.serviceHours)];
    forall j | 0 <= j < |NoteLabels| ensures fs[j] == NoteFields(r)[j] { }
  }

  /** An empty value never survives the round trip: extraction never yields "". */
  lemma EmptyValueLost(r: Reservation, email: string)
    requires r.pickupLocation == ""
    ensures DecodeReservation(Note(r), email).pickupLocation != r.pickupLocation
  {
  }

  /** A note that is absent (`note || ''`) decodes every field to "Not provided". */
  lemma EmptyNoteDecodes(email: string)
    ensures DecodeReservation("", email) == Reservation(
      NotProvided, NotProvided, "", NotProvided, NotProvided, "", "", "", "",
      NotProvided, NotProvided, NotProvided, email)
  {
    forall l ensures ExtractField("", l) == NotProvided {
      assert forall i: nat :: !MatchesAt("", Key(l), i);
    }
  }
}
