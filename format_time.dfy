/** `formatTime` (src/utils/formatTime.ts): a millisecond count as readable text,
    "2 hours, 1 minute, 5 seconds". */
module FormatTime {
  import opened Wrappers
  import opened JsText

  datatype TimeUnit = Day | Hour | Minute | Second

  /** A number of whole seconds split into days, hours, minutes and seconds. */
  datatype Duration = Duration(days: nat, hours: nat, minutes: nat, seconds: nat)

  /** One entry of the comma-separated text: a count and its unit. */
  datatype Part = Part(count: nat, unit: TimeUnit)

  function UnitSeconds(u: TimeUnit): nat {
    match u
    case Day => 86400
    case Hour => 3600
    case Minute => 60
    case Second => 1
  }

  function UnitName(u: TimeUnit): string {
    match u
    case Day => "day"
    case Hour => "hour"
    case Minute => "minute"
    case Second => "second"
  }

  /** The place of a unit in the text: larger units come first. */
  function Rank(u: TimeUnit): nat {
    match u
    case Day => 0
    case Hour => 1
    case Minute => 2
    case Second => 3
  }

  /** The count a duration holds for one unit. */
  function CountOf(d: Duration, u: TimeUnit): nat {
    match u
    case Day => d.days
    case Hour => d.hours
    case Minute => d.minutes
    case Second => d.seconds
  }

  function TotalSeconds(d: Duration): nat {
    d.days * 86400 + d.hours * 3600 + d.minutes * 60 + d.seconds
  }

  /** A duration whose hours, minutes and seconds are each below the next unit. */
  predicate Normal(d: Duration) {
    d.hours < 24 && d.minutes < 60 && d.seconds < 60
  }

  /** The normalisation step: whole seconds, minutes, hours and days, each count
      then reduced modulo the next unit. */
  function Breakdown(ms: nat): (d: Duration)
    ensures Normal(d)
    ensures TotalSeconds(d) == ms / 1000
  {
    var seconds := ms / 1000;
    var minutes := seconds / 60;
    var hours := minutes / 60;
    var days := hours / 24;
    assert hours == days * 24 + hours % 24;
    assert minutes == hours * 60 + minutes % 60;
    assert seconds == minutes * 60 + seconds % 60;
    Duration(days, hours % 24, minutes % 60, seconds % 60)
  }

  lemma {:induction false} DivModUnique(a: nat, n: nat, q: nat, r: nat)
    requires 0 < n && r < n && a == q * n + r
    ensures a / n == q && a % n == r
  {
    var q', r' := a / n, a % n;
    assert a == q' * n + r';
    if q' < q {
      MulMonotone(q' + 1, q, n);
    } else if q < q' {
      MulMonotone(q + 1, q', n);
    }
  }

  lemma {:induction false} MulMonotone(x: nat, y: nat, n: nat)
    requires x <= y
    ensures x * n <= y * n
  {
    assert y * n == x * n + (y - x) * n;
  }

  /** A normal duration is determined by its number of seconds: the breakdown is the only one. */
  lemma {:induction false} BreakdownUnique(ms: nat, d: Duration)
    requires Normal(d) && TotalSeconds(d) == ms / 1000
    ensures d == Breakdown(ms)
  {
    var s := ms / 1000;
    var m := d.days * 1440 + d.hours * 60 + d.minutes;
    var h := d.days * 24 + d.hours;
    assert s == m * 60 + d.seconds;
    DivModUnique(s, 60, m, d.seconds);
    assert m == h * 60 + d.minutes;
    DivModUnique(m, 60, h, d.minutes);
    DivModUnique(h, 24, d.days, d.hours);
  }

  /** The entry for one unit when its count is positive. */
  function Piece(d: Duration, u: TimeUnit): seq<Part> {
    if CountOf(d, u) > 0 then [Part(CountOf(d, u), u)] else []
  }

  /** The units present, largest first: a unit appears when its count is positive,
      and seconds appear also when nothing else did. */
  function Parts(d: Duration): seq<Part> {
    var p3 := Piece(d, Day) + Piece(d, Hour) + Piece(d, Minute);
    p3 + (if d.seconds > 0 || p3 == [] then [Part(d.seconds, Second)] else [])
  }

  /** "1 day", "3 hours", "0 seconds": singular exactly for a count of 1. */
  function Render(p: Part): string {
    NatToString(p.count) + " " + UnitName(p.unit) + (if p.count == 1 then "" else "s")
  }

  function RenderAll(ps: seq<Part>): (r: seq<string>)
    ensures |r| == |ps| && forall i :: 0 <= i < |ps| ==> r[i] == Render(ps[i])
  {
    if ps == [] then [] else [Render(ps[0])] + RenderAll(ps[1..])
  }

  /** `formatTime(totalMilliseconds)`. */
  function FormatTime(ms: int): (r: string)
    ensures ms < 0 ==> r == "N/A"
    ensures ms == 0 ==> r == "Instantly"
    ensures ms > 0 ==> r != [] && IsDigit(r[0])
  {
    if ms < 0 then "N/A"
    else if ms == 0 then "Instantly"
    else
      var ps := Parts(Breakdown(ms));
      assert ps != [];
      Join(RenderAll(ps), ", ")
  }

  /** The seconds the parts of a text stand for. */
  function PartsSeconds(ps: seq<Part>): nat {
    if ps == [] then 0 else ps[0].count * UnitSeconds(ps[0].unit) + PartsSeconds(ps[1..])
  }

  lemma {:induction false} PartsSecondsAppend(a: seq<Part>, b: seq<Part>)
    ensures PartsSeconds(a + b) == PartsSeconds(a) + PartsSeconds(b)
  {
    if a == [] {
      assert a + b == b;
    } else {
      assert (a + b)[1..] == a[1..] + b;
      PartsSecondsAppend(a[1..], b);
    }
  }

  /** Each part carries its unit's count, and that count is positive unless the
      whole duration is zero, which shows as the single part "0 seconds". */
  lemma {:induction false} PartsCounts(d: Duration)
    ensures var ps := Parts(d);
      && |ps| >= 1
      && (forall i :: 0 <= i < |ps| ==> ps[i].count == CountOf(d, ps[i].unit))
      && (forall i :: 0 <= i < |ps| ==> ps[i].count > 0 || ps == [Part(0, Second)])
  {
  }

  /** Units appear largest first, none twice. */
  lemma {:induction false} PartsOrdered(d: Duration)
    ensures var ps := Parts(d);
      forall i, j :: 0 <= i < j < |ps| ==> Rank(ps[i].unit) < Rank(ps[j].unit)
  {
  }

  /** A unit is present exactly when its count is positive, except that a zero
      duration shows seconds. */
  lemma {:induction false} PartsPresence(d: Duration, u: TimeUnit)
    ensures var ps := Parts(d);
      (exists i :: 0 <= i < |ps| && ps[i].unit == u) <==>
      (CountOf(d, u) > 0 || (u == Second && TotalSeconds(d) == 0))
  {
    var ps := Parts(d);
    var p1 := Piece(d, Day);
    var p2 := p1 + Piece(d, Hour);
    var p3 := p2 + Piece(d, Minute);
    if CountOf(d, u) > 0 || (u == Second && TotalSeconds(d) == 0) {
      var i := match u
        case Day => 0
        case Hour => |p1|
        case Minute => |p2|
        case Second => |p3|;
      assert ps[i].unit == u;
    } else {
      PartsCounts(d);
      forall i | 0 <= i < |ps| ensures ps[i].unit != u {
      }
    }
  }

  /** Together the parts stand for the whole duration. */
  lemma {:induction false} PartsTotal(d: Duration)
    ensures PartsSeconds(Parts(d)) == TotalSeconds(d)
  {
    var p1 := Piece(d, Day);
    var p2 := p1 + Piece(d, Hour);
    var p3 := p2 + Piece(d, Minute);
    var q4 := if d.seconds > 0 || p3 == [] then [Part(d.seconds, Second)] else [];
    PartsSecondsAppend(p1, Piece(d, Hour));
    PartsSecondsAppend(p2, Piece(d, Minute));
    PartsSecondsAppend(p3, q4);
  }

  /** Under one second the text is "0 seconds", never empty. */
  lemma {:induction false} UnderOneSecond(ms: int)
    requires 0 < ms < 1000
    ensures FormatTime(ms) == "0 seconds"
  {
    var zero := Part(0, Second);
    var d := Breakdown(ms);
    assert d == Duration(0, 0, 0, 0) by {
      DivModUnique(ms, 1000, 0, ms);
      BreakdownUnique(ms, Duration(0, 0, 0, 0));
    }
    assert Parts(d) == [zero] by { ZeroParts(); }
    var rs := RenderAll(Parts(d));
    assert rs == [Render(zero)];
    assert Join(rs, ", ") == Render(zero);
    FormatTimeUnfold(ms);
    ZeroSecondsText();
  }

  /** For a positive count the text is the rendered parts of its breakdown, comma-separated. */
  lemma {:induction false} FormatTimeUnfold(ms: int)
    requires ms > 0
    ensures FormatTime(ms) == Join(RenderAll(Parts(Breakdown(ms))), ", ")
  {
  }

  lemma {:induction false} ZeroParts()
    ensures Parts(Duration(0, 0, 0, 0)) == [Part(0, Second)]
  {
    var d := Duration(0, 0, 0, 0);
    assert Piece(d, Day) == [] && Piece(d, Hour) == [] && Piece(d, Minute) == [];
  }

  lemma {:induction false} ZeroSecondsText()
    ensures Render(Part(0, Second)) == "0 seconds"
  {
    assert NatToString(0) == "0";
  }

  /** A piece of rendered text ends in "s" exactly when its count is not 1. */
  lemma {:induction false} RenderPlural(p: Part)
    ensures var r := Render(p); r[|r| - 1] == 's' <==> p.count != 1
  {
  }

  // ---------------------------------------------------------------------------
  // Reading a formatted duration back
  // ---------------------------------------------------------------------------

  predicate IsLowerLetter(c: char) {
    'a' <= c <= 'z'
  }

  /** The unit named by the first lower-case word of a piece of text. */
  function UnitOfText(s: string): Option<TimeUnit> {
    if s == [] then None
    else if s[0] == 'd' then Some(Day)
    else if s[0] == 'h' then Some(Hour)
    else if s[0] == 'm' then Some(Minute)
    else if s[0] == 's' then Some(Second)
    else if IsLowerLetter(s[0]) then None
    else UnitOfText(s[1..])
  }

  /** One comma-separated piece read back: the number `parseInt` finds and the unit after it. */
  function ReadPart(piece: string): Option<Part> {
    match (ParseInt(piece), UnitOfText(piece))
    case (Some(n), Some(u)) => if n >= 0 then Some(Part(n, u)) else None
    case _ => None
  }

  function ReadParts(pieces: seq<string>): Option<seq<Part>> {
    if pieces == [] then Some([])
    else
      match (ReadPart(pieces[0]), ReadParts(pieces[1..]))
      case (Some(p), Some(ps)) => Some([p] + ps)
      case _ => None
  }

  /** The whole seconds a formatted duration stands for, read from its text. */
  function ReadSeconds(text: string): Option<nat> {
    match ReadParts(Split(text, ','))
    case Some(ps) => Some(PartsSeconds(ps))
    case None => None
  }

  /** Every piece after the first follows ", ", so it starts with a space. */
  function Spaced(xs: seq<string>): (r: seq<string>)
    ensures |r| == |xs| && forall i :: 0 <= i < |xs| ==> r[i] == " " + xs[i]
  {
    if xs == [] then [] else [" " + xs[0]] + Spaced(xs[1..])
  }

  lemma {:induction false} SplitJoin(pre: string, xs: seq<string>)
    requires |xs| >= 1 && ',' !in pre
    requires forall i :: 0 <= i < |xs| ==> ',' !in xs[i]
    ensures Split(pre + Join(xs, ", "), ',') == [pre + xs[0]] + Spaced(xs[1..])
    decreases |xs|
  {
    if |xs| > 1 {
      var head := pre + xs[0];
      var rest := " " + Join(xs[1..], ", ");
      var s := pre + Join(xs, ", ");
      assert s == head + [','] + rest;
      assert s[..|head|] == head;
      assert ',' !in s[..|head|];
      FirstIndexAt(s, ',', |head|);
      assert s[|head| + 1..] == rest;
      SplitJoin(" ", xs[1..]);
      assert Spaced(xs[1..]) == [" " + xs[1]] + Spaced(xs[2..]);
    } else {
      assert ',' !in pre + xs[0];
    }
  }

  lemma {:induction false} UnitOfTextSkip(a: string, b: string)
    requires forall i :: 0 <= i < |a| ==> !IsLowerLetter(a[i])
    ensures UnitOfText(a + b) == UnitOfText(b)
  {
    if a == [] {
      assert a + b == b;
    } else {
      assert (a + b)[1..] == a[1..] + b;
      UnitOfTextSkip(a[1..], b);
    }
  }

  /** The unit word of a rendered part, with its plural "s". */
  function Word(p: Part): string {
    UnitName(p.unit) + (if p.count == 1 then "" else "s")
  }

  lemma {:induction false} WordShape(p: Part)
    ensures |Word(p)| > 0 && ',' !in Word(p)
    ensures UnitOfText(Word(p)) == Some(p.unit)
  {
  }

  lemma {:induction false} RenderNumber(p: Part, lead: string)
    requires lead == "" || lead == " "
    ensures ParseInt(lead + Render(p)) == Some(p.count)
  {
    var digits := NatToString(p.count);
    var tail := " " + Word(p);
    assert Render(p) == digits + tail;
    ParseIntOfNatToString(p.count, tail);
    if lead == " " {
      assert lead + Render(p) == [' '] + (digits + tail);
      ParseIntSkipsWhitespace(' ', digits + tail);
    } else {
      assert lead + Render(p) == digits + tail;
    }
  }

  lemma {:induction false} RenderUnit(p: Part, lead: string)
    requires lead == "" || lead == " "
    ensures UnitOfText(lead + Render(p)) == Some(p.unit)
  {
    var skip := lead + NatToString(p.count) + " ";
    assert lead + Render(p) == skip + Word(p);
    UnitOfTextSkip(skip, Word(p));
    WordShape(p);
  }

  lemma {:induction false} RenderReadsBack(p: Part, lead: string)
    requires lead == "" || lead == " "
    ensures ',' !in Render(p)
    ensures ReadPart(lead + Render(p)) == Some(p)
  {
    RenderNoComma(p);
    RenderNumber(p, lead);
    RenderUnit(p, lead);
  }

  lemma {:induction false} RenderNoComma(p: Part)
    ensures ',' !in Render(p)
  {
    WordShape(p);
    var digits := NatToString(p.count);
    assert Render(p) == digits + " " + Word(p);
    assert ',' !in digits by {
      forall i | 0 <= i < |digits| ensures digits[i] != ',' {
        assert IsDigit(digits[i]);
      }
    }
  }

  lemma {:induction false} ReadPartsBack(ps: seq<Part>)
    ensures ReadParts(Spaced(RenderAll(ps))) == Some(ps)
  {
    if ps != [] {
      var pieces := Spaced(RenderAll(ps));
      SpacedRenderTail(ps);
      RenderReadsBack(ps[0], " ");
      ReadPartsBack(ps[1..]);
      ReadPartsCons(pieces, ps[0], ps[1..]);
      HeadTail(ps);
    }
  }

  /** Comma-joined rendered parts split at the commas read back as the same parts. */
  lemma {:induction false} JoinedPartsReadBack(ps: seq<Part>)
    requires ps != []
    ensures ReadParts(Split(Join(RenderAll(ps), ", "), ',')) == Some(ps)
  {
    var pieces := [Render(ps[0])] + Spaced(RenderAll(ps[1..]));
    assert Split(Join(RenderAll(ps), ", "), ',') == pieces by {
      JoinedPieces(ps);
    }
    RenderReadsBack(ps[0], "");
    assert "" + Render(ps[0]) == Render(ps[0]);
    ReadPartsBack(ps[1..]);
    ConsParts(Render(ps[0]), Spaced(RenderAll(ps[1..])));
    ReadPartsCons(pieces, ps[0], ps[1..]);
    HeadTail(ps);
  }

  /** The pieces are read one after the other. */
  lemma ReadPartsCons(pieces: seq<string>, p: Part, ps: seq<Part>)
    requires pieces != [] && ReadPart(pieces[0]) == Some(p) && ReadParts(pieces[1..]) == Some(ps)
    ensures ReadParts(pieces) == Some([p] + ps)
  {
  }

  /** The spaced renderings of parts are the first one's, then the others'. */
  lemma {:induction false} SpacedRenderTail(ps: seq<Part>)
    requires ps != []
    ensures Spaced(RenderAll(ps))[0] == " " + Render(ps[0])
    ensures Spaced(RenderAll(ps))[1..] == Spaced(RenderAll(ps[1..]))
  {
    ConsParts(Render(ps[0]), RenderAll(ps[1..]));
    ConsParts(" " + Render(ps[0]), Spaced(RenderAll(ps[1..])));
  }

  /** Splitting the comma-joined text gives the first rendered part, then the others
      each after its space. */
  lemma {:induction false} JoinedPieces(ps: seq<Part>)
    requires ps != []
    ensures Split(Join(RenderAll(ps), ", "), ',') == [Render(ps[0])] + Spaced(RenderAll(ps[1..]))
  {
    var xs := RenderAll(ps);
    forall i | 0 <= i < |xs| ensures ',' !in xs[i] {
      RenderReadsBack(ps[i], "");
    }
    SplitJoin("", xs);
    assert "" + Join(xs, ", ") == Join(xs, ", ");
    assert "" + xs[0] == xs[0];
    assert xs[1..] == RenderAll(ps[1..]);
  }

  /** The text `formatTime` produces for a positive duration reads back as its
      number of whole seconds: no unit is lost, doubled or misnamed. */
  lemma {:induction false} FormatTimeReadsBack(ms: int)
    requires ms > 0
    ensures ReadSeconds(FormatTime(ms)) == Some(ms / 1000)
  {
    var d := Breakdown(ms);
    PartsCounts(d);
    FormatTimeUnfold(ms);
    JoinedPartsReadBack(Parts(d));
    PartsTotal(d);
  }
}
