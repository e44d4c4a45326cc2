/** The computations of the control panel: channel-type labels, the import summary,
    the import validators, the interval input's correction and warnings, and the
    status and log panes. Each page element the code writes is a field of a class. */
module UiLogic {
  import opened Wrappers
  import opened JsText
  import opened Types
  import opened Json
  import FormatTime

  // ---------------------------------------------------------------------------
  // formatChannelType
  // ---------------------------------------------------------------------------

  /** `word.charAt(0).toUpperCase() + word.slice(1)`. */
  function Capitalize(word: string): string {
    if word == [] then [] else [ToUpperChar(word[0])] + word[1..]
  }

  function CapitalizeAll(words: seq<string>): (r: seq<string>)
    ensures |r| == |words|
    ensures forall i :: 0 <= i < |words| ==> r[i] == Capitalize(words[i])
  {
    if words == [] then [] else [Capitalize(words[0])] + CapitalizeAll(words[1..])
  }

  /** `"GUILD_TEXT"` becomes `"Guild Text"`: lower-case, split on `_`, capitalise each word, join with spaces. */
  function FormatChannelType(channelType: string): string {
    Join(CapitalizeAll(Split(ToLower(channelType), '_')), " ")
  }

  /** The label character at position `i`, read off `channelType` directly: an
      underscore becomes a space, a character right after the start or an underscore
      is upper-cased, and every other one is lower-cased. */
  function LabelChar(channelType: string, i: nat): char
    requires i < |channelType|
  {
    if channelType[i] == '_' then ' '
    else if i == 0 || channelType[i - 1] == '_' then ToUpperChar(ToLowerChar(channelType[i]))
    else ToLowerChar(channelType[i])
  }

  /** The same rule on text that is already lower-case. */
  function TitleChar(s: string, i: nat): char
    requires i < |s|
  {
    if s[i] == '_' then ' ' else if i == 0 || s[i - 1] == '_' then ToUpperChar(s[i]) else s[i]
  }

  lemma {:induction false} TitleCase(s: string)
    ensures |Join(CapitalizeAll(Split(s, '_')), " ")| == |s|
    ensures forall i :: 0 <= i < |s| ==> Join(CapitalizeAll(Split(s, '_')), " ")[i] == TitleChar(s, i)
    decreases |s|
  {
    var r := Join(CapitalizeAll(Split(s, '_')), " ");
    if '_' !in s {
      assert r == Capitalize(s);
    } else {
      var k := FirstIndex(s, '_');
      var rest := s[k + 1..];
      TitleCase(rest);
      var w := Capitalize(s[..k]);
      var words := CapitalizeAll(Split(rest, '_'));
      var tail := Join(words, " ");
      assert CapitalizeAll(Split(s, '_')) == [w] + words;
      JoinCons(w, words, " ");
      assert r == w + " " + tail;
      forall i | 0 <= i < |s|
        ensures r[i] == TitleChar(s, i)
      {
        TitleAt(s, k, tail, i);
      }
    }
  }

  /** Position `i` of the first word, a space, then the title-cased rest. */
  lemma {:induction false} TitleAt(s: string, k: nat, tail: string, i: nat)
    requires k < |s| && s[k] == '_' && '_' !in s[..k] && i < |s|
    requires |tail| == |s| - k - 1
    requires forall j :: 0 <= j < |tail| ==> tail[j] == TitleChar(s[k + 1..], j)
    ensures (Capitalize(s[..k]) + " " + tail)[i] == TitleChar(s, i)
  {
    var w := Capitalize(s[..k]);
    assert |w| == k;
    if i < k {
      assert s[i] == s[..k][i];
      if i > 0 {
        assert s[i - 1] == s[..k][i - 1];
      }
    } else if i > k {
      assert (w + " " + tail)[i] == tail[i - k - 1];
      assert s[k + 1..][i - k - 1] == s[i];
      if i - k - 1 > 0 {
        assert s[k + 1..][i - k - 2] == s[i - 1];
      }
    }
  }

  /** The label has one character per character of the channel type, each as `LabelChar` says. */
  lemma {:induction false} FormatChannelTypeChars(channelType: string)
    ensures |FormatChannelType(channelType)| == |channelType|
    ensures forall i :: 0 <= i < |channelType| ==>
      FormatChannelType(channelType)[i] == LabelChar(channelType, i)
  {
    var s := ToLower(channelType);
    TitleCase(s);
    forall i | 0 <= i < |channelType|
      ensures TitleChar(s, i) == LabelChar(channelType, i)
    {
      assert s[i] == '_' <==> channelType[i] == '_';
      if i > 0 {
        assert s[i - 1] == '_' <==> channelType[i - 1] == '_';
      }
    }
  }

  /** A label holds no underscore, and lists one word per underscore-separated piece. */
  lemma {:induction false} FormatChannelTypeWords(channelType: string)
    ensures '_' !in FormatChannelType(channelType)
    ensures |Split(ToLower(channelType), '_')| == Occurrences(channelType, '_') + 1
  {
    FormatChannelTypeChars(channelType);
    var r := FormatChannelType(channelType);
    assert forall i :: 0 <= i < |r| ==> r[i] != '_';
    SplitCount(ToLower(channelType), '_');
    LowerKeepsUnderscores(channelType);
  }

  lemma {:induction false} LowerKeepsUnderscores(s: string)
    ensures Occurrences(ToLower(s), '_') == Occurrences(s, '_')
  {
    if s != [] {
      assert ToLower(s)[1..] == ToLower(s[1..]);
      LowerKeepsUnderscores(s[1..]);
    }
  }

  // ---------------------------------------------------------------------------
  // generateImportStatus: the counts and the estimate
  // ---------------------------------------------------------------------------

  /** The numeric part of the import summary; the HTML around it is not modelled. */
  datatype ImportStatus = ImportStatus(typeCounts: Counts, totalMessages: nat, etaString: string)

  /** The channel types a map uses. */
  function ChannelTypes(m: seq<Entry>): set<string> {
    set e | e in m :: e.channel.channelType
  }

  /** How many messages the channels of type `t` hold, summed over the map. */
  function TypeMessages(m: seq<Entry>, t: string): nat {
    if m == [] then 0
    else
      TypeMessages(m[..|m| - 1], t)
      + (if m[|m| - 1].channel.channelType == t then |m[|m| - 1].channel.messageIds| else 0)
  }

  /** One channel's worth of counting: the counts after channel `i` describe the first `i + 1` channels. */
  lemma {:induction false} ImportStep(m: seq<Entry>, i: nat, counts: Counts)
    requires i < |m|
    requires UniqueKeys(counts) && Keys(counts) == ChannelTypes(m[..i])
    requires forall t :: Get(counts, t) == TypeMessages(m[..i], t)
    ensures var c := m[i].channel;
      var next := Bump(counts, c.channelType, |c.messageIds|);
      && UniqueKeys(next) && Keys(next) == ChannelTypes(m[..i + 1])
      && (forall t :: Get(next, t) == TypeMessages(m[..i + 1], t))
      && Total(next) == Total(counts) + |c.messageIds|
      && |AllIds(m[..i + 1])| == |AllIds(m[..i])| + |c.messageIds|
  {
    var c := m[i].channel;
    var n := |c.messageIds|;
    assert m[..i + 1][..i] == m[..i];
    assert m[..i + 1] == m[..i] + [m[i]];
    AllIdsAppend(m[..i], [m[i]]);
    assert AllIds([m[i]]) == c.messageIds + AllIds([]);
    assert ChannelTypes(m[..i + 1]) == ChannelTypes(m[..i]) + {c.channelType};
    BumpTotal(counts, c.channelType, n);
    BumpKeys(counts, c.channelType, n);
    forall t ensures Get(Bump(counts, c.channelType, n), t) == TypeMessages(m[..i + 1], t) {
      BumpGet(counts, c.channelType, n, t);
    }
  }

  /** Counts every channel's messages, in total and per channel type, and estimates
      the run at one interval per message. */
  method GenerateImportStatus(channelMap: ChannelMap, intervalMs: int) returns (status: ImportStatus)
    ensures status.totalMessages == |AllIds(channelMap)|
    ensures UniqueKeys(status.typeCounts) && Keys(status.typeCounts) == ChannelTypes(channelMap)
    ensures forall t :: Get(status.typeCounts, t) == TypeMessages(channelMap, t)
    ensures Total(status.typeCounts) == status.totalMessages
    ensures status.etaString == FormatTime.FormatTime(status.totalMessages * intervalMs)
  {
    var counts: Counts := [];
    var total: nat := 0;
    var i := 0;
    while i < |channelMap|
      invariant i <= |channelMap|
      invariant total == |AllIds(channelMap[..i])|
      invariant UniqueKeys(counts) && Keys(counts) == ChannelTypes(channelMap[..i])
      invariant forall t :: Get(counts, t) == TypeMessages(channelMap[..i], t)
      invariant Total(counts) == total
    {
      var channel := channelMap[i].channel;
      var messageCount := |channel.messageIds|;
      ImportStep(channelMap, i, counts);
      total := total + messageCount;
      counts := Bump(counts, channel.channelType, messageCount);
      i := i + 1;
    }
    assert channelMap[..i] == channelMap;
    status := ImportStatus(counts, total, FormatTime.FormatTime(total * intervalMs));
  }

  // ---------------------------------------------------------------------------
  // isChannel / isValidChannelMap
  // ---------------------------------------------------------------------------

  predicate IsString(v: Option<Json>) {
    v.Some? && v.value.JString?
  }

  predicate AllStrings(items: seq<Json>) {
    forall i :: 0 <= i < |items| ==> items[i].JString?
  }

  /** `isChannel`: an object (arrays pass `typeof`, then fail on `messageIds`) whose
      `messageIds` is an array of strings, whose `displayName` and `channelType` are
      strings, and whose `serverName`, when it is an own member, is a string or null. */
  predicate IsChannel(obj: Json) {
    if !(obj.JObject? || obj.JArray?) then false
    else if !(match Property(obj, "messageIds") case Some(JArray(items)) => AllStrings(items) case _ => false) then false
    else if !IsString(Property(obj, "displayName")) then false
    else if obj.JObject? && "serverName" in FieldKeys(obj.fields)
      && !(IsString(Property(obj, "serverName")) || Property(obj, "serverName") == Some(JNull)) then false
    else if !IsString(Property(obj, "channelType")) then false
    else true
  }

  /** The value a validated channel stands for. */
  function DecodeIds(items: seq<Json>): (r: Option<seq<string>>)
    ensures r.Some? ==> |r.value| == |items|
  {
    if items == [] then Some([])
    else match (items[0], DecodeIds(items[1..]))
      case (JString(s), Some(rest)) => Some([s] + rest)
      case _ => None
  }

  function DecodeServerName(v: Option<Json>): Option<ServerName> {
    match v
    case None => Some(Absent)
    case Some(JNull) => Some(Null)
    case Some(JString(s)) => Some(Named(s))
    case _ => None
  }

  function DecodeChannel(obj: Json): Option<Channel> {
    match obj
    case JObject(fields) =>
      (match (Lookup(fields, "messageIds"), Lookup(fields, "displayName"), Lookup(fields, "channelType"))
       case (Some(JArray(items)), Some(JString(name)), Some(JString(kind))) =>
         var ids := DecodeIds(items);
         var server := DecodeServerName(Lookup(fields, "serverName"));
         if ids.Some? && server.Some? then Some(Channel(ids.value, name, server.value, kind)) else None
       case _ => None)
    case _ => None
  }

  /** Message ids as a JSON array's items. */
  function StringItems(ids: seq<string>): (items: seq<Json>)
    ensures |items| == |ids|
  {
    if ids == [] then [] else [JString(ids[0])] + StringItems(ids[1..])
  }

  /** A channel as the exporter writes it. */
  function EncodeChannel(c: Channel): Json {
    JObject(
      [("messageIds", JArray(StringItems(c.messageIds)))]
      + [("displayName", JString(c.displayName))]
      + [("channelType", JString(c.channelType))]
      + (match c.serverName
         case Absent => []
         case Null => [("serverName", JNull)]
         case Named(s) => [("serverName", JString(s))]))
  }

  lemma {:induction false} DecodeIdsSome(items: seq<Json>)
    ensures DecodeIds(items).Some? <==> AllStrings(items)
  {
    if items != [] {
      DecodeIdsSome(items[1..]);
      assert AllStrings(items) <==> items[0].JString? && AllStrings(items[1..]);
    }
  }

  lemma {:induction false} DecodeIdsOfStrings(ids: seq<string>)
    ensures DecodeIds(StringItems(ids)) == Some(ids)
  {
    if ids != [] {
      assert StringItems(ids)[1..] == StringItems(ids[1..]);
      DecodeIdsOfStrings(ids[1..]);
      assert [ids[0]] + ids[1..] == ids;
    }
  }

  /** `isChannel` accepts exactly the values that decode to a channel. */
  lemma {:induction false} IsChannelDecodes(obj: Json)
    ensures IsChannel(obj) <==> DecodeChannel(obj).Some?
  {
    if obj.JObject? {
      var fields := obj.fields;
      if "serverName" in FieldKeys(fields) {
        LookupPresent(fields, "serverName");
      } else {
        LookupAbsent(fields, "serverName");
      }
      match Lookup(fields, "messageIds")
      case Some(JArray(items)) => DecodeIdsSome(items);
      case _ =>
    }
  }

  /** An exported channel passes `isChannel` and decodes back to itself. */
  lemma {:induction false} DecodeEncodeChannel(c: Channel)
    ensures IsChannel(EncodeChannel(c))
    ensures DecodeChannel(EncodeChannel(c)) == Some(c)
  {
    EncodedLookups(c);
    DecodeIdsOfStrings(c.messageIds);
    IsChannelDecodes(EncodeChannel(c));
  }

  /** What each member name finds in an exported channel. */
  lemma {:induction false} EncodedLookups(c: Channel)
    ensures Lookup(EncodeChannel(c).fields, "messageIds") == Some(JArray(StringItems(c.messageIds)))
    ensures Lookup(EncodeChannel(c).fields, "displayName") == Some(JString(c.displayName))
    ensures Lookup(EncodeChannel(c).fields, "channelType") == Some(JString(c.channelType))
    ensures DecodeServerName(Lookup(EncodeChannel(c).fields, "serverName")) == Some(c.serverName)
  {
    var fields := EncodeChannel(c).fields;
    assert fields[0].0 == "messageIds" && fields[1].0 == "displayName" && fields[2].0 == "channelType";
    assert UniqueMembers(fields);
    LookupFound(fields, 0);
    LookupFound(fields, 1);
    LookupFound(fields, 2);
    if c.serverName.Absent? {
      assert FieldKeys(fields) == {"messageIds", "displayName", "channelType"};
      LookupAbsent(fields, "serverName");
    } else {
      LookupFound(fields, 3);
    }
  }

  /** The member named `key` is present and is a channel. */
  predicate ChannelUnder(fields: seq<(string, Json)>, key: string) {
    match Lookup(fields, key)
    case Some(v) => IsChannel(v)
    case None => false
  }

  /** `isValidChannelMap`: a non-null, non-array object whose every own member is a channel. */
  predicate IsValidChannelMap(data: Json) {
    match data
    case JObject(fields) => forall i :: 0 <= i < |fields| ==> ChannelUnder(fields, fields[i].0)
    case _ => false
  }

  /** The entries a parsed object stands for, member by member in text order. */
  function DecodeEntries(fields: seq<(string, Json)>): Option<seq<Entry>> {
    if fields == [] then Some([])
    else match (DecodeChannel(fields[0].1), DecodeEntries(fields[1..]))
      case (Some(c), Some(rest)) => Some([Entry(fields[0].0, c)] + rest)
      case _ => None
  }

  /** A channel map as the exporter writes it. */
  function EncodeChannelMap(m: seq<Entry>): (j: Json)
    ensures j.JObject? && |j.fields| == |m|
    ensures forall i :: 0 <= i < |m| ==> j.fields[i] == (m[i].id, EncodeChannel(m[i].channel))
  {
    JObject(seq(|m|, i requires 0 <= i < |m| => (m[i].id, EncodeChannel(m[i].channel))))
  }

  lemma {:induction false} DecodeEntriesSome(fields: seq<(string, Json)>)
    ensures DecodeEntries(fields).Some? <==> forall i :: 0 <= i < |fields| ==> IsChannel(fields[i].1)
    ensures DecodeEntries(fields).Some? ==>
      |DecodeEntries(fields).value| == |fields|
      && forall i :: 0 <= i < |fields| ==> DecodeEntries(fields).value[i].id == fields[i].0
  {
    if fields != [] {
      DecodeEntriesSome(fields[1..]);
      IsChannelDecodes(fields[0].1);
      if forall i :: 0 <= i < |fields| ==> IsChannel(fields[i].1) {
        assert forall i :: 0 <= i < |fields[1..]| ==> IsChannel(fields[1..][i].1) by {
          forall i | 0 <= i < |fields[1..]| ensures IsChannel(fields[1..][i].1) {
            assert fields[1..][i] == fields[i + 1];
          }
        }
      }
      if DecodeEntries(fields).Some? {
        forall i | 0 <= i < |fields| ensures IsChannel(fields[i].1) {
          if i > 0 {
            assert fields[i] == fields[1..][i - 1];
          }
        }
      }
    }
  }

  /** With no repeated member names, `isValidChannelMap` accepts an object exactly
      when every member decodes to a channel, and the decoded map keeps the member
      names as its channel ids. */
  lemma {:induction false} ValidChannelMapDecodes(fields: seq<(string, Json)>)
    requires UniqueMembers(fields)
    ensures IsValidChannelMap(JObject(fields)) <==> DecodeEntries(fields).Some?
    ensures DecodeEntries(fields).Some? ==> UniqueIds(DecodeEntries(fields).value)
  {
    DecodeEntriesSome(fields);
    forall i | 0 <= i < |fields|
      ensures ChannelUnder(fields, fields[i].0) <==> IsChannel(fields[i].1)
    {
      LookupFound(fields, i);
    }
    if DecodeEntries(fields).Some? {
      UniqueIdsPairwise(DecodeEntries(fields).value);
    }
  }

  /** An exported map passes `isValidChannelMap` and decodes back to itself. */
  lemma {:induction false} DecodeEncodeChannelMap(m: ChannelMap)
    ensures IsValidChannelMap(EncodeChannelMap(m))
    ensures DecodeEntries(EncodeChannelMap(m).fields) == Some(m)
  {
    var fields := EncodeChannelMap(m).fields;
    forall i | 0 <= i < |m| ensures IsChannel(fields[i].1) {
      DecodeEncodeChannel(m[i].channel);
    }
    assert UniqueMembers(fields) by { UniqueIdsPairwise(m); }
    ValidChannelMapDecodes(fields);
    EntriesRoundTrip(m);
  }

  lemma {:induction false} EntriesRoundTrip(m: seq<Entry>)
    ensures DecodeEntries(EncodeChannelMap(m).fields) == Some(m)
  {
    if m != [] {
      var fields := EncodeChannelMap(m).fields;
      assert fields[1..] == EncodeChannelMap(m[1..]).fields;
      EntriesRoundTrip(m[1..]);
      DecodeEncodeChannel(m[0].channel);
      assert [m[0]] + m[1..] == m;
    }
  }

  /** Anything but an object (`null`, an array, a string, a number, a boolean) is rejected;
      `{}` is a valid, empty map. */
  lemma {:induction false} ValidChannelMapShapes(data: Json)
    ensures !data.JObject? ==> !IsValidChannelMap(data)
    ensures IsValidChannelMap(JObject([]))
  {
  }

  // ---------------------------------------------------------------------------
  // The interval input: validateAndCorrectInterval / updateIntervalWarnings
  // ---------------------------------------------------------------------------

  const DefaultInterval: int := 1500
  const MinInterval: int := 750
  const MaxInterval: int := 600000
  const LongWait: int := 30000

  const InvalidNumberText: string := "Please enter a valid number."
  const RiskText: string := "Warning: Intervals below 1500ms may risk your account."
  const LongWaitText: string := "Warning: Intervals above 30 seconds will take a long time."

  /** The interval the input holds once corrected, given what `parseInt` read from it. */
  function CorrectedInterval(parsed: Option<int>): (r: int)
    ensures MinInterval <= r <= MaxInterval
    ensures parsed.None? ==> r == DefaultInterval
    ensures parsed.Some? && MinInterval <= parsed.value <= MaxInterval ==> r == parsed.value
    ensures parsed.Some? && parsed.value < MinInterval ==> r == MinInterval
    ensures parsed.Some? && parsed.value > MaxInterval ==> r == MaxInterval
  {
    var value := parsed.GetOr(DefaultInterval);
    if value < MinInterval then MinInterval else if value > MaxInterval then MaxInterval else value
  }

  /** The text `validateAndCorrectInterval` leaves in the input: NaN becomes "1500",
      then a value below 750 becomes "750" and one above 600000 becomes "600000";
      any other text is left exactly as typed. */
  function CorrectedText(text: string): string {
    var parsed := ParseInt(text);
    var value := parsed.GetOr(DefaultInterval);
    if value < MinInterval then "750"
    else if value > MaxInterval then "600000"
    else if parsed.None? then "1500"
    else text
  }

  /** The corrected text reads back as the corrected interval. */
  lemma {:induction false} CorrectedTextParses(text: string)
    ensures ParseInt(CorrectedText(text)) == Some(CorrectedInterval(ParseInt(text)))
  {
    ParsesMinimum();
    ParsesDefault();
    ParsesMaximum();
  }

  // The three texts the correction writes read back as their numbers.

  lemma {:induction false} ParsesMinimum()
    ensures ParseInt("750") == Some(750)
  {
    ParseIntOfRendered(750, "750");
  }

  lemma {:induction false} ParsesDefault()
    ensures ParseInt("1500") == Some(1500)
  {
    ParseIntOfRendered(1500, "1500");
  }

  lemma {:induction false} ParsesMaximum()
    ensures ParseInt("600000") == Some(600000)
  {
    ParseIntOfRendered(600000, "600000");
  }


  lemma {:induction false} CorrectedTextCases(text: string, parsed: Option<int>, v: int)
    requires parsed == ParseInt(text) && v == parsed.GetOr(DefaultInterval)
    ensures v < MinInterval ==> CorrectedText(text) == "750"
    ensures MinInterval <= v && v > MaxInterval ==> CorrectedText(text) == "600000"
    ensures MinInterval <= v <= MaxInterval && parsed.None? ==> CorrectedText(text) == "1500"
    ensures MinInterval <= v <= MaxInterval && parsed.Some? ==> CorrectedText(text) == text
  {
  }

  /** Correcting twice changes nothing more. */
  lemma {:induction false} CorrectionIdempotent(text: string)
    ensures CorrectedText(CorrectedText(text)) == CorrectedText(text)
  {
    CorrectedTextParses(text);
  }

  /** A value below the minimum is raised to "750". */
  lemma {:induction false} CorrectionRaisesSmall()
    ensures CorrectedText("200") == "750"
  {
    assert NatToString(200) == "200";
    ParseIntOfNatToString(200, []);
    assert "200" + [] == "200";
  }

  /** A value above the maximum is lowered to "600000". */
  lemma {:induction false} CorrectionLowersLarge()
    ensures CorrectedText("10000000") == "600000"
  {
    var n := NatToString(10000000);
    assert n == NatToString(1000000) + "0";
    assert NatToString(1000000) == "1000000";
    ParseIntOfNatToString(10000000, []);
    assert n + [] == "10000000";
  }

  /** Text that is not a number becomes "1500". */
  lemma {:induction false} CorrectionDefaultsNaN()
    ensures CorrectedText("fast") == "1500"
  {
    ParseIntWithoutDigits("fast");
  }

  /** The warning element: its text and whether it is displayed. */
  datatype WarningDisplay = WarningDisplay(text: string, shown: bool)

  /** The warnings a parsed value earns, in the order they are pushed. */
  function Warnings(value: int): seq<string> {
    (if value < DefaultInterval && value >= MinInterval then [RiskText] else [])
    + (if value > LongWait then [LongWaitText] else [])
  }

  /** What `updateIntervalWarnings` puts in the warning element. */
  function IntervalWarning(parsed: Option<int>): (w: WarningDisplay)
    ensures parsed.None? ==> w == WarningDisplay(InvalidNumberText, true)
    ensures parsed.Some? ==> (w.text == RiskText <==> MinInterval <= parsed.value < DefaultInterval)
    ensures parsed.Some? ==> (w.text == LongWaitText <==> parsed.value > LongWait)
    ensures parsed.Some? ==> w.text != InvalidNumberText
    ensures w.shown <==> w.text != ""
    ensures parsed.Some? && (parsed.value < MinInterval || DefaultInterval <= parsed.value <= LongWait)
      ==> w == WarningDisplay("", false)
  {
    match parsed
    case None => WarningDisplay(InvalidNumberText, true)
    case Some(value) =>
      var warnings := Warnings(value);
      if |warnings| > 0 then WarningDisplay(Join(warnings, " "), true) else WarningDisplay("", false)
  }

  /** The interval input and its warning element. */
  class IntervalField {
    var value: string
    var warning: WarningDisplay

    constructor(value: string)
      ensures this.value == value && warning == WarningDisplay("", false)
    {
      this.value := value;
      warning := WarningDisplay("", false);
    }

    /** `updateIntervalWarnings`: the warning follows from the current text alone. */
    method UpdateIntervalWarnings()
      modifies this`warning
      ensures warning == IntervalWarning(ParseInt(value))
    {
      var parsed := ParseInt(value);
      match parsed
      case None =>
        warning := WarningDisplay(InvalidNumberText, true);
      case Some(v) =>
        var warnings := Warnings(v);
        if |warnings| > 0 {
          warning := WarningDisplay(Join(warnings, " "), true);
        } else {
          warning := WarningDisplay("", false);
        }
    }

    /** `validateAndCorrectInterval`: the text is corrected into range, then the warning refreshed. */
    method ValidateAndCorrectInterval()
      modifies this
      ensures value == CorrectedText(old(value))
      ensures ParseInt(value) == Some(CorrectedInterval(ParseInt(old(value))))
      ensures warning == IntervalWarning(ParseInt(value)) && warning.text != InvalidNumberText
    {
      CorrectedTextParses(value);
      CorrectValue();
      UpdateIntervalWarnings();
    }

    /** The correction itself: NaN is replaced by "1500", then a value out of range by
        the nearer bound. */
    method CorrectValue()
      modifies this`value
      ensures value == CorrectedText(old(value))
    {
      ghost var typed := value;
      var parsed := ParseInt(value);
      var v: int;
      if parsed.None? {
        value := "1500";
        v := 1500;
      } else {
        v := parsed.value;
      }
      if v < MinInterval {
        value := "750";
      } else if v > MaxInterval {
        value := "600000";
      }
      CorrectedTextCases(typed, parsed, v);
    }
  }

  // ---------------------------------------------------------------------------
  // updateStatus / addLogEntry
  // ---------------------------------------------------------------------------

  /** `Math.max(0, Math.min(100, progress))`. */
  function ClampProgress(progress: int): (r: nat)
    ensures r <= 100
    ensures 0 <= progress <= 100 ==> r == progress
    ensures progress < 0 ==> r == 0
    ensures progress > 100 ==> r == 100
  {
    if progress < 0 then 0 else if progress > 100 then 100 else progress
  }

  /** The bar width `updateStatus` writes, `String(clamped) + '%'`. */
  function ProgressWidth(progress: int): string {
    NatToString(ClampProgress(progress)) + "%"
  }

  /** The width read back as a number is the clamped progress. */
  lemma {:induction false} ProgressWidthReadsBack(progress: int)
    ensures ParseInt(ProgressWidth(progress)) == Some(ClampProgress(progress))
    ensures ProgressWidth(progress)[|ProgressWidth(progress)| - 1] == '%'
  {
    ParseIntOfNatToString(ClampProgress(progress), "%");
  }

  datatype LogLevel = Info | Warn | Error | Debug

  function LevelName(level: LogLevel): string {
    match level
    case Info => "INFO"
    case Warn => "WARN"
    case Error => "ERROR"
    case Debug => "DEBUG"
  }

  /** The `details` argument: none, a string (empty is falsy and adds nothing), or an
      object, given as the text `JSON.stringify` makes of it. */
  datatype Details = NoDetails | TextDetails(text: string) | ObjectDetails(json: string)

  function DetailsSuffix(details: Details): string {
    match details
    case NoDetails => ""
    case TextDetails(text) => if text == "" then "" else ": " + text
    case ObjectDetails(json) => ": " + json
  }

  /** One log line: `[LEVEL] message`, then `: details` when there are details, then a newline. */
  function LogLine(level: LogLevel, message: string, details: Details): string {
    "[" + LevelName(level) + "] " + message + DetailsSuffix(details) + "\n"
  }

  /** The level a tag names. */
  function LevelNamed(tag: string): Option<LogLevel> {
    if tag == "INFO" then Some(Info)
    else if tag == "WARN" then Some(Warn)
    else if tag == "ERROR" then Some(Error)
    else if tag == "DEBUG" then Some(Debug)
    else None
  }

  /** The level a log line starts with: the text between its leading `[` and the first `]`. */
  function LevelOfLine(line: string): Option<LogLevel> {
    if line == [] || line[0] != '[' || ']' !in line[1..] then None
    else LevelNamed(line[1..1 + FirstIndex(line[1..], ']')])
  }

  lemma {:induction false} LevelNamedRoundTrip(level: LogLevel)
    ensures LevelNamed(LevelName(level)) == Some(level)
  {
  }

  /** The tag of a line `[` + name + `]...` is the name, when the name holds no `]`. */
  lemma {:induction false} TagOfLine(name: string, rest: string)
    requires ']' !in name && rest != [] && rest[0] == ']'
    ensures LevelOfLine("[" + name + rest) == LevelNamed(name)
  {
    var line := "[" + name + rest;
    assert line[1..] == name + rest;
    assert (name + rest)[|name|] == ']';
    assert (name + rest)[..|name|] == name;
    FirstIndexAt(line[1..], ']', |name|);
    assert line[1..1 + |name|] == name;
  }

  /** A log line names its level. */
  lemma {:induction false} LogLineReadsBack(level: LogLevel, message: string, details: Details)
    ensures LevelOfLine(LogLine(level, message, details)) == Some(level)
  {
    var name := LevelName(level);
    var rest := "] " + message + DetailsSuffix(details) + "\n";
    assert LogLine(level, message, details) == "[" + name + rest;
    assert ']' !in name;
    TagOfLine(name, rest);
    LevelNamedRoundTrip(level);
  }

  /** The message follows the level tag, and the line ends with a newline. */
  lemma {:induction false} LogLineShape(level: LogLevel, message: string, details: Details)
    ensures var line := LogLine(level, message, details);
      "[" + LevelName(level) + "] " + message <= line && line[|line| - 1] == '\n'
  {
    var head := "[" + LevelName(level) + "] " + message;
    assert LogLine(level, message, details) == head + (DetailsSuffix(details) + "\n");
  }

  /** A truthy `details` shows up at the end of the line; a missing or empty one adds nothing. */
  lemma {:induction false} LogLineDetails(level: LogLevel, message: string, details: Details)
    ensures var line := LogLine(level, message, details);
      var head := "[" + LevelName(level) + "] " + message;
      match details
      case TextDetails(text) =>
        if text == "" then line == head + "\n" else line == head + ": " + text + "\n"
      case ObjectDetails(json) => line == head + ": " + json + "\n"
      case NoDetails => line == head + "\n"
  {
  }

  /** The status area, the progress bar, the estimate line and the log pane. */
  class StatusPanel {
    var statusHtml: string
    var progressShown: bool
    var progressWidth: string
    var etaText: string
    var etaShown: bool
    var logText: string
    var logShown: bool

    constructor()
      ensures statusHtml == "" && !progressShown && progressWidth == ""
      ensures etaText == "" && !etaShown && logText == "" && !logShown
    {
      statusHtml := "";
      progressShown := false;
      progressWidth := "";
      etaText := "";
      etaShown := false;
      logText := "";
      logShown := false;
    }

    /** `updateStatus`: the message replaces the status, a given progress sets the bar
        to its clamped width (an omitted one keeps the width), and a non-empty estimate
        replaces the estimate line. */
    method UpdateStatus(message: string, progress: Option<int>, eta: string)
      modifies this
      ensures statusHtml == message && progressShown
      ensures progressWidth == match progress
        case Some(p) => ProgressWidth(p)
        case None => old(progressWidth)
      ensures eta != "" ==> etaText == "Current ETA: " + eta && etaShown
      ensures eta == "" ==> etaText == old(etaText) && etaShown == old(etaShown)
      ensures logText == old(logText) && logShown == old(logShown)
    {
      statusHtml := message;
      progressShown := true;
      var currentWidth := progressWidth;
      progressWidth := if progress.Some? then NatToString(ClampProgress(progress.value)) + "%" else currentWidth;
      if eta != "" {
        etaText := "Current ETA: " + eta;
        etaShown := true;
      }
    }

    /** `addLogEntry`: one line is appended to the log, which is then displayed. */
    method AddLogEntry(message: string, level: LogLevel, details: Details)
      modifies this`logText, this`logShown
      ensures logText == old(logText) + LogLine(level, message, details) && logShown
    {
      var line := "[" + LevelName(level) + "] " + message + DetailsSuffix(details) + "\n";
      logText := logText + line;
      logShown := true;
    }
  }
}
