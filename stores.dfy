/** The persisted settings (`AppSettingsStore`) and the deletion engine (`DeletionStore`).
    The userscript storage is a map from key to value; the Discord REST call, the
    permission check and the user's stop button are parameters of the engine. */
module Stores {
  import opened Wrappers
  import opened JsText
  import opened Types

  // ---------------------------------------------------------------------------
  // Persisted values
  // ---------------------------------------------------------------------------

  /** The six storage keys the panel uses. */
  datatype Key =
    | MinimizedStateKey
    | JsonContentKey
    | IntervalKey
    | InputMethodKey
    | DeletionProgressKey
    | DeletionStatsKey

  /** The name each key is stored under. */
  function KeyName(key: Key): string {
    match key
    case MinimizedStateKey => "discorchDeleterMinimized"
    case JsonContentKey => "discorchDeleterJsonContent"
    case IntervalKey => "discorchDeleterInterval"
    case InputMethodKey => "discorchDeleterInputMethod"
    case DeletionProgressKey => "discorchDeleterDeletionProgress"
    case DeletionStatsKey => "discorchDeleterDeletionStats"
  }

  /** `{ totalDeleted, deletedByChannelType }`. */
  datatype DeletionStats = DeletionStats(totalDeleted: int, deletedByChannelType: Counts)

  const NoStats: DeletionStats := DeletionStats(0, [])

  /** The parts of the stored settings a deletion run changes, read at one moment:
      the deleted list, the statistics, the whole store, and whether every stored
      value has its key's kind. */
  datatype Snapshot = Snapshot(deleted: seq<string>, stats: DeletionStats, store: map<Key, Value>, valid: bool)

  /** A stored value. `Exported(m)` stands for the text `JSON.stringify(m)`, which is
      never empty; `DeletedRecord(ids)` is the object `{ messageIds: ids }`. */
  datatype Value =
    | Flag(b: bool)
    | Text(s: string)
    | Exported(channels: seq<Entry>)
    | StatsRecord(stats: DeletionStats)
    | DeletedRecord(messageIds: seq<string>)

  /** JavaScript truthiness of a stored value: `false` and `""` are falsy, objects and non-empty text are not. */
  predicate Truthy(v: Value) {
    match v
    case Flag(b) => b
    case Text(s) => s != ""
    case _ => true
  }

  /** The kind of value the setters write under each key. */
  predicate WellTyped(key: Key, v: Value) {
    match key
    case MinimizedStateKey => v.Flag?
    case JsonContentKey => v.Text? || v.Exported?
    case IntervalKey => v.Text?
    case InputMethodKey => v.Text?
    case DeletionProgressKey => v.DeletedRecord?
    case DeletionStatsKey => v.StatsRecord?
  }

  // ---------------------------------------------------------------------------
  // The "already deleted" list and the statistics, as values
  // ---------------------------------------------------------------------------

  /** No id occurs twice: none repeats an id before it. */
  predicate NoDuplicates(ids: seq<string>) {
    forall j :: 0 <= j < |ids| ==> ids[j] !in ids[..j]
  }

  /** The list after `markMessageAsDeleted(id)`: `id` is pushed unless it is already there. */
  function WithMarked(ids: seq<string>, id: string): (r: seq<string>)
    ensures id in r && ids <= r
    ensures forall x :: x != id ==> (x in r <==> x in ids)
    ensures id in ids ==> r == ids
  {
    if id in ids then ids else ids + [id]
  }

  lemma {:induction false} CountInNoDuplicates(ids: seq<string>, x: string)
    requires NoDuplicates(ids)
    ensures multiset(ids)[x] == if x in ids then 1 else 0
  {
    if ids != [] {
      var last := ids[|ids| - 1];
      var front := ids[..|ids| - 1];
      assert ids == front + [last];
      assert NoDuplicates(front) by {
        forall j | 0 <= j < |front| ensures front[j] !in front[..j] {
          assert front[..j] == ids[..j];
        }
      }
      CountInNoDuplicates(front, x);
      assert last !in front;
    }
  }

  /** Marking twice is marking once; a duplicate-free list stays duplicate-free and
      then holds the marked id exactly once. */
  lemma {:induction false} MarkedOnce(ids: seq<string>, id: string)
    requires NoDuplicates(ids)
    ensures WithMarked(WithMarked(ids, id), id) == WithMarked(ids, id)
    ensures NoDuplicates(WithMarked(ids, id))
    ensures multiset(WithMarked(ids, id))[id] == 1
  {
    var r := WithMarked(ids, id);
    assert NoDuplicates(r) by {
      if id !in ids {
        forall j | 0 <= j < |r| ensures r[j] !in r[..j] {
          if j < |ids| {
            assert r[..j] == ids[..j];
          } else {
            assert r[..j] == ids;
          }
        }
      }
    }
    CountInNoDuplicates(r, id);
  }

  /** The statistics are consistent when the total is the sum of the per-type counts. */
  predicate Consistent(stats: DeletionStats) {
    UniqueKeys(stats.deletedByChannelType) && stats.totalDeleted == Total(stats.deletedByChannelType)
  }

  /** The statistics after one more deleted message of type `channelType`. */
  function BumpStats(stats: DeletionStats, channelType: string): (r: DeletionStats)
    ensures r.totalDeleted == stats.totalDeleted + 1
    ensures Consistent(stats) ==> Consistent(r)
  {
    BumpTotal(stats.deletedByChannelType, channelType, 1);
    BumpKeys(stats.deletedByChannelType, channelType, 1);
    DeletionStats(stats.totalDeleted + 1, Bump(stats.deletedByChannelType, channelType, 1))
  }

  /** One more under `channelType`, counting from 0 when it is new; every other type unchanged. */
  lemma {:induction false} BumpStatsByType(stats: DeletionStats, channelType: string, t: string)
    ensures Get(BumpStats(stats, channelType).deletedByChannelType, t)
      == Get(stats.deletedByChannelType, t) + (if t == channelType then 1 else 0)
  {
    BumpGet(stats.deletedByChannelType, channelType, 1, t);
  }

  // ---------------------------------------------------------------------------
  // AppSettingsStore
  // ---------------------------------------------------------------------------

  class AppSettingsStore {
    /** The userscript storage: `GM_getValue` / `GM_setValue` / `GM_deleteValue`. */
    var store: map<Key, Value>

    constructor()
      ensures store == map[]
    {
      store := map[];
    }

    /** Every stored value is of the kind its setter writes. */
    ghost predicate Valid()
      reads this
    {
      forall key :: key in store ==> WellTyped(key, store[key])
    }

    /** `GM_getValue(key, default) || default`: a missing or falsy value reads as the default. */
    function GetValue(key: Key, default: Value): Value
      reads this
    {
      if key in store && Truthy(store[key]) then store[key] else default
    }

    function IsMinimized(): bool
      reads this
    {
      Truthy(GetValue(MinimizedStateKey, Flag(false)))
    }

    function GetJsonContent(): Value
      reads this
    {
      GetValue(JsonContentKey, Text(""))
    }

    /** `parseInt` of the stored interval text; a value that is not text reads as NaN. */
    function GetInterval(): Option<int>
      reads this
    {
      match GetValue(IntervalKey, Text("1500"))
      case Text(s) => ParseInt(s)
      case _ => None
    }

    function GetInputMethod(): Value
      reads this
    {
      GetValue(InputMethodKey, Text("file"))
    }

    function GetDeletionStats(): DeletionStats
      reads this
    {
      match GetValue(DeletionStatsKey, StatsRecord(NoStats))
      case StatsRecord(stats) => stats
      case _ => NoStats
    }

    function GetDeletedMessages(): seq<string>
      reads this
    {
      match GetValue(DeletionProgressKey, DeletedRecord([]))
      case DeletedRecord(ids) => ids
      case _ => []
    }

    ghost function Snap(): Snapshot
      reads this
    {
      Snapshot(GetDeletedMessages(), GetDeletionStats(), store, Valid())
    }

    function IsMessageDeleted(messageId: string): bool
      reads this
    {
      messageId in GetDeletedMessages()
    }

    /** The storage after `markMessageAsDeleted(messageId)`. */
    function MarkedStore(messageId: string): map<Key, Value>
      reads this
    {
      var ids := GetDeletedMessages();
      if messageId in ids then store else store[DeletionProgressKey := DeletedRecord(ids + [messageId])]
    }

    method SetMinimized(isMinimized: bool)
      modifies this
      ensures store == old(store)[MinimizedStateKey := Flag(isMinimized)]
      ensures old(Valid()) ==> Valid()
    {
      store := store[MinimizedStateKey := Flag(isMinimized)];
    }

    /** `toggleMinimized`: stores and returns the opposite of the current state. */
    method ToggleMinimized() returns (minimized: bool)
      modifies this
      ensures minimized == !old(IsMinimized()) && IsMinimized() == minimized
      ensures store == old(store)[MinimizedStateKey := Flag(minimized)]
      ensures old(Valid()) ==> Valid()
    {
      var current := IsMinimized();
      SetMinimized(!current);
      minimized := !current;
    }

    /** Stores the channel-map text: typed or pasted text, or the engine's saved working copy. */
    method SetJsonContent(content: Value)
      requires content.Text? || content.Exported?
      modifies this
      ensures store == old(store)[JsonContentKey := content]
      ensures old(Valid()) ==> Valid()
    {
      store := store[JsonContentKey := content];
    }

    method SetInterval(interval: string)
      modifies this
      ensures store == old(store)[IntervalKey := Text(interval)]
      ensures old(Valid()) ==> Valid()
    {
      store := store[IntervalKey := Text(interval)];
    }

    method SetInputMethod(inputMethod: string)
      modifies this
      ensures store == old(store)[InputMethodKey := Text(inputMethod)]
      ensures old(Valid()) ==> Valid()
    {
      store := store[InputMethodKey := Text(inputMethod)];
    }

    method SetDeletionStats(stats: DeletionStats)
      modifies this
      ensures store == old(store)[DeletionStatsKey := StatsRecord(stats)]
      ensures old(Valid()) ==> Valid()
    {
      store := store[DeletionStatsKey := StatsRecord(stats)];
    }

    /** `updateDeletionStats`: one more deletion, in total and under `channelType`. */
    method UpdateDeletionStats(channelType: string)
      modifies this
      ensures GetDeletionStats() == BumpStats(old(GetDeletionStats()), channelType)
      ensures store == old(store)[DeletionStatsKey := StatsRecord(GetDeletionStats())]
      ensures old(Valid()) ==> Valid()
    {
      var stats := GetDeletionStats();
      var updated := DeletionStats(stats.totalDeleted + 1, Bump(stats.deletedByChannelType, channelType, 1));
      SetDeletionStats(updated);
    }

    method SetDeletedMessages(messageIds: seq<string>)
      modifies this
      ensures store == old(store)[DeletionProgressKey := DeletedRecord(messageIds)]
      ensures old(Valid()) ==> Valid()
    {
      store := store[DeletionProgressKey := DeletedRecord(messageIds)];
    }

    /** `markMessageAsDeleted`: the id joins the list unless it is already on it. */
    method MarkMessageAsDeleted(messageId: string)
      modifies this
      ensures store == old(MarkedStore(messageId))
      ensures GetDeletedMessages() == WithMarked(old(GetDeletedMessages()), messageId)
      ensures IsMessageDeleted(messageId)
      ensures old(Valid()) ==> Valid()
    {
      var deleted := GetDeletedMessages();
      if messageId !in deleted {
        SetDeletedMessages(deleted + [messageId]);
      }
    }

    /** `clearAllKeys`: every key is deleted. */
    method ClearAllKeys()
      modifies this
      ensures store == map[]
      ensures Valid()
    {
      store := map[];
    }
  }

  /** A falsy stored value reads as the default, whatever is stored. */
  lemma {:induction false} FalsyReadsAsDefault(settings: AppSettingsStore, key: Key, default: Value)
    requires key in settings.store && !Truthy(settings.store[key])
    ensures settings.GetValue(key, default) == default
  {
  }

  /** An empty or missing interval setting reads as 1500 ms. */
  lemma {:induction false} EmptyIntervalReadsDefault(settings: AppSettingsStore)
    requires IntervalKey !in settings.store || settings.store[IntervalKey] == Text("")
    ensures settings.GetInterval() == Some(1500)
  {
    var text := "1500";
    assert settings.GetValue(IntervalKey, Text(text)) == Text(text);
    ParseIntOfRendered(1500, text);
  }

  /** A stored count reads back as itself. */
  lemma {:induction false} StoredIntervalReadsBack(settings: AppSettingsStore, n: nat)
    requires IntervalKey in settings.store && settings.store[IntervalKey] == Text(NatToString(n))
    ensures settings.GetInterval() == Some(n)
  {
    ParseIntOfNatToString(n, []);
    assert NatToString(n) + [] == NatToString(n);
  }

  /** After `clearAllKeys` every getter gives its default. */
  lemma {:induction false} ClearedReadsDefaults(settings: AppSettingsStore)
    requires settings.store == map[]
    ensures !settings.IsMinimized()
    ensures settings.GetJsonContent() == Text("")
    ensures settings.GetInterval() == Some(1500)
    ensures settings.GetInputMethod() == Text("file")
    ensures settings.GetDeletionStats() == NoStats
    ensures settings.GetDeletedMessages() == []
  {
    EmptyReadsDefault(settings, MinimizedStateKey, Flag(false));
    EmptyReadsDefault(settings, JsonContentKey, Text(""));
    EmptyReadsDefault(settings, InputMethodKey, Text("file"));
    EmptyReadsDefault(settings, DeletionStatsKey, StatsRecord(NoStats));
    EmptyReadsDefault(settings, DeletionProgressKey, DeletedRecord([]));
    EmptyIntervalReadsDefault(settings);
  }

  lemma EmptyReadsDefault(settings: AppSettingsStore, key: Key, default: Value)
    requires settings.store == map[]
    ensures settings.GetValue(key, default) == default
  {
  }


  // ---------------------------------------------------------------------------
  // The permission cache
  // ---------------------------------------------------------------------------

  /** What `calculatePermission` answers: a cached `true` is returned as it is;
      a cached `false`, like a missing entry, is asked of the permission check again. */
  function CachedPermission(cache: map<string, bool>, channelId: string, canView: string -> bool): bool {
    if channelId in cache && cache[channelId] then true else canView(channelId)
  }

  /** The cache after `calculatePermission(channelId)`. */
  function CacheAfter(cache: map<string, bool>, channelId: string, canView: string -> bool): map<string, bool> {
    if channelId in cache && cache[channelId] then cache else cache[channelId := canView(channelId)]
  }

  /** A granted permission stays granted for every later check, whatever the check
      then says; a refused one is asked again. */
  lemma {:induction false} PermissionSticky(cache: map<string, bool>, channelId: string, first: string -> bool, later: string -> bool)
    ensures CachedPermission(CacheAfter(cache, channelId, first), channelId, later)
      == (CachedPermission(cache, channelId, first) || later(channelId))
  {
  }

  /** The map `calculatePermissions` returns: one answer per channel id of the map. */
  function PermissionsFor(cache: map<string, bool>, m: seq<Entry>, canView: string -> bool): map<string, bool> {
    map c | c in Ids(m) :: CachedPermission(cache, c, canView)
  }

  // ---------------------------------------------------------------------------
  // removeMessageFromMap
  // ---------------------------------------------------------------------------

  /** `ids.indexOf(x)`: the first position of `x`, or -1. */
  function IndexOf(ids: seq<string>, x: string): (i: int)
    ensures -1 <= i < |ids|
    ensures i == -1 <==> x !in ids
    ensures 0 <= i ==> ids[i] == x && x !in ids[..i]
  {
    if ids == [] then -1
    else if ids[0] == x then 0
    else
      var j := IndexOf(ids[1..], x);
      if j == -1 then -1
      else
        assert ids[..j + 1] == [ids[0]] + ids[1..][..j];
        j + 1
  }

  /** `ids.splice(ids.indexOf(x), 1)` for an `x` the list holds: one occurrence fewer,
      the others kept in their order. */
  function Spliced(ids: seq<string>, x: string): (r: seq<string>)
    requires x in ids
    ensures multiset(r) + multiset{x} == multiset(ids)
    ensures |r| + 1 == |ids| && Subsequence(r, ids)
  {
    var k := IndexOf(ids, x);
    assert ids == ids[..k] + [x] + ids[k + 1..];
    SubsequenceOmit(ids[..k], x, ids[k + 1..]);
    ids[..k] + ids[k + 1..]
  }

  /** The position of the first channel, in iteration order, that lists `x`. */
  function FirstHolder(m: seq<Entry>, x: string): (j: nat)
    requires x in AllIds(m)
    ensures j < |m| && x in m[j].channel.messageIds
    ensures forall i :: 0 <= i < j ==> x !in m[i].channel.messageIds
  {
    if x in m[0].channel.messageIds then 0
    else
      var j := FirstHolder(m[1..], x);
      assert forall i :: 1 <= i <= j ==> m[i] == m[1..][i - 1];
      1 + j
  }

  /** `{ channelId, channelType }` of the channel a message was removed from. */
  datatype Removed = Removed(channelId: string, channelType: string)

  function WithoutMessage(e: Entry, x: string): Entry
    requires x in e.channel.messageIds
  {
    Entry(e.id, e.channel.(messageIds := Spliced(e.channel.messageIds, x)))
  }

  /** The map and the answer of `removeMessageFromMap(m, x)`. */
  function RemoveMessage(m: ChannelMap, x: string): (ChannelMap, Option<Removed>) {
    if x in AllIds(m) then
      var j := FirstHolder(m, x);
      var r := m[j := WithoutMessage(m[j], x)];
      assert forall i :: 0 <= i < |m| ==> r[i].id == m[i].id;
      assert UniqueIds(r) by { SameIdsUnique(m, r); }
      (r, Some(Removed(m[j].id, m[j].channel.channelType)))
    else (m, None)
  }

  lemma {:induction false} AllIdsUpdate(m: seq<Entry>, j: nat, e: Entry)
    requires j < |m|
    ensures multiset(AllIds(m[j := e])) + multiset(m[j].channel.messageIds)
      == multiset(AllIds(m)) + multiset(e.channel.messageIds)
  {
    var u := m[j := e];
    var old_ids := m[j].channel.messageIds;
    var new_ids := e.channel.messageIds;
    if j == 0 {
      assert u[1..] == m[1..];
      assert AllIds(u) == new_ids + AllIds(m[1..]);
      assert AllIds(m) == old_ids + AllIds(m[1..]);
      assert multiset(new_ids + AllIds(m[1..])) == multiset(new_ids) + multiset(AllIds(m[1..]));
      assert multiset(old_ids + AllIds(m[1..])) == multiset(old_ids) + multiset(AllIds(m[1..]));
    } else {
      var head := m[0].channel.messageIds;
      assert u[1..] == m[1..][j - 1 := e];
      assert m[j] == m[1..][j - 1];
      AllIdsUpdate(m[1..], j - 1, e);
      var rest := AllIds(m[1..]);
      var rest' := AllIds(u[1..]);
      assert multiset(rest') + multiset(old_ids) == multiset(rest) + multiset(new_ids);
      assert AllIds(u) == head + rest';
      assert AllIds(m) == head + rest;
      assert multiset(head + rest') == multiset(head) + multiset(rest');
      assert multiset(head + rest) == multiset(head) + multiset(rest);
      var a, b := multiset(rest') + multiset(old_ids), multiset(rest) + multiset(new_ids);
      forall y
        ensures (multiset(head) + multiset(rest') + multiset(old_ids))[y]
          == (multiset(head) + multiset(rest) + multiset(new_ids))[y]
      {
        assert a[y] == b[y];
      }
    }
  }

  /** Exactly one occurrence of `x` leaves the map when some channel lists it; otherwise nothing changes. */
  lemma {:induction false} RemoveMessageIds(m: ChannelMap, x: string)
    ensures x in AllIds(m) ==> multiset(AllIds(RemoveMessage(m, x).0)) + multiset{x} == multiset(AllIds(m))
    ensures multiset(AllIds(RemoveMessage(m, x).0)) == multiset(AllIds(m)) - multiset{x}
  {
    if x in AllIds(m) {
      var j := FirstHolder(m, x);
      var e := WithoutMessage(m[j], x);
      AllIdsUpdate(m, j, e);
      Cancel(multiset(AllIds(m[j := e])), multiset(m[j].channel.messageIds), multiset(AllIds(m)),
             multiset(e.channel.messageIds), x);
    }
  }

  lemma {:induction false} Cancel(after: multiset<string>, held: multiset<string>, before: multiset<string>, kept: multiset<string>, x: string)
    requires after + held == before + kept && kept + multiset{x} == held
    ensures after + multiset{x} == before
  {
    forall y ensures (after + multiset{x})[y] == before[y] {
      assert (after + held)[y] == (before + kept)[y];
      assert (kept + multiset{x})[y] == held[y];
    }
  }

  /** Two entries that differ at most in their channels' message lists. */
  predicate SameButMessages(a: Entry, b: Entry) {
    && a.id == b.id
    && a.channel.displayName == b.channel.displayName
    && a.channel.serverName == b.channel.serverName
    && a.channel.channelType == b.channel.channelType
  }

  /** Only the first channel listing `x` changes; every channel keeps its id and other
      fields; the answer names that channel, or is null when no channel lists `x`. */
  lemma {:induction false} RemoveMessageShape(m: ChannelMap, x: string)
    ensures var (r, removed) := RemoveMessage(m, x);
      && |r| == |m|
      && (forall i :: 0 <= i < |m| ==>
            SameButMessages(r[i], m[i]))
      && (removed.None? <==> x !in AllIds(m))
      && (removed.None? ==> r == m)
      && (removed.Some? ==>
            exists j :: (0 <= j < |m|
              && x in m[j].channel.messageIds
              && (forall i :: 0 <= i < j ==> x !in m[i].channel.messageIds)
              && removed.value == Removed(m[j].id, m[j].channel.channelType)
              && r[j].channel.messageIds == Spliced(m[j].channel.messageIds, x)
              && (forall i :: 0 <= i < |m| && i != j ==> r[i] == m[i])))
  {
    if x in AllIds(m) {
      var j := FirstHolder(m, x);
      var r := m[j := WithoutMessage(m[j], x)];
      assert RemoveMessage(m, x) == (r, Some(Removed(m[j].id, m[j].channel.channelType)));
      assert SameButMessages(r[j], m[j]);
      assert forall i :: 0 <= i < |m| && i != j ==> r[i] == m[i];
    }
  }

  // ---------------------------------------------------------------------------
  // The queue startDeletion builds
  // ---------------------------------------------------------------------------

  predicate Permitted(permissions: map<string, bool>, channelId: string) {
    channelId in permissions && permissions[channelId]
  }

  /** The message ids of the permitted channels, channel by channel, each in list order. */
  function PermittedIds(m: seq<Entry>, permissions: map<string, bool>): seq<string> {
    if m == [] then []
    else
      (if Permitted(permissions, m[0].id) then m[0].channel.messageIds else [])
      + PermittedIds(m[1..], permissions)
  }

  lemma {:induction false} PermittedIdsWithin(m: seq<Entry>, permissions: map<string, bool>)
    ensures multiset(PermittedIds(m, permissions)) <= multiset(AllIds(m))
  {
    if m != [] {
      PermittedIdsWithin(m[1..], permissions);
    }
  }

  /** An id is queued exactly when some permitted channel lists it. */
  lemma {:induction false} PermittedIdsMembers(m: seq<Entry>, permissions: map<string, bool>, x: string)
    ensures x in PermittedIds(m, permissions) <==>
      exists j :: 0 <= j < |m| && Permitted(permissions, m[j].id) && x in m[j].channel.messageIds
  {
    if m != [] {
      PermittedIdsMembers(m[1..], permissions, x);
      if exists j :: 0 <= j < |m| && Permitted(permissions, m[j].id) && x in m[j].channel.messageIds {
        var j :| 0 <= j < |m| && Permitted(permissions, m[j].id) && x in m[j].channel.messageIds;
        if j > 0 {
          assert m[1..][j - 1] == m[j];
        }
      }
      if x in PermittedIds(m[1..], permissions) {
        var j :| 0 <= j < |m[1..]| && Permitted(permissions, m[1..][j].id) && x in m[1..][j].channel.messageIds;
        assert m[j + 1] == m[1..][j];
      }
    }
  }

  /** `new Set(ids.filter(id => deleted.includes(id)))`, in insertion order. */
  function AlreadyDeleted(ids: seq<string>, deleted: seq<string>): (r: seq<string>)
    ensures NoDuplicates(r)
    ensures forall x :: x in r <==> x in ids && x in deleted
  {
    if ids == [] then []
    else
      var r := AlreadyDeleted(ids[..|ids| - 1], deleted);
      var x := ids[|ids| - 1];
      assert forall y :: y in ids <==> y in ids[..|ids| - 1] || y == x;
      if x in deleted && x !in r then r + [x] else r
  }

  /** `ids.filter(id => !drop.has(id))`. */
  function Without(ids: seq<string>, drop: seq<string>): (r: seq<string>)
    ensures forall x :: x in r <==> x in ids && x !in drop
  {
    if ids == [] then []
    else
      var x := ids[|ids| - 1];
      assert forall y :: y in ids <==> y in ids[..|ids| - 1] || y == x;
      Without(ids[..|ids| - 1], drop) + (if x in drop then [] else [x])
  }

  lemma {:induction false} WithoutCount(ids: seq<string>, drop: seq<string>, y: string)
    ensures multiset(Without(ids, drop))[y] == if y in drop then 0 else multiset(ids)[y]
  {
    if ids != [] {
      var front := ids[..|ids| - 1];
      assert ids == front + [ids[|ids| - 1]];
      WithoutCount(front, drop, y);
    }
  }

  /** The ids `startDeletion` hands to the loop: permitted, and not on the deleted list when the run starts. */
  function Queue(m: seq<Entry>, permissions: map<string, bool>, deleted: seq<string>): seq<string> {
    var ids := PermittedIds(m, permissions);
    Without(ids, AlreadyDeleted(ids, deleted))
  }

  /** The queue and the skipped-at-start ids together are part of the map's ids; the
      queue holds exactly the permitted ids that were not already deleted. */
  lemma {:induction false} QueueFacts(m: seq<Entry>, permissions: map<string, bool>, deleted: seq<string>)
    ensures var ids := PermittedIds(m, permissions);
      multiset(Queue(m, permissions, deleted)) + multiset(AlreadyDeleted(ids, deleted)) <= multiset(AllIds(m))
    ensures forall x :: x in Queue(m, permissions, deleted) <==> x in PermittedIds(m, permissions) && x !in deleted
  {
    var ids := PermittedIds(m, permissions);
    var already := AlreadyDeleted(ids, deleted);
    var q := Queue(m, permissions, deleted);
    PermittedIdsWithin(m, permissions);
    forall y ensures multiset(q)[y] + multiset(already)[y] <= multiset(ids)[y] {
      WithoutCount(ids, already, y);
      CountInNoDuplicates(already, y);
    }
    assert multiset(q) + multiset(already) <= multiset(ids);
  }

  // ---------------------------------------------------------------------------
  // Requests, in order, as a subsequence of the queue
  // ---------------------------------------------------------------------------

  /** `s` is `t` with some elements left out, in the same order. */
  predicate Subsequence(s: seq<string>, t: seq<string>)
    decreases |t|
  {
    if s == [] then true
    else if t == [] then false
    else if s[|s| - 1] == t[|t| - 1] then Subsequence(s[..|s| - 1], t[..|t| - 1])
    else Subsequence(s, t[..|t| - 1])
  }

  /** Leaving one element out of a list keeps the rest in order. */
  lemma {:induction false} SubsequenceOmit(a: seq<string>, x: string, b: seq<string>)
    ensures Subsequence(a + b, a + [x] + b)
    decreases |b|
  {
    if b == [] {
      SubsequenceRefl(a);
      SubsequenceSkip(a, a, x);
      assert a + b == a && a + [x] + b == a + [x];
    } else {
      var front, y := b[..|b| - 1], b[|b| - 1];
      SubsequenceOmit(a, x, front);
      SubsequenceTake(a + front, a + [x] + front, y);
      assert a + front + [y] == a + b;
      assert a + [x] + front + [y] == a + [x] + b;
    }
  }

  lemma {:induction false} SubsequenceRefl(s: seq<string>)
    ensures Subsequence(s, s)
  {
    if s != [] {
      SubsequenceRefl(s[..|s| - 1]);
      SubsequenceTake(s[..|s| - 1], s[..|s| - 1], s[|s| - 1]);
      assert s[..|s| - 1] + [s[|s| - 1]] == s;
    }
  }

  /** Leaving elements out twice is leaving them out once. */
  lemma {:induction false} SubsequenceTrans(a: seq<string>, b: seq<string>, c: seq<string>)
    requires Subsequence(a, b) && Subsequence(b, c)
    ensures Subsequence(a, c)
    decreases |c|
  {
    if a != [] && b != [] && c != [] {
      var c' := c[..|c| - 1];
      assert c == c' + [c[|c| - 1]];
      if b[|b| - 1] == c[|c| - 1] {
        if a[|a| - 1] == b[|b| - 1] {
          SubsequenceTrans(a[..|a| - 1], b[..|b| - 1], c');
        } else {
          SubsequenceTrans(a, b[..|b| - 1], c');
          SubsequenceSkip(a, c', c[|c| - 1]);
        }
      } else {
        SubsequenceTrans(a, b, c');
        SubsequenceSkip(a, c', c[|c| - 1]);
      }
    }
  }

  lemma {:induction false} SubsequenceTake(s: seq<string>, t: seq<string>, x: string)
    requires Subsequence(s, t)
    ensures Subsequence(s + [x], t + [x])
  {
    assert (s + [x])[..|s|] == s;
    assert (t + [x])[..|t|] == t;
  }

  lemma {:induction false} SubsequenceSkip(s: seq<string>, t: seq<string>, x: string)
    requires Subsequence(s, t)
    ensures Subsequence(s, t + [x])
    decreases |t|, 1
  {
    assert (t + [x])[..|t|] == t;
    if s != [] && s[|s| - 1] == x {
      SubsequenceDropLast(s, t);
    }
  }

  lemma {:induction false} SubsequenceDropLast(s: seq<string>, t: seq<string>)
    requires s != [] && Subsequence(s, t)
    ensures Subsequence(s[..|s| - 1], t)
    decreases |t|, 0
  {
    var t' := t[..|t| - 1];
    assert t == t' + [t[|t| - 1]];
    if s[|s| - 1] == t[|t| - 1] {
      SubsequenceSkip(s[..|s| - 1], t', t[|t| - 1]);
    } else {
      SubsequenceDropLast(s, t');
      SubsequenceSkip(s[..|s| - 1], t', t[|t| - 1]);
    }
  }

  // ---------------------------------------------------------------------------
  // deleteMessage
  // ---------------------------------------------------------------------------

  /** One answer of the REST delete: success, or an error with its status and, for 429, `retry_after` in seconds. */
  datatype Response = Success | Failure(status: int, retryAfter: int)

  predicate RateLimited(r: Response) {
    r.Failure? && r.status == 429
  }

  /** The answers one `deleteMessage` call receives: any number of 429s, then one settled answer. */
  type Script = s: seq<Response> | |s| > 0 && !RateLimited(s[|s| - 1])
    && (forall i :: 0 <= i < |s| - 1 ==> RateLimited(s[i])) witness [Success]

  datatype Outcome = Deleted | NotFound | Forbidden | Failed

  /** How `deleteMessage` reads the settled answer. */
  function Classify(r: Response): Outcome {
    match r
    case Success => Deleted
    case Failure(status, _) =>
      if status == 404 then NotFound else if status == 403 then Forbidden else Failed
  }

  function ScriptOutcome(answers: Script): Outcome {
    Classify(answers[|answers| - 1])
  }

  /** Success, 404 and 403 put the id on the deleted list; any other failure does not. */
  predicate MarksDeleted(o: Outcome) {
    o != Failed
  }

  /** The time spent waiting out the 429s: `retry_after * 1000` ms each. */
  function RetryWait(answers: seq<Response>): int {
    if |answers| <= 1 then 0
    else
      (match answers[0] case Failure(_, retryAfter) => retryAfter * 1000 case Success => 0)
      + RetryWait(answers[1..])
  }

  // ---------------------------------------------------------------------------
  // A run of startDeletion
  // ---------------------------------------------------------------------------

  /** One `deleteMessage` call: the channel id in its path, the message, how it settled,
      and what `removeMessageFromMap` answered when the id then left the working copy. */
  datatype Request = Request(channelId: string, messageId: string, outcome: Outcome, removed: Option<Removed>)

  /** What a run did: its requests in order, its three counters, the working copy it
      ended with, and whether it was stopped. */
  datatype RunReport = RunReport(
    requests: seq<Request>,
    completedCount: nat,
    skippedCount: nat,
    processedCount: nat,
    workingMap: ChannelMap,
    stopped: bool)

  /** The ids the run asked the server about, in order. */
  function RequestIds(requests: seq<Request>): (ids: seq<string>)
    ensures |ids| == |requests|
    ensures forall i :: 0 <= i < |requests| ==> ids[i] == requests[i].messageId
  {
    if requests == [] then []
    else RequestIds(requests[..|requests| - 1]) + [requests[|requests| - 1].messageId]
  }

  /** The ids the run put on the deleted list, in order. */
  function MarkedIds(requests: seq<Request>): seq<string> {
    if requests == [] then []
    else
      var last := requests[|requests| - 1];
      MarkedIds(requests[..|requests| - 1]) + (if MarksDeleted(last.outcome) then [last.messageId] else [])
  }

  lemma {:induction false} InMarkedIds(requests: seq<Request>, i: nat)
    requires i < |requests| && MarksDeleted(requests[i].outcome)
    ensures requests[i].messageId in MarkedIds(requests)
  {
    if i < |requests| - 1 {
      InMarkedIds(requests[..|requests| - 1], i);
    }
  }

  /** How many requests deleted their message. */
  function CountDeleted(requests: seq<Request>): nat {
    if requests == [] then 0
    else CountDeleted(requests[..|requests| - 1]) + (if requests[|requests| - 1].outcome == Deleted then 1 else 0)
  }

  /** The working copy after `removeMessageFromMap` of each id in turn. */
  function RemoveAll(m: ChannelMap, ids: seq<string>): ChannelMap
    decreases |ids|
  {
    if ids == [] then m else RemoveMessage(RemoveAll(m, ids[..|ids| - 1]), ids[|ids| - 1]).0
  }

  /** The requests of a run that has walked the part `done` of the queue, item by item:
      an id on the deleted list (`deleted` from before the run, or marked by an earlier
      request) is skipped; any other is requested, as the `|before|`-th call to the
      server, and then leaves the working copy, which is `m` minus the ids requested
      before it. */
  function Expected(done: seq<string>, owners: map<string, string>, server: nat -> Script, m: ChannelMap,
                    deleted: seq<string>): seq<Request>
    requires forall i :: 0 <= i < |done| ==> done[i] in owners
    decreases |done|
  {
    if done == [] then []
    else
      var before := Expected(done[..|done| - 1], owners, server, m, deleted);
      var x := done[|done| - 1];
      if x in deleted + MarkedIds(before) then before
      else
        var removed := RemoveMessage(RemoveAll(m, RequestIds(before)), x).1;
        before + [Request(owners[x], x, ScriptOutcome(server(|before|)), removed)]
  }

  /** What one request adds to the statistics: one deletion, under the type of the
      channel the id left, when it deleted the message and the id was in the working copy. */
  function StatsStep(stats: DeletionStats, request: Request): DeletionStats {
    if request.outcome == Deleted && request.removed.Some? then BumpStats(stats, request.removed.value.channelType)
    else stats
  }

  /** The statistics after the requests, in order. */
  function StatsAfter(stats: DeletionStats, requests: seq<Request>): DeletionStats {
    if requests == [] then stats
    else StatsStep(StatsAfter(stats, requests[..|requests| - 1]), requests[|requests| - 1])
  }

  /** How many requests deleted a message that left a channel of type `t`. */
  function DeletedOfType(requests: seq<Request>, t: string): nat {
    if requests == [] then 0
    else
      var last := requests[|requests| - 1];
      DeletedOfType(requests[..|requests| - 1], t)
        + (if last.outcome == Deleted && last.removed.Some? && last.removed.value.channelType == t then 1 else 0)
  }

  /** The stop button has been pressed by item boundary `boundary` (boundary k comes before item k). */
  predicate Signalled(stopAt: Option<nat>, boundary: nat) {
    stopAt.Some? && stopAt.value <= boundary
  }

  /** Which channel a message id maps to: of the channels listing it, the last one in
      iteration order, as the reduce that builds `messageToChannelMap` overwrites. */
  function Owners(m: seq<Entry>): map<string, string> {
    if m == [] then map[]
    else
      var last := m[|m| - 1];
      Owners(m[..|m| - 1]) + map x | x in last.channel.messageIds :: last.id
  }

  lemma {:induction false} OwnerIsLastHolder(m: seq<Entry>, x: string, j: nat)
    requires j < |m| && x in m[j].channel.messageIds
    requires forall i :: j < i < |m| ==> x !in m[i].channel.messageIds
    ensures x in Owners(m) && Owners(m)[x] == m[j].id
  {
    if j < |m| - 1 {
      OwnerIsLastHolder(m[..|m| - 1], x, j);
    }
  }

  lemma {:induction false} OwnersCover(m: seq<Entry>, x: string)
    requires x in AllIds(m)
    ensures x in Owners(m)
  {
    InAllIds(m, x);
    var j :| 0 <= j < |m| && x in m[j].channel.messageIds;
    OwnersCoverAt(m, x, j);
  }

  lemma {:induction false} OwnersCoverAt(m: seq<Entry>, x: string, j: nat)
    requires j < |m| && x in m[j].channel.messageIds
    ensures x in Owners(m)
  {
    if j < |m| - 1 {
      OwnersCoverAt(m[..|m| - 1], x, j);
    }
  }

  /** Asking about channel `i` extends the answers for the channels before it by one. */
  lemma {:induction false} PermissionsStep(cache: map<string, bool>, m: ChannelMap, i: nat, canView: string -> bool)
    requires i < |m|
    ensures m[i].id !in Ids(m[..i])
    ensures PermissionsFor(cache, m[..i + 1], canView)
      == PermissionsFor(cache, m[..i], canView)[m[i].id := CachedPermission(cache, m[i].id, canView)]
  {
    assert m[..i + 1] == m[..i] + [m[i]];
    assert Ids(m[..i + 1]) == Ids(m[..i]) + {m[i].id};
    forall e | e in m[..i] ensures e.id != m[i].id {
      var j :| 0 <= j < i && m[..i][j] == e;
      DistinctIds(m, j, i);
    }
  }

  /** Caching an answer for a channel not yet answered keeps "old cache + answers" in step. */
  lemma {:induction false} CacheStep(cache: map<string, bool>, answers: map<string, bool>, channelId: string, canView: string -> bool)
    requires channelId !in answers
    ensures CacheAfter(cache + answers, channelId, canView)
      == cache + answers[channelId := CachedPermission(cache, channelId, canView)]
  {
    var before := cache + answers;
    if channelId in cache && cache[channelId] {
      assert before == cache + answers[channelId := true] by {
        assert forall c :: c in before <==> c in cache + answers[channelId := true];
      }
    }
  }

  // ---------------------------------------------------------------------------
  // DeletionStore
  // ---------------------------------------------------------------------------

  class DeletionStore {
    /** Channel id to whether the channel may be viewed. */
    var calculatedPermissions: map<string, bool>
    var isRunning: bool

    constructor()
      ensures calculatedPermissions == map[] && !isRunning
    {
      calculatedPermissions := map[];
      isRunning := false;
    }

    /** `calculatePermission`: a cached `true` answers at once; otherwise the check is asked and its answer cached. */
    method CalculatePermission(channelId: string, canView: string -> bool) returns (canViewChannel: bool)
      modifies this`calculatedPermissions
      ensures canViewChannel == CachedPermission(old(calculatedPermissions), channelId, canView)
      ensures calculatedPermissions == CacheAfter(old(calculatedPermissions), channelId, canView)
    {
      if channelId in calculatedPermissions && calculatedPermissions[channelId] {
        return calculatedPermissions[channelId];
      }
      canViewChannel := canView(channelId);
      calculatedPermissions := calculatedPermissions[channelId := canViewChannel];
    }

    /** `calculatePermissions`: one answer per channel id of the map, every answer cached. */
    method CalculatePermissions(channelMap: ChannelMap, canView: string -> bool) returns (permissions: map<string, bool>)
      modifies this`calculatedPermissions
      ensures permissions.Keys == Ids(channelMap)
      ensures permissions == PermissionsFor(old(calculatedPermissions), channelMap, canView)
      ensures calculatedPermissions == old(calculatedPermissions) + permissions
    {
      permissions := map[];
      var i := 0;
      while i < |channelMap|
        invariant i <= |channelMap|
        invariant permissions == PermissionsFor(old(calculatedPermissions), channelMap[..i], canView)
        invariant calculatedPermissions == old(calculatedPermissions) + permissions
      {
        var channelId := channelMap[i].id;
        PermissionsStep(old(calculatedPermissions), channelMap, i, canView);
        CacheStep(old(calculatedPermissions), permissions, channelId, canView);
        var canViewChannel := CalculatePermission(channelId, canView);
        permissions := permissions[channelId := canViewChannel];
        i := i + 1;
      }
      assert channelMap[..i] == channelMap;
    }

    /** `stopDeletion`: the run stops at its next item boundary. */
    method StopDeletion()
      modifies this`isRunning
      ensures !isRunning
    {
      if isRunning {
        isRunning := false;
      }
    }

    function IsDeletionRunning(): bool
      reads this
    {
      isRunning
    }

    /** `removeMessageFromMap`: the first channel listing the id loses its first
        occurrence, and that channel's id and type are returned; null when none lists it. */
    method RemoveMessageFromMap(channelMap: ChannelMap, messageId: string) returns (result: ChannelMap, removed: Option<Removed>)
      ensures (result, removed) == RemoveMessage(channelMap, messageId)
    {
      var i := 0;
      while i < |channelMap|
        invariant i <= |channelMap|
        invariant forall j :: 0 <= j < i ==> messageId !in channelMap[j].channel.messageIds
      {
        var channel := channelMap[i].channel;
        var index := IndexOf(channel.messageIds, messageId);
        if index != -1 {
          InAllIds(channelMap, messageId);
          assert FirstHolder(channelMap, messageId) == i;
          var ids := channel.messageIds[..index] + channel.messageIds[index + 1..];
          var updated := channelMap[i := Entry(channelMap[i].id, channel.(messageIds := ids))];
          SameIdsUnique(channelMap, updated);
          result := updated;
          removed := Some(Removed(channelMap[i].id, channel.channelType));
          return;
        }
        i := i + 1;
      }
      InAllIds(channelMap, messageId);
      result, removed := channelMap, None;
    }

    /** `deleteMessage`: a success marks the id deleted and answers true; 404 and 403
        mark it and answer false; a 429 waits `retry_after` seconds and asks again;
        any other failure answers false and marks nothing. */
    method DeleteMessage(settings: AppSettingsStore, channelId: string, messageId: string, answers: Script)
      returns (deleted: bool, ghost waitedMs: int)
      modifies settings
      decreases |answers|
      ensures deleted <==> ScriptOutcome(answers) == Deleted
      ensures waitedMs == RetryWait(answers)
      ensures settings.store == if MarksDeleted(ScriptOutcome(answers)) then old(settings.MarkedStore(messageId)) else old(settings.store)
      ensures old(settings.Valid()) ==> settings.Valid()
    {
      match answers[0]
      case Success =>
        settings.MarkMessageAsDeleted(messageId);
        deleted, waitedMs := true, 0;
      case Failure(status, retryAfter) =>
        if status == 404 {
          settings.MarkMessageAsDeleted(messageId);
          deleted, waitedMs := false, 0;
        } else if status == 403 {
          settings.MarkMessageAsDeleted(messageId);
          deleted, waitedMs := false, 0;
        } else if status == 429 {
          ghost var wait := retryAfter * 1000;
          var rest: Script := answers[1..];
          deleted, waitedMs := DeleteMessage(settings, channelId, messageId, rest);
          waitedMs := wait + waitedMs;
        } else {
          deleted, waitedMs := false, 0;
        }
    }

    /** The loop over the already-deleted ids after the run: each in turn leaves the
        working copy, one occurrence at a time. */
    method RemoveEach(channelMap: ChannelMap, messageIds: seq<string>) returns (result: ChannelMap)
      ensures result == RemoveAll(channelMap, messageIds)
      ensures multiset(AllIds(result)) == multiset(AllIds(channelMap)) - multiset(messageIds)
    {
      result := channelMap;
      var i := 0;
      while i < |messageIds|
        invariant i <= |messageIds|
        invariant result == RemoveAll(channelMap, messageIds[..i])
      {
        assert messageIds[..i + 1][..i] == messageIds[..i];
        var removed;
        result, removed := RemoveMessageFromMap(result, messageIds[i]);
        i := i + 1;
      }
      WholePrefix(messageIds);
      RemoveAllIds(channelMap, messageIds);
    }

    /** The body of the loop for an id not yet on the deleted list: `deleteMessage`,
        then the removal from the working copy whatever the outcome, and on success one
        more deletion in the statistics under the type of the channel the id left. */
    method SubmitItem(settings: AppSettingsStore, workingMap: ChannelMap, channelId: string, messageId: string,
                      answers: Script)
      returns (result: ChannelMap, removed: Option<Removed>)
      requires !settings.IsMessageDeleted(messageId)
      modifies settings
      ensures (result, removed) == RemoveMessage(workingMap, messageId)
      ensures Submitted(old(settings.Snap()), settings.Snap(), Request(channelId, messageId, ScriptOutcome(answers), removed))
              == true
    {
      ghost var s0 := settings.Snap();
      ghost var waited;
      var wasDeleted;
      wasDeleted, waited := DeleteMessage(settings, channelId, messageId, answers);
      ghost var s1 := settings.Snap();
      assert Marked(s0, s1, messageId, MarksDeleted(ScriptOutcome(answers))) by {
        assert settings.GetDeletedMessages()
          == s0.deleted + (if MarksDeleted(ScriptOutcome(answers)) then [messageId] else []);
        assert settings.GetDeletionStats() == s0.stats;
      }
      result, removed := RemoveMessageFromMap(workingMap, messageId);
      var counted := wasDeleted && removed.Some?;
      var channelType := if removed.Some? then removed.value.channelType else "";
      CountDeletion(settings, counted, channelType);
      SubmittedSteps(s0, s1, settings.Snap(), Request(channelId, messageId, ScriptOutcome(answers), removed),
                     counted, channelType);
    }

    /** `updateDeletionStats(channelType)` when `counted`: one more deletion, in total and
        under that type; otherwise the statistics stay as they are. */
    method CountDeletion(settings: AppSettingsStore, counted: bool, channelType: string)
      modifies settings
      ensures Counted(old(settings.Snap()), settings.Snap(), counted, channelType) == true
    {
      if counted {
        ghost var deleted := settings.GetDeletedMessages();
        settings.UpdateDeletionStats(channelType);
        assert settings.GetDeletedMessages() == deleted;
      }
    }

    /** The loop of `startDeletion` over the queue. At each item boundary the stop
        signal is read and the loop ends once it is set; an id on the deleted list is
        counted as skipped; every other id is submitted. */
    method ProcessQueue(settings: AppSettingsStore, queue: seq<string>, owners: map<string, string>,
                        workingMap: ChannelMap, alreadyDeletedCount: nat, server: nat -> Script, stopAt: Option<nat>)
      returns (requests: seq<Request>, completed: nat, skipped: nat, processed: nat, result: ChannelMap)
      requires isRunning
      requires forall i :: 0 <= i < |queue| ==> queue[i] in owners
      requires multiset(queue) <= multiset(AllIds(workingMap))
      modifies this`isRunning, settings
      ensures processed == (if Signalled(stopAt, |queue|) then stopAt.value else |queue|)
      ensures isRunning <==> processed == |queue|
      ensures Progress(queue, owners, server, workingMap, alreadyDeletedCount, processed, requests, skipped, result,
                       completed, settings.Snap(), old(settings.Snap())) == true
    {
      ghost var start := settings.Snap();
      requests, completed, skipped, processed, result := [], 0, alreadyDeletedCount, 0, workingMap;
      var k := 0;
      ProgressStart(queue, owners, server, workingMap, alreadyDeletedCount, start);
      while k < |queue|
        invariant isRunning && processed == k && (stopAt.None? || k <= stopAt.value)
        // compared with `true` so that the progress is checked as one fact, not conjunct by conjunct
        invariant Progress(queue, owners, server, workingMap, alreadyDeletedCount, k, requests, skipped, result,
                           completed, settings.Snap(), start) == true
      {
        var go;
        go, k, requests, completed, skipped, result :=
          ProcessItem(settings, queue, owners, server, workingMap, alreadyDeletedCount, k, requests, completed,
                      skipped, result, stopAt, start);
        if !go {
          break;
        }
        processed := k;
      }
    }

    /** One pass of the loop body, at item boundary `k`. The stop signal, if it has come
        by now, stops the run, and a stopped run leaves the loop (`go` is false) with
        nothing else changed; a run still going advances over item `k`. */
    method ProcessItem(settings: AppSettingsStore, queue: seq<string>, owners: map<string, string>,
                       server: nat -> Script, workingMap: ChannelMap, base: nat, k: nat,
                       requests: seq<Request>, completed: nat, skipped: nat, result: ChannelMap,
                       stopAt: Option<nat>, ghost start: Snapshot)
      returns (go: bool, k': nat, requests': seq<Request>, completed': nat, skipped': nat, result': ChannelMap)
      requires isRunning && k < |queue|
      requires multiset(queue) <= multiset(AllIds(workingMap))
      requires Progress(queue, owners, server, workingMap, base, k, requests, skipped, result,
                        completed, settings.Snap(), start) == true
      modifies this`isRunning, settings
      ensures go == isRunning && go == !Signalled(stopAt, k)
      ensures !go ==> requests' == requests && completed' == completed && skipped' == skipped && result' == result
      ensures k' == if go then k + 1 else k
      ensures Progress(queue, owners, server, workingMap, base, k', requests', skipped', result',
                       completed', settings.Snap(), start) == true
    {
      if Signalled(stopAt, k) {
        StopDeletion();
      }
      if !isRunning {
        return false, k, requests, completed, skipped, result;
      }
      requests', completed', skipped', result' :=
        Advance(settings, queue, owners, server, workingMap, k, requests, completed, skipped, result, start);
      go, k' := true, k + 1;
    }

    /** Item `k` of a run still going: an id on the deleted list (from before the run,
        or marked by a request of this run) is counted as skipped and changes nothing
        else; any other is submitted as the next request and leaves the working copy. */
    method Advance(settings: AppSettingsStore, queue: seq<string>, owners: map<string, string>,
                   server: nat -> Script, workingMap: ChannelMap, k: nat,
                   requests: seq<Request>, completed: nat, skipped: nat, result: ChannelMap,
                   ghost start: Snapshot)
      returns (requests': seq<Request>, completed': nat, skipped': nat, result': ChannelMap)
      requires k < |queue|
      requires multiset(queue) <= multiset(AllIds(workingMap))
      requires Walked(queue, owners, server, workingMap, k, requests, result) == true
      requires Follows(queue, owners, server, workingMap, start.deleted, k, requests, result) == true
      requires Tracks(settings.Snap(), start, requests, completed) == true
      modifies settings
      ensures queue[k] in start.deleted + MarkedIds(requests) ==>
        requests' == requests && completed' == completed && skipped' == skipped + 1 && result' == result
      ensures queue[k] !in start.deleted + MarkedIds(requests) ==>
        var x := queue[k];
        var (r, removed) := RemoveMessage(result, x);
        && requests' == requests + [Request(owners[x], x, ScriptOutcome(server(|requests|)), removed)]
        && removed.Some? && result' == r && skipped' == skipped
      ensures Walked(queue, owners, server, workingMap, k + 1, requests', result') == true
      ensures Follows(queue, owners, server, workingMap, start.deleted, k + 1, requests', result') == true
      ensures Tracks(settings.Snap(), start, requests', completed') == true
    {
      var messageId := queue[k];
      var channelId := owners[messageId];
      if settings.IsMessageDeleted(messageId) {
        WalkSkip(queue, owners, server, workingMap, start.deleted, k, requests, result);
        return requests, completed, skipped + 1, result;
      }
      var answers := server(|requests|);
      NextListed(queue, owners, server, workingMap, k, requests, result);
      RemoveListed(result, messageId);
      FollowSubmit(queue, owners, server, workingMap, start.deleted, k, requests, result);
      ghost var before := settings.Snap();
      var removed;
      result', removed := SubmitItem(settings, result, channelId, messageId, answers);
      WalkSubmit(queue, owners, server, workingMap, k, requests, result, result', removed);
      var request := Request(channelId, messageId, ScriptOutcome(answers), removed);
      completed' := if request.outcome == Deleted then completed + 1 else completed;
      requests', skipped' := requests + [request], skipped;
      TracksSubmit(before, settings.Snap(), start, requests, completed, request);
    }

    /** `startDeletion`. A call while a run is going does nothing. Otherwise the
        permissions are computed (and cached), the queue is the permitted channels' ids
        minus those already on the deleted list, and the loop runs over it. The ids that
        were already deleted then leave the working copy, which is saved only if the
        run was not stopped; the running flag is clear at the end. */
    method StartDeletion(settings: AppSettingsStore, channelMap: ChannelMap, canView: string -> bool,
                         server: nat -> Script, stopAt: Option<nat>)
      returns (report: Option<RunReport>)
      modifies this, settings
      ensures report.None? <==> old(isRunning)
      ensures report.None? ==>
        isRunning && settings.store == old(settings.store) && calculatedPermissions == old(calculatedPermissions)
      ensures report.Some? ==> !isRunning
      ensures old(settings.Valid()) ==> settings.Valid()
      ensures report.Some? ==>
        calculatedPermissions == old(calculatedPermissions) + PermissionsFor(old(calculatedPermissions), channelMap, canView)
      ensures report.Some? ==>
        var r := report.value;
        var ids := PermittedIds(channelMap, PermissionsFor(old(calculatedPermissions), channelMap, canView));
        var already := AlreadyDeleted(ids, old(settings.GetDeletedMessages()));
        var queue := Without(ids, already);
        && r.stopped == Signalled(stopAt, |queue|)
        && r.processedCount == (if r.stopped then stopAt.value else |queue|)
        && r.skippedCount == |already| + r.processedCount - |r.requests|
        && (forall i :: 0 <= i < |queue| ==> queue[i] in Owners(channelMap))
        && r.requests == Expected(queue[..r.processedCount], Owners(channelMap), server, channelMap,
                                  old(settings.GetDeletedMessages()))
        && RequestsFit(r.requests, queue[..r.processedCount], server, Owners(channelMap))
        && (forall i :: 0 <= i < |r.requests| ==> r.requests[i].removed.Some?)
        && r.workingMap == RemoveAll(RemoveAll(channelMap, RequestIds(r.requests)), already)
        && multiset(AllIds(r.workingMap))
             == multiset(AllIds(channelMap)) - multiset(RequestIds(r.requests)) - multiset(already)
      ensures report.Some? ==>
        var r := report.value;
        && settings.GetDeletedMessages() == old(settings.GetDeletedMessages()) + MarkedIds(r.requests)
        && r.completedCount == CountDeleted(r.requests)
        && settings.GetDeletionStats() == StatsAfter(old(settings.GetDeletionStats()), r.requests)
        && settings.GetDeletionStats().totalDeleted == old(settings.GetDeletionStats().totalDeleted) + r.completedCount
        && (Consistent(old(settings.GetDeletionStats())) ==> Consistent(settings.GetDeletionStats()))
      ensures report.Some? && report.value.stopped ==> RunKeysOnly(settings.store, old(settings.store))
      ensures report.Some? && !report.value.stopped ==>
        RunKeysOnly(settings.store, old(settings.store)[JsonContentKey := Exported(report.value.workingMap)])
    {
      if isRunning {
        return None;
      }
      isRunning := true;

      var permissions := CalculatePermissions(channelMap, canView);
      var messageIds := PermittedIds(channelMap, permissions);
      var messageToChannel := Owners(channelMap);
      var workingMap := channelMap;
      var already := AlreadyDeleted(messageIds, settings.GetDeletedMessages());
      var toProcess := Without(messageIds, already);
      ghost var start := settings.Snap();
      QueueStart(channelMap, permissions, settings.GetDeletedMessages());

      var requests, completed, skipped, processed;
      requests, completed, skipped, processed, workingMap :=
        ProcessQueue(settings, toProcess, messageToChannel, workingMap, |already|, server, stopAt);
      ghost var afterLoop := settings.store;
      RunOutcome(toProcess, messageToChannel, server, channelMap, |already|, processed, requests, skipped, workingMap,
                 completed, settings.Snap(), start);
      var stopped;
      workingMap, stopped := FinishRun(settings, workingMap, already, processed, stopAt);
      if !stopped {
        RunKeysOnlySave(afterLoop, old(settings.store), Exported(workingMap));
      }
      isRunning := false;
      report := Some(RunReport(requests, completed, skipped, processed, workingMap, stopped));
    }

    /** The end of a run: the already-deleted ids leave the working copy, the stop signal
        is read once more, and the working copy is saved unless the run was stopped. */
    method FinishRun(settings: AppSettingsStore, workingMap: ChannelMap, already: seq<string>, boundary: nat,
                     stopAt: Option<nat>)
      returns (result: ChannelMap, stopped: bool)
      modifies this`isRunning, settings
      ensures result == RemoveAll(workingMap, already)
      ensures multiset(AllIds(result)) == multiset(AllIds(workingMap)) - multiset(already)
      ensures stopped == !isRunning && stopped == (!old(isRunning) || Signalled(stopAt, boundary))
      ensures settings.GetDeletedMessages() == old(settings.GetDeletedMessages())
      ensures settings.GetDeletionStats() == old(settings.GetDeletionStats())
      ensures stopped ==> settings.store == old(settings.store)
      ensures !stopped ==> settings.store == old(settings.store)[JsonContentKey := Exported(result)]
      ensures old(settings.Valid()) ==> settings.Valid()
    {
      result := RemoveEach(workingMap, already);
      stopped := SaveUnlessStopped(settings, result, boundary, stopAt);
    }

    /** The stop signal is read once more; a run still going saves the working copy as
        the channel-map text, and a stopped one leaves the storage as it is. */
    method SaveUnlessStopped(settings: AppSettingsStore, result: ChannelMap, boundary: nat, stopAt: Option<nat>)
      returns (stopped: bool)
      modifies this`isRunning, settings
      ensures stopped == !isRunning && stopped == (!old(isRunning) || Signalled(stopAt, boundary))
      ensures settings.GetDeletedMessages() == old(settings.GetDeletedMessages())
      ensures settings.GetDeletionStats() == old(settings.GetDeletionStats())
      ensures stopped ==> settings.store == old(settings.store)
      ensures !stopped ==> settings.store == old(settings.store)[JsonContentKey := Exported(result)]
      ensures old(settings.Valid()) ==> settings.Valid()
    {
      if Signalled(stopAt, boundary) {
        StopDeletion();
      }
      stopped := !isRunning;
      if !stopped {
        settings.SetJsonContent(Exported(result));
      }
    }
  }

  /** The loop's state after the first `k` items of the queue, as values: the requests
      fit the walked part, every one of them found its id in the working copy, and
      together with the working copy they account for every id of the map. */
  predicate Walked(queue: seq<string>, owners: map<string, string>, server: nat -> Script, workingMap: ChannelMap,
                   k: nat, requests: seq<Request>, result: ChannelMap) {
    && k <= |queue| && |requests| <= k
    && RequestsFit(requests, queue[..k], server, owners)
    && (forall i :: 0 <= i < |requests| ==> requests[i].removed.Some?)
    && multiset(AllIds(result)) + multiset(RequestIds(requests)) == multiset(AllIds(workingMap))
  }

  /** The loop's state after the first `k` items, against the reference definitions: the
      requests are those the walked part calls for, and the working copy is the map after
      the removal of each requested id in turn. */
  predicate Follows(queue: seq<string>, owners: map<string, string>, server: nat -> Script, workingMap: ChannelMap,
                    deleted: seq<string>, k: nat, requests: seq<Request>, result: ChannelMap) {
    && k <= |queue|
    && (forall i :: 0 <= i < |queue| ==> queue[i] in owners)
    && requests == Expected(queue[..k], owners, server, workingMap, deleted)
    && result == RemoveAll(workingMap, RequestIds(requests))
  }

  /** Before the first item nothing has been walked. */
  lemma {:induction false} WalkStart(queue: seq<string>, owners: map<string, string>, server: nat -> Script,
                                     workingMap: ChannelMap, deleted: seq<string>)
    requires forall i :: 0 <= i < |queue| ==> queue[i] in owners
    ensures Walked(queue, owners, server, workingMap, 0, [], workingMap) == true
    ensures Follows(queue, owners, server, workingMap, deleted, 0, [], workingMap) == true
  {
    assert queue[..0] == [];
  }

  /** What the loop's state after `k` items says about the run, as values. */
  lemma {:induction false} RunOutcome(queue: seq<string>, owners: map<string, string>, server: nat -> Script,
                                      workingMap: ChannelMap, base: nat, k: nat, requests: seq<Request>, skipped: nat,
                                      result: ChannelMap, completed: nat, now: Snapshot, start: Snapshot)
    requires Progress(queue, owners, server, workingMap, base, k, requests, skipped, result, completed, now, start) == true
    ensures k <= |queue| && forall i :: 0 <= i < |queue| ==> queue[i] in owners
    ensures requests == Expected(queue[..k], owners, server, workingMap, start.deleted)
    ensures RequestsFit(requests, queue[..k], server, owners)
    ensures forall i :: 0 <= i < |requests| ==> requests[i].removed.Some?
    ensures result == RemoveAll(workingMap, RequestIds(requests))
    ensures multiset(AllIds(result)) == multiset(AllIds(workingMap)) - multiset(RequestIds(requests))
    ensures skipped + |requests| == base + k
    ensures now.deleted == start.deleted + MarkedIds(requests) && completed == CountDeleted(requests)
    ensures now.stats == StatsAfter(start.stats, requests)
    ensures now.stats.totalDeleted == start.stats.totalDeleted + completed
    ensures Consistent(start.stats) ==> Consistent(now.stats)
    ensures RunKeysOnly(now.store, start.store) && (start.valid ==> now.valid)
  {
    RemainingIds(multiset(AllIds(result)), multiset(RequestIds(requests)), multiset(AllIds(workingMap)));
    StatsAfterTotal(start.stats, requests);
    if Consistent(start.stats) {
      StatsAfterConsistent(start.stats, requests);
    }
  }

  /** Before the first item the loop's state is where the run started. */
  lemma {:induction false} ProgressStart(queue: seq<string>, owners: map<string, string>, server: nat -> Script,
                                         workingMap: ChannelMap, base: nat, start: Snapshot)
    requires forall i :: 0 <= i < |queue| ==> queue[i] in owners
    ensures Progress(queue, owners, server, workingMap, base, 0, [], base, workingMap, 0, start, start) == true
  {
    WalkStart(queue, owners, server, workingMap, start.deleted);
    TracksStart(start);
  }

  /** Before the first request the settings are where the run started. */
  lemma {:induction false} TracksStart(s: Snapshot)
    ensures Tracks(s, s, [], 0) == true
  {
    assert s.deleted + MarkedIds([]) == s.deleted;
  }

  /** The state of the loop after `k` items of the queue: the walk so far, every item
      either skipped or requested (`base` ids were skipped before the loop), and the
      settings tracking the requests. */
  predicate Progress(queue: seq<string>, owners: map<string, string>, server: nat -> Script, workingMap: ChannelMap,
                     base: nat, k: nat, requests: seq<Request>, skipped: nat, result: ChannelMap, completed: nat,
                     now: Snapshot, start: Snapshot) {
    && Walked(queue, owners, server, workingMap, k, requests, result)
    && Follows(queue, owners, server, workingMap, start.deleted, k, requests, result)
    && skipped + |requests| == base + k
    && Tracks(now, start, requests, completed)
  }

  /** The settings after the requests so far, against those at the start of the run:
      the deleted list grew by what the requests marked, the statistics are those the
      requests add up to, only the run's keys changed, and the stored values kept their
      kinds. */
  predicate Tracks(now: Snapshot, start: Snapshot, requests: seq<Request>, completed: nat) {
    && completed == CountDeleted(requests)
    && now.deleted == start.deleted + MarkedIds(requests)
    && now.stats == StatsAfter(start.stats, requests)
    && RunKeysOnly(now.store, start.store)
    && (start.valid ==> now.valid)
  }

  /** What one submitted request does to the settings, as `SubmitItem` states it. */
  predicate Submitted(before: Snapshot, after: Snapshot, request: Request) {
    && after.deleted == before.deleted + (if MarksDeleted(request.outcome) then [request.messageId] else [])
    && after.stats == StatsStep(before.stats, request)
    && RunKeysOnly(after.store, before.store)
    && (before.valid ==> after.valid)
  }

  /** What `deleteMessage` does to the settings: the id joins the deleted list when
      `marks`, and nothing else that the run reads changes. */
  predicate Marked(before: Snapshot, after: Snapshot, messageId: string, marks: bool) {
    && after.deleted == before.deleted + (if marks then [messageId] else [])
    && after.stats == before.stats
    && RunKeysOnly(after.store, before.store)
    && (before.valid ==> after.valid)
  }

  /** What counting a deletion under `channelType` does to the settings. */
  predicate Counted(before: Snapshot, after: Snapshot, counted: bool, channelType: string) {
    && after.deleted == before.deleted
    && after.stats == (if counted then BumpStats(before.stats, channelType) else before.stats)
    && RunKeysOnly(after.store, before.store)
    && (before.valid ==> after.valid)
  }

  /** Marking and then counting, under the type of the channel the id left, is one
      submitted request. */
  lemma {:induction false} SubmittedSteps(s0: Snapshot, s1: Snapshot, s2: Snapshot, request: Request, counted: bool,
                                          channelType: string)
    requires Marked(s0, s1, request.messageId, MarksDeleted(request.outcome)) && Counted(s1, s2, counted, channelType)
    requires counted <==> request.outcome == Deleted && request.removed.Some?
    requires request.removed.Some? ==> channelType == request.removed.value.channelType
    ensures Submitted(s0, s2, request)
  {
    RunKeysOnlyTrans(s0.store, s1.store);
  }

  /** One more submitted request keeps the settings in step with the requests. */
  lemma {:induction false} TracksSubmit(before: Snapshot, after: Snapshot, start: Snapshot, requests: seq<Request>, completed: nat,
                     request: Request)
    requires Tracks(before, start, requests, completed) && Submitted(before, after, request)
    ensures Tracks(after, start, requests + [request], completed + if request.outcome == Deleted then 1 else 0)
  {
    MarkedGrow(start.deleted, requests, request);
    RequestsGrow(requests, request);
    RunKeysOnlyTrans(start.store, before.store);
  }

  /** Skipping the next id, when it is on the deleted list, keeps the walk's facts. */
  lemma {:induction false} WalkSkip(queue: seq<string>, owners: map<string, string>, server: nat -> Script, workingMap: ChannelMap,
                 deleted: seq<string>, k: nat, requests: seq<Request>, result: ChannelMap)
    requires Walked(queue, owners, server, workingMap, k, requests, result) && k < |queue|
    requires Follows(queue, owners, server, workingMap, deleted, k, requests, result)
    requires queue[k] in deleted + MarkedIds(requests)
    ensures Walked(queue, owners, server, workingMap, k + 1, requests, result)
    ensures Follows(queue, owners, server, workingMap, deleted, k + 1, requests, result)
  {
    PrefixStep(queue, k);
    ExpectedStep(queue[..k], owners, server, workingMap, deleted, queue[k]);
    assert RequestsFit(requests, queue[..k + 1], server, owners) by {
      RequestsFitSkip(requests, queue[..k], server, owners, queue[k]);
    }
  }

  /** The next id of the walk is still in the working copy. */
  lemma {:induction false} NextListed(queue: seq<string>, owners: map<string, string>, server: nat -> Script,
                                      workingMap: ChannelMap, k: nat, requests: seq<Request>, result: ChannelMap)
    requires Walked(queue, owners, server, workingMap, k, requests, result) && k < |queue|
    requires multiset(queue) <= multiset(AllIds(workingMap))
    ensures queue[k] in AllIds(result)
  {
    StillListed(workingMap, result, RequestIds(requests), queue, k);
  }

  /** Submitting the next id, when no request of the run marked it, keeps the walk's
      facts: its request joins the others, and the id leaves the working copy. */
  lemma {:induction false} WalkSubmit(queue: seq<string>, owners: map<string, string>, server: nat -> Script, workingMap: ChannelMap,
                   k: nat, requests: seq<Request>, result: ChannelMap, after: ChannelMap, removed: Option<Removed>)
    requires Walked(queue, owners, server, workingMap, k, requests, result) && k < |queue|
    requires queue[k] in owners && queue[k] !in MarkedIds(requests)
    requires removed.Some? && multiset(AllIds(after)) + multiset{queue[k]} == multiset(AllIds(result))
    ensures var x := queue[k];
      Walked(queue, owners, server, workingMap, k + 1,
             requests + [Request(owners[x], x, ScriptOutcome(server(|requests|)), removed)], after)
  {
    var x := queue[k];
    var request := Request(owners[x], x, ScriptOutcome(server(|requests|)), removed);
    var grown := requests + [request];
    assert RequestsFit(grown, queue[..k + 1], server, owners) by {
      PrefixStep(queue, k);
      RequestsFitTake(requests, queue[..k], server, owners, x, removed);
    }
    assert forall i :: 0 <= i < |grown| ==> grown[i].removed.Some? by {
      AllFound(requests, request);
    }
    assert multiset(AllIds(after)) + multiset(RequestIds(grown)) == multiset(AllIds(workingMap)) by {
      RequestsGrow(requests, request);
      assert multiset(RequestIds(requests) + [x]) == multiset(RequestIds(requests)) + multiset{x};
      MoveOne(multiset(AllIds(after)), multiset(AllIds(result)), multiset(RequestIds(requests)),
              multiset(AllIds(workingMap)), x);
    }
  }

  lemma {:induction false} AllFound(requests: seq<Request>, request: Request)
    requires (forall i :: 0 <= i < |requests| ==> requests[i].removed.Some?) && request.removed.Some?
    ensures forall i :: 0 <= i < |requests + [request]| ==> (requests + [request])[i].removed.Some?
  {
  }

  /** `removeMessageFromMap` of a listed id answers with a channel and takes one
      occurrence of the id out. */
  lemma {:induction false} RemoveListed(m: ChannelMap, x: string)
    requires x in AllIds(m)
    ensures RemoveMessage(m, x).1.Some?
    ensures multiset(AllIds(RemoveMessage(m, x).0)) + multiset{x} == multiset(AllIds(m))
  {
    RemoveMessageIds(m, x);
  }

  /** Submitting the next id, when it is not on the deleted list, follows the reference
      definitions one item further. */
  lemma {:induction false} FollowSubmit(queue: seq<string>, owners: map<string, string>, server: nat -> Script,
                                        workingMap: ChannelMap, deleted: seq<string>, k: nat, requests: seq<Request>,
                                        result: ChannelMap)
    requires Follows(queue, owners, server, workingMap, deleted, k, requests, result) && k < |queue|
    requires queue[k] !in deleted + MarkedIds(requests)
    ensures var x := queue[k];
      var request := Request(owners[x], x, ScriptOutcome(server(|requests|)), RemoveMessage(result, x).1);
      Follows(queue, owners, server, workingMap, deleted, k + 1, requests + [request], RemoveMessage(result, x).0)
  {
    PrefixStep(queue, k);
    ReferenceStep(queue[..k], owners, server, workingMap, deleted, queue[k], requests, result);
  }

  /** A request for one more walked id, not on the deleted list, extends the reference
      requests, and its removal extends the reference working copy. */
  lemma {:induction false} ReferenceStep(done: seq<string>, owners: map<string, string>, server: nat -> Script,
                                         m: ChannelMap, deleted: seq<string>, x: string, before: seq<Request>, r: ChannelMap)
    requires (forall i :: 0 <= i < |done| ==> done[i] in owners) && x in owners
    requires before == Expected(done, owners, server, m, deleted) && r == RemoveAll(m, RequestIds(before))
    requires x !in deleted + MarkedIds(before)
    ensures var request := Request(owners[x], x, ScriptOutcome(server(|before|)), RemoveMessage(r, x).1);
      && Expected(done + [x], owners, server, m, deleted) == before + [request]
      && RemoveAll(m, RequestIds(before + [request])) == RemoveMessage(r, x).0
  {
    ExpectedStep(done, owners, server, m, deleted, x);
    var request := Request(owners[x], x, ScriptOutcome(server(|before|)), RemoveMessage(r, x).1);
    RequestsGrow(before, request);
    RemoveAllStep(m, RequestIds(before), x);
  }

  /** The reference requests for one more walked id. */
  lemma {:induction false} ExpectedStep(done: seq<string>, owners: map<string, string>, server: nat -> Script,
                                        m: ChannelMap, deleted: seq<string>, x: string)
    requires (forall i :: 0 <= i < |done| ==> done[i] in owners) && x in owners
    ensures var before := Expected(done, owners, server, m, deleted);
      Expected(done + [x], owners, server, m, deleted)
        == if x in deleted + MarkedIds(before) then before
           else before + [Request(owners[x], x, ScriptOutcome(server(|before|)),
                                  RemoveMessage(RemoveAll(m, RequestIds(before)), x).1)]
  {
    assert (done + [x])[..|done|] == done;
  }

  lemma {:induction false} RemoveAllStep(m: ChannelMap, ids: seq<string>, x: string)
    ensures RemoveAll(m, ids + [x]) == RemoveMessage(RemoveAll(m, ids), x).0
  {
    assert (ids + [x])[..|ids|] == ids;
  }

  lemma WholePrefix<T>(s: seq<T>)
    ensures s[..|s|] == s
  {
  }

  /** A prefix one longer is the prefix and the next element. */
  lemma {:induction false} PrefixStep<T>(s: seq<T>, k: nat)
    requires k < |s|
    ensures s[..k + 1] == s[..k] + [s[k]]
  {
  }

  lemma {:induction false} MarkedGrow(deleted: seq<string>, requests: seq<Request>, request: Request)
    ensures deleted + MarkedIds(requests + [request])
      == deleted + MarkedIds(requests) + (if MarksDeleted(request.outcome) then [request.messageId] else [])
  {
    var tail := if MarksDeleted(request.outcome) then [request.messageId] else [];
    RequestsGrow(requests, request);
    assert deleted + (MarkedIds(requests) + tail) == deleted + MarkedIds(requests) + tail;
  }

  /** Only the deleted list and the statistics may differ between the two storages. */
  predicate RunKeysOnly(now: map<Key, Value>, before: map<Key, Value>) {
    forall key :: key != DeletionProgressKey && key != DeletionStatsKey ==>
      (key in now <==> key in before) && (key in now ==> now[key] == before[key])
  }

  lemma {:induction false} RunKeysOnlyTrans(before: map<Key, Value>, middle: map<Key, Value>)
    requires RunKeysOnly(middle, before)
    ensures forall now :: RunKeysOnly(now, middle) ==> RunKeysOnly(now, before)
  {
  }

  lemma {:induction false} RunKeysOnlySave(now: map<Key, Value>, before: map<Key, Value>, content: Value)
    requires RunKeysOnly(now, before)
    ensures RunKeysOnly(now[JsonContentKey := content], before[JsonContentKey := content])
  {
  }

  /** What the requests of a run satisfy, against the part `done` of the queue walked so
      far: in queue order and at most once per occurrence, each settled as the server's
      answers to that call say, each sent to the channel the id maps to, and none repeats
      an id an earlier request put on the deleted list. */
  predicate RequestsFit(requests: seq<Request>, done: seq<string>, server: nat -> Script, owners: map<string, string>) {
    && Subsequence(RequestIds(requests), done)
    && multiset(RequestIds(requests)) <= multiset(done)
    && (forall i :: 0 <= i < |requests| ==> requests[i].outcome == ScriptOutcome(server(i)))
    && (forall i :: 0 <= i < |requests| ==>
          requests[i].messageId in owners && requests[i].channelId == owners[requests[i].messageId])
    && NoRemark(requests)
  }

  /** No request is for an id an earlier request of the run put on the deleted list. */
  predicate NoRemark(requests: seq<Request>) {
    requests == []
    || (var front := requests[..|requests| - 1];
        NoRemark(front) && requests[|requests| - 1].messageId !in MarkedIds(front))
  }

  lemma {:induction false} RequestsFitSkip(requests: seq<Request>, done: seq<string>, server: nat -> Script, owners: map<string, string>, x: string)
    requires RequestsFit(requests, done, server, owners)
    ensures RequestsFit(requests, done + [x], server, owners)
  {
    SubsequenceSkip(RequestIds(requests), done, x);
    assert multiset(done + [x]) == multiset(done) + multiset{x};
  }

  lemma {:induction false} RequestsFitTake(requests: seq<Request>, done: seq<string>, server: nat -> Script,
                                           owners: map<string, string>, x: string, removed: Option<Removed>)
    requires RequestsFit(requests, done, server, owners)
    requires x in owners
    requires x !in MarkedIds(requests)
    ensures RequestsFit(requests + [Request(owners[x], x, ScriptOutcome(server(|requests|)), removed)], done + [x], server, owners)
  {
    var request := Request(owners[x], x, ScriptOutcome(server(|requests|)), removed);
    GrownInOrder(requests, done, request);
    GrownEntries(requests, server, owners, request);
  }

  lemma {:induction false} GrownInOrder(requests: seq<Request>, done: seq<string>, request: Request)
    requires Subsequence(RequestIds(requests), done) && multiset(RequestIds(requests)) <= multiset(done)
    ensures Subsequence(RequestIds(requests + [request]), done + [request.messageId])
    ensures multiset(RequestIds(requests + [request])) <= multiset(done + [request.messageId])
  {
    var x := request.messageId;
    RequestsGrow(requests, request);
    SubsequenceTake(RequestIds(requests), done, x);
    assert multiset(done + [x]) == multiset(done) + multiset{x};
    assert multiset(RequestIds(requests) + [x]) == multiset(RequestIds(requests)) + multiset{x};
  }

  lemma {:induction false} GrownEntries(requests: seq<Request>, server: nat -> Script, owners: map<string, string>, request: Request)
    requires forall i :: 0 <= i < |requests| ==> requests[i].outcome == ScriptOutcome(server(i))
    requires forall i :: 0 <= i < |requests| ==>
      requests[i].messageId in owners && requests[i].channelId == owners[requests[i].messageId]
    requires NoRemark(requests)
    requires request.outcome == ScriptOutcome(server(|requests|))
    requires request.messageId in owners && request.channelId == owners[request.messageId]
    requires request.messageId !in MarkedIds(requests)
    ensures var grown := requests + [request];
      && (forall i :: 0 <= i < |grown| ==> grown[i].outcome == ScriptOutcome(server(i)))
      && (forall i :: 0 <= i < |grown| ==>
            grown[i].messageId in owners && grown[i].channelId == owners[grown[i].messageId])
      && NoRemark(grown)
  {
    var grown := requests + [request];
    assert grown[..|grown| - 1] == requests;
  }

  /** The facts about the queue the loop starts from. */
  lemma {:induction false} QueueStart(m: ChannelMap, permissions: map<string, bool>, deleted: seq<string>)
    ensures var ids := PermittedIds(m, permissions);
      var queue := Without(ids, AlreadyDeleted(ids, deleted));
      && (forall i :: 0 <= i < |queue| ==> queue[i] in Owners(m) && queue[i] !in deleted)
      && multiset(queue) <= multiset(AllIds(m))
  {
    var ids := PermittedIds(m, permissions);
    var queue := Without(ids, AlreadyDeleted(ids, deleted));
    QueueFacts(m, permissions, deleted);
    PermittedIdsWithin(m, permissions);
    forall x | x in queue ensures x in Owners(m) {
      assert x in multiset(ids);
      OwnersCover(m, x);
    }
    forall i | 0 <= i < |queue| ensures queue[i] in Owners(m) && queue[i] !in deleted {
      assert queue[i] in queue;
    }
  }

  lemma {:induction false} RemoveLast(m: ChannelMap, ids: seq<string>)
    requires ids != []
    requires multiset(AllIds(RemoveAll(m, ids[..|ids| - 1]))) == multiset(AllIds(m)) - multiset(ids[..|ids| - 1])
    ensures multiset(AllIds(RemoveAll(m, ids))) == multiset(AllIds(m)) - multiset(ids)
  {
    var front, x := ids[..|ids| - 1], ids[|ids| - 1];
    assert multiset(ids) == multiset(front) + multiset{x} by {
      assert ids == front + [x];
    }
    RemoveMessageIds(RemoveAll(m, front), x);
    SubtractOne(multiset(AllIds(m)), multiset(front), x);
  }

  lemma {:induction false} SubtractOne(all: multiset<string>, gone: multiset<string>, x: string)
    ensures all - gone - multiset{x} == all - (gone + multiset{x})
  {
    forall y ensures (all - gone - multiset{x})[y] == (all - (gone + multiset{x}))[y] {
    }
  }

  /** The ids left in the working copy are the map's ids minus those requested. */
  lemma {:induction false} RemainingIds(left: multiset<string>, requested: multiset<string>, all: multiset<string>)
    requires left + requested == all
    ensures left == all - requested
  {
    forall y ensures left[y] == (all - requested)[y] {
      assert left[y] + requested[y] == all[y];
    }
  }

  /** Removing a listed id and recording it as requested keeps the two together equal to the map's ids. */
  lemma {:induction false} RemovedStep(work: ChannelMap, requested: seq<string>, all: multiset<string>, x: string)
    requires x in AllIds(work)
    requires multiset(AllIds(work)) + multiset(requested) == all
    ensures multiset(AllIds(RemoveMessage(work, x).0)) + multiset(requested + [x]) == all
  {
    RemoveMessageIds(work, x);
    assert multiset(requested + [x]) == multiset(requested) + multiset{x};
    MoveOne(multiset(AllIds(RemoveMessage(work, x).0)), multiset(AllIds(work)), multiset(requested), all, x);
  }

  lemma {:induction false} MoveOne(left: multiset<string>, held: multiset<string>, moved: multiset<string>,
                                   all: multiset<string>, x: string)
    requires left + multiset{x} == held && held + moved == all
    ensures left + (moved + multiset{x}) == all
  {
    forall y ensures (left + (moved + multiset{x}))[y] == all[y] {
      assert (left + multiset{x})[y] == held[y];
      assert (held + moved)[y] == all[y];
    }
  }

  lemma {:induction false} MarkedWithin(requests: seq<Request>)
    ensures forall x :: x in MarkedIds(requests) ==> x in RequestIds(requests)
  {
    if requests != [] {
      var front := requests[..|requests| - 1];
      var last := requests[|requests| - 1];
      assert requests == front + [last];
      MarkedWithin(front);
      RequestsGrow(front, last);
    }
  }

  lemma {:induction false} StillListed(m: seq<Entry>, work: seq<Entry>, requested: seq<string>, queue: seq<string>, k: nat)
    requires k < |queue|
    requires multiset(queue) <= multiset(AllIds(m))
    requires multiset(requested) <= multiset(queue[..k])
    requires multiset(AllIds(work)) + multiset(requested) == multiset(AllIds(m))
    ensures queue[k] in AllIds(work)
  {
    var x := queue[k];
    SplitAt(queue, k);
    StillCounted(multiset(queue[..k]), multiset(queue[k + 1..]), multiset(requested), multiset(AllIds(m)),
                 multiset(AllIds(work)), x);
  }

  lemma {:induction false} SplitAt(s: seq<string>, k: nat)
    requires k < |s|
    ensures multiset(s) == multiset(s[..k]) + multiset{s[k]} + multiset(s[k + 1..])
  {
    assert s == s[..k] + [s[k]] + s[k + 1..];
  }

  lemma {:induction false} StillCounted(before: multiset<string>, rest: multiset<string>, requested: multiset<string>,
                     all: multiset<string>, work: multiset<string>, x: string)
    requires before + multiset{x} + rest <= all && requested <= before && work + requested == all
    ensures x in work
  {
    assert (before + multiset{x} + rest)[x] <= all[x];
    assert (work + requested)[x] == all[x];
  }

  /** Appending one request extends the derived lists by at most that request. */
  lemma {:induction false} RequestsGrow(requests: seq<Request>, request: Request)
    ensures RequestIds(requests + [request]) == RequestIds(requests) + [request.messageId]
    ensures MarkedIds(requests + [request])
      == MarkedIds(requests) + (if MarksDeleted(request.outcome) then [request.messageId] else [])
    ensures CountDeleted(requests + [request]) == CountDeleted(requests) + (if request.outcome == Deleted then 1 else 0)
  {
    assert (requests + [request])[..|requests|] == requests;
  }

  // ---------------------------------------------------------------------------
  // Properties of a run, stated on the reference definitions
  // ---------------------------------------------------------------------------

  /** Removing ids in turn takes one occurrence of each out of the map. */
  lemma {:induction false} RemoveAllIds(m: ChannelMap, ids: seq<string>)
    ensures multiset(AllIds(RemoveAll(m, ids))) == multiset(AllIds(m)) - multiset(ids)
    decreases |ids|
  {
    if ids != [] {
      RemoveAllIds(m, ids[..|ids| - 1]);
      RemoveLast(m, ids);
    }
  }

  /** Removing ids in turn keeps every channel, in order, with its id and other fields;
      each channel's list keeps some of its ids, in their order. */
  lemma {:induction false} RemoveAllShape(m: ChannelMap, ids: seq<string>)
    ensures var r := RemoveAll(m, ids);
      && |r| == |m|
      && (forall i :: 0 <= i < |m| ==> SameButMessages(r[i], m[i]))
      && (forall i :: 0 <= i < |m| ==> Subsequence(r[i].channel.messageIds, m[i].channel.messageIds))
    decreases |ids|
  {
    if ids != [] {
      var front := RemoveAll(m, ids[..|ids| - 1]);
      var x := ids[|ids| - 1];
      RemoveAllShape(m, ids[..|ids| - 1]);
      RemoveMessageShape(front, x);
      var r := RemoveMessage(front, x).0;
      forall i | 0 <= i < |m|
        ensures Subsequence(r[i].channel.messageIds, m[i].channel.messageIds)
      {
        var now, mid, orig := r[i].channel.messageIds, front[i].channel.messageIds, m[i].channel.messageIds;
        if r[i] == front[i] {
          SubsequenceRefl(mid);
        }
        assert Subsequence(now, mid);
        SubsequenceTrans(now, mid, orig);
      }
    } else {
      forall i | 0 <= i < |m| ensures Subsequence(m[i].channel.messageIds, m[i].channel.messageIds) {
        SubsequenceRefl(m[i].channel.messageIds);
      }
    }
  }

  /** With every removal found, the total grows by exactly the requests that deleted. */
  lemma {:induction false} StatsAfterTotal(stats: DeletionStats, requests: seq<Request>)
    requires forall i :: 0 <= i < |requests| ==> requests[i].removed.Some?
    ensures StatsAfter(stats, requests).totalDeleted == stats.totalDeleted + CountDeleted(requests)
    decreases |requests|
  {
    if requests != [] {
      StatsAfterTotal(stats, requests[..|requests| - 1]);
    }
  }

  /** The requests keep the total equal to the sum of the per-type counts. */
  lemma {:induction false} StatsAfterConsistent(stats: DeletionStats, requests: seq<Request>)
    requires Consistent(stats)
    ensures Consistent(StatsAfter(stats, requests))
    decreases |requests|
  {
    if requests != [] {
      StatsAfterConsistent(stats, requests[..|requests| - 1]);
    }
  }

  /** Each type's count grows by the requests that deleted a message of a channel of that type. */
  lemma {:induction false} StatsAfterByType(stats: DeletionStats, requests: seq<Request>, t: string)
    ensures Get(StatsAfter(stats, requests).deletedByChannelType, t)
      == Get(stats.deletedByChannelType, t) + DeletedOfType(requests, t)
    decreases |requests|
  {
    if requests != [] {
      var front := requests[..|requests| - 1];
      var last := requests[|requests| - 1];
      StatsAfterByType(stats, front, t);
      if last.outcome == Deleted && last.removed.Some? {
        BumpStatsByType(StatsAfter(stats, front), last.removed.value.channelType, t);
      }
    }
  }

  /** Every walked id that was not on the deleted list before the run is requested at
      least once, whatever repeats the queue has. */
  lemma {:induction false} ExpectedCovers(done: seq<string>, owners: map<string, string>, server: nat -> Script,
                                          m: ChannelMap, deleted: seq<string>)
    requires forall i :: 0 <= i < |done| ==> done[i] in owners
    ensures forall x :: x in done && x !in deleted ==> x in RequestIds(Expected(done, owners, server, m, deleted))
    decreases |done|
  {
    if done != [] {
      var front := done[..|done| - 1];
      var before := Expected(front, owners, server, m, deleted);
      var after := Expected(done, owners, server, m, deleted);
      ExpectedCovers(front, owners, server, m, deleted);
      MarkedWithin(before);
      assert RequestIds(before) <= RequestIds(after) by {
        if after != before {
          RequestsGrow(before, after[|after| - 1]);
          assert after == before + [after[|after| - 1]];
        }
      }
      assert done == front + [done[|done| - 1]];
    }
  }

  /** In a queue without repeats and without already-deleted ids, the requests are
      exactly the walked ids, in queue order. */
  lemma {:induction false} ExpectedDistinct(done: seq<string>, owners: map<string, string>, server: nat -> Script,
                                            m: ChannelMap, deleted: seq<string>)
    requires forall i :: 0 <= i < |done| ==> done[i] in owners
    requires NoDuplicates(done) && forall i :: 0 <= i < |done| ==> done[i] !in deleted
    ensures RequestIds(Expected(done, owners, server, m, deleted)) == done
    decreases |done|
  {
    if done != [] {
      var front := done[..|done| - 1];
      var x := done[|done| - 1];
      var before := Expected(front, owners, server, m, deleted);
      NoDuplicatesFront(done);
      ExpectedDistinct(front, owners, server, m, deleted);
      MarkedWithin(before);
      var after := Expected(done, owners, server, m, deleted);
      assert after == before + [after[|after| - 1]] && after[|after| - 1].messageId == x;
      RequestsGrow(before, after[|after| - 1]);
      assert done == front + [x];
    }
  }

  lemma {:induction false} NoDuplicatesFront(s: seq<string>)
    requires s != [] && NoDuplicates(s)
    ensures NoDuplicates(s[..|s| - 1]) && s[|s| - 1] !in s[..|s| - 1]
  {
    var front := s[..|s| - 1];
    forall j | 0 <= j < |front| ensures front[j] !in front[..j] {
      assert front[..j] == s[..j];
    }
  }
}
