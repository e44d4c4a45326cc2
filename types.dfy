/** The data shapes of the deleter: a channel export (`Channel`, `ChannelMap`) and the
    string-keyed counters (`{ [key: string]: number }`) kept per channel type. */
module Types {

  /** `serverName?: string` as the input validator admits it: missing, `null`, or a string. */
  datatype ServerName = Absent | Null | Named(name: string)

  /** One exported channel: the ids of the messages to delete, in list order. */
  datatype Channel = Channel(
    messageIds: seq<string>,
    displayName: string,
    serverName: ServerName,
    channelType: string)

  /** One own property of a `ChannelMap` object: a channel id and its channel. */
  datatype Entry = Entry(id: string, channel: Channel)

  /** No channel id occurs twice: the first entry's id is not among the later ones, and so on. */
  predicate UniqueIds(entries: seq<Entry>) {
    entries == [] || (entries[0].id !in Ids(entries[1..]) && UniqueIds(entries[1..]))
  }

  /** A `ChannelMap` object as its entries in iteration order. Channel ids are
      Discord snowflakes, never array-index keys, so that order is insertion order. */
  type ChannelMap = m: seq<Entry> | UniqueIds(m) witness []

  /** The channel ids of a map. */
  function Ids(m: seq<Entry>): set<string> {
    set e | e in m :: e.id
  }

  /** Two entries of a map with unique ids have different ids. */
  lemma {:induction false} DistinctIds(m: seq<Entry>, i: nat, j: nat)
    requires UniqueIds(m) && i < j < |m|
    ensures m[i].id != m[j].id
  {
    if i == 0 {
      assert m[1..][j - 1] in m[1..];
    } else {
      DistinctIds(m[1..], i - 1, j - 1);
    }
  }

  /** Unique ids, stated pairwise. */
  lemma {:induction false} UniqueIdsPairwise(m: seq<Entry>)
    ensures UniqueIds(m) <==> forall i, j :: 0 <= i < j < |m| ==> m[i].id != m[j].id
  {
    if UniqueIds(m) {
      forall i, j | 0 <= i < j < |m| ensures m[i].id != m[j].id {
        DistinctIds(m, i, j);
      }
    }
    if m != [] && forall i, j :: 0 <= i < j < |m| ==> m[i].id != m[j].id {
      UniqueIdsPairwise(m[1..]);
      assert forall i, j :: 0 <= i < j < |m[1..]| ==> m[1..][i].id != m[1..][j].id by {
        forall i, j | 0 <= i < j < |m[1..]| ensures m[1..][i].id != m[1..][j].id {
          assert m[1..][i] == m[i + 1] && m[1..][j] == m[j + 1];
        }
      }
      forall e | e in m[1..] ensures e.id != m[0].id {
        var j :| 0 <= j < |m[1..]| && m[1..][j] == e;
        assert m[j + 1] == e;
      }
    }
  }

  /** Entries with the same ids, position by position, are unique alike. */
  lemma {:induction false} SameIdsUnique(m: seq<Entry>, r: seq<Entry>)
    requires |r| == |m| && forall i :: 0 <= i < |m| ==> r[i].id == m[i].id
    ensures UniqueIds(r) == UniqueIds(m)
  {
    if m != [] {
      SameIdsUnique(m[1..], r[1..]);
      forall x ensures x in Ids(r[1..]) <==> x in Ids(m[1..]) {
        if x in Ids(r[1..]) {
          var e :| e in r[1..] && e.id == x;
          var i :| 0 <= i < |r[1..]| && r[1..][i] == e;
          assert m[1..][i] in m[1..];
        }
        if x in Ids(m[1..]) {
          var e :| e in m[1..] && e.id == x;
          var i :| 0 <= i < |m[1..]| && m[1..][i] == e;
          assert r[1..][i] in r[1..];
        }
      }
    }
  }

  /** Every message id of a map: channel by channel, each channel's in list order. */
  function AllIds(m: seq<Entry>): seq<string> {
    if m == [] then [] else m[0].channel.messageIds + AllIds(m[1..])
  }

  lemma {:induction false} AllIdsAppend(a: seq<Entry>, b: seq<Entry>)
    ensures AllIds(a + b) == AllIds(a) + AllIds(b)
  {
    if a == [] {
      assert a + b == b;
    } else {
      assert (a + b)[1..] == a[1..] + b;
      AllIdsAppend(a[1..], b);
    }
  }

  /** A message id belongs to the map exactly when some channel lists it. */
  lemma {:induction false} InAllIds(m: seq<Entry>, x: string)
    ensures x in AllIds(m) <==> exists i :: 0 <= i < |m| && x in m[i].channel.messageIds
  {
    if m != [] {
      InAllIds(m[1..], x);
      if x in AllIds(m[1..]) {
        var i :| 0 <= i < |m[1..]| && x in m[1..][i].channel.messageIds;
        assert x in m[i + 1].channel.messageIds;
      }
      if exists i :: 0 <= i < |m| && x in m[i].channel.messageIds {
        var i :| 0 <= i < |m| && x in m[i].channel.messageIds;
        if i > 0 {
          assert x in m[1..][i - 1].channel.messageIds;
        }
      }
    }
  }

  // ---------------------------------------------------------------------------
  // Counters keyed by string
  // ---------------------------------------------------------------------------

  /** A `{ [key: string]: number }` object as its entries in insertion order. */
  type Counts = seq<(string, int)>

  function Keys(c: Counts): set<string> {
    set p | p in c :: p.0
  }

  /** No key occurs twice: the first key is not among the later ones, and so on. */
  predicate UniqueKeys(c: Counts) {
    c == [] || (c[0].0 !in Keys(c[1..]) && UniqueKeys(c[1..]))
  }

  /** `c[k] || 0`: the count under `k`, 0 when there is none. */
  function Get(c: Counts, k: string): int {
    if c == [] then 0 else if c[0].0 == k then c[0].1 else Get(c[1..], k)
  }

  /** The sum of all counts. */
  function Total(c: Counts): int {
    if c == [] then 0 else c[0].1 + Total(c[1..])
  }

  /** `c[k] = (c[k] || 0) + d`: an existing key keeps its place, a new key goes last. */
  function Bump(c: Counts, k: string, d: int): Counts {
    if c == [] then [(k, d)]
    else if c[0].0 == k then [(k, c[0].1 + d)] + c[1..]
    else [c[0]] + Bump(c[1..], k, d)
  }

  /** Bumping raises the count under `k` by `d` and leaves every other count alone. */
  lemma {:induction false} BumpGet(c: Counts, k: string, d: int, k': string)
    ensures Get(Bump(c, k, d), k') == Get(c, k') + (if k' == k then d else 0)
  {
    if c != [] && c[0].0 != k {
      BumpGet(c[1..], k, d, k');
      assert Bump(c, k, d)[1..] == Bump(c[1..], k, d);
    }
  }

  /** Bumping raises the total by exactly `d`. */
  lemma {:induction false} BumpTotal(c: Counts, k: string, d: int)
    ensures Total(Bump(c, k, d)) == Total(c) + d
  {
    if c != [] {
      if c[0].0 == k {
        assert Bump(c, k, d)[1..] == c[1..];
      } else {
        BumpTotal(c[1..], k, d);
        assert Bump(c, k, d)[1..] == Bump(c[1..], k, d);
      }
    }
  }

  /** Bumping adds `k` to the keys, and only `k`, and keeps keys unique. */
  lemma {:induction false} BumpKeys(c: Counts, k: string, d: int)
    ensures Keys(Bump(c, k, d)) == Keys(c) + {k}
    ensures UniqueKeys(c) ==> UniqueKeys(Bump(c, k, d))
    ensures |Bump(c, k, d)| == if k in Keys(c) then |c| else |c| + 1
  {
    if c != [] {
      var r := Bump(c, k, d);
      assert Keys(c) == {c[0].0} + Keys(c[1..]);
      if c[0].0 == k {
        assert r[1..] == c[1..];
        assert Keys(r) == {k} + Keys(c[1..]);
      } else {
        BumpKeys(c[1..], k, d);
        assert r[1..] == Bump(c[1..], k, d);
        assert Keys(r) == {c[0].0} + Keys(r[1..]);
        if UniqueKeys(c) {
          forall j | 0 < j < |r| ensures r[0].0 != r[j].0 {
            assert r[j].0 in Keys(r[1..]);
          }
        }
      }
    }
  }
}
