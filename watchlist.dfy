/**
 * The watchlist route: a module-level list of (symbol, reportDate) entries
 * that a POST extends (`add`, only when the entry is absent) or filters
 * (`remove`), and that a GET returns.
 */
module Watchlist {
  /** What the list stores of a watched earning: its symbol and reportDate, nothing else. */
  datatype Entry = Entry(symbol: string, reportDate: string)

  /** The `earning` of a POST body: its symbol and reportDate, and whatever other fields the client sent. */
  datatype PostedEarning = PostedEarning(symbol: string, reportDate: string, otherFields: map<string, string>)

  function EntryOf(e: PostedEarning): Entry {
    Entry(e.symbol, e.reportDate)
  }

  /** No (symbol, reportDate) appears twice. */
  predicate NoDuplicates(s: seq<Entry>) {
    forall i, j :: 0 <= i < j < |s| ==> s[i] != s[j]
  }

  /** The `add` branch: append the entry unless the list already holds it. */
  function Added(s: seq<Entry>, x: Entry): (r: seq<Entry>)
    ensures x in s ==> r == s
    ensures x !in s ==> r == s + [x]
  {
    if x in s then s else s + [x]
  }

  /** The `remove` branch: the list without every entry equal to x, the rest in order. */
  function Removed(s: seq<Entry>, x: Entry): (r: seq<Entry>)
    ensures forall y :: y in r <==> y in s && y != x
    ensures |r| <= |s|
  {
    if s == [] then [] else (if s[0] == x then [] else [s[0]]) + Removed(s[1..], x)
  }

  /** A POST with the given earning and action: `add`, `remove`, or anything else (no change). */
  function Apply(s: seq<Entry>, e: PostedEarning, action: string): (r: seq<Entry>)
    ensures action == "add" ==> EntryOf(e) in r
    ensures action == "remove" ==> EntryOf(e) !in r
    ensures action != "add" && action != "remove" ==> r == s
    ensures forall y :: y in r && y != EntryOf(e) ==> y in s
    ensures forall y :: y in s && y != EntryOf(e) ==> y in r
  {
    if action == "add" then Added(s, EntryOf(e))
    else if action == "remove" then Removed(s, EntryOf(e))
    else s
  }

  /** `add` of a new entry puts it last and keeps the old entries in place and in order. */
  lemma AddAppendsAtEnd(s: seq<Entry>, e: PostedEarning)
    requires EntryOf(e) !in s
    ensures var r := Apply(s, e, "add");
      |r| == |s| + 1 && r[..|s|] == s && r[|s|] == Entry(e.symbol, e.reportDate)
  {
  }

  /** `add` of an entry already present changes nothing, so adding twice is adding once. */
  lemma AddIsIdempotent(s: seq<Entry>, e: PostedEarning)
    ensures EntryOf(e) in s ==> Apply(s, e, "add") == s
    ensures Apply(Apply(s, e, "add"), e, "add") == Apply(s, e, "add")
  {
  }

  /** Filtering a concatenation filters each part: removal keeps the survivors' order. */
  lemma {:induction false} RemovedDistributes(s1: seq<Entry>, s2: seq<Entry>, x: Entry)
    ensures Removed(s1 + s2, x) == Removed(s1, x) + Removed(s2, x)
    decreases |s1|
  {
    if s1 == [] {
      assert s1 + s2 == s2;
    } else {
      assert (s1 + s2)[0] == s1[0] && (s1 + s2)[1..] == s1[1..] + s2;
      RemovedDistributes(s1[1..], s2, x);
    }
  }

  /** Removing an absent entry is a no-op. */
  lemma {:induction false} RemoveAbsentIsNoOp(s: seq<Entry>, x: Entry)
    requires x !in s
    ensures Removed(s, x) == s
    decreases |s|
  {
    if s != [] {
      RemoveAbsentIsNoOp(s[1..], x);
    }
  }

  /** Removing twice is removing once. */
  lemma RemoveIsIdempotent(s: seq<Entry>, e: PostedEarning)
    ensures Apply(Apply(s, e, "remove"), e, "remove") == Apply(s, e, "remove")
  {
    RemoveAbsentIsNoOp(Removed(s, EntryOf(e)), EntryOf(e));
  }

  /** Removal never creates a duplicate. */
  lemma {:induction false} RemovedKeepsNoDuplicates(s: seq<Entry>, x: Entry)
    requires NoDuplicates(s)
    ensures NoDuplicates(Removed(s, x))
    decreases |s|
  {
    if s != [] {
      assert NoDuplicates(s[1..]) by {
        forall i, j | 0 <= i < j < |s[1..]| ensures s[1..][i] != s[1..][j] {
          assert s[1..][i] == s[i + 1] && s[1..][j] == s[j + 1];
        }
      }
      RemovedKeepsNoDuplicates(s[1..], x);
      var rest := Removed(s[1..], x);
      assert s[0] !in s[1..] by {
        forall k | 0 <= k < |s[1..]| ensures s[1..][k] != s[0] {
          assert s[1..][k] == s[k + 1];
        }
      }
      assert s[0] !in rest;
    }
  }

  /** Every POST keeps the list free of duplicate (symbol, reportDate) entries. */
  lemma ApplyKeepsNoDuplicates(s: seq<Entry>, e: PostedEarning, action: string)
    requires NoDuplicates(s)
    ensures NoDuplicates(Apply(s, e, action))
  {
    if action == "remove" {
      RemovedKeepsNoDuplicates(s, EntryOf(e));
    }
  }

  /** The list after a series of POSTs, applied in order. */
  function ApplyAll(s: seq<Entry>, posts: seq<(PostedEarning, string)>): seq<Entry>
    decreases |posts|
  {
    if posts == [] then s
    else Apply(ApplyAll(s, posts[..|posts| - 1]), posts[|posts| - 1].0, posts[|posts| - 1].1)
  }

  /** From the empty list, no series of POSTs produces two equal entries. */
  lemma {:induction false} NoDuplicatesFromEmpty(posts: seq<(PostedEarning, string)>)
    ensures NoDuplicates(ApplyAll([], posts))
    decreases |posts|
  {
    if posts != [] {
      NoDuplicatesFromEmpty(posts[..|posts| - 1]);
      var last := posts[|posts| - 1];
      ApplyKeepsNoDuplicates(ApplyAll([], posts[..|posts| - 1]), last.0, last.1);
    }
  }

  /** `watchlist.findIndex(item => same symbol and reportDate)`. */
  method FindIndex(s: seq<Entry>, x: Entry) returns (index: int)
    ensures index == -1 <==> x !in s
    ensures index != -1 ==> 0 <= index < |s| && s[index] == x && x !in s[..index]
  {
    index := 0;
    while index < |s|
      invariant 0 <= index <= |s|
      invariant x !in s[..index]
    {
      if s[index] == x {
        return;
      }
      assert s[..index + 1] == s[..index] + [s[index]];
      index := index + 1;
    }
    assert s[..index] == s;
    index := -1;
  }

  /** The route module and its in-memory `watchlist` array. */
  class WatchlistRoute {
    var watchlist: seq<Entry>

    ghost predicate Valid()
      reads this
    {
      NoDuplicates(watchlist)
    }

    /** Module load: `let watchlist = []`. */
    constructor ()
      ensures Valid() && watchlist == []
    {
      watchlist := [];
    }

    /** The route's GET: the list as it is. */
    method Get() returns (watchedEarnings: seq<Entry>)
      ensures watchedEarnings == watchlist
    {
      watchedEarnings := watchlist;
    }

    /** The route's POST: `add` pushes in place, `remove` reassigns a filtered copy. */
    method Post(earning: PostedEarning, action: string) returns (watchedEarnings: seq<Entry>)
      requires Valid()
      modifies this
      ensures Valid()
      ensures watchlist == Apply(old(watchlist), earning, action)
      ensures watchedEarnings == watchlist
    {
      ApplyKeepsNoDuplicates(watchlist, earning, action);
      if action == "add" {
        var existingIndex := FindIndex(watchlist, EntryOf(earning));
        if existingIndex == -1 {
          watchlist := watchlist + [Entry(earning.symbol, earning.reportDate)];
        }
      } else if action == "remove" {
        watchlist := Removed(watchlist, EntryOf(earning));
      }
      watchedEarnings := watchlist;
    }
  }
}
