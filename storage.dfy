/**
 * `MemStorage`: users and websites kept in two insertion-ordered maps.
 * A JavaScript `Map` is modelled as a Dafny map plus the sequence of its
 * keys in insertion order (the order `values()` visits them). Identifiers
 * and the clock are passed in by the caller.
 */
module Storage {
  import opened Wrappers
  import opened Schema

  // ----- ordering of the website list -----

  /** `createdAt?.getTime() || 0`: a missing creation time sorts as time 0. */
  function SortKey(w: Website): int {
    w.createdAt.GetOr(0)
  }

  predicate NewestFirst(s: seq<Website>) {
    forall i, j :: 0 <= i < j < |s| ==> SortKey(s[i]) >= SortKey(s[j])
  }

  /** Places `w` before the first record that is strictly older, after all the others. */
  function Insert(w: Website, s: seq<Website>): (r: seq<Website>)
    ensures |r| == |s| + 1
    ensures multiset(r) == multiset(s) + multiset{w}
  {
    if s == [] then [w]
    else if SortKey(s[0]) < SortKey(w) then [w] + s
    else
      assert s == [s[0]] + s[1..];
      [s[0]] + Insert(w, s[1..])
  }

  lemma {:induction false} InsertNewestFirst(w: Website, s: seq<Website>)
    requires NewestFirst(s)
    ensures NewestFirst(Insert(w, s))
  {
    if s != [] && SortKey(s[0]) >= SortKey(w) {
      var rest := Insert(w, s[1..]);
      InsertNewestFirst(w, s[1..]);
      forall k | 0 <= k < |rest| ensures SortKey(s[0]) >= SortKey(rest[k]) {
        assert rest[k] in multiset(s[1..]) + multiset{w};
        if rest[k] in multiset(s[1..]) {
          var j :| 0 <= j < |s[1..]| && s[1..][j] == rest[k];
          assert s[j + 1] == rest[k];
        }
      }
      assert Insert(w, s) == [s[0]] + rest;
    }
  }

  /**
   * The comparator sort of `getUserWebsites`, newest first. JavaScript's
   * `sort` is stable, so this is an insertion sort that keeps equal keys
   * in their original order.
   */
  function SortNewestFirst(s: seq<Website>): (r: seq<Website>)
    ensures |r| == |s|
    ensures multiset(r) == multiset(s)
  {
    if s == [] then []
    else
      assert s == s[..|s| - 1] + [s[|s| - 1]];
      Insert(s[|s| - 1], SortNewestFirst(s[..|s| - 1]))
  }

  lemma {:induction false} SortIsNewestFirst(s: seq<Website>)
    ensures NewestFirst(SortNewestFirst(s))
  {
    if s != [] {
      SortIsNewestFirst(s[..|s| - 1]);
      InsertNewestFirst(s[|s| - 1], SortNewestFirst(s[..|s| - 1]));
    }
  }

  /** The records with creation key `t`, in order. */
  function WithKey(s: seq<Website>, t: int): seq<Website> {
    if s == [] then [] else (if SortKey(s[0]) == t then [s[0]] else []) + WithKey(s[1..], t)
  }

  lemma {:induction false} WithKeyAppend(a: seq<Website>, b: seq<Website>, t: int)
    ensures WithKey(a + b, t) == WithKey(a, t) + WithKey(b, t)
  {
    if a == [] {
      assert a + b == b;
    } else {
      var head := if SortKey(a[0]) == t then [a[0]] else [];
      assert (a + b)[0] == a[0] && (a + b)[1..] == a[1..] + b;
      assert WithKey(a + b, t) == head + WithKey(a[1..] + b, t);
      WithKeyAppend(a[1..], b, t);
      assert WithKey(a, t) == head + WithKey(a[1..], t);
    }
  }

  lemma {:induction false} WithKeyNone(s: seq<Website>, t: int)
    requires forall k :: 0 <= k < |s| ==> SortKey(s[k]) < t
    ensures WithKey(s, t) == []
  {
    if s != [] {
      WithKeyNone(s[1..], t);
    }
  }

  lemma {:induction false} InsertWithKey(w: Website, s: seq<Website>, t: int)
    requires NewestFirst(s)
    ensures WithKey(Insert(w, s), t) == WithKey(s, t) + (if SortKey(w) == t then [w] else [])
  {
    if s == [] {
    } else if SortKey(s[0]) < SortKey(w) {
      assert ([w] + s)[0] == w && ([w] + s)[1..] == s;
      if SortKey(w) == t {
        assert forall k :: 0 <= k < |s| ==> SortKey(s[k]) <= SortKey(s[0]);
        WithKeyNone(s, t);
      }
    } else {
      var rest := Insert(w, s[1..]);
      assert NewestFirst(s[1..]) by {
        forall i, j | 0 <= i < j < |s[1..]| ensures SortKey(s[1..][i]) >= SortKey(s[1..][j]) {
          assert s[1..][i] == s[i + 1] && s[1..][j] == s[j + 1];
        }
      }
      InsertWithKey(w, s[1..], t);
      assert ([s[0]] + rest)[0] == s[0] && ([s[0]] + rest)[1..] == rest;
    }
  }

  /** The sort is stable: records with equal creation keys keep their relative order. */
  lemma {:induction false} SortIsStable(s: seq<Website>, t: int)
    ensures WithKey(SortNewestFirst(s), t) == WithKey(s, t)
  {
    if s != [] {
      var init, last := s[..|s| - 1], s[|s| - 1];
      var tail := if SortKey(last) == t then [last] else [];
      assert s == init + [last];
      SortIsStable(init, t);
      SortIsNewestFirst(init);
      InsertWithKey(last, SortNewestFirst(init), t);
      assert WithKey(SortNewestFirst(s), t) == WithKey(init, t) + tail;
      WithKeyAppend(init, [last], t);
      assert WithKey([last], t) == tail + WithKey([], t);
    }
  }

  /** Where `slice(0, limit)` stops on a list of `n` elements. */
  function SliceEnd(n: nat, limit: int): (e: nat)
    ensures e <= n
    ensures 0 <= limit ==> e == (if limit < n then limit else n)
    ensures limit < 0 ==> e == (if n + limit < 0 then 0 else n + limit)
  {
    if limit < 0 then (if n + limit < 0 then 0 else n + limit)
    else if limit < n then limit
    else n
  }

  const DefaultListLimit: int := 10

  lemma {:induction false} PrefixNewestFirst(s: seq<Website>, e: nat)
    requires NewestFirst(s) && e <= |s|
    ensures NewestFirst(s[..e])
    ensures multiset(s[..e]) <= multiset(s)
  {
    assert s == s[..e] + s[e..];
    assert multiset(s) == multiset(s[..e]) + multiset(s[e..]);
  }

  predicate NoDuplicates(s: seq<Website>) {
    forall i, j :: 0 <= i < j < |s| ==> s[i] != s[j]
  }

  lemma {:induction false} NoDuplicatesCounts(s: seq<Website>, x: Website)
    requires NoDuplicates(s)
    ensures multiset(s)[x] <= 1
  {
    if s != [] {
      assert s == [s[0]] + s[1..];
      assert NoDuplicates(s[1..]) by {
        forall i, j | 0 <= i < j < |s[1..]| ensures s[1..][i] != s[1..][j] {
          assert s[1..][i] == s[i + 1] && s[1..][j] == s[j + 1];
        }
      }
      NoDuplicatesCounts(s[1..], x);
      if s[0] == x {
        assert x !in s[1..] by {
          forall k | 0 <= k < |s[1..]| ensures s[1..][k] != x {
            assert s[1..][k] == s[k + 1];
          }
        }
      }
    }
  }

  lemma {:induction false} CountsNoDuplicates(s: seq<Website>)
    requires forall x :: multiset(s)[x] <= 1
    ensures NoDuplicates(s)
  {
    forall i, j | 0 <= i < j < |s| ensures s[i] != s[j] {
      var front, back := s[..i] + [s[i]] + s[i + 1..j], [s[j]] + s[j + 1..];
      assert s == front + back;
      assert multiset(s)[s[i]] == multiset(front)[s[i]] + multiset(back)[s[i]];
      assert multiset(front)[s[i]] >= 1;
      assert multiset(back)[s[i]] >= multiset([s[j]])[s[i]];
    }
  }

  /** A sub-multiset of a list without repetitions has none either. */
  lemma {:induction false} SubNoDuplicates(r: seq<Website>, s: seq<Website>)
    requires NoDuplicates(s) && multiset(r) <= multiset(s)
    ensures NoDuplicates(r)
  {
    forall x ensures multiset(r)[x] <= 1 {
      NoDuplicatesCounts(s, x);
    }
    CountsNoDuplicates(r);
  }

  // ----- the store -----

  /** The values of `m` listed in the order of `keys`. */
  function ValuesInOrder<V>(keys: seq<string>, m: map<string, V>): (r: seq<V>)
    requires forall k :: 0 <= k < |keys| ==> keys[k] in m
    ensures |r| == |keys|
    ensures forall k :: 0 <= k < |keys| ==> r[k] == m[keys[k]]
  {
    if keys == [] then [] else [m[keys[0]]] + ValuesInOrder(keys[1..], m)
  }

  predicate Distinct(ids: seq<string>) {
    forall i, j :: 0 <= i < j < |ids| ==> ids[i] != ids[j]
  }

  class MemStorage {
    var users: map<string, User>
    var userOrder: seq<string>
    var websites: map<string, Website>
    var websiteOrder: seq<string>

    /** Each map's keys are listed once in insertion order, and every record is filed under its own id. */
    ghost predicate Valid()
      reads this
    {
      && (forall id :: id in users <==> id in userOrder)
      && Distinct(userOrder)
      && (forall id :: id in users ==> users[id].id == id)
      && (forall id :: id in websites <==> id in websiteOrder)
      && Distinct(websiteOrder)
      && (forall id :: id in websites ==> websites[id].id == id)
    }

    constructor()
      ensures Valid()
      ensures users == map[] && userOrder == [] && websites == map[] && websiteOrder == []
    {
      users := map[];
      userOrder := [];
      websites := map[];
      websiteOrder := [];
    }

    /** `Array.from(this.websites.values())`: the records in insertion order. */
    function WebsiteList(): (r: seq<Website>)
      reads this
      requires Valid()
      ensures |r| == |websiteOrder|
      ensures forall k :: 0 <= k < |r| ==> r[k] == websites[websiteOrder[k]]
    {
      ValuesInOrder(websiteOrder, websites)
    }

    method GetUser(id: string) returns (r: Option<User>)
      ensures r.Some? <==> id in users
      ensures r.Some? ==> r.value == users[id]
    {
      r := if id in users then Some(users[id]) else None;
    }

    /** `find` over the users in insertion order: the first one with that name. */
    method GetUserByUsername(username: string) returns (r: Option<User>)
      requires Valid()
      ensures r.None? <==> forall k :: 0 <= k < |userOrder| ==> users[userOrder[k]].username != username
      ensures r.Some? ==> exists k :: 0 <= k < |userOrder| && r.value == users[userOrder[k]]
                                && r.value.username == username
                                && forall j :: 0 <= j < k ==> users[userOrder[j]].username != username
    {
      var i := 0;
      while i < |userOrder|
        invariant 0 <= i <= |userOrder|
        invariant forall j :: 0 <= j < i ==> users[userOrder[j]].username != username
      {
        assert userOrder[i] in userOrder;
        var u := users[userOrder[i]];
        if u.username == username {
          return Some(u);
        }
        i := i + 1;
      }
      return None;
    }

    /** Files the user under `id`; a key already present keeps its place in the order. */
    method CreateUser(insertUser: InsertUser, id: string) returns (u: User)
      requires Valid()
      modifies this
      ensures Valid()
      ensures u == User(id, insertUser.username, insertUser.password)
      ensures users == old(users)[id := u]
      ensures userOrder == if id in old(users) then old(userOrder) else old(userOrder) + [id]
      ensures websites == old(websites) && websiteOrder == old(websiteOrder)
    {
      u := User(id, insertUser.username, insertUser.password);
      if id !in users {
        userOrder := userOrder + [id];
      }
      users := users[id := u];
    }

    method GetWebsite(id: string) returns (r: Option<Website>)
      ensures r.Some? <==> id in websites
      ensures r.Some? ==> r.value == websites[id]
    {
      r := if id in websites then Some(websites[id]) else None;
    }

    /** Stores the data under `id` with creation time `now` (milliseconds). */
    method CreateWebsite(data: WebsiteData, id: string, now: int) returns (w: Website)
      requires Valid()
      modifies this
      ensures Valid()
      ensures w == Website(id, data, Some(now))
      ensures websites == old(websites)[id := w]
      ensures websiteOrder == if id in old(websites) then old(websiteOrder) else old(websiteOrder) + [id]
      ensures users == old(users) && userOrder == old(userOrder)
    {
      w := Website(id, data, Some(now));
      if id !in websites {
        websiteOrder := websiteOrder + [id];
      }
      websites := websites[id := w];
    }

    /** `getUserWebsites(limit = 10)`: the stored websites newest first, cut with `slice(0, limit)`. */
    method GetUserWebsites(limit: Option<int>) returns (r: seq<Website>)
      requires Valid()
      ensures r == SortNewestFirst(WebsiteList())[..SliceEnd(|websiteOrder|, limit.GetOr(DefaultListLimit))]
      ensures NewestFirst(r)
      ensures multiset(r) <= multiset(WebsiteList())
      ensures 0 <= limit.GetOr(DefaultListLimit) ==>
        |r| == if limit.GetOr(DefaultListLimit) < |websiteOrder| then limit.GetOr(DefaultListLimit) else |websiteOrder|
      ensures forall k :: 0 <= k < |r| ==> r[k].id in websites && websites[r[k].id] == r[k]
      ensures forall i, j :: 0 <= i < j < |r| ==> r[i].id != r[j].id
    {
      var all := WebsiteList();
      var sorted := SortNewestFirst(all);
      SortIsNewestFirst(all);
      var end := SliceEnd(|sorted|, limit.GetOr(DefaultListLimit));
      PrefixNewestFirst(sorted, end);
      r := sorted[..end];
      ListedAreStored(r);
    }

    /** The records of a sub-multiset of the list are stored under their own, pairwise different, ids. */
    lemma {:induction false} ListedAreStored(r: seq<Website>)
      requires Valid() && multiset(r) <= multiset(WebsiteList())
      ensures forall k :: 0 <= k < |r| ==> r[k].id in websites && websites[r[k].id] == r[k]
      ensures forall i, j :: 0 <= i < j < |r| ==> r[i].id != r[j].id
    {
      var all := WebsiteList();
      forall k | 0 <= k < |r| ensures r[k].id in websites && websites[r[k].id] == r[k] {
        assert r[k] in multiset(all);
        var j :| 0 <= j < |all| && all[j] == r[k];
        assert websiteOrder[j] in websiteOrder;
      }
      ListHasNoDuplicates();
      SubNoDuplicates(r, all);
    }

    /** No record is listed twice. */
    lemma {:induction false} ListHasNoDuplicates()
      requires Valid()
      ensures NoDuplicates(WebsiteList())
    {
      var all := WebsiteList();
      forall i, j | 0 <= i < j < |all| ensures all[i] != all[j] {
        assert websiteOrder[i] in websiteOrder && websiteOrder[j] in websiteOrder;
        assert all[i].id == websiteOrder[i] && all[j].id == websiteOrder[j];
      }
    }
  }

  /** A user read back with the id it was created under is the record that was returned. */
  method CreateUserThenGet(store: MemStorage, insertUser: InsertUser, id: string)
    returns (u: User, found: Option<User>)
    requires store.Valid()
    modifies store
    ensures store.Valid()
    ensures found == Some(u) && u == User(id, insertUser.username, insertUser.password)
  {
    u := store.CreateUser(insertUser, id);
    found := store.GetUser(id);
  }

  /** A website read back with the id it was created under is the record that was returned. */
  method CreateThenGet(store: MemStorage, data: WebsiteData, id: string, now: int)
    returns (w: Website, found: Option<Website>)
    requires store.Valid()
    modifies store
    ensures store.Valid()
    ensures found == Some(w) && w == Website(id, data, Some(now))
  {
    w := store.CreateWebsite(data, id, now);
    found := store.GetWebsite(id);
  }

  /**
   * Three websites created one after another (the clock strictly increasing):
   * a list of two holds the last two, newest first.
   */
  lemma {:induction false} NewestTwoOfThree(a: Website, b: Website, c: Website)
    requires SortKey(a) < SortKey(b) < SortKey(c)
    ensures SortNewestFirst([a, b, c])[..SliceEnd(3, 2)] == [c, b]
  {
    SortThree(a, b, c);
  }

  lemma {:induction false} SortThree(a: Website, b: Website, c: Website)
    requires SortKey(a) < SortKey(b) < SortKey(c)
    ensures SortNewestFirst([a, b, c]) == [c, b, a]
  {
    assert [a, b, c][..2] == [a, b];
    assert [a, b][..1] == [a];
    assert SortNewestFirst([a]) == [a];
    assert SortNewestFirst([a, b]) == Insert(b, [a]) == [b, a];
    assert Insert(c, [b, a]) == [c, b, a];
  }
}
