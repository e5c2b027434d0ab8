/** The platform cache storage as the worker sees it: named partitions, in creation order, each a
    map from request key to stored response. */
module Caches {
  import opened Wrappers
  import opened Http
  import opened Store

  predicate NoDuplicates(s: seq<string>)
  {
    forall i, j :: 0 <= i < j < |s| ==> s[i] != s[j]
  }

  /** The tail of a list of distinct names is distinct and lacks the head. */
  lemma TailDistinct(s: seq<string>)
    requires |s| > 0 && NoDuplicates(s)
    ensures s[0] !in s[1..] && NoDuplicates(s[1..])
  {
    forall i, j | 0 <= i < j < |s| - 1 ensures s[1..][i] != s[1..][j] {
      assert s[1..][i] == s[i + 1] && s[1..][j] == s[j + 1];
    }
  }

  /** `keys.filter(key => key !== current)`: the partitions activation deletes. */
  function Stale(names: seq<string>, current: string): (r: seq<string>)
    ensures forall x :: x in r <==> x in names && x != current
  {
    if names == [] then []
    else (if names[0] != current then [names[0]] else []) + Stale(names[1..], current)
  }

  /** The complementary filter: the names equal to `current`, which activation keeps. */
  function Kept(names: seq<string>, current: string): (r: seq<string>)
    ensures forall x :: x in r ==> x == current
    ensures current in r <==> current in names
  {
    if names == [] then []
    else (if names[0] == current then [names[0]] else []) + Kept(names[1..], current)
  }

  /** `names` with every element of `gone` removed, order kept: the name list after deletions. */
  function Minus(names: seq<string>, gone: seq<string>): (r: seq<string>)
    ensures forall x :: x in r <==> x in names && x !in gone
    ensures NoDuplicates(names) ==> NoDuplicates(r)
  {
    if names == [] then []
    else
      var rest := Minus(names[1..], gone);
      assert NoDuplicates(names) ==> names[0] !in names[1..] && NoDuplicates(names[1..]) by {
        if NoDuplicates(names) { TailDistinct(names); }
      }
      (if names[0] !in gone then [names[0]] else []) + rest
  }

  /** Removing nothing leaves the list as it is. */
  lemma {:induction false} MinusNothing(names: seq<string>)
    ensures Minus(names, []) == names
  {
    if names != [] {
      MinusNothing(names[1..]);
      assert names == [names[0]] + names[1..];
    }
  }

  /** Deleting one more name is removing it from what is left. */
  lemma {:induction false} MinusStep(names: seq<string>, gone: seq<string>, n: string)
    ensures Minus(Minus(names, gone), [n]) == Minus(names, gone + [n])
  {
    if names != [] {
      MinusStep(names[1..], gone, n);
      var head := if names[0] !in gone then [names[0]] else [];
      var rest := Minus(names[1..], gone);
      assert Minus(names, gone) == head + rest;
      MinusAppend(head, rest, [n]);
    }
  }

  /** Deleting the `i`-th stale name after the first `i`: the first `i + 1` are gone. */
  lemma DeleteNext(names: seq<string>, stale: seq<string>, i: nat)
    requires i < |stale|
    ensures Minus(Minus(names, stale[..i]), [stale[i]]) == Minus(names, stale[..i + 1])
  {
    var done, next := stale[..i], stale[i];
    assert stale[..i + 1] == done + [next];
    MinusStep(names, done, next);
  }

  /** Removal distributes over concatenation. */
  lemma {:induction false} MinusAppend(a: seq<string>, b: seq<string>, gone: seq<string>)
    ensures Minus(a + b, gone) == Minus(a, gone) + Minus(b, gone)
  {
    if a != [] {
      assert (a + b)[0] == a[0] && (a + b)[1..] == a[1..] + b;
      MinusAppend(a[1..], b, gone);
    } else {
      assert a + b == b;
    }
  }

  /** Removing exactly the names other than `current` leaves the names equal to `current`. */
  lemma {:induction false} MinusIsKept(names: seq<string>, gone: seq<string>, current: string)
    requires forall x :: x in names ==> (x in gone <==> x != current)
    ensures Minus(names, gone) == Kept(names, current)
  {
    if names != [] {
      MinusIsKept(names[1..], gone, current);
    }
  }

  /** Partition names are distinct, so at most the current one survives activation. */
  lemma {:induction false} KeptOfDistinct(names: seq<string>, current: string)
    requires NoDuplicates(names)
    ensures Kept(names, current) == if current in names then [current] else []
  {
    if names != [] {
      TailDistinct(names);
      KeptOfDistinct(names[1..], current);
    }
  }

  /** Activation is idempotent: after it nothing is stale, and keeping again keeps everything. */
  lemma {:induction false} KeptIdempotent(names: seq<string>, current: string)
    ensures Kept(Kept(names, current), current) == Kept(names, current)
    ensures Stale(Kept(names, current), current) == []
  {
    if names != [] {
      KeptIdempotent(names[1..], current);
      var head := if names[0] == current then [names[0]] else [];
      KeptAppend(head, Kept(names[1..], current), current);
      StaleAppend(head, Kept(names[1..], current), current);
    }
  }

  lemma {:induction false} KeptAppend(a: seq<string>, b: seq<string>, current: string)
    ensures Kept(a + b, current) == Kept(a, current) + Kept(b, current)
  {
    if a != [] {
      assert (a + b)[0] == a[0] && (a + b)[1..] == a[1..] + b;
      KeptAppend(a[1..], b, current);
    } else {
      assert a + b == b;
    }
  }

  lemma {:induction false} StaleAppend(a: seq<string>, b: seq<string>, current: string)
    ensures Stale(a + b, current) == Stale(a, current) + Stale(b, current)
  {
    if a != [] {
      assert (a + b)[0] == a[0] && (a + b)[1..] == a[1..] + b;
      StaleAppend(a[1..], b, current);
    } else {
      assert a + b == b;
    }
  }

  /** The partition map that activation leaves: the current partition, untouched, if it exists. */
  function Retained(parts: map<string, Entries>, current: string): (r: map<string, Entries>)
    ensures r.Keys <= {current} && (current in parts <==> current in r)
    ensures current in r ==> r[current] == parts[current]
  {
    if current in parts then map[current := parts[current]] else map[]
  }

  /** A sub-map holding exactly the current partition of `parts`, unchanged, is what activation
      leaves. */
  lemma RetainedIsOnly(parts: map<string, Entries>, sub: map<string, Entries>, current: string)
    requires forall n :: n in sub <==> n in parts && n == current
    requires forall n :: n in sub ==> sub[n] == parts[n]
    ensures sub == Retained(parts, current)
  {
  }

  /** The partition `name`, as `caches.open` makes it: an empty one when it does not exist yet. */
  function PartOf(parts: map<string, Entries>, name: string): Entries
  {
    if name in parts then parts[name] else map[]
  }

  /** No partition holds a response that is not ok. */
  ghost predicate StoredOk(parts: map<string, Entries>)
  {
    forall n, k :: n in parts && k in parts[n] ==> Ok(parts[n][k])
  }

  /** Two writes to one key: the second wins. */
  lemma UpdateTwice<K, V>(m: map<K, V>, k: K, a: V, b: V)
    ensures m[k := a][k := b] == m[k := b]
  {
  }

  /** Writing back the value already there changes nothing. */
  lemma UpdateSame<K, V>(m: map<K, V>, k: K)
    requires k in m
    ensures m[k := m[k]] == m
  {
  }

  /** Replacing one partition by entries that are all ok keeps every partition ok. */
  lemma StoredOkUpdate(parts: map<string, Entries>, name: string, e: Entries)
    requires StoredOk(parts) && forall k :: k in e ==> Ok(e[k])
    ensures StoredOk(parts[name := e])
  {
  }

  /** `partitions[names[i]]` is the first partition, in creation order, that holds `key`. */
  ghost predicate FirstHolder(names: seq<string>, parts: map<string, Entries>, key: string, i: int)
    requires forall n :: n in names ==> n in parts
  {
    0 <= i < |names| && key in parts[names[i]]
    && forall j :: 0 <= j < i ==> key !in parts[names[j]]
  }

  /** `caches.match`: the entry of the first partition, in creation order, that holds the key. */
  function MatchIn(names: seq<string>, parts: map<string, Entries>, key: string): (r: Option<Response>)
    requires forall n :: n in names ==> n in parts
    ensures r.None? <==> forall i :: 0 <= i < |names| ==> key !in parts[names[i]]
    ensures r.Some? ==> exists i :: FirstHolder(names, parts, key, i) && r.value == parts[names[i]][key]
  {
    if names == [] then None
    else if key in parts[names[0]] then
      assert FirstHolder(names, parts, key, 0);
      Some(parts[names[0]][key])
    else
      var r := MatchIn(names[1..], parts, key);
      assert r.Some? ==> exists i :: FirstHolder(names, parts, key, i) && r.value == parts[names[i]][key] by {
        if r.Some? {
          var i :| FirstHolder(names[1..], parts, key, i) && r.value == parts[names[1..][i]][key];
          assert FirstHolder(names, parts, key, i + 1);
        }
      }
      r
  }

  /** Every fetch of an `addAll` batch produced an ok response. */
  predicate AllFetchedOk(outcomes: seq<NetOutcome>)
  {
    forall i :: 0 <= i < |outcomes| ==> outcomes[i].Fetched? && Ok(outcomes[i].response)
  }

  /** The entries an `addAll` batch contributes: each URL under its own response. */
  function Batch(urls: seq<string>, outcomes: seq<NetOutcome>): (m: Entries)
    requires |urls| == |outcomes| && AllFetchedOk(outcomes)
    ensures forall u :: u in m <==> u in urls
    ensures forall u :: u in m ==> Ok(m[u])
  {
    if urls == [] then map[]
    else map[urls[0] := outcomes[0].response] + Batch(urls[1..], outcomes[1..])
  }

  /** With distinct URLs, every URL of the batch is stored under the response fetched for it. */
  lemma {:induction false} BatchLookup(urls: seq<string>, outcomes: seq<NetOutcome>)
    requires |urls| == |outcomes| && AllFetchedOk(outcomes) && NoDuplicates(urls)
    ensures forall i :: 0 <= i < |urls| ==> Batch(urls, outcomes)[urls[i]] == outcomes[i].response
  {
    if urls != [] {
      TailDistinct(urls);
      BatchLookup(urls[1..], outcomes[1..]);
      forall i | 0 < i < |urls|
        ensures Batch(urls, outcomes)[urls[i]] == outcomes[i].response
      {
        assert urls[i] == urls[1..][i - 1] && outcomes[i] == outcomes[1..][i - 1];
      }
    }
  }

  /** The storage object: partition names in creation order, and each partition's entries. */
  class CacheStorage {
    var names: seq<string>
    var parts: map<string, Entries>

    ghost predicate Valid()
      reads this
    {
      NoDuplicates(names) && forall n :: n in parts <==> n in names
    }

    constructor ()
      ensures Valid() && names == [] && parts == map[]
    {
      names := [];
      parts := map[];
    }

    /** `caches.match(request)`: searches every partition; absent iff no partition holds the key,
        otherwise an entry some partition holds for it. */
    function Match(key: string): (r: Option<Response>)
      reads this
      requires Valid()
      ensures r.None? <==> forall n :: n in parts ==> key !in parts[n]
      ensures r.Some? ==> exists n :: n in parts && key in parts[n] && r.value == parts[n][key]
    {
      MatchIn(names, parts, key)
    }

    /** `caches.open(name)`: the partition, created empty at the end of the order when absent. */
    method Open(name: string)
      requires Valid()
      modifies this
      ensures Valid() && name in parts
      ensures names == if name in old(parts) then old(names) else old(names) + [name]
      ensures parts == if name in old(parts) then old(parts) else old(parts)[name := map[]]
    {
      if name !in parts {
        names := names + [name];
        parts := parts[name := map[]];
      }
    }

    /** `cache.put(request, response)` on an open partition. */
    method Put(name: string, key: string, r: Response)
      requires Valid() && name in parts
      modifies this
      ensures Valid() && names == old(names)
      ensures parts == old(parts)[name := old(parts)[name][key := r]]
    {
      parts := parts[name := parts[name][key := r]];
    }

    /** `caches.delete(name)`: drops the partition and reports whether it existed. */
    method Delete(name: string) returns (found: bool)
      requires Valid()
      modifies this
      ensures Valid()
      ensures found <==> name in old(parts)
      ensures names == Minus(old(names), [name]) && parts == old(parts) - {name}
    {
      found := name in parts;
      names := Minus(names, [name]);
      parts := parts - {name};
    }

    /** `cache.addAll(urls)` on an open partition, assumed all-or-nothing: every response is stored
        when every fetch gave an ok response, otherwise nothing is. */
    method AddAll(name: string, urls: seq<string>, outcomes: seq<NetOutcome>) returns (added: bool)
      requires Valid() && name in parts && |urls| == |outcomes|
      modifies this
      ensures Valid() && names == old(names)
      ensures added <==> AllFetchedOk(outcomes)
      ensures parts == if added then old(parts)[name := old(parts)[name] + Batch(urls, outcomes)]
                       else old(parts)
    {
      added := AllFetchedOk(outcomes);
      if added {
        parts := parts[name := parts[name] + Batch(urls, outcomes)];
      }
    }
  }
}
