/**
 * The seen-set: the identifiers already notified, the filter that drops them
 * from a search result, the notify loop that grows the set, and the state
 * file it is persisted to and loaded from.
 */
module Seen {
  import opened Items
  import opened Formatter

  /** r can be obtained from s by deleting elements, keeping the order. */
  predicate IsSubsequence<T(==)>(r: seq<T>, s: seq<T>)
    decreases |s|
  {
    if s == [] then r == []
    else (r != [] && r[0] == s[0] && IsSubsequence(r[1..], s[1..])) || IsSubsequence(r, s[1..])
  }

  /** r holds exactly the assets of `assets` whose id is not in seen, in their order. */
  ghost predicate Filtered(r: seq<Asset>, assets: seq<Asset>, seen: set<Id>) {
    && IsSubsequence(r, assets)
    && (forall a :: a in r <==> a in assets && a.id !in seen)
    && (forall a: Asset :: a.id !in seen ==> multiset(r)[a] == multiset(assets)[a])
  }

  /** The assets of a search result whose id has not been seen, in order. */
  function NewAssets(assets: seq<Asset>, seen: set<Id>): (r: seq<Asset>)
    ensures Filtered(r, assets, seen)
    decreases |assets|
  {
    if assets == [] then []
    else
      var rest := NewAssets(assets[1..], seen);
      var r := if assets[0].id in seen then rest else [assets[0]] + rest;
      FilterStep(assets, seen, rest);
      r
  }

  /** One step of the filter: decide the head, keep the filtered tail. */
  lemma FilterStep(assets: seq<Asset>, seen: set<Id>, rest: seq<Asset>)
    requires assets != [] && Filtered(rest, assets[1..], seen)
    ensures Filtered(if assets[0].id in seen then rest else [assets[0]] + rest, assets, seen)
  {
    assert assets == [assets[0]] + assets[1..];
    assert multiset(assets) == multiset{assets[0]} + multiset(assets[1..]);
    if assets[0].id !in seen {
      assert ([assets[0]] + rest)[1..] == rest;
      assert multiset([assets[0]] + rest) == multiset{assets[0]} + multiset(rest);
    }
  }

  /** A list with no seen id passes the filter unchanged. */
  lemma {:induction false} NewAssetsKeepsUnseen(assets: seq<Asset>, seen: set<Id>)
    requires forall a :: a in assets ==> a.id !in seen
    ensures NewAssets(assets, seen) == assets
    decreases |assets|
  {
    if assets != [] {
      NewAssetsKeepsUnseen(assets[1..], seen);
    }
  }

  /** Filtering twice against the same set gives the same list as filtering once. */
  lemma NewAssetsIdempotent(assets: seq<Asset>, seen: set<Id>)
    ensures NewAssets(NewAssets(assets, seen), seen) == NewAssets(assets, seen)
  {
    NewAssetsKeepsUnseen(NewAssets(assets, seen), seen);
  }

  /** A larger seen-set only removes more assets from the result. */
  lemma {:induction false} NewAssetsAntitone(assets: seq<Asset>, smaller: set<Id>, larger: set<Id>)
    requires smaller <= larger
    ensures IsSubsequence(NewAssets(assets, larger), NewAssets(assets, smaller))
    decreases |assets|
  {
    if assets != [] {
      NewAssetsAntitone(assets[1..], smaller, larger);
      var r := NewAssets(assets[1..], larger);
      var q := NewAssets(assets[1..], smaller);
      if assets[0].id !in smaller {
        assert NewAssets(assets, smaller) == [assets[0]] + q;
        assert ([assets[0]] + q)[1..] == q;
        if assets[0].id in larger {
          assert IsSubsequence(r, ([assets[0]] + q)[1..]);
        } else {
          assert NewAssets(assets, larger) == [assets[0]] + r;
          assert ([assets[0]] + r)[1..] == r;
        }
      }
    }
  }

  lemma FilterExample()
    ensures NewAssets([Asset("Asset", 1), Asset("Asset", 2)], {1}) == [Asset("Asset", 2)]
  {
  }

  /** The ids of a details result. */
  function IdsOf(details: seq<ItemDetail>): set<Id> {
    set d | d in details :: d.id
  }

  lemma IdsOfSnoc(details: seq<ItemDetail>, d: ItemDetail)
    ensures IdsOf(details + [d]) == IdsOf(details) + {d.id}
  {
    assert forall e :: e in details + [d] <==> e in details || e == d;
  }

  /** f applied to each element of s, in order. */
  function Map<A, B>(s: seq<A>, f: A -> B): (r: seq<B>)
    ensures |r| == |s|
    decreases |s|
  {
    if s == [] then [] else Map(s[..|s| - 1], f) + [f(s[|s| - 1])]
  }

  lemma {:induction false} MapAt<A, B>(s: seq<A>, f: A -> B, k: nat)
    requires k < |s|
    ensures Map(s, f)[k] == f(s[k])
    decreases |s|
  {
    if k < |s| - 1 {
      MapAt(s[..|s| - 1], f, k);
    }
  }

  lemma {:induction false} MapConcat<A, B>(s: seq<A>, t: seq<A>, f: A -> B)
    ensures Map(s + t, f) == Map(s, f) + Map(t, f)
    decreases |t|
  {
    if t != [] {
      var t' := t[..|t| - 1];
      var x := t[|t| - 1];
      assert (s + t)[..|s + t| - 1] == s + t' && (s + t)[|s + t| - 1] == x;
      MapConcat(s, t', f);
      calc {
        Map(s + t, f);
        Map(s + t', f) + [f(x)];
        Map(s, f) + Map(t', f) + [f(x)];
        Map(s, f) + (Map(t', f) + [f(x)]);
        Map(s, f) + Map(t, f);
      }
    } else {
      assert s + t == s;
    }
  }

  /** The messages sent for a details result, in order. */
  function Messages(details: seq<ItemDetail>): seq<string> {
    Map(details, Format)
  }

  /** The k-th message is the k-th detail, formatted. */
  lemma MessagesAt(details: seq<ItemDetail>, k: nat)
    requires k < |details|
    ensures |Messages(details)| == |details|
    ensures Messages(details)[k] == Format(details[k])
  {
    MapAt(details, Format, k);
  }

  /** Delivering more details appends their messages to what was already sent. */
  lemma MessagesConcat(before: seq<ItemDetail>, details: seq<ItemDetail>)
    ensures Messages(before + details) == Messages(before) + Messages(details)
  {
    MapConcat(before, details, Format);
  }

  /** Once the notified ids are in the seen-set, none of them passes the filter again. */
  lemma NotifiedAreNotNew(assets: seq<Asset>, seen: set<Id>, details: seq<ItemDetail>)
    ensures forall a :: a in NewAssets(assets, seen + IdsOf(details)) ==>
      a.id !in seen && forall d :: d in details ==> d.id != a.id
  {
  }

  predicate NoDuplicates<T(==)>(xs: seq<T>) {
    forall i, j :: 0 <= i < j < |xs| ==> xs[i] != xs[j]
  }

  /** A list without duplicates holds each of its elements exactly once. */
  lemma {:induction false} NoDuplicatesOnce<T>(xs: seq<T>, x: T)
    requires NoDuplicates(xs) && x in xs
    ensures multiset(xs)[x] == 1
    decreases |xs|
  {
    assert xs == [xs[0]] + xs[1..];
    if xs[0] == x {
      assert x !in xs[1..];
    } else {
      NoDuplicatesOnce(xs[1..], x);
    }
  }

  /** The state file as the program finds it at startup. */
  datatype StateFile = Missing | Malformed | Saved(ids: seq<Id>)

  /** The seen-set loaded at startup: the saved list, or empty if there is none. */
  function LoadSeen(file: StateFile): (seen: set<Id>)
    ensures file.Saved? ==> forall x :: x in seen <==> x in file.ids
    ensures !file.Saved? ==> seen == {}
  {
    match file
    case Saved(ids) => set x | x in ids
    case _ => {}
  }

  /** The file holds the set s as a list, each element once. */
  predicate Mirrors(file: StateFile, s: set<Id>) {
    file.Saved? && NoDuplicates(file.ids) && LoadSeen(file) == s
  }

  /** The list a set is written as: each element once, in some order. */
  method SetToList(s: set<Id>) returns (xs: seq<Id>)
    ensures forall x :: x in xs <==> x in s
    ensures NoDuplicates(xs)
    ensures |xs| == |s|
  {
    xs := [];
    var rest := s;
    while rest != {}
      invariant rest <= s
      invariant forall x :: x in xs <==> x in s && x !in rest
      invariant NoDuplicates(xs)
      invariant |xs| + |rest| == |s|
      decreases |rest|
    {
      var x :| x in rest;
      xs := xs + [x];
      rest := rest - {x};
    }
  }

  /** Persisting a set and loading it back gives the set, each id saved once. */
  lemma PersistReload(seen: set<Id>, ids: seq<Id>)
    requires forall x :: x in ids <==> x in seen
    requires NoDuplicates(ids)
    ensures LoadSeen(Saved(ids)) == seen
    ensures forall x :: x in seen ==> multiset(ids)[x] == 1
  {
    forall x | x in seen
      ensures multiset(ids)[x] == 1
    {
      NoDuplicatesOnce(ids, x);
    }
  }

  /**
   * The module-level state of the notifier: the seen-set, the contents of
   * the state file, and the messages handed to the chat so far.
   */
  class SeenStore {
    var items: set<Id>
    var file: StateFile
    /** The details whose message has been handed to the chat, in order. */
    var delivered: seq<ItemDetail>

    /** The text the chat has received: each delivered detail, formatted. */
    function Outbox(): seq<string>
      reads this
    {
      Messages(delivered)
    }

    /** Startup: load the state file, falling back to the empty set. */
    constructor Load(file: StateFile)
      ensures items == LoadSeen(file)
      ensures this.file == file
      ensures delivered == []
    {
      items := LoadSeen(file);
      this.file := file;
      delivered := [];
    }

    /** Rewrites the state file with the current set. */
    method Persist()
      modifies this`file
      ensures Mirrors(file, items)
    {
      var ids := SetToList(items);
      file := Saved(ids);
    }

    /**
     * One pass of the notify loop's body: format and send the message, add
     * the id to the set, rewrite the file.
     */
    method NotifyOne(item: ItemDetail)
      modifies this
      ensures items == old(items) + {item.id}
      ensures delivered == old(delivered) + [item]
      ensures Mirrors(file, items)
    {
      delivered := delivered + [item];
      items := items + {item.id};
      Persist();
    }

    /** The notify loop: NotifyOne for each detail, in order. */
    method NotifyAll(details: seq<ItemDetail>)
      modifies this
      ensures old(items) <= items
      ensures items == old(items) + IdsOf(details)
      ensures delivered == old(delivered) + details
      ensures details == [] ==> file == old(file)
      ensures details != [] ==> Mirrors(file, items)
    {
      var i := 0;
      while i < |details|
        invariant 0 <= i <= |details|
        invariant old(items) <= items
        invariant items == old(items) + IdsOf(details[..i])
        invariant delivered == old(delivered) + details[..i]
        invariant i == 0 ==> file == old(file)
        invariant i > 0 ==> Mirrors(file, items)
      {
        NotifyOne(details[i]);
        IdsOfSnoc(details[..i], details[i]);
        assert details[..i + 1] == details[..i] + [details[i]];
        i := i + 1;
      }
      assert details[..i] == details;
    }
  }
}
