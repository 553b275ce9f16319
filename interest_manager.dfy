/** Reviewing interests of users: reading them through a memoising cache of
    interest entries, rendering them as one string, and normalising the input
    of an update. The interest DAOs are replaced by parameters: the entries a
    query yields, a user's interest ids, and the entry lookup by id. */
module Interests {
  import opened Wrappers
  import Php

  /** A controlled-vocabulary entry holding one interest. */
  datatype InterestEntry = InterestEntry(id: int, interest: string)

  /** `getAllInterests`: the interest text of every entry the query yields,
      in order. */
  method GetAllInterests(entries: seq<InterestEntry>) returns (interests: seq<string>)
    ensures |interests| == |entries|
    ensures forall i :: 0 <= i < |entries| ==> interests[i] == entries[i].interest
  {
    interests := [];
    var i := 0;
    while i < |entries|
      invariant 0 <= i <= |entries|
      invariant |interests| == i
      invariant forall k :: 0 <= k < i ==> interests[k] == entries[k].interest
    {
      interests := interests + [entries[i].interest];
      i := i + 1;
    }
  }

  /** The cache holds an entry for `id` (PHP's `isset` is false for a cached
      `null`). */
  predicate Cached(cache: map<int, Option<InterestEntry>>, id: int) {
    id in cache && cache[id].Some?
  }

  /** The entry used for `id`: the cached one, or the lookup's answer. */
  function Resolve(cache: map<int, Option<InterestEntry>>, getById: int -> Option<InterestEntry>, id: int): (r: Option<InterestEntry>)
    ensures Cached(cache, id) ==> r == cache[id]
    ensures !Cached(cache, id) ==> r == getById(id)
  {
    if Cached(cache, id) then cache[id] else getById(id)
  }

  /** The interests of the ids, in order, skipping ids without an entry. */
  function Collect(ids: seq<int>, cache: map<int, Option<InterestEntry>>, getById: int -> Option<InterestEntry>): (r: seq<string>)
    ensures |r| <= |ids|
    decreases |ids|
  {
    if ids == [] then []
    else
      var e := Resolve(cache, getById, ids[|ids| - 1]);
      Collect(ids[..|ids| - 1], cache, getById) + (if e.Some? then [e.value.interest] else [])
  }

  /** Collecting distributes over concatenation of id lists. */
  lemma {:induction false} CollectAppend(a: seq<int>, b: seq<int>, cache: map<int, Option<InterestEntry>>, getById: int -> Option<InterestEntry>)
    ensures Collect(a + b, cache, getById) == Collect(a, cache, getById) + Collect(b, cache, getById)
    decreases |b|
  {
    if b != [] {
      var init := b[..|b| - 1];
      CollectAppend(a, init, cache, getById);
      assert (a + b)[..|a + b| - 1] == a + init;
      assert (a + b)[|a + b| - 1] == b[|b| - 1];
    } else {
      assert a + b == a;
    }
  }

  /** When every id resolves to an entry, the result lists their interests
      one for one; ids without an entry contribute nothing. */
  lemma {:induction false} CollectEntries(ids: seq<int>, cache: map<int, Option<InterestEntry>>, getById: int -> Option<InterestEntry>)
    ensures (forall i :: 0 <= i < |ids| ==> Resolve(cache, getById, ids[i]).Some?) ==>
      && |Collect(ids, cache, getById)| == |ids|
      && forall i :: 0 <= i < |ids| ==> Collect(ids, cache, getById)[i] == Resolve(cache, getById, ids[i]).value.interest
    ensures (forall i :: 0 <= i < |ids| ==> Resolve(cache, getById, ids[i]).None?) ==> Collect(ids, cache, getById) == []
    decreases |ids|
  {
    if ids != [] {
      var init := ids[..|ids| - 1];
      CollectEntries(init, cache, getById);
      assert forall i :: 0 <= i < |init| ==> init[i] == ids[i];
    }
  }

  /** `getInterestsString`'s separator. */
  const Separator: string := ", "

  // -----------------------------------------------------------------------
  // Updates
  // -----------------------------------------------------------------------

  /** The `$interests` argument of `setInterestsForUser`. */
  datatype InterestsInput = ListInput(items: seq<string>) | TextInput(text: string) | NullInput

  /** The normalisation in `setInterestsForUser`: an array passes through, an
      empty value (`null`, `''`, `'0'`) becomes `null`, and a string is split
      on `','` without trimming. */
  function NormaliseInterests(input: InterestsInput): (r: Option<seq<string>>)
    ensures input.ListInput? ==> r == Some(input.items)
    ensures input.NullInput? ==> r == None
    ensures input.TextInput? ==> (r.Some? <==> Php.Truthy(input.text))
    ensures input.TextInput? && r.Some? ==>
      && |r.value| >= 1
      && Php.Join(r.value, ",") == input.text
      && forall p :: p in r.value ==> ',' !in p
  {
    match input
    case ListInput(items) => Some(items)
    case NullInput => None
    case TextInput(text) =>
      if !Php.Truthy(text) then None
      else
        Php.JoinSplit(text, ',');
        Some(Php.Split(text, ','))
  }

  /** A space put in front of every interest. */
  function Spaced(xs: seq<string>): (r: seq<string>)
    ensures |r| == |xs|
    ensures forall i :: 0 <= i < |xs| ==> r[i] == " " + xs[i]
  {
    seq(|xs|, i requires 0 <= i < |xs| => " " + xs[i])
  }

  lemma {:induction false} JoinSpaced(xs: seq<string>)
    requires |xs| >= 1
    ensures " " + Php.Join(xs, Separator) == Php.Join(Spaced(xs), ",")
    decreases |xs|
  {
    if |xs| > 1 {
      JoinSpaced(xs[1..]);
      assert Spaced(xs)[1..] == Spaced(xs[1..]);
      assert " " + Php.Join(xs, Separator) == (" " + xs[0]) + "," + (" " + Php.Join(xs[1..], Separator));
    }
  }

  /** Joining with `", "` is joining with `','` after spacing every
      interest but the first. */
  lemma JoinAsCommaJoin(xs: seq<string>)
    requires |xs| > 1
    ensures Php.Join(xs, Separator) == Php.Join([xs[0]] + Spaced(xs[1..]), ",")
  {
    var ys := [xs[0]] + Spaced(xs[1..]);
    JoinSpaced(xs[1..]);
    assert ys[1..] == Spaced(xs[1..]);
    calc {
      Php.Join(xs, Separator);
      xs[0] + Separator + Php.Join(xs[1..], Separator);
      xs[0] + "," + (" " + Php.Join(xs[1..], Separator));
      xs[0] + "," + Php.Join(Spaced(xs[1..]), ",");
      Php.Join(ys, ",");
    }
  }

  lemma SpacedCommaFree(xs: seq<string>)
    requires |xs| >= 1
    requires forall x :: x in xs ==> ',' !in x
    ensures forall p :: p in [xs[0]] + Spaced(xs[1..]) ==> ',' !in p
  {
    var ys := [xs[0]] + Spaced(xs[1..]);
    forall p | p in ys ensures ',' !in p {
      var i :| 0 <= i < |ys| && ys[i] == p;
      assert xs[i] in xs;
      if i > 0 {
        assert p == " " + xs[i];
      }
    }
  }

  /** Feeding the interests string back into an update does not give the
      interests back: every interest after the first gains a leading space,
      and a single interest that PHP counts as empty is dropped. */
  lemma InterestsStringRoundTrip(xs: seq<string>)
    requires forall x :: x in xs ==> ',' !in x
    ensures NormaliseInterests(TextInput(Php.Join(xs, Separator)))
         == if xs == [] || (|xs| == 1 && !Php.Truthy(xs[0])) then None
            else Some([xs[0]] + Spaced(xs[1..]))
  {
    if |xs| == 1 {
      Php.SplitJoin(xs, ',');
      assert Spaced(xs[1..]) == [];
    } else if |xs| > 1 {
      var joined := Php.Join(xs, Separator);
      JoinAsCommaJoin(xs);
      SpacedCommaFree(xs);
      Php.SplitJoin([xs[0]] + Spaced(xs[1..]), ',');
      assert Php.Truthy(joined) by {
        assert joined == xs[0] + Separator + Php.Join(xs[1..], Separator);
        assert |joined| >= 2;
      }
    }
  }

  // -----------------------------------------------------------------------
  // The manager
  // -----------------------------------------------------------------------

  /** The ids asked for in a log of entry lookups. */
  function Ids(log: seq<(int, bool)>): (r: set<int>)
    ensures forall p :: p in log ==> p.0 in r
    ensures forall id :: id in r ==> exists p :: p in log && p.0 == id
  {
    set p | p in log :: p.0
  }

  class InterestManager {
    /** The `static $interestsCache` of `getInterestsForUser`, by entry id. */
    var cache: map<int, Option<InterestEntry>>
    /** The entry lookups made so far: the id asked for and whether an entry
        came back. */
    var lookups: seq<(int, bool)>
    /** The interest lists handed to the interest DAO, with the user id. */
    var stored: seq<(int, Option<seq<string>>)>

    /** An entry once found stays cached and is never looked up again. */
    predicate Valid()
      reads this
    {
      && (forall i, j :: 0 <= i < j < |lookups| && lookups[i].0 == lookups[j].0 ==> !lookups[i].1)
      && (forall i :: 0 <= i < |lookups| && lookups[i].1 ==> Cached(cache, lookups[i].0))
    }

    constructor ()
      ensures Valid() && cache == map[] && lookups == [] && stored == []
    {
      cache := map[];
      lookups := [];
      stored := [];
    }

    /** One id's turn in `getInterestsForUser`: the cache is filled from the
        lookup unless it already holds an entry for the id. */
    method Fetch(id: int, getById: int -> Option<InterestEntry>) returns (entry: Option<InterestEntry>)
      requires Valid()
      modifies this`cache, this`lookups
      ensures Valid()
      ensures entry == Resolve(old(cache), getById, id)
      ensures Cached(old(cache), id) ==> cache == old(cache) && lookups == old(lookups)
      ensures !Cached(old(cache), id) ==> cache == old(cache)[id := entry] && lookups == old(lookups) + [(id, entry.Some?)]
      ensures Cached(cache, id) <==> entry.Some?
      ensures forall x :: Resolve(cache, getById, x) == Resolve(old(cache), getById, x)
      ensures forall x :: Cached(old(cache), x) ==> Cached(cache, x) && cache[x] == old(cache)[x]
      ensures forall x :: Cached(cache, x) && !Cached(old(cache), x) ==> x == id
    {
      if !Cached(cache, id) {
        entry := getById(id);
        cache := cache[id := entry];
        lookups := lookups + [(id, entry.Some?)];
      } else {
        entry := cache[id];
      }
    }

    /** `getInterestsForUser`: `interestIds` are the user's interest entry ids
        and `getById` is the entry lookup. The result follows the cache as it
        was on entry; only ids without a cached entry are looked up, each of
        them at least once. */
    method GetInterestsForUser(interestIds: seq<int>, getById: int -> Option<InterestEntry>) returns (interests: seq<string>)
      requires Valid()
      modifies this`cache, this`lookups
      ensures Valid()
      ensures interests == Collect(interestIds, old(cache), getById)
      ensures forall id :: Cached(old(cache), id) ==> Cached(cache, id) && cache[id] == old(cache)[id]
      ensures |old(lookups)| <= |lookups| && lookups[..|old(lookups)|] == old(lookups)
      ensures forall p :: p in lookups[|old(lookups)|..] ==> p.0 in interestIds && !Cached(old(cache), p.0)
      ensures forall id :: id in interestIds && !Cached(old(cache), id) ==> id in Ids(lookups[|old(lookups)|..])
    {
      interests := [];
      ghost var added: seq<(int, bool)> := [];
      var i := 0;
      while i < |interestIds|
        invariant 0 <= i <= |interestIds|
        invariant Valid()
        invariant interests == Collect(interestIds[..i], old(cache), getById)
        invariant forall id :: Resolve(cache, getById, id) == Resolve(old(cache), getById, id)
        invariant forall id :: Cached(old(cache), id) ==> Cached(cache, id) && cache[id] == old(cache)[id]
        invariant lookups == old(lookups) + added
        invariant forall p :: p in added ==> p.0 in interestIds[..i] && !Cached(old(cache), p.0)
        invariant forall id :: id in interestIds[..i] && !Cached(old(cache), id) ==> id in Ids(added)
        invariant forall id :: Cached(cache, id) && !Cached(old(cache), id) ==> id in Ids(added)
      {
        var id := interestIds[i];
        assert interestIds[..i + 1] == interestIds[..i] + [id];
        ghost var wasCached := Cached(cache, id);
        var entry := Fetch(id, getById);
        if !wasCached {
          assert Ids(added + [(id, entry.Some?)]) == Ids(added) + {id};
          added := added + [(id, entry.Some?)];
        }
        if entry.Some? {
          interests := interests + [entry.value.interest];
        }
        i := i + 1;
      }
      assert interestIds[..i] == interestIds;
      assert lookups[|old(lookups)|..] == added;
    }

    /** `getInterestsString`: the user's interests joined with `", "`. */
    method GetInterestsString(interestIds: seq<int>, getById: int -> Option<InterestEntry>) returns (s: string)
      requires Valid()
      modifies this`cache, this`lookups
      ensures Valid()
      ensures s == Php.Join(Collect(interestIds, old(cache), getById), Separator)
    {
      var interests := GetInterestsForUser(interestIds, getById);
      s := Php.Join(interests, Separator);
    }

    /** `setInterestsForUser`: hands the normalised interests to the DAO. */
    method SetInterestsForUser(userId: int, input: InterestsInput)
      modifies this`stored
      ensures stored == old(stored) + [(userId, NormaliseInterests(input))]
    {
      stored := stored + [(userId, NormaliseInterests(input))];
    }
  }
}
