/** The reconciliation loops every syncer runs: adopt what is already stored, create what is
    missing, delete what is left over.

    A syncer decides from a listing and from a snapshot that may be stale, and other runs may write
    in between, so the loops are specified by the writes they make: each one that took effect is
    recorded, whoever made it. */
module SyncLoops {
  import opened Wrappers

  datatype Named<T> = Named(name: string, item: T)

  datatype Error = AlreadyExists | Missing | Fault

  /** A write that took effect on the stored resources of one kind. */
  datatype Write<T> = Created(name: string, item: T) | Deleted(name: string)

  // -------- writes and what they do --------

  function Apply<T>(m: map<string, T>, w: Write<T>): map<string, T> {
    match w
    case Created(name, item) => m[name := item]
    case Deleted(name) => m - {name}
  }

  /** The API server accepts a create of an absent name and a delete of a present one. */
  predicate Accepted<T>(m: map<string, T>, w: Write<T>) {
    match w
    case Created(name, _) => name !in m
    case Deleted(name) => name in m
  }

  ghost predicate Follows<T>(m: map<string, T>, ws: seq<Write<T>>, m': map<string, T>)
    decreases |ws|
  {
    if ws == [] then m' == m
    else Accepted(m, ws[0]) && Follows(Apply(m, ws[0]), ws[1..], m')
  }

  lemma {:induction false} FollowsAppend<T>(m: map<string, T>, ws: seq<Write<T>>, m': map<string, T>,
                                            more: seq<Write<T>>, m'': map<string, T>)
    requires Follows(m, ws, m') && Follows(m', more, m'')
    ensures Follows(m, ws + more, m'')
    decreases |ws|
  {
    if ws == [] {
      assert ws + more == more;
    } else {
      assert (ws + more)[1..] == ws[1..] + more;
      FollowsAppend(Apply(m, ws[0]), ws[1..], m', more, m'');
    }
  }

  // -------- safe writes --------

  /** A write that brings the stored names closer to the wanted ones. */
  predicate Safe<T>(w: Write<T>, wanted: set<string>) {
    match w
    case Created(name, _) => name in wanted
    case Deleted(name) => name !in wanted
  }

  predicate AllSafe<T>(ws: seq<Write<T>>, wanted: set<string>) {
    forall i :: 0 <= i < |ws| ==> Safe(ws[i], wanted)
  }

  predicate OnlyCreates<T>(ws: seq<Write<T>>) {
    forall i :: 0 <= i < |ws| ==> ws[i].Created?
  }

  ghost predicate AllOf<T>(ws: seq<Write<T>>, ok: Write<T> -> bool) {
    forall i :: 0 <= i < |ws| ==> ok(ws[i])
  }

  /** The names that are stored but not wanted, or wanted but not stored. */
  function Difference(stored: set<string>, wanted: set<string>): set<string> {
    (stored - wanted) + (wanted - stored)
  }

  /** A safe write that is accepted takes its name out of the difference. */
  lemma DifferenceLoses(stored: set<string>, after: set<string>, wanted: set<string>, name: string)
    requires
      if name in wanted then name !in stored && after == stored + {name}
      else name in stored && after == stored - {name}
    ensures |Difference(after, wanted)| == |Difference(stored, wanted)| - 1
  {
    assert name in Difference(stored, wanted);
    assert Difference(after, wanted) == Difference(stored, wanted) - {name};
  }

  lemma KeysAfter<T>(m: map<string, T>, w: Write<T>)
    ensures Apply(m, w).Keys == if w.Created? then m.Keys + {w.name} else m.Keys - {w.name}
  {
  }

  lemma DifferenceStep<T>(m: map<string, T>, w: Write<T>, wanted: set<string>)
    requires Accepted(m, w) && Safe(w, wanted)
    ensures |Difference(Apply(m, w).Keys, wanted)| == |Difference(m.Keys, wanted)| - 1
  {
    KeysAfter(m, w);
    DifferenceLoses(m.Keys, Apply(m, w).Keys, wanted, w.name);
  }

  /** Any interleaving of safe writes, by however many runs, from any store: every write removes
      exactly one name from the difference. */
  lemma {:induction false} SafeWritesConverge<T>(m: map<string, T>, ws: seq<Write<T>>, m': map<string, T>,
                                                 wanted: set<string>)
    requires Follows(m, ws, m') && AllSafe(ws, wanted)
    ensures |Difference(m'.Keys, wanted)| == |Difference(m.Keys, wanted)| - |ws|
    decreases |ws|
  {
    if ws != [] {
      assert Safe(ws[0], wanted);
      DifferenceStep(m, ws[0], wanted);
      SafeWritesConverge(Apply(m, ws[0]), ws[1..], m', wanted);
    }
  }

  /** Nor is a wanted name lost, or an unwanted one created, or a stored item replaced. */
  lemma {:induction false} SafeWritesSpare<T>(m: map<string, T>, ws: seq<Write<T>>, m': map<string, T>,
                                              wanted: set<string>, n: string)
    requires Follows(m, ws, m') && AllSafe(ws, wanted)
    ensures n !in m && n !in wanted ==> n !in m'
    ensures n in m && n in wanted ==> n in m'
    ensures n in m && n in m' ==> m'[n] == m[n]
    decreases |ws|
  {
    if ws != [] {
      assert Safe(ws[0], wanted);
      SafeWritesSpare(Apply(m, ws[0]), ws[1..], m', wanted, n);
    }
  }

  /** What is there afterwards and was not before has been created as it is. */
  lemma {:induction false} NewIsCreated<T>(m: map<string, T>, ws: seq<Write<T>>, m': map<string, T>,
                                           wanted: set<string>, n: string)
    requires Follows(m, ws, m') && AllSafe(ws, wanted) && n !in m && n in m'
    ensures Created(n, m'[n]) in ws
    decreases |ws|
  {
    assert ws != [] && Safe(ws[0], wanted);
    var m1 := Apply(m, ws[0]);
    assert forall w :: w in ws[1..] ==> w in ws;
    if n in m1 {
      SafeWritesSpare(m1, ws[1..], m', wanted, n);
      assert ws[0] == Created(n, m'[n]);
    } else {
      NewIsCreated(m1, ws[1..], m', wanted, n);
    }
  }

  /** What was there before and is not afterwards has been deleted. */
  lemma {:induction false} GoneIsDeleted<T>(m: map<string, T>, ws: seq<Write<T>>, m': map<string, T>, n: string)
    requires Follows(m, ws, m') && n in m && n !in m'
    ensures Deleted(n) in ws
    decreases |ws|
  {
    assert ws != [];
    assert forall w :: w in ws[1..] ==> w in ws;
    if n in Apply(m, ws[0]) {
      GoneIsDeleted(Apply(m, ws[0]), ws[1..], m', n);
    } else {
      assert ws[0] == Deleted(n);
    }
  }

  /** Where nothing is missing or superfluous, a safe run writes nothing. */
  lemma NothingLeftToDo<T>(m: map<string, T>, ws: seq<Write<T>>, m': map<string, T>, wanted: set<string>)
    requires Follows(m, ws, m') && AllSafe(ws, wanted) && m.Keys == wanted
    ensures ws == [] && m' == m
  {
  }

  // -------- listings --------

  function NamesOf<T>(listing: seq<Named<T>>): set<string> {
    set i | 0 <= i < |listing| :: listing[i].name
  }

  ghost predicate Distinct<T>(listing: seq<Named<T>>) {
    forall i, j :: 0 <= i < j < |listing| ==> listing[i].name != listing[j].name
  }

  lemma NamesOfSnoc<T>(listing: seq<Named<T>>, i: nat)
    requires i < |listing|
    ensures NamesOf(listing[..i + 1]) == NamesOf(listing[..i]) + {listing[i].name}
  {
  }

  lemma NamesOfAppend<T>(l1: seq<Named<T>>, l2: seq<Named<T>>)
    ensures NamesOf(l1 + l2) == NamesOf(l1) + NamesOf(l2)
  {
    var a, b := NamesOf(l1 + l2), NamesOf(l1) + NamesOf(l2);
    forall n | n in b
      ensures n in a
    {
      if n in NamesOf(l1) {
        var i :| 0 <= i < |l1| && l1[i].name == n;
        assert (l1 + l2)[i].name == n;
      } else {
        var i :| 0 <= i < |l2| && l2[i].name == n;
        assert (l1 + l2)[|l1| + i].name == n;
      }
    }
    forall n | n in a
      ensures n in b
    {
      var i :| 0 <= i < |l1 + l2| && (l1 + l2)[i].name == n;
      if i < |l1| { assert l1[i].name == n; } else { assert l2[i - |l1|].name == n; }
    }
  }

  /** A listing in two parts is free of duplicates when both parts are and they share no name. */
  lemma DistinctAppend<T>(l1: seq<Named<T>>, l2: seq<Named<T>>)
    ensures
      Distinct(l1 + l2) <==>
      Distinct(l1) && Distinct(l2) && forall i, j :: 0 <= i < |l1| && 0 <= j < |l2| ==> l1[i].name != l2[j].name
  {
    var l := l1 + l2;
    assert forall i :: 0 <= i < |l1| ==> l[i] == l1[i];
    assert forall j :: 0 <= j < |l2| ==> l[|l1| + j] == l2[j];
    if Distinct(l) {
      forall i, j | 0 <= i < j < |l2|
        ensures l2[i].name != l2[j].name
      {
        assert l[|l1| + i].name != l[|l1| + j].name;
      }
      forall i, j | 0 <= i < |l1| && 0 <= j < |l2|
        ensures l1[i].name != l2[j].name
      {
        assert l[i].name != l[|l1| + j].name;
      }
    }
  }

  // -------- the API server of one kind of resource --------

  class Resources<T(==,0)> {
    var items: map<string, T>
    ghost var writes: seq<Write<T>>
    /** The answers to list requests, in order. */
    ghost var answers: seq<map<string, T>>
    /** How many requests have met a fault. */
    ghost var faults: nat
    /** Nobody else writes these resources, and lists are current. */
    const exact: bool

    constructor (items: map<string, T>, exact: bool)
      ensures this.items == items && this.exact == exact && writes == [] && answers == [] && faults == 0
    {
      this.items := items;
      this.exact := exact;
      writes := [];
      answers := [];
      faults := 0;
    }

    /** What was written since a given moment. */
    ghost function Since(n: nat): seq<Write<T>>
      requires n <= |writes|
      reads this
    {
      writes[n..]
    }

    /** The resources by name, as far as the cache has them. */
    method List() returns (r: Result<map<string, T>, Error>)
      modifies `faults, `answers
      ensures exact && r.Success? ==> r.value == items
      ensures answers == old(answers) + if r.Success? then [r.value] else []
      ensures r.Failure? ==> r.error == Fault
      ensures faults == old(faults) + if r.Failure? then 1 else 0
    {
      var failed: bool := *;
      if failed {
        faults := faults + 1;
        return Failure(Fault);
      }
      var snapshot: map<string, T> := *;
      if exact { snapshot := items; }
      answers := answers + [snapshot];
      r := Success(snapshot);
    }

    method Create(name: string, item: T) returns (err: Option<Error>)
      modifies this
      ensures
        || (writes == old(writes) && items == old(items) && err.Some?)
        || (writes == old(writes) + [Created(name, item)] && items == old(items)[name := item] && name !in old(items))
      ensures err.None? ==> writes != old(writes)
      ensures err.Some? && err != Some(Fault) ==> err == Some(AlreadyExists) && name in old(items)
      ensures faults == old(faults) + if err == Some(Fault) then 1 else 0
    {
      var failed, effective: bool := *, *;
      faults := if failed then faults + 1 else faults;
      if name in items {
        return Some(if failed then Fault else AlreadyExists);
      }
      if effective || !failed {
        items := items[name := item];
        writes := writes + [Created(name, item)];
      }
      return if failed then Some(Fault) else None;
    }

    method Delete(name: string) returns (err: Option<Error>)
      modifies this
      ensures
        || (writes == old(writes) && items == old(items) && err.Some?)
        || (writes == old(writes) + [Deleted(name)] && items == old(items) - {name} && name in old(items))
      ensures err.None? ==> writes != old(writes)
      ensures err.Some? && err != Some(Fault) ==> err == Some(Missing) && name !in old(items)
      ensures faults == old(faults) + if err == Some(Fault) then 1 else 0
    {
      var failed, effective: bool := *, *;
      faults := if failed then faults + 1 else faults;
      if name !in items {
        return Some(if failed then Fault else Missing);
      }
      if effective || !failed {
        items := items - {name};
        writes := writes + [Deleted(name)];
      }
      return if failed then Some(Fault) else None;
    }

    /** Other runs against the same cloud listing. */
    method Others(wanted: set<string>)
      modifies `items, `writes
      ensures old(writes) <= writes
      ensures Follows(old(items), Since(|old(writes)|), items) && AllSafe(Since(|old(writes)|), wanted)
      ensures exact ==> items == old(items) && writes == old(writes)
    {
      var n: nat := *;
      ghost var start := |writes|;
      while n > 0 && !exact
        invariant old(writes) <= writes
        invariant Follows(old(items), Since(start), items) && AllSafe(Since(start), wanted)
        invariant exact ==> items == old(items) && writes == old(writes)
      {
        var name: string := *;
        var item: T := *;
        ghost var before, done := items, Since(start);
        if (name in wanted) != (name in items) {
          var w := if name in wanted then Created(name, item) else Deleted(name);
          items := Apply(items, w);
          writes := writes + [w];
          assert Follows(before, [w], items);
          FollowsAppend(old(items), done, before, [w], items);
          assert Since(start) == done + [w];
        }
        n := n - 1;
      }
    }
  }

  // -------- the loops --------

  /** The stored resources after adopting a listing: old ones as they were, new ones as listed. */
  ghost predicate Adopted<T>(origin: map<string, T>, listing: seq<Named<T>>, items: map<string, T>) {
    && items.Keys == origin.Keys + NamesOf(listing)
    && (forall n :: n in origin ==> items[n] == origin[n])
    && (forall i :: 0 <= i < |listing| && listing[i].name !in origin ==> items[listing[i].name] == listing[i].item)
  }

  /** Where an exact run stands after part of the listing. */
  ghost predicate Progress<T>(origin: map<string, T>, seen: seq<Named<T>>, items: map<string, T>,
                              leftover: map<string, T>) {
    && Distinct(seen)
    && Adopted(origin, seen, items)
    && leftover == origin - NamesOf(seen)
  }

  /** One more listed name that was stored. */
  lemma AdoptOne<T>(origin: map<string, T>, seen: seq<Named<T>>, items: map<string, T>, leftover: map<string, T>,
                    next: Named<T>)
    requires Progress(origin, seen, items, leftover) && next.name in leftover
    ensures Progress(origin, seen + [next], items, leftover - {next.name})
  {
    NamesOfSnoc(seen + [next], |seen|);
    assert (seen + [next])[..|seen|] == seen && (seen + [next])[..|seen| + 1] == seen + [next];
    forall i | 0 <= i < |seen|
      ensures seen[i].name != next.name
    {
      assert seen[i].name in NamesOf(seen);
    }
  }

  /** One more listed name that was missing and has been created. */
  lemma CreateOne<T>(origin: map<string, T>, seen: seq<Named<T>>, items: map<string, T>, leftover: map<string, T>,
                     next: Named<T>)
    requires Progress(origin, seen, items, leftover) && next.name !in items
    ensures Progress(origin, seen + [next], items[next.name := next.item], leftover)
  {
    var more, items' := seen + [next], items[next.name := next.item];
    NamesOfSnoc(more, |seen|);
    assert more[..|seen|] == seen && more[..|seen| + 1] == more;
    forall i | 0 <= i < |seen|
      ensures seen[i].name != next.name
    {
      assert seen[i].name in NamesOf(seen);
    }
    assert leftover == origin - NamesOf(more) by {
      assert next.name !in origin;
    }
    assert items'.Keys == items.Keys + {next.name};
    assert Adopted(origin, more, items');
  }

  /** Going one further in a listing; a name that is listed again makes the listing ambiguous. */
  lemma SplitListing<T>(seen: seq<Named<T>>, listing: seq<Named<T>>, i: nat)
    requires i < |listing|
    ensures NamesOf(listing[..i + 1]) == NamesOf(listing[..i]) + {listing[i].name}
    ensures seen + listing[..i + 1] == seen + listing[..i] + [listing[i]]
    ensures listing[i].name in NamesOf(listing)
    ensures listing[i].name in NamesOf(seen + listing[..i]) ==> !Distinct(seen + listing)
  {
    NamesOfSnoc(listing, i);
    var before, all := seen + listing[..i], seen + listing;
    if listing[i].name in NamesOf(before) {
      var j :| 0 <= j < |before| && before[j].name == listing[i].name;
      assert all[j] == before[j] && all[|before|] == listing[i];
    }
  }

  /** The writes of a method so far, followed by one more step that obeyed the rules. */
  lemma Extend<T>(m: map<string, T>, before: seq<Write<T>>, m1: map<string, T>, after: seq<Write<T>>,
                  m2: map<string, T>,
                  all0: seq<Write<T>>, all1: seq<Write<T>>, all2: seq<Write<T>>, wanted: set<string>,
                  ok: Write<T> -> bool)
    requires all0 <= all1 <= all2 && before == all1[|all0|..] && after == all2[|all1|..]
    requires Follows(m, before, m1) && Follows(m1, after, m2)
    requires AllSafe(before, wanted) && AllSafe(after, wanted)
    ensures Follows(m, all2[|all0|..], m2) && AllSafe(all2[|all0|..], wanted)
    ensures OnlyCreates(before) && OnlyCreates(after) ==> OnlyCreates(all2[|all0|..])
    ensures AllOf(before, ok) && AllOf(after, ok) ==> AllOf(all2[|all0|..], ok)
  {
    assert all2[|all0|..] == before + after;
    FollowsAppend(m, before, m1, after, m2);
  }

  /** What the loops over listings write: only safe writes, and on their own only proper creates. */
  ghost predicate Adopting<T>(exact: bool, m: map<string, T>, ws: seq<Write<T>>, m': map<string, T>,
                              wanted: set<string>, ok: Write<T> -> bool) {
    Follows(m, ws, m') && AllSafe(ws, wanted) && (exact ==> OnlyCreates(ws) && AllOf(ws, ok))
  }

  lemma AdoptingMore<T>(exact: bool, m: map<string, T>, m1: map<string, T>, m2: map<string, T>,
                        all0: seq<Write<T>>, all1: seq<Write<T>>, all2: seq<Write<T>>, wanted: set<string>,
                        ok: Write<T> -> bool)
    requires all0 <= all1 <= all2
    requires Adopting(exact, m, all1[|all0|..], m1, wanted, ok) && Adopting(exact, m1, all2[|all1|..], m2, wanted, ok)
    ensures Adopting(exact, m, all2[|all0|..], m2, wanted, ok)
  {
    Extend(m, all1[|all0|..], m1, all2[|all1|..], m2, all0, all1, all2, wanted, ok);
  }

  /** A create request of this run, after whatever others have done meanwhile. */
  method TryCreate<T(==,0)>(store: Resources<T>, next: Named<T>, wanted: set<string>, ghost ok: Write<T> -> bool)
    returns (err: Option<Error>)
    requires next.name in wanted && (store.exact ==> ok(Created(next.name, next.item)))
    modifies store
    ensures old(store.writes) <= store.writes
    ensures store.faults == old(store.faults) + if err == Some(Fault) then 1 else 0
    ensures Adopting(store.exact, old(store.items), store.Since(|old(store.writes)|), store.items, wanted, ok)
    ensures store.exact && err.None? ==>
              next.name !in old(store.items) && store.items == old(store.items)[next.name := next.item]
    ensures store.exact && err.Some? && err != Some(Fault) ==>
              err == Some(AlreadyExists) && next.name in old(store.items)
  {
    ghost var m0, w0 := store.items, store.writes;
    store.Others(wanted);
    ghost var m1, w1 := store.items, store.writes;
    err := store.Create(next.name, next.item);
    assert store.Since(|w1|) == [] || store.Since(|w1|) == [Created(next.name, next.item)];
    assert Follows(m1, store.Since(|w1|), store.items);
    Extend(m0, w1[|w0|..], m1, store.Since(|w1|), store.items, w0, w1, store.writes, wanted, ok);
  }

  /** A delete request of this run, after whatever others have done meanwhile. */
  method TryDelete<T(==,0)>(store: Resources<T>, name: string, wanted: set<string>, ghost ok: Write<T> -> bool)
    returns (err: Option<Error>)
    requires name !in wanted && (store.exact ==> ok(Deleted(name)))
    modifies store
    ensures old(store.writes) <= store.writes
    ensures store.faults == old(store.faults) + if err == Some(Fault) then 1 else 0
    ensures Follows(old(store.items), store.Since(|old(store.writes)|), store.items)
    ensures AllSafe(store.Since(|old(store.writes)|), wanted)
    ensures store.exact && err.None? ==> name in old(store.items) && store.items == old(store.items) - {name}
    ensures store.exact && err.Some? && err != Some(Fault) ==> name !in old(store.items)
    ensures store.exact ==> AllOf(store.Since(|old(store.writes)|), ok)
  {
    ghost var m0, w0 := store.items, store.writes;
    store.Others(wanted);
    ghost var m1, w1 := store.items, store.writes;
    err := store.Delete(name);
    assert store.Since(|w1|) == [] || store.Since(|w1|) == [Deleted(name)];
    assert Follows(m1, store.Since(|w1|), store.items);
    Extend(m0, w1[|w0|..], m1, store.Since(|w1|), store.items, w0, w1, store.writes, wanted, ok);
  }

  /** One round of the loop over a listing: a name in the map is crossed off, any other is created. */
  method Handle<T(==,0)>(store: Resources<T>, leftover: map<string, T>, next: Named<T>, wanted: set<string>,
                         ghost origin: map<string, T>, ghost seen: seq<Named<T>>, ghost ok: Write<T> -> bool)
    returns (err: Option<Error>, left: map<string, T>)
    requires next.name in wanted && (store.exact ==> ok(Created(next.name, next.item)))
    requires store.exact ==> Progress(origin, seen, store.items, leftover)
    modifies store
    ensures old(store.writes) <= store.writes
    ensures store.faults == old(store.faults) + if err == Some(Fault) then 1 else 0
    ensures Adopting(store.exact, old(store.items), store.Since(|old(store.writes)|), store.items, wanted, ok)
    ensures left == leftover - {next.name}
    ensures store.exact && err.None? ==> Progress(origin, seen + [next], store.items, left)
    ensures store.exact && err.Some? && err != Some(Fault) ==> err == Some(AlreadyExists) && next.name in NamesOf(seen)
  {
    left := leftover - {next.name};
    if next.name in leftover {
      if store.exact { AdoptOne(origin, seen, store.items, leftover, next); }
      return None, left;
    }
    assert left == leftover;
    ghost var items := store.items;
    err := TryCreate(store, next, wanted, ok);
    if store.exact && err.None? { CreateOne(origin, seen, items, leftover, next); }
  }

  /** The loop over a listing. `origin` and `seen` describe an exact run up to here. */
  method AdoptOrCreate<T(==,0)>(store: Resources<T>, snapshot: map<string, T>, listing: seq<Named<T>>,
                                wanted: set<string>,
                                ghost origin: map<string, T>, ghost seen: seq<Named<T>>, ghost ok: Write<T> -> bool)
    returns (err: Option<Error>, leftover: map<string, T>)
    requires NamesOf(listing) <= wanted
    requires store.exact ==> forall i :: 0 <= i < |listing| ==> ok(Created(listing[i].name, listing[i].item))
    requires store.exact ==> Progress(origin, seen, store.items, snapshot)
    modifies store
    ensures old(store.writes) <= store.writes
    ensures store.faults == old(store.faults) + if err == Some(Fault) then 1 else 0
    ensures Adopting(store.exact, old(store.items), store.Since(|old(store.writes)|), store.items, wanted, ok)
    ensures err.None? ==> leftover == snapshot - NamesOf(listing)
    ensures store.exact && err.None? ==> Progress(origin, seen + listing, store.items, leftover)
    ensures store.exact && err.Some? && err != Some(Fault) ==> err == Some(AlreadyExists) && !Distinct(seen + listing)
  {
    leftover := snapshot;
    ghost var start, items0 := store.writes, store.items;
    var i := 0;
    assert seen + listing[..0] == seen;
    while i < |listing|
      invariant 0 <= i <= |listing|
      invariant start <= store.writes && store.faults == old(store.faults)
      invariant Adopting(store.exact, items0, store.Since(|start|), store.items, wanted, ok)
      invariant leftover == snapshot - NamesOf(listing[..i])
      invariant store.exact ==> Progress(origin, seen + listing[..i], store.items, leftover)
    {
      var next := listing[i];
      ghost var w1, m1 := store.writes, store.items;
      SplitListing(seen, listing, i);
      assert next.name in wanted;
      err, leftover := Handle(store, leftover, next, wanted, origin, seen + listing[..i], ok);
      AdoptingMore(store.exact, items0, m1, store.items, start, w1, store.writes, wanted, ok);
      if err.Some? {
        return;
      }
      i := i + 1;
    }
    assert listing[..i] == listing;
    err := None;
  }

  /** The resources of a leftover map that may be deleted. */
  function Deletable<T>(leftover: map<string, T>, keep: T -> bool): set<string> {
    set n | n in leftover && !keep(leftover[n])
  }

  /** The loop over what is left, in whatever order the map yields it. */
  method Prune<T(==,0)>(store: Resources<T>, leftover: map<string, T>, keep: T -> bool, wanted: set<string>,
                        ghost ok: Write<T> -> bool)
    returns (err: Option<Error>)
    requires leftover.Keys !! wanted
    requires store.exact ==> forall n :: n in Deletable(leftover, keep) ==> ok(Deleted(n))
    requires store.exact ==> leftover.Keys <= store.items.Keys
    modifies store
    ensures old(store.writes) <= store.writes
    ensures store.faults == old(store.faults) + if err == Some(Fault) then 1 else 0
    ensures Follows(old(store.items), store.Since(|old(store.writes)|), store.items)
    ensures AllSafe(store.Since(|old(store.writes)|), wanted)
    ensures store.exact && err.None? ==> store.items == old(store.items) - Deletable(leftover, keep)
    ensures store.exact && err.Some? ==> err == Some(Fault)
    ensures store.exact ==> AllOf(store.Since(|old(store.writes)|), ok)
  {
    ghost var start := store.writes;
    ghost var items0 := store.items;
    var todo := leftover.Keys;
    ghost var gone: set<string> := {};
    while todo != {}
      invariant todo <= leftover.Keys && gone == Deletable(leftover, keep) - todo
      invariant start <= store.writes && store.faults == old(store.faults)
      invariant Follows(items0, store.Since(|start|), store.items) && AllSafe(store.Since(|start|), wanted)
      invariant store.exact ==> store.items == items0 - gone && AllOf(store.Since(|start|), ok)
      decreases todo
    {
      var n :| n in todo;
      todo := todo - {n};
      if keep(leftover[n]) {
        assert n !in Deletable(leftover, keep);
        continue;
      }
      assert n !in gone;
      ghost var m1, w1 := store.items, store.writes;
      assert n in Deletable(leftover, keep);
      err := TryDelete(store, n, wanted, ok);
      Extend(items0, w1[|start|..], m1, store.Since(|w1|), store.items, start, w1, store.writes, wanted, ok);
      if err.Some? {
        return;
      }
      gone := gone + {n};
    }
    err := None;
  }

  // -------- one run of a syncer --------

  /** What a run aims at: the listed names and the protected rest, stored items left alone. */
  ghost predicate Target<T>(origin: map<string, T>, listing: seq<Named<T>>, keep: T -> bool, items: map<string, T>) {
    && items.Keys == NamesOf(listing) + (set n | n in origin && keep(origin[n]))
    && (forall n :: n in origin && n in items ==> items[n] == origin[n])
    && (forall i :: 0 <= i < |listing| && listing[i].name !in origin ==> items[listing[i].name] == listing[i].item)
  }

  lemma AdoptThenPrune<T>(origin: map<string, T>, listing: seq<Named<T>>, keep: T -> bool,
                          adopted: map<string, T>, leftover: map<string, T>, items: map<string, T>)
    requires Progress(origin, listing, adopted, leftover)
    requires items == adopted - Deletable(leftover, keep)
    ensures Target(origin, listing, keep, items)
  {
  }

  /** Any two runs that reach the target agree, whatever order they deleted in. */
  lemma TargetUnique<T>(origin: map<string, T>, listing: seq<Named<T>>, keep: T -> bool, a: map<string, T>,
                        b: map<string, T>)
    requires Target(origin, listing, keep, a) && Target(origin, listing, keep, b)
    ensures a == b
  {
  }

  /** Kinds of resources without protected objects. */
  predicate Unprotected<T>(item: T) { false }

  /** A write that a run makes on its way to the target: a listed resource is created as listed, or a
      stored one that is not protected is deleted. */
  ghost predicate Proper<T>(origin: map<string, T>, listing: seq<Named<T>>, keep: T -> bool, w: Write<T>) {
    match w
    case Created(name, item) => Named(name, item) in listing
    case Deleted(name) => name in origin && !keep(origin[name])
  }

  ghost predicate AllProper<T>(origin: map<string, T>, listing: seq<Named<T>>, keep: T -> bool, ws: seq<Write<T>>) {
    forall i :: 0 <= i < |ws| ==> Proper(origin, listing, keep, ws[i])
  }

  /** The contract of one run. Whatever the snapshot and whoever interferes, only safe writes are
      made. With an accurate snapshot and nobody interfering they are proper ones, wherever the run stops.
      If moreover there is no fault, the run succeeds exactly when the listed names are distinct, and then
      the target is stored; otherwise it deletes nothing. */
  ghost predicate Reconciled<T>(exact: bool, origin: map<string, T>, ws: seq<Write<T>>, items: map<string, T>,
                                      listing: seq<Named<T>>, keep: T -> bool, err: Option<Error>) {
    && Follows(origin, ws, items)
    && AllSafe(ws, NamesOf(listing))
    && (exact ==> AllProper(origin, listing, keep, ws))
    && (exact && err != Some(Fault) ==> (err.None? <==> Distinct(listing)))
    && (exact && err.None? ==> Target(origin, listing, keep, items))
    && (exact && err.Some? && err != Some(Fault) ==> err == Some(AlreadyExists) && OnlyCreates(ws))
  }

  /** Wherever a run stops: what is listed or protected is left alone, and what is new is as listed. */
  lemma StoppedRun<T>(exact: bool, m0: map<string, T>, ws: seq<Write<T>>, m1: map<string, T>, listing: seq<Named<T>>,
                      keep: T -> bool, err: Option<Error>, n: string)
    requires Reconciled(exact, m0, ws, m1, listing, keep, err)
    ensures n in m0 && n in m1 ==> m1[n] == m0[n]
    ensures n in m0 && n !in m1 ==> n !in NamesOf(listing) && (exact ==> !keep(m0[n]))
    ensures n !in m0 && n in m1 ==> n in NamesOf(listing) && (exact ==> Named(n, m1[n]) in listing)
  {
    SafeWritesSpare(m0, ws, m1, NamesOf(listing), n);
    if n in m0 && n !in m1 {
      GoneIsDeleted(m0, ws, m1, n);
      var i :| 0 <= i < |ws| && ws[i] == Deleted(n);
      assert Safe(ws[i], NamesOf(listing)) && (exact ==> Proper(m0, listing, keep, ws[i]));
    }
    if n !in m0 && n in m1 {
      NewIsCreated(m0, ws, m1, NamesOf(listing), n);
      var i :| 0 <= i < |ws| && ws[i] == Created(n, m1[n]);
      assert Safe(ws[i], NamesOf(listing)) && (exact ==> Proper(m0, listing, keep, ws[i]));
    }
  }

  /** The syncers of instances, VPCs and VPNs from their listing on. */
  method SyncAll<T(==,0)>(store: Resources<T>, listing: seq<Named<T>>) returns (err: Option<Error>)
    modifies store
    ensures old(store.writes) <= store.writes
    ensures store.faults == old(store.faults) + if err == Some(Fault) then 1 else 0
    ensures
      Reconciled(store.exact, old(store.items), store.Since(|old(store.writes)|), store.items,
                 listing, Unprotected, err)
  {
    var wanted := NamesOf(listing);
    ghost var items0, w0 := store.items, store.writes;
    var listed := store.List();
    if listed.Failure? {
      return Some(listed.error);
    }
    var leftover: map<string, T>;
    ghost var ok := (w: Write<T>) => Proper(items0, listing, Unprotected, w);
    assert store.exact ==> Progress(items0, [], store.items, listed.value);
    err, leftover := AdoptOrCreate(store, listed.value, listing, wanted, items0, [], ok);
    assert [] + listing == listing;
    if err.Some? {
      return;
    }
    ghost var m1, w1 := store.items, store.writes;
    err := Prune(store, leftover, Unprotected, wanted, ok);
    Extend(items0, w1[|w0|..], m1, store.Since(|w1|), store.items, w0, w1, store.writes, wanted, ok);
    if store.exact && err.None? {
      AdoptThenPrune(items0, listing, Unprotected, m1, leftover, store.items);
    }
  }

  /** What a successful exact run leaves; a second run against the same listing writes nothing, and
      the first wrote once for every name that was missing or superfluous. */
  lemma WorkIsMinimal<T>(m0: map<string, T>, ws1: seq<Write<T>>, m1: map<string, T>, ws2: seq<Write<T>>,
                         m2: map<string, T>,
                         listing: seq<Named<T>>)
    requires Reconciled(true, m0, ws1, m1, listing, Unprotected, None)
    requires Follows(m1, ws2, m2) && AllSafe(ws2, NamesOf(listing))
    ensures |ws1| == |Difference(m0.Keys, NamesOf(listing))|
    ensures ws2 == [] && m2 == m1
  {
    var wanted := NamesOf(listing);
    assert (set n | n in m0 && Unprotected(m0[n])) == {};
    assert m1.Keys == wanted;
    assert Difference(m1.Keys, wanted) == {};
    SafeWritesConverge(m0, ws1, m1, wanted);
    NothingLeftToDo(m1, ws2, m2, wanted);
  }

  /** The difference falls into what is missing, what is superfluous, and what is kept although it is
      not wanted. */
  lemma SplitDifference(stored: set<string>, wanted: set<string>, kept: set<string>)
    requires kept <= stored
    ensures
      |Difference(stored, wanted)| == |wanted - stored| + |stored - wanted - kept| + |Difference(wanted + kept, wanted)|
  {
    var missing, superfluous, rest := wanted - stored, stored - wanted - kept, kept - wanted;
    assert Difference(wanted + kept, wanted) == rest;
    assert Difference(stored, wanted) == missing + superfluous + rest;
  }

  function Kept<T>(stored: map<string, T>, keep: T -> bool): set<string> {
    set n | n in stored && keep(stored[n])
  }

  /** Stored, but neither listed nor protected. */
  function Superfluous<T>(stored: map<string, T>, listed: set<string>, keep: T -> bool): (r: set<string>)
    ensures r == stored.Keys - listed - Kept(stored, keep)
  {
    set n | n in stored && n !in listed && !keep(stored[n])
  }

  lemma TargetKeys<T>(origin: map<string, T>, listing: seq<Named<T>>, keep: T -> bool, items: map<string, T>)
    requires Target(origin, listing, keep, items)
    ensures items.Keys == NamesOf(listing) + Kept(origin, keep)
  {
  }

  /** Protected objects or not, a successful exact run writes once for each listed name that was missing
      and once for each stored one that is neither listed nor protected. */
  lemma WritesAreMinimal<T>(m0: map<string, T>, ws: seq<Write<T>>, m1: map<string, T>, listing: seq<Named<T>>,
                            keep: T -> bool)
    requires Reconciled(true, m0, ws, m1, listing, keep, None)
    ensures |ws| == |NamesOf(listing) - m0.Keys| + |Superfluous(m0, NamesOf(listing), keep)|
  {
    TargetKeys(m0, listing, keep, m1);
    SafeWritesConverge(m0, ws, m1, NamesOf(listing));
    SplitDifference(m0.Keys, NamesOf(listing), Kept(m0, keep));
  }

  /** Protected objects or not: a second exact run against a listing of the same names writes nothing. */
  lemma RerunWritesNothing<T>(m0: map<string, T>, ws1: seq<Write<T>>, m1: map<string, T>, l1: seq<Named<T>>,
                              ws2: seq<Write<T>>, m2: map<string, T>, l2: seq<Named<T>>, keep: T -> bool)
    requires Reconciled(true, m0, ws1, m1, l1, keep, None) && Reconciled(true, m1, ws2, m2, l2, keep, None)
    requires NamesOf(l1) == NamesOf(l2)
    ensures ws2 == [] && m2 == m1
  {
    var p0, p1 := set n | n in m0 && keep(m0[n]), set n | n in m1 && keep(m1[n]);
    assert p0 <= p1 <= NamesOf(l1) + p0;
    assert m2.Keys == m1.Keys;
    SafeWritesConverge(m1, ws2, m2, NamesOf(l2));
  }
}
