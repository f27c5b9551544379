/**
 * The metadata updater: the attribute merge, the object merge of an update
 * and the repair plan of `validateAndRepairMetadata`. Reading and writing
 * the stored JSON files is left to the caller: the stored metadata (or `null`
 * when there is none) and the clock are parameters.
 */
module UpdateMetadata {
  import opened Wrappers
  import opened Js
  import GenerateMetadata

  // ------------------------------------------------------ mergeAttributes

  /** `attr.trait_type` of a value that is not undefined or null. */
  function Trait(a: Json): Json {
    Get(a, "trait_type")
  }

  /** `merged.findIndex(attr => attr.trait_type === update.trait_type)`, from
      position `i` on: the callback reads `attr.trait_type` before
      `update.trait_type`, so an undefined or null entry throws first. */
  function FindFrom(merged: seq<Json>, update: Json, i: nat): (r: Result<int, string>)
    ensures r.Ok? && r.value >= 0 ==>
      i <= r.value < |merged| && StrictEquals(Trait(merged[r.value]), Trait(update))
    ensures r.Ok? && r.value < 0 ==> r.value == -1
    decreases |merged| - i
  {
    if i >= |merged| then Ok(-1)
    else if Nullish(merged[i]) then Err(ReadError(merged[i], "trait_type"))
    else if Nullish(update) then Err(ReadError(update, "trait_type"))
    else if StrictEquals(Trait(merged[i]), Trait(update)) then Ok(i)
    else FindFrom(merged, update, i + 1)
  }

  /** One turn of the `forEach`: the update replaces the first attribute of
      its trait type, or is pushed at the end. */
  function MergeOne(merged: seq<Json>, update: Json): (r: Result<seq<Json>, string>)
    ensures r.Ok? ==> |r.value| == |merged| || r.value == merged + [update]
  {
    var found := FindFrom(merged, update, 0);
    if found.Err? then Err(found.error)
    else if found.value >= 0 then Ok(merged[found.value := update])
    else Ok(merged + [update])
  }

  /** The `forEach` over the updates, first to last. */
  function MergeAll(merged: seq<Json>, updates: seq<Json>): Result<seq<Json>, string>
    decreases |updates|
  {
    if |updates| == 0 then Ok(merged)
    else
      var next := MergeOne(merged, updates[0]);
      if next.Err? then Err(next.error) else MergeAll(next.value, updates[1..])
  }

  /** `mergeAttributes(existing, updates)`: a copy `[...existing]`, then the
      updates merged into it one by one. */
  function MergeAttributes(existing: Json, updates: Json): (r: Result<seq<Json>, string>)
    ensures existing.Arr? && updates.Arr? ==> r == MergeAll(existing.items, updates.items)
    ensures !(existing.Arr? || existing.Str?) || !updates.Arr? ==> r.Err?
  {
    var copy := SpreadItems(existing);
    if copy.Err? then Err(copy.error)
    else if !updates.Arr? then Err("updates.forEach is not a function")
    else MergeAll(copy.value, updates.items)
  }

  /** `mergeAttributes` as the script runs it: a local copy updated in place. */
  method Merge(existing: Json, updates: Json) returns (r: Result<seq<Json>, string>)
    ensures r == MergeAttributes(existing, updates)
  {
    var copy := SpreadItems(existing);
    if copy.Err? {
      return Err(copy.error);
    }
    if !updates.Arr? {
      return Err("updates.forEach is not a function");
    }
    var merged := copy.value;
    var j := 0;
    while j < |updates.items|
      invariant 0 <= j <= |updates.items|
      invariant MergeAll(merged, updates.items[j..]) == MergeAttributes(existing, updates)
    {
      var update := updates.items[j];
      assert updates.items[j..][0] == update && updates.items[j..][1..] == updates.items[j + 1..];
      var index := FindFrom(merged, update, 0);
      if index.Err? {
        return Err(index.error);
      }
      if index.value >= 0 {
        merged := merged[index.value := update];
      } else {
        merged := merged + [update];
      }
      j := j + 1;
    }
    return Ok(merged);
  }

  // ------------------------------------------- the merge in closed form

  /** A trait type `===` compares by value: not NaN, not an object or array. */
  predicate Comparable(k: Json) {
    !k.NaN? && !k.Arr? && !k.Obj?
  }

  /** Attributes that are objects (or other non-nullish values) whose trait
      types compare by value. */
  predicate Plain(xs: seq<Json>) {
    forall i :: 0 <= i < |xs| ==> !Nullish(xs[i]) && Comparable(Trait(xs[i]))
  }

  predicate HasTrait(xs: seq<Json>, k: Json) {
    exists i :: 0 <= i < |xs| && Trait(xs[i]) == k
  }

  /** The first position at or after `i` holding trait type `k`, or -1. */
  function IndexOfTrait(xs: seq<Json>, k: Json, i: nat): (r: int)
    ensures r == -1 || i <= r < |xs|
    ensures r >= 0 ==> Trait(xs[r]) == k
    ensures forall j :: i <= j < |xs| && (r < 0 || j < r) ==> Trait(xs[j]) != k
    decreases |xs| - i
  {
    if i >= |xs| then -1
    else if Trait(xs[i]) == k then i
    else IndexOfTrait(xs, k, i + 1)
  }

  /** The last update of trait type `k`, if any. */
  function LastWith(updates: seq<Json>, k: Json): (r: Option<Json>)
    ensures r.Some? ==> Trait(r.value) == k && r.value in updates
    decreases |updates|
  {
    if |updates| == 0 then None
    else if Trait(updates[|updates| - 1]) == k then Some(updates[|updates| - 1])
    else LastWith(updates[..|updates| - 1], k)
  }

  /** An update of trait type `k` is found exactly when there is one. */
  lemma {:induction false} LastWithFound(updates: seq<Json>, k: Json)
    ensures LastWith(updates, k).Some? <==> HasTrait(updates, k)
    decreases |updates|
  {
    if |updates| > 0 {
      var n := |updates| - 1;
      if Trait(updates[n]) != k {
        LastWithFound(updates[..n], k);
        if HasTrait(updates, k) {
          var i :| 0 <= i < |updates| && Trait(updates[i]) == k;
          assert updates[..n][i] == updates[i];
        }
        if HasTrait(updates[..n], k) {
          var i :| 0 <= i < n && Trait(updates[..n][i]) == k;
          assert updates[i] == updates[..n][i];
        }
      }
    }
  }

  /** `LastWith` finds the update of trait type `k` that no later update of `k` follows. */
  lemma {:induction false} LastWithIsLast(updates: seq<Json>, k: Json)
    requires HasTrait(updates, k)
    ensures LastWith(updates, k).Some?
    ensures exists i :: 0 <= i < |updates| && Some(updates[i]) == LastWith(updates, k) &&
                        forall j :: i < j < |updates| ==> Trait(updates[j]) != k
    decreases |updates|
  {
    var n := |updates| - 1;
    var front, last := updates[..n], updates[n];
    assert updates == front + [last];
    if Trait(last) == k {
      assert Some(updates[n]) == LastWith(updates, k);
    } else {
      assert LastWith(updates, k) == LastWith(front, k);
      HasTraitFront(front, last, k);
      LastWithIsLast(front, k);
      var i :| 0 <= i < |front| && Some(front[i]) == LastWith(front, k) &&
               forall j :: i < j < |front| ==> Trait(front[j]) != k;
      NoLaterSnoc(front, last, k, i);
    }
  }

  lemma HasTraitFront(front: seq<Json>, last: Json, k: Json)
    requires HasTrait(front + [last], k) && Trait(last) != k
    ensures HasTrait(front, k)
  {
    var i :| 0 <= i < |front + [last]| && Trait((front + [last])[i]) == k;
    assert front[i] == (front + [last])[i];
  }

  lemma NoLaterSnoc(front: seq<Json>, last: Json, k: Json, i: nat)
    requires i < |front| && Trait(last) != k
    requires forall j :: i < j < |front| ==> Trait(front[j]) != k
    ensures (front + [last])[i] == front[i]
    ensures forall j :: i < j < |front + [last]| ==> Trait((front + [last])[j]) != k
  {
  }

  /** The trait types of the updates that the existing attributes lack, in
      the order they first occur. */
  function NewTraits(existing: seq<Json>, updates: seq<Json>): seq<Json>
    decreases |updates|
  {
    if |updates| == 0 then []
    else
      var n := |updates| - 1;
      var ks := NewTraits(existing, updates[..n]);
      var k := Trait(updates[n]);
      if HasTrait(existing, k) || k in ks then ks else ks + [k]
  }

  /** The existing attributes, each first holder of a trait type that an
      update carries replaced by the last such update. */
  function Patched(existing: seq<Json>, updates: seq<Json>): (r: seq<Json>)
    ensures |r| == |existing|
  {
    seq(|existing|, i requires 0 <= i < |existing| =>
      var last := LastWith(updates, Trait(existing[i]));
      if last.Some? && IndexOfTrait(existing, Trait(existing[i]), 0) == i then last.value else existing[i])
  }

  /** The last update of trait type `k`, or undefined when there is none. */
  function LastOf(updates: seq<Json>, k: Json): Json {
    var last := LastWith(updates, k);
    if last.Some? then last.value else Undefined
  }

  /** For each of `ks`, the last update of that trait type. */
  function Appended(updates: seq<Json>, ks: seq<Json>): (r: seq<Json>)
    ensures |r| == |ks|
  {
    seq(|ks|, j requires 0 <= j < |ks| => LastOf(updates, ks[j]))
  }

  /** What merging `updates` into `existing` yields, stated without the loop:
      the existing attributes with the last update of each of their trait
      types in place, then the last update of each new trait type, in the
      order those trait types first occur. */
  function Merged(existing: seq<Json>, updates: seq<Json>): seq<Json> {
    Patched(existing, updates) + Appended(updates, NewTraits(existing, updates))
  }

  predicate Distinct(ks: seq<Json>) {
    forall i, j :: 0 <= i < j < |ks| ==> ks[i] != ks[j]
  }

  /** The new trait types are exactly those of the updates the existing
      attributes lack, each once. */
  lemma {:induction false} NewTraitsExact(existing: seq<Json>, updates: seq<Json>)
    ensures Distinct(NewTraits(existing, updates))
    ensures forall k :: k in NewTraits(existing, updates) <==> HasTrait(updates, k) && !HasTrait(existing, k)
    decreases |updates|
  {
    if |updates| > 0 {
      var n := |updates| - 1;
      NewTraitsExact(existing, updates[..n]);
      forall k ensures HasTrait(updates, k) <==> HasTrait(updates[..n], k) || Trait(updates[n]) == k {
        if HasTrait(updates, k) && Trait(updates[n]) != k {
          var i :| 0 <= i < |updates| && Trait(updates[i]) == k;
          assert updates[..n][i] == updates[i];
        }
        if HasTrait(updates[..n], k) {
          var i :| 0 <= i < n && Trait(updates[..n][i]) == k;
          assert updates[i] == updates[..n][i];
        }
      }
    }
  }

  /** Each new trait type comes from an update. */
  lemma NewTraitsFromUpdates(existing: seq<Json>, updates: seq<Json>)
    ensures var ks := NewTraits(existing, updates);
      forall j :: 0 <= j < |ks| ==> HasTrait(updates, ks[j])
  {
    NewTraitsExact(existing, updates);
  }

  /** A trait type the existing attributes have is never new. */
  lemma ExistingNotNew(existing: seq<Json>, updates: seq<Json>, k: Json)
    requires HasTrait(existing, k)
    ensures k !in NewTraits(existing, updates)
  {
    NewTraitsExact(existing, updates);
  }

  /** The last update of a trait type, once one more update is merged. */
  lemma LastWithSnoc(updates: seq<Json>, u: Json, k: Json)
    ensures LastWith(updates + [u], k) == if Trait(u) == k then Some(u) else LastWith(updates, k)
  {
    assert (updates + [u])[..|updates|] == updates;
  }

  /** Each attribute of the closed form keeps the trait type of its position. */
  lemma MergedTraits(existing: seq<Json>, updates: seq<Json>)
    ensures var m := Merged(existing, updates);
      var ks := NewTraits(existing, updates);
      |m| == |existing| + |ks| &&
      (forall i :: 0 <= i < |existing| ==> Trait(m[i]) == Trait(existing[i])) &&
      (forall j :: 0 <= j < |ks| ==> Trait(m[|existing| + j]) == ks[j])
  {
    NewTraitsExact(existing, updates);
  }

  /** With no undefined or null entries and a comparable trait type, the
      `findIndex` is the first position of that trait type. */
  lemma {:induction false} FindPlain(xs: seq<Json>, u: Json, i: nat)
    requires forall j :: i <= j < |xs| ==> !Nullish(xs[j])
    requires !Nullish(u) && Comparable(Trait(u))
    ensures FindFrom(xs, u, i) == Ok(IndexOfTrait(xs, Trait(u), i))
    decreases |xs| - i
  {
    if i < |xs| && !StrictEquals(Trait(xs[i]), Trait(u)) {
      FindPlain(xs, u, i + 1);
    }
  }

  /** Merging one more update is one more turn after the others. */
  lemma {:induction false} MergeAllSnoc(merged: seq<Json>, updates: seq<Json>, u: Json)
    ensures MergeAll(merged, updates + [u]) ==
      if MergeAll(merged, updates).Err? then MergeAll(merged, updates)
      else MergeOne(MergeAll(merged, updates).value, u)
    decreases |updates|
  {
    if |updates| == 0 {
      assert updates + [u] == [u];
      assert [u][1..] == [];
    } else {
      assert (updates + [u])[0] == updates[0];
      assert (updates + [u])[1..] == updates[1..] + [u];
      var next := MergeOne(merged, updates[0]);
      if next.Ok? {
        MergeAllSnoc(next.value, updates[1..], u);
      }
    }
  }

  lemma HasTraitSnoc(updates: seq<Json>, u: Json, k: Json)
    ensures HasTrait(updates + [u], k) <==> HasTrait(updates, k) || Trait(u) == k
  {
    if HasTrait(updates, k) {
      var i :| 0 <= i < |updates| && Trait(updates[i]) == k;
      assert (updates + [u])[i] == updates[i];
    }
    if HasTrait(updates + [u], k) && Trait(u) != k {
      var i :| 0 <= i < |updates| + 1 && Trait((updates + [u])[i]) == k;
      assert (updates + [u])[i] == updates[i];
    }
    if Trait(u) == k {
      assert (updates + [u])[|updates|] == u;
    }
  }

  /** The existing part after one more update: only the first holder of its
      trait type, if any, changes. */
  lemma PatchedSnoc(existing: seq<Json>, updates: seq<Json>, u: Json)
    ensures Patched(existing, updates + [u]) ==
      if HasTrait(existing, Trait(u)) then Patched(existing, updates)[IndexOfTrait(existing, Trait(u), 0) := u]
      else Patched(existing, updates)
  {
    forall k ensures LastWith(updates + [u], k) == if Trait(u) == k then Some(u) else LastWith(updates, k) {
      LastWithSnoc(updates, u, k);
    }
    if !HasTrait(existing, Trait(u)) {
      forall i | 0 <= i < |existing| ensures Trait(existing[i]) != Trait(u) {
      }
    } else {
      var p := IndexOfTrait(existing, Trait(u), 0);
      assert p >= 0 by {
        var i :| 0 <= i < |existing| && Trait(existing[i]) == Trait(u);
      }
    }
  }

  /** The appended part after one more update whose trait type is not among `ks`. */
  lemma AppendedSnocOther(updates: seq<Json>, u: Json, ks: seq<Json>)
    requires Trait(u) !in ks
    ensures Appended(updates + [u], ks) == Appended(updates, ks)
  {
    forall j | 0 <= j < |ks| ensures LastWith(updates + [u], ks[j]) == LastWith(updates, ks[j]) {
      LastWithSnoc(updates, u, ks[j]);
    }
  }

  /** The appended part after one more update of the trait type at `q`. */
  lemma AppendedSnocAt(updates: seq<Json>, u: Json, ks: seq<Json>, q: nat)
    requires Distinct(ks) && q < |ks| && ks[q] == Trait(u)
    ensures Appended(updates + [u], ks) == Appended(updates, ks)[q := u]
  {
    forall j | 0 <= j < |ks| ensures LastWith(updates + [u], ks[j]) == if j == q then Some(u) else LastWith(updates, ks[j]) {
      LastWithSnoc(updates, u, ks[j]);
    }
  }

  /** The appended part after one more update of a new trait type. */
  lemma AppendedSnocNew(updates: seq<Json>, u: Json, ks: seq<Json>)
    requires Trait(u) !in ks
    ensures Appended(updates + [u], ks + [Trait(u)]) == Appended(updates, ks) + [u]
  {
    AppendedSnocOther(updates, u, ks);
    LastWithSnoc(updates, u, Trait(u));
  }

  /** No attribute of the closed form is undefined or null. */
  lemma MergedPresent(existing: seq<Json>, updates: seq<Json>)
    requires Plain(existing) && Plain(updates)
    ensures forall i :: 0 <= i < |Merged(existing, updates)| ==> !Nullish(Merged(existing, updates)[i])
  {
    NewTraitsExact(existing, updates);
    var m := Merged(existing, updates);
    forall i | 0 <= i < |m| ensures !Nullish(m[i]) {
      if i < |existing| {
        var last := LastWith(updates, Trait(existing[i]));
      } else {
        var ks := NewTraits(existing, updates);
        LastWithFound(updates, ks[i - |existing|]);
      }
    }
  }

  /** The new trait types after one more update. */
  lemma NewTraitsSnoc(existing: seq<Json>, updates: seq<Json>, u: Json)
    ensures var ks := NewTraits(existing, updates);
      NewTraits(existing, updates + [u]) == if HasTrait(existing, Trait(u)) || Trait(u) in ks then ks else ks + [Trait(u)]
  {
    assert (updates + [u])[..|updates|] == updates;
  }

  /** The first holder of a trait type the existing attributes have is the
      same in the closed form. */
  lemma IndexExisting(existing: seq<Json>, updates: seq<Json>, k: Json)
    requires HasTrait(existing, k)
    ensures var p := IndexOfTrait(existing, k, 0);
      0 <= p < |existing| && IndexOfTrait(Merged(existing, updates), k, 0) == p
  {
    MergedTraits(existing, updates);
    var p := IndexOfTrait(existing, k, 0);
    assert p >= 0 by {
      var i :| 0 <= i < |existing| && Trait(existing[i]) == k;
    }
    assert Trait(Merged(existing, updates)[p]) == k;
  }

  /** The closed form after one more update of a trait type the existing attributes have. */
  lemma MergedSnocExisting(existing: seq<Json>, updates: seq<Json>, u: Json)
    requires HasTrait(existing, Trait(u))
    ensures var p := IndexOfTrait(existing, Trait(u), 0);
      0 <= p < |existing| && |existing| <= |Merged(existing, updates)| &&
      Merged(existing, updates + [u]) ==
        Patched(existing, updates)[p := u] + Merged(existing, updates)[|existing|..]
  {
    var ks := NewTraits(existing, updates);
    ExistingNotNew(existing, updates, Trait(u));
    var p := IndexOfTrait(existing, Trait(u), 0);
    assert p >= 0 by {
      var i :| 0 <= i < |existing| && Trait(existing[i]) == Trait(u);
    }
    NewTraitsSnoc(existing, updates, u);
    PatchedSnoc(existing, updates, u);
    AppendedSnocOther(updates, u, ks);
    assert Merged(existing, updates)[|existing|..] == Appended(updates, ks);
  }

  lemma UpdateInPrefix(a: seq<Json>, b: seq<Json>, p: nat, u: Json)
    requires p < |a|
    ensures (a + b)[p := u] == a[p := u] + b
  {
  }

  /** The closed form is the patched existing attributes, then the rest. */
  lemma MergedSplit(existing: seq<Json>, updates: seq<Json>)
    ensures |existing| <= |Merged(existing, updates)|
    ensures Merged(existing, updates) == Patched(existing, updates) + Merged(existing, updates)[|existing|..]
  {
  }

  /** An update of a trait type the existing attributes have lands on its first holder. */
  lemma StepExisting(existing: seq<Json>, updates: seq<Json>, u: Json)
    requires HasTrait(existing, Trait(u))
    ensures var p := IndexOfTrait(existing, Trait(u), 0);
      0 <= p < |existing| && Merged(existing, updates)[p := u] == Merged(existing, updates + [u])
  {
    MergedSnocExisting(existing, updates, u);
    MergedSplit(existing, updates);
    var p := IndexOfTrait(existing, Trait(u), 0);
    UpdateInPrefix(Patched(existing, updates), Merged(existing, updates)[|existing|..], p, u);
  }

  /** A trait type first appended at `q` is first held at `|existing| + q` in the closed form. */
  lemma IndexRepeated(existing: seq<Json>, updates: seq<Json>, k: Json, q: nat)
    requires !HasTrait(existing, k)
    requires q < |NewTraits(existing, updates)| && NewTraits(existing, updates)[q] == k
    ensures IndexOfTrait(Merged(existing, updates), k, 0) == |existing| + q
  {
    var m := Merged(existing, updates);
    var ks := NewTraits(existing, updates);
    var n := |existing|;
    NewTraitsExact(existing, updates);
    MergedTraits(existing, updates);
    assert Trait(m[n + q]) == k;
    forall j | 0 <= j < n + q ensures Trait(m[j]) != k {
      if j >= n {
        assert ks[j - n] != ks[q];
      }
    }
  }

  /** An update of a trait type already appended lands on that appended attribute. */
  lemma StepRepeated(existing: seq<Json>, updates: seq<Json>, u: Json, q: nat)
    requires !HasTrait(existing, Trait(u))
    requires q < |NewTraits(existing, updates)| && NewTraits(existing, updates)[q] == Trait(u)
    ensures IndexOfTrait(Merged(existing, updates), Trait(u), 0) == |existing| + q
    ensures Merged(existing, updates)[|existing| + q := u] == Merged(existing, updates + [u])
  {
    IndexRepeated(existing, updates, Trait(u), q);
    var ks := NewTraits(existing, updates);
    var n := |existing|;
    assert Distinct(ks) by { NewTraitsExact(existing, updates); }
    NewTraitsSnoc(existing, updates, u);
    PatchedSnoc(existing, updates, u);
    AppendedSnocAt(updates, u, ks, q);
    var patched := Patched(existing, updates);
    assert Merged(existing, updates)[n + q := u] == patched + Appended(updates, ks)[q := u];
  }

  /** An update of a trait type met for the first time is appended. */
  lemma StepNew(existing: seq<Json>, updates: seq<Json>, u: Json)
    requires !HasTrait(existing, Trait(u)) && Trait(u) !in NewTraits(existing, updates)
    ensures IndexOfTrait(Merged(existing, updates), Trait(u), 0) == -1
    ensures Merged(existing, updates) + [u] == Merged(existing, updates + [u])
  {
    var m := Merged(existing, updates);
    var k := Trait(u);
    var ks := NewTraits(existing, updates);
    var n := |existing|;
    NewTraitsExact(existing, updates);
    MergedTraits(existing, updates);
    NewTraitsSnoc(existing, updates, u);
    PatchedSnoc(existing, updates, u);
    forall j | 0 <= j < |m| ensures Trait(m[j]) != k {
      if j >= n {
        assert ks[j - n] in ks;
      }
    }
    AppendedSnocNew(updates, u, ks);
    assert m + [u] == Patched(existing, updates) + (Appended(updates, ks) + [u]);
  }

  /** One more turn of the loop keeps it equal to the closed form. */
  lemma StepMerged(existing: seq<Json>, updates: seq<Json>, u: Json)
    requires Plain(existing) && Plain(updates) && Plain([u])
    ensures MergeOne(Merged(existing, updates), u) == Ok(Merged(existing, updates + [u]))
  {
    assert [u][0] == u;
    var ks := NewTraits(existing, updates);
    MergedPresent(existing, updates);
    FindPlain(Merged(existing, updates), u, 0);
    if HasTrait(existing, Trait(u)) {
      IndexExisting(existing, updates, Trait(u));
      StepExisting(existing, updates, u);
    } else if Trait(u) in ks {
      var q :| 0 <= q < |ks| && ks[q] == Trait(u);
      StepRepeated(existing, updates, u, q);
    } else {
      StepNew(existing, updates, u);
    }
  }

  /** The loop computes the closed form: merging attributes whose trait types
      compare by value never throws and yields `Merged`. */
  lemma {:induction false} MergeIsMerged(existing: seq<Json>, updates: seq<Json>)
    requires Plain(existing) && Plain(updates)
    ensures MergeAll(existing, updates) == Ok(Merged(existing, updates))
    decreases |updates|
  {
    if |updates| == 0 {
      NewTraitsExact(existing, updates);
      assert Merged(existing, updates) == Patched(existing, updates);
      assert Patched(existing, updates) == existing;
    } else {
      var n := |updates| - 1;
      var u := updates[n];
      assert updates == updates[..n] + [u];
      assert Plain([u]) by { assert [u][0] == u; }
      MergeIsMerged(existing, updates[..n]);
      MergeAllSnoc(existing, updates[..n], u);
      StepMerged(existing, updates[..n], u);
    }
  }

  // ------------------------------------------ what the merge guarantees

  /** The trait types the updates bring that the existing attributes lack. */
  function AddedTraits(existing: seq<Json>, updates: seq<Json>): set<Json> {
    set i | 0 <= i < |updates| && !HasTrait(existing, Trait(updates[i])) :: Trait(updates[i])
  }

  lemma {:induction false} DistinctCard(ks: seq<Json>)
    requires Distinct(ks)
    ensures |set k | k in ks| == |ks|
    decreases |ks|
  {
    if |ks| > 0 {
      var n := |ks| - 1;
      assert Distinct(ks[..n]);
      DistinctCard(ks[..n]);
      assert (set k | k in ks) == (set k | k in ks[..n]) + {ks[n]};
      assert ks[n] !in (set k | k in ks[..n]);
    }
  }

  /** The merged list is the existing one plus one attribute per distinct
      trait type that the updates add. */
  lemma MergeLength(existing: seq<Json>, updates: seq<Json>)
    requires Plain(existing) && Plain(updates)
    ensures MergeAll(existing, updates).Ok?
    ensures |MergeAll(existing, updates).value| == |existing| + |AddedTraits(existing, updates)|
  {
    MergeIsMerged(existing, updates);
    NewTraitsExact(existing, updates);
    var ks := NewTraits(existing, updates);
    assert AddedTraits(existing, updates) == set k | k in ks by {
      forall k | k in ks ensures k in AddedTraits(existing, updates) {
        var i :| 0 <= i < |updates| && Trait(updates[i]) == k;
      }
    }
    DistinctCard(ks);
  }

  /** Every existing attribute keeps its position and trait type; one whose
      trait type no update carries keeps its value too. */
  lemma MergeKeepsExisting(existing: seq<Json>, updates: seq<Json>, i: nat)
    requires Plain(existing) && Plain(updates) && i < |existing|
    ensures MergeAll(existing, updates).Ok? && i < |MergeAll(existing, updates).value|
    ensures Trait(MergeAll(existing, updates).value[i]) == Trait(existing[i])
    ensures !HasTrait(updates, Trait(existing[i])) ==> MergeAll(existing, updates).value[i] == existing[i]
  {
    MergeIsMerged(existing, updates);
    MergedTraits(existing, updates);
  }

  /** In the closed form, the first attribute of a trait type some update
      carries is the last such update. */
  lemma MergedLastWins(existing: seq<Json>, updates: seq<Json>, k: Json)
    requires HasTrait(updates, k)
    ensures var m := Merged(existing, updates);
      var p := IndexOfTrait(m, k, 0);
      0 <= p < |m| && LastWith(updates, k) == Some(m[p])
  {
    LastWithFound(updates, k);
    if HasTrait(existing, k) {
      IndexExisting(existing, updates, k);
    } else {
      NewTraitsExact(existing, updates);
      var ks := NewTraits(existing, updates);
      var q :| 0 <= q < |ks| && ks[q] == k;
      IndexRepeated(existing, updates, k, q);
    }
  }

  /** For every trait type the updates carry, the first attribute of that
      trait type in the merged list is the last update of it. */
  lemma LastUpdateWins(existing: seq<Json>, updates: seq<Json>, k: Json)
    requires Plain(existing) && Plain(updates) && HasTrait(updates, k)
    ensures MergeAll(existing, updates).Ok?
    ensures var m := MergeAll(existing, updates).value;
      var p := IndexOfTrait(m, k, 0);
      0 <= p < |m| && LastWith(updates, k) == Some(m[p])
  {
    MergeIsMerged(existing, updates);
    MergedLastWins(existing, updates, k);
  }

  /** Merging two lists of updates one after the other merges their concatenation. */
  lemma {:induction false} MergeAllAppend(merged: seq<Json>, first: seq<Json>, second: seq<Json>)
    requires MergeAll(merged, first).Ok?
    ensures MergeAll(merged, first + second) == MergeAll(MergeAll(merged, first).value, second)
    decreases |first|
  {
    if |first| > 0 {
      assert (first + second)[0] == first[0];
      assert (first + second)[1..] == first[1..] + second;
      MergeAllAppend(MergeOne(merged, first[0]).value, first[1..], second);
    } else {
      assert first + second == second;
    }
  }

  lemma {:induction false} LastWithAppend(first: seq<Json>, second: seq<Json>, k: Json)
    ensures LastWith(first + second, k) == if HasTrait(second, k) then LastWith(second, k) else LastWith(first, k)
    decreases |second|
  {
    if |second| == 0 {
      assert first + second == first;
    } else {
      var n := |second| - 1;
      var whole := first + second;
      assert whole[|whole| - 1] == second[n];
      if Trait(second[n]) == k {
        assert LastWith(second, k) == Some(second[n]);
      } else {
        var front := whole[..|whole| - 1];
        assert front == first + second[..n];
        assert LastWith(whole, k) == LastWith(front, k);
        LastWithAppend(first, second[..n], k);
        HasTraitSnoc(second[..n], second[n], k);
        assert second[..n] + [second[n]] == second;
      }
    }
  }

  /** Updates whose trait types are all known add no new trait type. */
  lemma {:induction false} NewTraitsAppendKnown(existing: seq<Json>, first: seq<Json>, second: seq<Json>)
    requires forall j :: 0 <= j < |second| ==> HasTrait(existing, Trait(second[j])) || HasTrait(first, Trait(second[j]))
    ensures NewTraits(existing, first + second) == NewTraits(existing, first)
    decreases |second|
  {
    if |second| == 0 {
      assert first + second == first;
    } else {
      var n := |second| - 1;
      assert (first + second)[..|first| + n] == first + second[..n];
      NewTraitsAppendKnown(existing, first, second[..n]);
      NewTraitsExact(existing, first);
    }
  }

  /** Merging the same updates twice equals merging them once. */
  lemma MergeIdempotent(existing: seq<Json>, updates: seq<Json>)
    requires Plain(existing) && Plain(updates)
    ensures MergeAll(existing, updates).Ok?
    ensures MergeAll(MergeAll(existing, updates).value, updates) == MergeAll(existing, updates)
  {
    MergeIsMerged(existing, updates);
    MergeAllAppend(existing, updates, updates);
    assert Plain(updates + updates) by {
      forall i | 0 <= i < |updates + updates| ensures !Nullish((updates + updates)[i]) && Comparable(Trait((updates + updates)[i])) {
        if i >= |updates| {
          assert (updates + updates)[i] == updates[i - |updates|];
        }
      }
    }
    MergeIsMerged(existing, updates + updates);
    forall k ensures LastWith(updates + updates, k) == LastWith(updates, k) {
      LastWithAppend(updates, updates, k);
    }
    forall j | 0 <= j < |updates| ensures HasTrait(existing, Trait(updates[j])) || HasTrait(updates, Trait(updates[j])) {
    }
    NewTraitsAppendKnown(existing, updates, updates);
    assert Patched(existing, updates + updates) == Patched(existing, updates);
    assert Appended(updates + updates, NewTraits(existing, updates)) == Appended(updates, NewTraits(existing, updates));
  }

  // -------------------------------------------------------- updateMetadata

  /** `getExistingMetadata(type, id)`, given what the file for `id` holds
      (`stored`, or null when there is no such file): a type other than NFT,
      TEMPLATE or EVENT, in any letter case, is refused before any file is read. */
  function Existing(t: string, stored: Json): (r: Result<Json, string>)
    ensures r.Ok? <==> ToUpper(t) in {"NFT", "TEMPLATE", "EVENT"}
    ensures r.Ok? ==> r.value == stored
  {
    var kind := ToUpper(t);
    if kind == "NFT" || kind == "TEMPLATE" || kind == "EVENT" then Ok(stored)
    else Err("Unsupported metadata type: " + t)
  }

  /** The object literal of the update: the stored properties, then those of
      the update, then the five computed ones put over them. */
  function UpdatedFields(current: Json, updates: Json, attrs: seq<Json>, clock: GenerateMetadata.Clock): seq<(string, Json)> {
    var spread := Assign(SpreadFields(current), SpreadFields(updates));
    var props := Assign(SpreadFields(Or(Get(current, "properties"), Obj([]))),
                        SpreadFields(Or(Get(updates, "properties"), Obj([]))));
    Put(Put(Put(Put(Put(spread,
      "name", Or(Get(updates, "name"), Get(current, "name"))),
      "description", Or(Get(updates, "description"), Get(current, "description"))),
      "image", Or(Get(updates, "image"), Get(current, "image"))),
      "attributes", Arr(attrs)),
      "properties", Obj(Put(props, "updatedAt", Str(clock.iso))))
  }

  /** `updateMetadata(type, id, updates, options)` up to the save: the merged
      metadata, which must pass the generator's check. `options` defaults to
      `{}` when undefined. */
  function Update(t: string, id: Json, stored: Json, updates: Json, options: Json, clock: GenerateMetadata.Clock)
    : (r: Result<Json, string>)
    ensures r.Ok? ==> r.value.Obj?
  {
    var existing := Existing(t, stored);
    if existing.Err? then Err(existing.error)
    else
      var current := existing.value;
      if !Truthy(current) && options.Null? then Err(ReadError(options, "createIfMissing"))
      else if !Truthy(current) && !Truthy(Get(options, "createIfMissing")) then
        Err("No existing metadata found for " + t + " " + Show(id))
      else if Nullish(updates) then Err(ReadError(updates, "name"))
      else
        var attrs := MergeAttributes(Or(Get(current, "attributes"), Arr([])), Or(Get(updates, "attributes"), Arr([])));
        if attrs.Err? then Err(attrs.error)
        else
          var md := Obj(UpdatedFields(current, updates, attrs.value, clock));
          var checked := GenerateMetadata.CheckMetadata(md);
          if checked.Err? then Err(checked.error) else Ok(md)
  }

  /** What an accepted update consists of. */
  lemma UpdateShape(t: string, id: Json, stored: Json, updates: Json, options: Json, clock: GenerateMetadata.Clock)
    requires Update(t, id, stored, updates, options, clock).Ok?
    ensures !Nullish(updates)
    ensures MergeAttributes(Or(Get(stored, "attributes"), Arr([])), Or(Get(updates, "attributes"), Arr([]))).Ok?
    ensures var attrs := MergeAttributes(Or(Get(stored, "attributes"), Arr([])), Or(Get(updates, "attributes"), Arr([]))).value;
      Update(t, id, stored, updates, options, clock) == Ok(Obj(UpdatedFields(stored, updates, attrs, clock)))
    ensures GenerateMetadata.CheckMetadata(Update(t, id, stored, updates, options, clock).value).Ok?
  {
  }

  /** The five computed properties of the literal. */
  lemma UpdatedFieldsValues(current: Json, updates: Json, attrs: seq<Json>, clock: GenerateMetadata.Clock)
    ensures var fields := UpdatedFields(current, updates, attrs, clock);
      Lookup(fields, "name") == Or(Get(updates, "name"), Get(current, "name")) &&
      Lookup(fields, "description") == Or(Get(updates, "description"), Get(current, "description")) &&
      Lookup(fields, "image") == Or(Get(updates, "image"), Get(current, "image")) &&
      Lookup(fields, "attributes") == Arr(attrs) &&
      Lookup(fields, "properties") ==
        Obj(Put(Assign(SpreadFields(Or(Get(current, "properties"), Obj([]))),
                       SpreadFields(Or(Get(updates, "properties"), Obj([])))), "updatedAt", Str(clock.iso)))
  {
    var spread := Assign(SpreadFields(current), SpreadFields(updates));
    var props := Assign(SpreadFields(Or(Get(current, "properties"), Obj([]))),
                        SpreadFields(Or(Get(updates, "properties"), Obj([]))));
    var f1 := Put(spread, "name", Or(Get(updates, "name"), Get(current, "name")));
    var f2 := Put(f1, "description", Or(Get(updates, "description"), Get(current, "description")));
    var f3 := Put(f2, "image", Or(Get(updates, "image"), Get(current, "image")));
    var f4 := Put(f3, "attributes", Arr(attrs));
    var f5 := Put(f4, "properties", Obj(Put(props, "updatedAt", Str(clock.iso))));
    assert f5 == UpdatedFields(current, updates, attrs, clock);
    assert "name"[0] == 'n' && "description"[0] == 'd' && "image"[0] == 'i';
    assert "attributes"[0] == 'a' && "properties"[0] == 'p';
    PutOther(f1, "description", f2, "name");
    PutOther(f2, "image", f3, "name");
    PutOther(f3, "attributes", f4, "name");
    PutOther(f4, "properties", f5, "name");
    PutOther(f2, "image", f3, "description");
    PutOther(f3, "attributes", f4, "description");
    PutOther(f4, "properties", f5, "description");
    PutOther(f3, "attributes", f4, "image");
    PutOther(f4, "properties", f5, "image");
    PutOther(f4, "properties", f5, "attributes");
  }

  lemma OrOfArray(a: Json, b: Json)
    requires a.Arr?
    ensures Or(a, b) == a
  {
  }

  /** Any other property comes from the spreads. */
  lemma UpdatedFieldsOther(current: Json, updates: Json, attrs: seq<Json>, clock: GenerateMetadata.Clock, k: string)
    requires k !in {"name", "description", "image", "attributes", "properties"}
    ensures Lookup(UpdatedFields(current, updates, attrs, clock), k) ==
      Lookup(Assign(SpreadFields(current), SpreadFields(updates)), k)
  {
  }

  /** An update of existing metadata whose merged attributes and merged
      object pass is accepted. */
  lemma UpdateAccepts(t: string, id: Json, stored: Json, updates: Json, options: Json, clock: GenerateMetadata.Clock,
                      attrs: seq<Json>)
    requires ToUpper(t) in {"NFT", "TEMPLATE", "EVENT"}
    requires Truthy(stored) && !Nullish(updates)
    requires MergeAttributes(Or(Get(stored, "attributes"), Arr([])), Or(Get(updates, "attributes"), Arr([]))) == Ok(attrs)
    requires GenerateMetadata.CheckMetadata(Obj(UpdatedFields(stored, updates, attrs, clock))).Ok?
    ensures Update(t, id, stored, updates, options, clock) == Ok(Obj(UpdatedFields(stored, updates, attrs, clock)))
  {
  }

  /** Without stored metadata, and without `createIfMissing`, the update is refused. */
  lemma UpdateNeedsExisting(t: string, id: Json, stored: Json, updates: Json, options: Json, clock: GenerateMetadata.Clock)
    requires ToUpper(t) in {"NFT", "TEMPLATE", "EVENT"}
    requires !Truthy(stored) && !options.Null? && !Truthy(Get(options, "createIfMissing"))
    ensures Update(t, id, stored, updates, options, clock) == Err("No existing metadata found for " + t + " " + Show(id))
  {
  }

  /** An updated metadata object passes the generator's check: a truthy name,
      description and image, and an array of complete attributes. */
  lemma UpdatedIsWellFormed(t: string, id: Json, stored: Json, updates: Json, options: Json, clock: GenerateMetadata.Clock)
    requires Update(t, id, stored, updates, options, clock).Ok?
    ensures var md := Update(t, id, stored, updates, options, clock).value;
      Truthy(Get(md, "name")) && Truthy(Get(md, "description")) && Truthy(Get(md, "image")) &&
      Get(md, "attributes").Arr? &&
      forall a | a in Get(md, "attributes").items :: GenerateMetadata.GoodAttribute(a)
  {
    UpdateShape(t, id, stored, updates, options, clock);
    GenerateMetadata.CheckMetadataOk(Update(t, id, stored, updates, options, clock).value);
  }

  /** A truthy name, description or image of the update replaces the stored
      one; a falsy one leaves the stored one in place. */
  lemma UpdateDescriptive(t: string, id: Json, stored: Json, updates: Json, options: Json, clock: GenerateMetadata.Clock, f: string)
    requires Update(t, id, stored, updates, options, clock).Ok?
    requires f == "name" || f == "description" || f == "image"
    ensures var md := Update(t, id, stored, updates, options, clock).value;
      (Truthy(Get(updates, f)) ==> Get(md, f) == Get(updates, f)) &&
      (!Truthy(Get(updates, f)) ==> Get(md, f) == Get(stored, f))
  {
    UpdateShape(t, id, stored, updates, options, clock);
    var attrs := MergeAttributes(Or(Get(stored, "attributes"), Arr([])), Or(Get(updates, "attributes"), Arr([]))).value;
    UpdatedFieldsValues(stored, updates, attrs, clock);
  }

  /** Every other property of an update object replaces the stored one, and
      the stored properties the update does not name are kept. */
  lemma UpdateOtherFields(t: string, id: Json, stored: Json, updates: Json, options: Json, clock: GenerateMetadata.Clock, k: string)
    requires Update(t, id, stored, updates, options, clock).Ok?
    requires stored.Obj? || Nullish(stored)
    requires updates.Obj? && UniqueKeys(updates.fields)
    requires k !in {"name", "description", "image", "attributes", "properties"}
    ensures var md := Update(t, id, stored, updates, options, clock).value;
      Get(md, k) == if Has(updates, k) then Get(updates, k) else Get(stored, k)
  {
    UpdateShape(t, id, stored, updates, options, clock);
    var attrs := MergeAttributes(Or(Get(stored, "attributes"), Arr([])), Or(Get(updates, "attributes"), Arr([]))).value;
    UpdatedFieldsOther(stored, updates, attrs, clock, k);
    if Has(updates, k) {
      AssignOverrides(SpreadFields(stored), updates.fields, k);
    }
  }

  /** The merged `properties` carry the time of the update, and every
      property of the update's `properties` object wins over the stored one. */
  lemma UpdateProperties(t: string, id: Json, stored: Json, updates: Json, options: Json, clock: GenerateMetadata.Clock, k: string)
    requires Update(t, id, stored, updates, options, clock).Ok?
    requires Or(Get(updates, "properties"), Obj([])).Obj?
    requires UniqueKeys(Or(Get(updates, "properties"), Obj([])).fields)
    requires Or(Get(stored, "properties"), Obj([])).Obj?
    ensures var props := Get(Update(t, id, stored, updates, options, clock).value, "properties");
      Get(props, "updatedAt") == Str(clock.iso) &&
      (k != "updatedAt" ==>
        Get(props, k) == if Has(Or(Get(updates, "properties"), Obj([])), k)
                         then Get(Or(Get(updates, "properties"), Obj([])), k)
                         else Get(Or(Get(stored, "properties"), Obj([])), k))
  {
    UpdateShape(t, id, stored, updates, options, clock);
    var attrs := MergeAttributes(Or(Get(stored, "attributes"), Arr([])), Or(Get(updates, "attributes"), Arr([]))).value;
    UpdatedFieldsValues(stored, updates, attrs, clock);
    var theirs := Or(Get(updates, "properties"), Obj([]));
    var ours := Or(Get(stored, "properties"), Obj([]));
    if Has(theirs, k) {
      AssignOverrides(ours.fields, theirs.fields, k);
    }
  }

  /** With plain attribute lists on both sides, the updated attributes are
      the closed-form merge of the stored ones with the update's. */
  lemma UpdateAttributes(t: string, id: Json, stored: Json, updates: Json, options: Json, clock: GenerateMetadata.Clock)
    requires Update(t, id, stored, updates, options, clock).Ok?
    requires Get(stored, "attributes").Arr? && Plain(Get(stored, "attributes").items)
    requires Get(updates, "attributes").Arr? && Plain(Get(updates, "attributes").items)
    ensures Get(Update(t, id, stored, updates, options, clock).value, "attributes") ==
      Arr(Merged(Get(stored, "attributes").items, Get(updates, "attributes").items))
  {
    UpdateShape(t, id, stored, updates, options, clock);
    var existing, changes := Get(stored, "attributes"), Get(updates, "attributes");
    OrOfArray(existing, Arr([]));
    OrOfArray(changes, Arr([]));
    var attrs := MergeAttributes(existing, changes).value;
    MergeIsMerged(existing.items, changes.items);
    assert attrs == Merged(existing.items, changes.items);
    UpdatedFieldsValues(stored, updates, attrs, clock);
    assert Update(t, id, stored, updates, options, clock).value == Obj(UpdatedFields(stored, updates, attrs, clock));
  }
}
