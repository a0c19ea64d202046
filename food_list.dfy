/** The three ways the dashboard rebuilds its food list after a remote call.
    None of them changes an entry in place: each yields a new sequence. */
module FoodList {
  import opened Foods

  /** `[...foods, created]`: the created record goes to the end. */
  function Append(foods: seq<Food>, created: Food): (r: seq<Food>)
    ensures |r| == |foods| + 1
    ensures r[..|foods|] == foods && r[|foods|] == created
  {
    foods + [created]
  }

  /** `foods.map(f => f.id !== updated.id ? f : updated)`. */
  function ReplaceById(foods: seq<Food>, updated: Food): (r: seq<Food>)
    ensures |r| == |foods|
    ensures forall i :: 0 <= i < |foods| && foods[i].id == updated.id ==> r[i] == updated
    ensures forall i :: 0 <= i < |foods| && foods[i].id != updated.id ==> r[i] == foods[i]
  {
    if foods == [] then []
    else [if foods[0].id != updated.id then foods[0] else updated]
         + ReplaceById(foods[1..], updated)
  }

  /** `foods.filter(f => f.id !== id)`. */
  function RemoveById(foods: seq<Food>, id: Id): (r: seq<Food>)
    ensures |r| <= |foods|
    ensures forall f :: f in r <==> f in foods && f.id != id
  {
    if foods == [] then []
    else
      var rest := RemoveById(foods[1..], id);
      assert forall f :: f in foods <==> f == foods[0] || f in foods[1..];
      if foods[0].id != id then [foods[0]] + rest else rest
  }

  /** Each record is kept as many times as it occurs, unless it carries the
      removed id, in which case it is gone. */
  lemma {:induction false} RemoveByIdCount(foods: seq<Food>, id: Id, f: Food)
    ensures multiset(RemoveById(foods, id))[f] == if f.id == id then 0 else multiset(foods)[f]
  {
    if foods != [] {
      assert foods == [foods[0]] + foods[1..];
      RemoveByIdCount(foods[1..], id, f);
    }
  }

  /** `sub` is `s` with some entries dropped and the rest in their order. */
  ghost predicate IsSubsequence(sub: seq<Food>, s: seq<Food>)
    decreases |s|
  {
    if sub == [] then true
    else if s == [] then false
    else if sub[0] == s[0] then IsSubsequence(sub[1..], s[1..])
    else IsSubsequence(sub, s[1..])
  }

  /** Replacing by an id no entry carries leaves the list as it was. */
  lemma ReplaceByIdAbsent(foods: seq<Food>, updated: Food)
    requires forall f :: f in foods ==> f.id != updated.id
    ensures ReplaceById(foods, updated) == foods
  {
  }

  /** Replacing twice with the same record is replacing once. */
  lemma ReplaceByIdIdempotent(foods: seq<Food>, updated: Food)
    ensures ReplaceById(ReplaceById(foods, updated), updated) == ReplaceById(foods, updated)
  {
  }

  /** Removing an id no entry carries leaves the list as it was. */
  lemma {:induction false} RemoveByIdAbsent(foods: seq<Food>, id: Id)
    requires forall f :: f in foods ==> f.id != id
    ensures RemoveById(foods, id) == foods
  {
    if foods != [] {
      assert foods[0] in foods;
      RemoveByIdAbsent(foods[1..], id);
    }
  }

  /** Filtering a concatenation filters each part and keeps them in order. */
  lemma {:induction false} RemoveByIdConcat(a: seq<Food>, b: seq<Food>, id: Id)
    ensures RemoveById(a + b, id) == RemoveById(a, id) + RemoveById(b, id)
  {
    if a == [] {
      assert a + b == b;
    } else {
      assert (a + b)[1..] == a[1..] + b;
      RemoveByIdConcat(a[1..], b, id);
    }
  }

  /** The entries that survive a removal keep their relative order. */
  lemma {:induction false} RemoveByIdIsSubsequence(foods: seq<Food>, id: Id)
    ensures IsSubsequence(RemoveById(foods, id), foods)
  {
    if foods != [] {
      RemoveByIdIsSubsequence(foods[1..], id);
      if foods[0].id == id {
        SubsequenceDropHead(RemoveById(foods[1..], id), foods);
      }
    }
  }

  /** A subsequence of the tail is a subsequence of the whole. */
  lemma {:induction false} SubsequenceDropHead(sub: seq<Food>, s: seq<Food>)
    requires s != [] && IsSubsequence(sub, s[1..])
    ensures IsSubsequence(sub, s)
    decreases |sub| + |s|
  {
    if sub != [] && sub[0] == s[0] {
      SubsequenceDropFirst(sub, s[1..]);
    }
  }

  /** Dropping the first entry of a subsequence keeps it a subsequence. */
  lemma {:induction false} SubsequenceDropFirst(sub: seq<Food>, s: seq<Food>)
    requires sub != [] && IsSubsequence(sub, s)
    ensures IsSubsequence(sub[1..], s)
    decreases |sub| + |s|
  {
    if sub[0] == s[0] {
      SubsequenceDropHead(sub[1..], s);
    } else {
      SubsequenceDropFirst(sub, s[1..]);
      SubsequenceDropHead(sub[1..], s);
    }
  }

  /** Removing an id twice is removing it once. */
  lemma RemoveByIdIdempotent(foods: seq<Food>, id: Id)
    ensures RemoveById(RemoveById(foods, id), id) == RemoveById(foods, id)
  {
    RemoveByIdAbsent(RemoveById(foods, id), id);
  }

  /** Adding a record under an id the list does not hold and then deleting
      that id gives back the original list. */
  lemma AddThenDelete(foods: seq<Food>, created: Food)
    requires forall f :: f in foods ==> f.id != created.id
    ensures RemoveById(Append(foods, created), created.id) == foods
  {
    RemoveByIdConcat(foods, [created], created.id);
    RemoveByIdAbsent(foods, created.id);
  }

  /** Deleting an id after updating it is the same as deleting it outright. */
  lemma {:induction false} UpdateThenDelete(foods: seq<Food>, updated: Food)
    ensures RemoveById(ReplaceById(foods, updated), updated.id) == RemoveById(foods, updated.id)
  {
    if foods != [] {
      UpdateThenDelete(foods[1..], updated);
    }
  }
}
