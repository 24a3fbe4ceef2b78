/**
 * The read-only computations the handlers run over the collection: the
 * search filter (backend/server.js:87-94), `findIndex`/`find` by id
 * (backend/server.js:101,175) and the delete filter (backend/server.js:208),
 * with the id predicates the collection's invariant is stated in.
 */
module Queries {
  import opened JsValues
  import opened Text
  import opened Recipes

  /** `a` is obtained from `b` by deleting elements: an order-preserving subsequence. */
  predicate IsSubsequence<T(==)>(a: seq<T>, b: seq<T>)
    decreases |b|
  {
    a == [] || (b != [] && ((a[0] == b[0] && IsSubsequence(a[1..], b[1..])) || IsSubsequence(a, b[1..])))
  }

  lemma {:induction false} SubsequenceOfItself<T>(s: seq<T>)
    ensures IsSubsequence(s, s)
  {
    if s != [] {
      SubsequenceOfItself(s[1..]);
    }
  }

  // ---------------------------------------------------------------- search

  /** The search predicate, for an already lower-cased search term. */
  predicate Matches(r: Recipe, term: string) {
    Contains(Lower(r.title), term) || exists g :: g in r.ingredients && Contains(Lower(g.name), term)
  }

  /** `recipes.filter(recipe => Matches(recipe, term))`. */
  function Filter(rs: seq<Recipe>, term: string): (r: seq<Recipe>)
    ensures |r| <= |rs|
    ensures forall x :: x in r ==> Matches(x, term)
  {
    if rs == [] then []
    else if Matches(rs[0], term) then [rs[0]] + Filter(rs[1..], term)
    else Filter(rs[1..], term)
  }

  /** The list handler's result: the whole collection unless `q` is a non-empty string. */
  function Search(rs: seq<Recipe>, q: Option<string>): (r: seq<Recipe>)
    ensures |r| <= |rs|
    ensures q.Some? && q.value != "" ==> forall x :: x in r ==> Matches(x, Lower(q.value))
  {
    if q.Some? && q.value != "" then Filter(rs, Lower(q.value)) else rs
  }

  /** A recipe is kept exactly when it is in the collection and matches. */
  lemma {:induction false} FilterMembers(rs: seq<Recipe>, term: string)
    ensures forall r :: r in Filter(rs, term) <==> r in rs && Matches(r, term)
  {
    if rs != [] {
      FilterMembers(rs[1..], term);
      assert forall r :: r in rs <==> r == rs[0] || r in rs[1..];
    }
  }

  /** The filter keeps the collection's order. */
  lemma {:induction false} FilterIsSubsequence(rs: seq<Recipe>, term: string)
    ensures IsSubsequence(Filter(rs, term), rs)
  {
    if rs != [] {
      FilterIsSubsequence(rs[1..], term);
      if Matches(rs[0], term) {
        var f := Filter(rs, term);
        assert f[0] == rs[0] && f[1..] == Filter(rs[1..], term);
      }
    }
  }

  /** With no query or an empty one, search returns the collection as stored. */
  lemma SearchWithoutQuery(rs: seq<Recipe>, q: Option<string>)
    requires q.None? || q.value == ""
    ensures Search(rs, q) == rs
  {
  }

  /**
   * With a non-empty query, search returns, in storage order, exactly the
   * recipes whose lower-cased title or some lower-cased ingredient name
   * contains the lower-cased query.
   */
  lemma SearchWithQuery(rs: seq<Recipe>, q: string)
    requires q != ""
    ensures IsSubsequence(Search(rs, Some(q)), rs)
    ensures forall r :: r in Search(rs, Some(q)) <==>
      r in rs && (Contains(Lower(r.title), Lower(q)) ||
                  exists g :: g in r.ingredients && Contains(Lower(g.name), Lower(q)))
  {
    FilterMembers(rs, Lower(q));
    FilterIsSubsequence(rs, Lower(q));
  }

  /** Search is case-insensitive: queries that lower-case alike give the same result. */
  lemma SearchCaseInsensitive(rs: seq<Recipe>, q1: string, q2: string)
    requires Lower(q1) == Lower(q2)
    ensures Search(rs, Some(q1)) == Search(rs, Some(q2))
  {
    assert |q1| == |Lower(q1)| == |q2|;
  }

  /** In particular a query and its lower-cased form give the same result. */
  lemma SearchLowerQuery(rs: seq<Recipe>, q: string)
    ensures Search(rs, Some(Lower(q))) == Search(rs, Some(q))
  {
    LowerIdempotent(q);
    SearchCaseInsensitive(rs, Lower(q), q);
  }

  /** A query matches the title whatever its case, and a title without it is left out. */
  lemma SearchTitleExample(cake: Recipe, pie: Recipe)
    requires cake.title == "Unique Cake" && pie.title == "Unique Pie" && pie.ingredients == []
    ensures Search([cake, pie], Some("CAKE")) == [cake]
  {
    assert Lower("CAKE") == "cake";
    CakeMatches(cake);
    PieMisses(pie);
    assert [cake, pie][1..] == [pie] && [pie][1..] == [];
    assert Filter([pie], "cake") == [];
    assert Filter([cake, pie], "cake") == [cake] + Filter([pie], "cake");
  }

  lemma CakeMatches(cake: Recipe)
    requires cake.title == "Unique Cake"
    ensures Matches(cake, "cake")
  {
    var t := Lower(cake.title);
    assert t[7..] == "cake";
    assert StartsWith(t[7..], "cake");
    ContainsIffOccurs(t, "cake");
  }

  lemma PieMisses(pie: Recipe)
    requires pie.title == "Unique Pie" && pie.ingredients == []
    ensures !Matches(pie, "cake")
  {
    var t := Lower(pie.title);
    assert 'k' !in t;
    if Contains(t, "cake") {
      ContainedCharsOccur(t, "cake", 'k');
    }
  }

  // ------------------------------------------------------------ find by id

  /** `recipes.findIndex(r => r.id === id)`: the first index holding `id`, or -1. */
  function FindIndex(rs: seq<Recipe>, id: string): (k: int)
    ensures -1 <= k < |rs|
    ensures 0 <= k ==> rs[k].id == id && forall j :: 0 <= j < k ==> rs[j].id != id
    ensures k == -1 <==> forall j :: 0 <= j < |rs| ==> rs[j].id != id
  {
    if rs == [] then -1
    else if rs[0].id == id then 0
    else
      var k := FindIndex(rs[1..], id);
      if k == -1 then -1 else k + 1
  }

  /** `recipes.find(r => r.id === id)`. */
  function Find(rs: seq<Recipe>, id: string): (r: Option<Recipe>)
    ensures r.Some? ==> r.value in rs && r.value.id == id
    ensures r.None? <==> forall x :: x in rs ==> x.id != id
  {
    var k := FindIndex(rs, id);
    if k == -1 then None else Some(rs[k])
  }

  /** Find returns the first recipe carrying the id, and nothing only when no recipe does. */
  lemma FindFirst(rs: seq<Recipe>, id: string)
    ensures Find(rs, id).Some? ==>
      exists k :: 0 <= k < |rs| && Find(rs, id).value == rs[k] && rs[k].id == id &&
                  forall j :: 0 <= j < k ==> rs[j].id != id
    ensures Find(rs, id).None? <==> forall j :: 0 <= j < |rs| ==> rs[j].id != id
  {
  }

  // ---------------------------------------------------------------- delete

  /** `recipes.filter(r => r.id !== id)`. */
  function RemoveId(rs: seq<Recipe>, id: string): (r: seq<Recipe>)
    ensures |r| <= |rs|
    ensures forall x :: x in r <==> x in rs && x.id != id
  {
    if rs == [] then []
    else if rs[0].id == id then RemoveId(rs[1..], id)
    else [rs[0]] + RemoveId(rs[1..], id)
  }

  /** Delete keeps the other recipes in their order. */
  lemma {:induction false} RemoveIdIsSubsequence(rs: seq<Recipe>, id: string)
    ensures IsSubsequence(RemoveId(rs, id), rs)
  {
    if rs != [] {
      RemoveIdIsSubsequence(rs[1..], id);
      if rs[0].id != id {
        var f := RemoveId(rs, id);
        assert f[0] == rs[0] && f[1..] == RemoveId(rs[1..], id);
      }
    }
  }

  /** The collection shrinks exactly when some recipe carries the id; otherwise it is untouched. */
  lemma {:induction false} RemoveIdShrinks(rs: seq<Recipe>, id: string)
    ensures |RemoveId(rs, id)| < |rs| <==> FindIndex(rs, id) != -1
    ensures FindIndex(rs, id) == -1 ==> RemoveId(rs, id) == rs
  {
    if rs != [] {
      RemoveIdShrinks(rs[1..], id);
    }
  }

  /** After a delete, looking the id up finds nothing. */
  lemma FindAfterRemove(rs: seq<Recipe>, id: string)
    ensures Find(RemoveId(rs, id), id) == None
  {
    var r := RemoveId(rs, id);
    assert forall j :: 0 <= j < |r| ==> r[j] in r;
  }

  // ------------------------------------------------------------------- ids

  /** No two recipes of the collection share an id. */
  ghost predicate UniqueIds(rs: seq<Recipe>) {
    forall i, j :: 0 <= i < j < |rs| ==> rs[i].id != rs[j].id
  }

  /** `id` is the id of a recipe of the collection or of one of their ingredients. */
  ghost predicate IdInUse(rs: seq<Recipe>, id: string) {
    exists r :: r in rs && (r.id == id || exists g :: g in r.ingredients && g.id == id)
  }

  /** Every id of the collection, of a recipe or of an ingredient, is shorter than `n`. */
  ghost predicate IdsShorterThan(rs: seq<Recipe>, n: nat) {
    forall r :: r in rs ==> |r.id| < n && forall g :: g in r.ingredients ==> |g.id| < n
  }

  /** A bound on the lengths of a collection's ids. */
  function IdLengthBound(rs: seq<Recipe>): (n: nat)
    ensures IdsShorterThan(rs, n)
  {
    if rs == [] then 0
    else
      var rest := IdLengthBound(rs[1..]);
      var here := IngredientIdBound(rs[0].ingredients);
      var n := Max(Max(rest, here), |rs[0].id| + 1);
      assert forall r :: r in rs ==> r == rs[0] || r in rs[1..];
      n
  }

  function IngredientIdBound(gs: seq<Ingredient>): (n: nat)
    ensures forall g :: g in gs ==> |g.id| < n
  {
    if gs == [] then 0 else Max(IngredientIdBound(gs[1..]), |gs[0].id| + 1)
  }

  function Max(a: nat, b: nat): nat {
    if a < b then b else a
  }

  /** An id at least as long as the bound is not in use. */
  lemma LongIdNotInUse(rs: seq<Recipe>, n: nat, id: string)
    requires IdsShorterThan(rs, n) && |id| >= n
    ensures !IdInUse(rs, id)
  {
  }

  /** A collection with unique ids, with one recipe added whose id is not in use, keeps unique ids. */
  lemma UniqueAfterAppend(rs: seq<Recipe>, r: Recipe)
    requires UniqueIds(rs) && !IdInUse(rs, r.id)
    ensures UniqueIds(rs + [r])
  {
    assert forall i :: 0 <= i < |rs| ==> rs[i] in rs;
  }

  /** Replacing a recipe by one with the same id keeps ids unique. */
  lemma UniqueAfterReplace(rs: seq<Recipe>, k: nat, r: Recipe)
    requires UniqueIds(rs) && k < |rs| && r.id == rs[k].id
    ensures UniqueIds(rs[k := r])
  {
  }

  /** Removing recipes keeps ids unique. */
  lemma {:induction false} UniqueAfterRemove(rs: seq<Recipe>, id: string)
    requires UniqueIds(rs)
    ensures UniqueIds(RemoveId(rs, id))
  {
    if rs != [] {
      UniqueAfterRemove(rs[1..], id);
      if rs[0].id != id {
        var f := RemoveId(rs, id);
        assert f[1..] == RemoveId(rs[1..], id);
        forall j | 0 < j < |f| ensures f[0].id != f[j].id {
          assert f[j] in rs[1..];
        }
      }
    }
  }

  /** A recipe appended under an id nobody uses is what looking that id up then finds. */
  lemma FindAppended(rs: seq<Recipe>, r: Recipe)
    requires !IdInUse(rs, r.id)
    ensures Find(rs + [r], r.id) == Some(r)
  {
    assert forall j :: 0 <= j < |rs| ==> rs[j] in rs;
    assert (rs + [r])[|rs|] == r;
  }

  /** A recipe written back into the slot findIndex chose is what looking the id up then finds. */
  lemma FindReplaced(rs: seq<Recipe>, id: string, r: Recipe)
    requires FindIndex(rs, id) != -1 && r.id == id
    ensures Find(rs[FindIndex(rs, id) := r], id) == Some(r)
  {
    var k := FindIndex(rs, id);
    var after := rs[k := r];
    assert after[k].id == id;
    assert forall j :: 0 <= j < k ==> after[j].id != id by {
      forall j | 0 <= j < k ensures after[j].id != id {
        assert after[j] == rs[j];
      }
    }
    var k' := FindIndex(after, id);
    assert k' == k;
  }
}
