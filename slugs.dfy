/**
  The per-render slug memo behind `as_slugid`: a table from names to
  identifiers. The first lookup of a name stores a fresh identifier, every
  later lookup of that name returns the stored one. The random generator
  `slugid.nice()` is modelled as a counter of identifiers issued so far, so
  that each fresh identifier differs from every identifier issued before it.
 */
module Slugs {

  type Slug = nat

  /** The memo's state: the table and how many fresh identifiers were issued. */
  datatype Memo = Memo(ids: map<string, Slug>, issued: nat) {
    /** Every stored identifier was issued, and no two names share one. */
    ghost predicate Valid() {
      && (forall n :: n in ids ==> ids[n] < issued)
      && (forall n, n' :: n in ids && n' in ids && n != n' ==> ids[n] != ids[n'])
    }
  }

  const EmptyMemo: Memo := Memo(map[], 0)

  datatype Resolution = Resolution(id: Slug, memo: Memo)

  /** One call `as_slugid(name)`. */
  function Resolve(m: Memo, name: string): (r: Resolution)
    ensures name in r.memo.ids && r.memo.ids[name] == r.id
    ensures r.memo.ids.Keys == m.ids.Keys + {name}
    ensures forall n :: n in m.ids ==> r.memo.ids[n] == m.ids[n]
    ensures name in m.ids ==> r.memo == m
    ensures m.Valid() ==> r.memo.Valid()
    ensures m.Valid() && name !in m.ids ==> r.id !in m.ids.Values
  {
    if name in m.ids then Resolution(m.ids[name], m)
    else Resolution(m.issued, Memo(m.ids[name := m.issued], m.issued + 1))
  }

  /** The identifiers returned by a series of calls, and the memo after them. */
  datatype Trace = Trace(ids: seq<Slug>, memo: Memo)

  /** `as_slugid` called on each of `names` in turn, starting from `m`. */
  function ResolveAll(m: Memo, names: seq<string>): (t: Trace)
    ensures |t.ids| == |names|
  {
    if names == [] then Trace([], m)
    else
      var before := ResolveAll(m, names[..|names| - 1]);
      var last := Resolve(before.memo, names[|names| - 1]);
      Trace(before.ids + [last.id], last.memo)
  }

  /**
    Across a series of calls the memo stays valid, keeps every entry it
    started with, and each call's answer is what the final table stores for
    that call's name.
   */
  lemma {:induction false} ResolveAllAgreesWithTable(m: Memo, names: seq<string>)
    requires m.Valid()
    ensures ResolveAll(m, names).memo.Valid()
    ensures forall n :: n in m.ids ==> n in ResolveAll(m, names).memo.ids && ResolveAll(m, names).memo.ids[n] == m.ids[n]
    ensures forall i :: 0 <= i < |names| ==>
      names[i] in ResolveAll(m, names).memo.ids && ResolveAll(m, names).ids[i] == ResolveAll(m, names).memo.ids[names[i]]
  {
    if names != [] {
      var init := names[..|names| - 1];
      ResolveAllAgreesWithTable(m, init);
      var before := ResolveAll(m, init);
      var last := Resolve(before.memo, names[|names| - 1]);
      assert ResolveAll(m, names) == Trace(before.ids + [last.id], last.memo);
      forall i | 0 <= i < |names|
        ensures names[i] in last.memo.ids && (before.ids + [last.id])[i] == last.memo.ids[names[i]]
      {
        if i < |names| - 1 {
          assert names[i] == init[i];
        }
      }
    }
  }

  /**
    Within one render, two calls return the same identifier exactly when
    they were given the same name.
   */
  lemma {:induction false} SameIdIffSameName(m: Memo, names: seq<string>, i: nat, j: nat)
    requires m.Valid()
    requires i < |names| && j < |names|
    ensures ResolveAll(m, names).ids[i] == ResolveAll(m, names).ids[j] <==> names[i] == names[j]
  {
    ResolveAllAgreesWithTable(m, names);
  }

  /**
    The memo object a render hands to the template. `slugids` and `issued`
    are the table and the generator's counter; `AsSlugid` is `as_slugid`.
   */
  class SlugTable {
    var slugids: map<string, Slug>
    var issued: nat

    function State(): Memo
      reads this
    {
      Memo(slugids, issued)
    }

    ghost predicate Valid()
      reads this
    {
      State().Valid()
    }

    /** A new render starts from an empty table. */
    constructor ()
      ensures Valid() && State() == EmptyMemo
    {
      slugids := map[];
      issued := 0;
    }

    method AsSlugid(name: string) returns (id: Slug)
      requires Valid()
      modifies this
      ensures Valid()
      ensures Resolution(id, State()) == Resolve(old(State()), name)
      ensures name in old(slugids) ==> id == old(slugids)[name] && slugids == old(slugids)
      ensures name !in old(slugids) ==> slugids == old(slugids)[name := id] && id !in old(slugids).Values
    {
      if name !in slugids {
        slugids := slugids[name := issued];
        issued := issued + 1;
      }
      id := slugids[name];
    }
  }
}
