/**
 The one pass over the zip-code records done when the handler module is
 loaded: each record's two city-list fields are rewritten in place by the
 rule of `CityLists.Normalize`. Here the pass is a pure function from the
 loaded records to the normalised ones, or to the TypeError that aborts the
 load.
 */
module Dataset {
  import opened Js
  import opened Wrappers
  import opened CityLists

  const AcceptableCities: string := "acceptable_cities"
  const UnacceptableCities: string := "unacceptable_cities"

  /** One record, as the loop body leaves it. `acceptable_cities` is handled
      first, so its TypeError wins when both fields are bad. Assigning the
      property creates it even when the record lacked it (its value then
      stays `undefined`). */
  function NormalizeEntry(e: Object): (r: Result<Object, LoadError>)
    ensures r.Ok? <==>
              Normalize(AcceptableCities, Get(e, AcceptableCities)).Ok? &&
              Normalize(UnacceptableCities, Get(e, UnacceptableCities)).Ok?
    ensures Normalize(AcceptableCities, Get(e, AcceptableCities)).Err? ==>
              r == Err(ReplaceIsNotAFunction(AcceptableCities, Get(e, AcceptableCities)))
    ensures Normalize(AcceptableCities, Get(e, AcceptableCities)).Ok? &&
            Normalize(UnacceptableCities, Get(e, UnacceptableCities)).Err? ==>
              r == Err(ReplaceIsNotAFunction(UnacceptableCities, Get(e, UnacceptableCities)))
    ensures r.Ok? ==>
              && r.value.Keys == e.Keys + {AcceptableCities, UnacceptableCities}
              && Ok(r.value[AcceptableCities]) == Normalize(AcceptableCities, Get(e, AcceptableCities))
              && Ok(r.value[UnacceptableCities]) == Normalize(UnacceptableCities, Get(e, UnacceptableCities))
              && forall k | k in e && k != AcceptableCities && k != UnacceptableCities :: r.value[k] == e[k]
  {
    var acceptable :- Normalize(AcceptableCities, Get(e, AcceptableCities));
    var e' := e[AcceptableCities := acceptable];
    var unacceptable :- Normalize(UnacceptableCities, Get(e', UnacceptableCities));
    Ok(e'[UnacceptableCities := unacceptable])
  }

  /** `data.forEach(...)` over the whole dataset. The records keep their
      order; the first record whose rewrite throws aborts the load. */
  function NormalizeData(data: seq<Object>): (r: Result<seq<Object>, LoadError>)
    ensures r.Ok? <==> forall i | 0 <= i < |data| :: NormalizeEntry(data[i]).Ok?
    ensures r.Ok? ==>
              && |r.value| == |data|
              && forall i | 0 <= i < |data| :: NormalizeEntry(data[i]) == Ok(r.value[i])
    ensures r.Err? ==>
              exists i | 0 <= i < |data| ::
                && NormalizeEntry(data[i]) == Err(r.error)
                && forall k | 0 <= k < i :: NormalizeEntry(data[k]).Ok?
  {
    if data == [] then
      Ok([])
    else
      var first :- NormalizeEntry(data[0]);
      var rest :- NormalizeData(data[1..]);
      Ok([first] + rest)
  }

  /** The pass changes only the two city-list fields of each record, each by
      the same rule, and no record moves. */
  lemma {:induction false} OnlyCityListsChange(data: seq<Object>, i: int, k: string)
    requires NormalizeData(data).Ok?
    requires 0 <= i < |data|
    ensures var out := NormalizeData(data).value;
            && |out| == |data|
            && (k in data[i] && k != AcceptableCities && k != UnacceptableCities ==>
                  k in out[i] && out[i][k] == data[i][k])
            && (k !in data[i] && k != AcceptableCities && k != UnacceptableCities ==>
                  k !in out[i])
            && Normalize(AcceptableCities, Get(data[i], AcceptableCities)) == Ok(out[i][AcceptableCities])
            && Normalize(UnacceptableCities, Get(data[i], UnacceptableCities)) == Ok(out[i][UnacceptableCities])
  {
    var out := NormalizeData(data).value;
    assert NormalizeEntry(data[i]) == Ok(out[i]);
  }

  /** A record whose city lists are both empty or missing comes out with the
      same values: `""` stays `""`, a missing field reads `undefined`. */
  lemma EmptyListsUnchanged(e: Object)
    requires !Truthy(Get(e, AcceptableCities)) && !Truthy(Get(e, UnacceptableCities))
    ensures NormalizeEntry(e).Ok?
    ensures var e' := NormalizeEntry(e).value;
            forall k :: Get(e', k) == Get(e, k)
  {
  }
}
