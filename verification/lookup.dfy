/**
  Matching a requested id against the products the batched lookup returned.
 */
module ProductLookup {
  import opened OrderTypes

  /** Some fetched product carries `id`. */
  ghost predicate HasProduct(found: seq<Product>, id: string) {
    exists p :: p in found && p.id == id
  }

  /** `found[k]` is the earliest fetched product that carries `id`. */
  ghost predicate IsFirstMatch(found: seq<Product>, id: string, k: int) {
    && 0 <= k < |found|
    && found[k].id == id
    && forall j :: 0 <= j < k ==> found[j].id != id
  }

  /** The first fetched product whose id equals `id`, scanning from the
      front, or `None` when there is none. */
  function Find(found: seq<Product>, id: string): (r: Option<Product>)
    ensures r.Some? <==> HasProduct(found, id)
    ensures r.Some? ==> exists k :: IsFirstMatch(found, id, k) && found[k] == r.value
  {
    if |found| == 0 then None
    else if found[0].id == id then
      assert IsFirstMatch(found, id, 0);
      Some(found[0])
    else
      var r := Find(found[1..], id);
      if r.Some? then
        assert exists k :: IsFirstMatch(found, id, k) && found[k] == r.value by {
          var k :| IsFirstMatch(found[1..], id, k) && found[1..][k] == r.value;
          assert IsFirstMatch(found, id, k + 1);
        }
        r
      else
        assert forall p :: p in found && p.id == id ==> p in found[1..];
        r
  }

  /** When the fetched products have distinct ids (the store keys them by
      id), the first match is the only match. */
  lemma FindUniqueIds(found: seq<Product>, p: Product)
    requires forall i, j :: 0 <= i < j < |found| ==> found[i].id != found[j].id
    requires p in found
    ensures Find(found, p.id) == Some(p)
  {
    // Find's first-match contract already excludes an earlier product with
    // p's id, since the ids are distinct.
  }
}
