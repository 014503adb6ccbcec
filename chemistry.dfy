/** The chemistry split of `randomize_sim` (main.py:112-118): three catalog
    entries sampled without replacement, two shown as turn-ons and the last
    as the turn-off. */
module Chemistry {
  import opened Common
  import Randomness

  datatype Picks = Picks(turnOns: seq<string>, turnOff: string)

  /** `c` is two turn-ons and a turn-off taken from three distinct positions
      of the catalog. */
  ghost predicate Drawn(catalog: seq<string>, c: Picks)
  {
    exists i, j, k ::
      0 <= i < |catalog| && 0 <= j < |catalog| && 0 <= k < |catalog| &&
      i != j && i != k && j != k &&
      c.turnOns == [catalog[i], catalog[j]] && c.turnOff == catalog[k]
  }

  /** Entries 0 and 1 of the sample are the turn-ons, entry 2 the turn-off. */
  function Split(catalog: seq<string>, ps: seq<nat>): (c: Picks)
    requires |ps| == 3 && ps[0] < |catalog| && ps[1] < |catalog| && ps[2] < |catalog|
    requires ps[0] != ps[1] && ps[0] != ps[2] && ps[1] != ps[2]
    ensures Drawn(catalog, c)
    ensures c.turnOns[0] in catalog && c.turnOns[1] in catalog && c.turnOff in catalog
  {
    Picks([catalog[ps[0]], catalog[ps[1]]], catalog[ps[2]])
  }

  /** Over a catalog without repeated labels the three labels shown differ. */
  lemma DrawnLabelsDistinct(catalog: seq<string>, c: Picks)
    requires Distinct(catalog)
    requires Drawn(catalog, c)
    ensures |c.turnOns| == 2
    ensures c.turnOns[0] != c.turnOns[1]
    ensures c.turnOff != c.turnOns[0] && c.turnOff != c.turnOns[1]
  {
  }

  /** `random.sample(self.chemistry_traits, 3)` split into turn-ons and turn-off;
      a catalog of fewer than three entries raises ValueError. */
  method SampleChemistry(catalog: seq<string>) returns (r: Result<Picks>)
    ensures r.Err? <==> |catalog| < 3
    ensures r.Err? ==> r.error == ValueError
    ensures r.Ok? ==> Drawn(catalog, r.value)
  {
    if |catalog| < 3 {
      return Err(ValueError);
    }
    var ps := Randomness.SampleThree(|catalog|);
    r := Ok(Split(catalog, ps));
  }
}
