/** `SimulationApp.randomize_sim` (main.py:87-129): the trait allocation,
    the chemistry split, an aspiration and a favourite colour, and the text
    that reports them. */
module Sim {
  import opened Common
  import opened Traits
  import opened Text
  import Chemistry
  import Randomness

  datatype Profile = Profile(traits: Table, chemistry: Chemistry.Picks, aspiration: string, color: string)

  /** What every successful run yields from the three catalogs. */
  ghost predicate Generated(chemistry: seq<string>, aspirations: seq<string>, colors: seq<string>, p: Profile)
  {
    Keyed(p.traits) && Bounded(p.traits) && Total(p.traits) == Points &&
    Chemistry.Drawn(chemistry, p.chemistry) &&
    p.aspiration in aspirations && p.color in colors
  }

  /** The random part of `randomize_sim`. `random.sample` fails first
      (ValueError), then `random.choice` on an empty aspiration or colour
      list (IndexError). */
  method GenerateSim(chemistry: seq<string>, aspirations: seq<string>, colors: seq<string>)
    returns (r: Result<Profile>)
    ensures r.Ok? <==> |chemistry| >= 3 && |aspirations| > 0 && |colors| > 0
    ensures |chemistry| < 3 ==> r == Err(ValueError)
    ensures |chemistry| >= 3 && (|aspirations| == 0 || |colors| == 0) ==> r == Err(IndexError)
    ensures r.Ok? ==> Generated(chemistry, aspirations, colors, r.value)
  {
    var traits := AllocateTraits();
    var chem := Chemistry.SampleChemistry(chemistry);
    if chem.Err? {
      return Err(chem.error);
    }
    if |aspirations| == 0 {
      return Err(IndexError);
    }
    var aspiration := Randomness.Choice(aspirations);
    if |colors| == 0 {
      return Err(IndexError);
    }
    var color := Randomness.Choice(colors);
    r := Ok(Profile(traits, chem.value, aspiration, color));
  }

  /** One `"{Trait}: {value}\n"` line per key (main.py:109). */
  function TraitLines(keys: seq<string>, t: Table): string
    requires forall k :: k in keys ==> k in t
  {
    if keys == [] then ""
    else TraitLines(keys[..|keys| - 1], t) + TraitLine(keys[|keys| - 1], t[keys[|keys| - 1]])
  }

  /** Writing the lines of one more key adds that key's line at the end of
      the trait block. */
  lemma TraitLinesSnoc(keys: seq<string>, t: Table, k: nat)
    requires forall x :: x in keys ==> x in t
    requires k < |keys|
    ensures "Traits:\n" + TraitLines(keys[..k + 1], t)
            == ("Traits:\n" + TraitLines(keys[..k], t)) + TraitLine(keys[k], t[keys[k]])
  {
    assert keys[..k + 1][..k] == keys[..k];
    ConcatAssoc("Traits:\n", TraitLines(keys[..k], t), TraitLine(keys[k], t[keys[k]]));
  }

  /** `f"{trait.capitalize()}: {value}\n"` (main.py:109). */
  function TraitLine(name: string, value: int): string
  {
    Capitalize(name) + ": " + IntToString(value) + "\n"
  }

  /** One `"{label}, "` item per turn-on (main.py:116). */
  function TurnOnsText(ons: seq<string>): string
  {
    if ons == [] then "" else TurnOnsText(ons[..|ons| - 1]) + ons[|ons| - 1] + ", "
  }

  /** The trait block of the report (main.py:107-109). */
  function TraitsSection(t: Table): string
    requires Keyed(t)
  {
    "Traits:\n" + TraitLines(Axes, t)
  }

  /** The chemistry block of the report (main.py:113-118). */
  function ChemistrySection(c: Chemistry.Picks): string
  {
    "\nChemistry Traits:\n" + "Turn Ons: " + TurnOnsText(c.turnOns) + "\nTurn Off: " + c.turnOff + "\n"
  }

  /** The aspiration and colour lines and the closing rule (main.py:122-126). */
  function TailSection(aspiration: string, color: string): string
  {
    "\nAspiration: " + aspiration + "\n" + "\nFavorite color: " + color + "\n" + "________"
  }

  /** The report that `randomize_sim` appends to the log (main.py:107-126). */
  function SimText(p: Profile): string
    requires Keyed(p.traits)
  {
    TraitsSection(p.traits) + ChemistrySection(p.chemistry) + TailSection(p.aspiration, p.color)
  }

  /** The `result_text +=` loop over the traits (main.py:107-109). */
  method RenderTraits(keys: seq<string>, t: Table) returns (text: string)
    requires forall k :: k in keys ==> k in t
    ensures text == "Traits:\n" + TraitLines(keys, t)
  {
    text := "Traits:\n";
    for k := 0 to |keys|
      invariant text == "Traits:\n" + TraitLines(keys[..k], t)
    {
      var axis := keys[k];
      TraitLinesSnoc(keys, t, k);
      text := text + TraitLine(axis, t[axis]);
    }
    assert keys[..|keys|] == keys;
  }

  /** The `result_text +=` lines for the chemistry split, with the loop over
      the two turn-ons (main.py:113-118). */
  method RenderChemistry(c: Chemistry.Picks) returns (text: string)
    requires |c.turnOns| == 2
    ensures text == ChemistrySection(c)
  {
    text := "\nChemistry Traits:\n";
    text := text + "Turn Ons: ";
    var head := text;
    for i := 0 to 2
      invariant text == head + TurnOnsText(c.turnOns[..i])
    {
      assert c.turnOns[..i + 1][..i] == c.turnOns[..i];
      text := text + c.turnOns[i] + ", ";
    }
    assert c.turnOns[..2] == c.turnOns;
    text := text + "\nTurn Off: ";
    text := text + c.turnOff + "\n";
  }

  /** All of `result_text` (main.py:107-126). */
  method RenderSim(p: Profile) returns (text: string)
    requires Keyed(p.traits)
    requires |p.chemistry.turnOns| == 2
    ensures text == SimText(p)
  {
    text := RenderTraits(Axes, p.traits);
    var chemistry := RenderChemistry(p.chemistry);
    text := text + chemistry;
    text := text + TailSection(p.aspiration, p.color);
  }
}
