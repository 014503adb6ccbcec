/** The window object `SimulationApp` (main.py:8-165): the catalogs loaded
    at start-up, the text log, and the three button handlers, each of which
    appends one report to the log or, when one of its random calls raises,
    leaves the log as it was. */
module App {
  import opened Common
  import opened InfoLog
  import Randomness
  import Sim
  import Family

  /** `f"{random_event}\n_______"` (main.py:133). */
  function EventText(event: string): string
  {
    event + "\n_______"
  }

  class SimulationApp {
    /** `character_data['chemistry']`, `['aspiration']` and `['fav_color']`. */
    const chemistry: seq<string>
    const aspirations: seq<string>
    const colors: seq<string>
    /** `self.events['events']`. */
    const events: seq<string>
    /** The lists and range of family.json. */
    const family: Family.Config
    /** The plain text of the read-only display. */
    var log: string

    /** `initUI`, with the three JSON files already read: the catalogs are
        kept and the display starts empty. */
    constructor (chemistry: seq<string>, aspirations: seq<string>, colors: seq<string>,
                 events: seq<string>, family: Family.Config)
      ensures this.chemistry == chemistry && this.aspirations == aspirations
      ensures this.colors == colors && this.events == events && this.family == family
      ensures log == ""
    {
      this.chemistry := chemistry;
      this.aspirations := aspirations;
      this.colors := colors;
      this.events := events;
      this.family := family;
      log := "";
    }

    /** `append_to_info_display` (main.py:155-158). */
    method AppendToInfoDisplay(text: string)
      modifies this
      ensures log == Appended(old(log), text)
    {
      log := Appended(log, text);
    }

    /** `randomize_sim` (main.py:87-129). */
    method RandomizeSim() returns (r: Result<Sim.Profile>)
      modifies this
      ensures r.Ok? <==> |chemistry| >= 3 && |aspirations| > 0 && |colors| > 0
      ensures |chemistry| < 3 ==> r == Err(ValueError)
      ensures |chemistry| >= 3 && (|aspirations| == 0 || |colors| == 0) ==> r == Err(IndexError)
      ensures r.Ok? ==> Sim.Generated(chemistry, aspirations, colors, r.value)
                        && log == Appended(old(log), Sim.SimText(r.value))
      ensures r.Err? ==> log == old(log)
    {
      r := Sim.GenerateSim(chemistry, aspirations, colors);
      if r.Ok? {
        var text := Sim.RenderSim(r.value);
        AppendToInfoDisplay(text);
      }
    }

    /** `random_event` (main.py:130-136): an empty event list raises IndexError. */
    method RandomEvent() returns (r: Result<string>)
      modifies this
      ensures r.Err? <==> |events| == 0
      ensures r.Err? ==> r.error == IndexError && log == old(log)
      ensures r.Ok? ==> r.value in events && log == Appended(old(log), EventText(r.value))
    {
      if |events| == 0 {
        return Err(IndexError);
      }
      var event := Randomness.Choice(events);
      AppendToInfoDisplay(EventText(event));
      r := Ok(event);
    }

    /** `randomize_family` (main.py:138-153). */
    method RandomizeFamily() returns (r: Result<Family.Household>)
      modifies this
      ensures |family.genders| == 0 ==> r == Err(IndexError)
      ensures |family.genders| > 0 && family.lo > family.hi ==> r == Err(ValueError)
      ensures |family.genders| > 0 && family.lo <= family.hi && (|family.ages| > 0 || family.hi <= 1) ==> r.Ok?
      ensures r.Err? ==> |family.genders| == 0 || family.lo > family.hi || (|family.ages| == 0 && r.error == IndexError)
      ensures r.Ok? ==> Family.Generated(family, r.value)
                        && log == Appended(old(log), Family.FamilyText(r.value))
      ensures r.Err? ==> log == old(log)
    {
      var text;
      r, text := Family.RandomizeFamily(family);
      if r.Ok? {
        AppendToInfoDisplay(text);
      }
    }
  }
}
