/** `SimulationApp.randomize_family` (main.py:138-153): a household size
    drawn from the configured inclusive range, a first Sim who is always an
    adult, and an (age, gender) draw for every further Sim. */
module Family {
  import opened Common
  import opened Text
  import Randomness

  /** The parts of family.json the handler reads: the age and gender lists
      and the `nr_of_sims` pair, unpacked into `randint(lo, hi)`. */
  datatype Config = Config(ages: seq<string>, genders: seq<string>, lo: int, hi: int)

  datatype Member = Member(age: string, gender: string)

  /** `count` is the drawn `num_sims`; `members` the Sims listed, Sim 1 first. */
  datatype Household = Household(count: int, members: seq<Member>)

  /** The age written for Sim 1 (main.py:143). */
  const Adult := "Adult"

  /** How many Sims are listed for a drawn size: Sim 1 always, then one per
      pass of `range(1, num_sims)`. */
  function Listed(count: int): (n: nat)
    ensures n >= 1
    ensures count >= 1 ==> n == count
  {
    if count < 1 then 1 else count
  }

  /** What every successful run yields from the configuration. */
  ghost predicate Generated(cfg: Config, h: Household)
  {
    cfg.lo <= h.count <= cfg.hi &&
    |h.members| == Listed(h.count) &&
    h.members[0].age == Adult && h.members[0].gender in cfg.genders &&
    forall k :: 1 <= k < |h.members| ==> h.members[k].age in cfg.ages && h.members[k].gender in cfg.genders
  }

  /** `f"Sim {number}: {age}, {gender}\n"` (main.py:143 and 148-149). */
  function MemberLine(number: int, m: Member): string
  {
    "Sim " + IntToString(number) + ": " + m.age + ", " + m.gender + "\n"
  }

  /** The roster lines, numbered from 1. */
  function Lines(ms: seq<Member>): string
  {
    if ms == [] then "" else Lines(ms[..|ms| - 1]) + MemberLine(|ms|, ms[|ms| - 1])
  }

  function Header(count: int): string
  {
    "Number of Sims: " + IntToString(count) + "\n\n"
  }

  /** The text built up to the end of the roster loop (main.py:142-149). */
  function RosterText(count: int, ms: seq<Member>): string
  {
    Header(count) + Lines(ms)
  }

  /** The text `randomize_family` appends to the log (main.py:142-150). */
  function FamilyText(h: Household): string
  {
    RosterText(h.count, h.members) + "\n_______"
  }

  /** One more Sim adds its line, numbered after the others, at the end. */
  lemma RosterTextSnoc(count: int, ms: seq<Member>, m: Member)
    ensures RosterText(count, ms + [m]) == RosterText(count, ms) + MemberLine(|ms| + 1, m)
  {
    var longer := ms + [m];
    assert longer[..|longer| - 1] == ms;
    assert longer[|longer| - 1] == m;
    ConcatAssoc(Header(count), Lines(ms), MemberLine(|ms| + 1, m));
  }

  /** The loop of main.py:145-150 for a drawn size `count` after the line of
      Sim 1, `first`: one (age, gender) draw per further Sim; an empty age
      list raises IndexError at the first of them. */
  method DrawRoster(cfg: Config, count: int, first: Member) returns (r: Result<Household>, text: string)
    requires |cfg.genders| > 0
    ensures r.Err? <==> |cfg.ages| == 0 && count >= 2
    ensures r.Err? ==> r.error == IndexError && text == ""
    ensures r.Ok? ==> r.value.count == count && |r.value.members| == Listed(count)
    ensures r.Ok? ==> r.value.members[0] == first
    ensures r.Ok? ==> forall k :: 1 <= k < |r.value.members| ==>
                        r.value.members[k].age in cfg.ages && r.value.members[k].gender in cfg.genders
    ensures r.Ok? ==> text == FamilyText(r.value)
  {
    text := Header(count);
    RosterTextSnoc(count, [], first);
    assert RosterText(count, []) == text;
    text := text + MemberLine(1, first);
    var members := [first];
    var i := 1;
    while i < count
      invariant 1 <= i <= Listed(count)
      invariant |members| == i
      invariant members[0] == first
      invariant forall k :: 1 <= k < i ==> members[k].age in cfg.ages && members[k].gender in cfg.genders
      invariant text == RosterText(count, members)
    {
      if |cfg.ages| == 0 {
        return Err(IndexError), "";
      }
      var age := Randomness.Choice(cfg.ages);
      var gender := Randomness.Choice(cfg.genders);
      var sim := Member(age, gender);
      RosterTextSnoc(count, members, sim);
      text := text + MemberLine(i + 1, sim);
      members := members + [sim];
      i := i + 1;
    }
    text := text + "\n_______";
    r := Ok(Household(count, members));
  }

  /** `randomize_family` up to the append (main.py:140-150): no genders raises
      IndexError, lo > hi raises ValueError, then the roster is drawn. */
  method RandomizeFamily(cfg: Config) returns (r: Result<Household>, text: string)
    ensures |cfg.genders| == 0 ==> r == Err(IndexError)
    ensures |cfg.genders| > 0 && cfg.lo > cfg.hi ==> r == Err(ValueError)
    ensures |cfg.genders| > 0 && cfg.lo <= cfg.hi && (|cfg.ages| > 0 || cfg.hi <= 1) ==> r.Ok?
    ensures r.Err? ==> |cfg.genders| == 0 || cfg.lo > cfg.hi || (|cfg.ages| == 0 && r.error == IndexError)
    ensures r.Ok? ==> Generated(cfg, r.value) && text == FamilyText(r.value)
  {
    if |cfg.genders| == 0 {
      return Err(IndexError), "";
    }
    var firstGender := Randomness.Choice(cfg.genders);
    if cfg.lo > cfg.hi {
      return Err(ValueError), "";
    }
    var numSims := Randomness.RandInt(cfg.lo, cfg.hi);
    r, text := DrawRoster(cfg, numSims, Member(Adult, firstGender));
  }
}
