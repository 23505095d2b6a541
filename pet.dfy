/** The pet itself (pet.py:16-94): three counters kept by saturating arithmetic, a name and an
    ordered list of learned tricks. */
module Pets {
  import opened Wrappers
  import opened Text
  import Records

  /** Python's `max(a, b)`. */
  function Max(a: int, b: int): (r: int)
    ensures r >= a && r >= b && (r == a || r == b)
  {
    if a >= b then a else b
  }

  /** Python's `min(a, b)`. */
  function Min(a: int, b: int): (r: int)
    ensures r <= a && r <= b && (r == a || r == b)
  {
    if a <= b then a else b
  }

  /** What `show_tricks` says when there is nothing to list. */
  const NoTricks: string := "No tricks learned yet."

  /** The three counters of a pet, with the effect of each care action on them. */
  datatype Levels = Levels(hunger: int, energy: int, happiness: int) {

    /** The range the counters are meant to stay in; nothing in the source enforces it. */
    predicate InRange() {
      0 <= hunger <= 10 && 0 <= energy <= 10 && 0 <= happiness <= 10
    }

    /** `eat`: hunger falls by 3, not below 0; happiness rises by 1, not above 10. */
    function Eat(): (r: Levels)
      ensures r.energy == energy
      ensures r.hunger <= Max(hunger, 0) && r.happiness >= Min(happiness, 10)
      ensures InRange() ==> r.InRange()
    {
      Levels(Max(0, hunger - 3), energy, Min(10, happiness + 1))
    }

    /** `sleep`: energy rises by 5, not above 10. */
    function Sleep(): (r: Levels)
      ensures r.hunger == hunger && r.happiness == happiness
      ensures r.energy >= Min(energy, 10)
      ensures InRange() ==> r.InRange()
    {
      Levels(hunger, Min(10, energy + 5), happiness)
    }

    /** The guard of `play`. */
    predicate CanPlay() {
      energy > 0
    }

    /** `play`: when the pet has energy, energy falls by 2 (not below 0), happiness rises by 2 and
        hunger by 1 (neither above 10); otherwise nothing happens. */
    function Play(): (r: Levels)
      ensures !CanPlay() ==> r == this
      ensures CanPlay() ==> r.energy < energy && r.hunger >= Min(hunger, 10) && r.happiness >= Min(happiness, 10)
      ensures InRange() ==> r.InRange()
    {
      if CanPlay() then Levels(Min(10, hunger + 1), Max(0, energy - 2), Min(10, happiness + 2))
      else this
    }

    function Apply(a: Action): Levels {
      match a
      case Feeding => Eat()
      case Sleeping => Sleep()
      case Playing => Play()
    }
  }

  /** The three care actions that change the counters. */
  datatype Action = Feeding | Sleeping | Playing

  /** The counters after the actions `acts`, in order. */
  function Run(l: Levels, acts: seq<Action>): Levels
    decreases |acts|
  {
    if acts == [] then l else Run(l.Apply(acts[0]), acts[1..])
  }

  /** Counters that start in [0,10] stay there, whatever the care actions. */
  lemma {:induction false} RunInRange(l: Levels, acts: seq<Action>)
    requires l.InRange()
    ensures Run(l, acts).InRange()
    decreases |acts|
  {
    if acts != [] {
      RunInRange(l.Apply(acts[0]), acts[1..]);
    }
  }

  class Pet {
    const name: string
    var hunger: int
    var energy: int
    var happiness: int
    var tricks: seq<string>

    /** `Pet(name, hunger=5, energy=5, happiness=5, tricks=None)`; no argument is checked. */
    constructor (name: string, hunger: int := 5, energy: int := 5, happiness: int := 5, tricks: seq<string> := [])
      ensures this.name == name && this.tricks == tricks
      ensures State() == Levels(hunger, energy, happiness)
    {
      this.name := name;
      this.hunger := hunger;
      this.energy := energy;
      this.happiness := happiness;
      this.tricks := tricks;
    }

    function State(): Levels
      reads this
    {
      Levels(hunger, energy, happiness)
    }

    predicate InRange()
      reads this
    {
      State().InRange()
    }

    /** The five attributes as one value. */
    function Data(): Records.PetData
      reads this
    {
      Records.PetData(name, hunger, energy, happiness, tricks)
    }

    method Eat()
      modifies this
      ensures hunger == Max(0, old(hunger) - 3) && happiness == Min(10, old(happiness) + 1)
      ensures energy == old(energy) && tricks == old(tricks)
      ensures State() == old(State()).Eat()
    {
      hunger := Max(0, hunger - 3);
      happiness := Min(10, happiness + 1);
    }

    method Sleep()
      modifies this
      ensures energy == Min(10, old(energy) + 5)
      ensures hunger == old(hunger) && happiness == old(happiness) && tricks == old(tricks)
      ensures State() == old(State()).Sleep()
    {
      energy := Min(10, energy + 5);
    }

    method Play() returns (played: bool)
      modifies this
      ensures played == (old(energy) > 0)
      ensures played ==>
        (energy == Max(0, old(energy) - 2) && happiness == Min(10, old(happiness) + 2)
         && hunger == Min(10, old(hunger) + 1))
      ensures !played ==> unchanged(this)
      ensures tricks == old(tricks)
      ensures State() == old(State()).Play()
    {
      if energy > 0 {
        energy := Max(0, energy - 2);
        happiness := Min(10, happiness + 2);
        hunger := Min(10, hunger + 1);
        return true;
      }
      return false;
    }

    /** Appends the trick without any check of its own; the caller is expected to guard it. */
    method Train(trick: string)
      modifies this
      ensures tricks == old(tricks) + [trick]
      ensures State() == old(State())
      ensures old(tricks) == [] ==> ShowTricks() == trick
      ensures old(tricks) != [] ==> ShowTricks() == old(ShowTricks()) + ", " + trick
    {
      if tricks != [] {
        JoinAppend(", ", tricks, trick);
      }
      tricks := tricks + [trick];
    }

    /** The learned tricks joined by ", " in learning order, or the sentinel when there are none.
        The sentinel is not unique to an empty list: a single trick spelled like it reads the same. */
    function ShowTricks(): (r: string)
      reads this
      ensures tricks != [] ==> r == Join(", ", tricks)
      ensures r == NoTricks <==> tricks == [] || tricks == [NoTricks]
    {
      if tricks == [] then NoTricks
      else
        var r := Join(", ", tricks);
        assert |tricks| >= 2 ==> r[|tricks[0]|] == ',';
        assert forall k :: 0 <= k < |NoTricks| ==> NoTricks[k] != ',';
        r
    }

    /** `to_dict`: the five attributes under their keys; decoding gives them back unchanged. */
    function ToDict(): (m: map<string, Records.Json>)
      reads this
      ensures m.Keys == {"name", "hunger", "energy", "happiness", "tricks"}
      ensures Records.Decode(m) == Ok(Data())
    {
      var m := map["name" := Records.JStr(name), "hunger" := Records.JInt(hunger),
                   "energy" := Records.JInt(energy), "happiness" := Records.JInt(happiness),
                   "tricks" := Records.StringArray(tricks)];
      var stored := Records.StringArray(tricks);
      assert Records.AllStrings(stored.items);
      assert tricks != [] ==> !Records.Falsy(stored) && Records.TricksOf(stored).value == tricks;
      m
    }

    /** `from_dict`: a new Pet from the record's five values, or the error that decoding meets. */
    static method FromDict(data: map<string, Records.Json>) returns (r: Result<Pet, Records.DecodeError>)
      ensures Records.Decode(data).Err? ==> r == Err(Records.Decode(data).error)
      ensures Records.Decode(data).Ok? ==> r.Ok? && fresh(r.value) && r.value.Data() == Records.Decode(data).value
    {
      match Records.Decode(data)
      case Err(e) =>
        r := Err(e);
      case Ok(d) =>
        var p := new Pet(d.name, d.hunger, d.energy, d.happiness, d.tricks);
        r := Ok(p);
    }
  }
}
