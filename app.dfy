/** The two rules of the window class that are plain logic (pet.py:314-398): the achievement check
    that every status refresh runs, and the guard in front of `train`. The widgets, dialogs and
    message boxes around them are not modelled; a dialog's answer is a parameter. */
module App {
  import opened Wrappers
  import opened Text
  import opened Pets

  /** Values that `random.randint(1, 10)` can return for the three counters. */
  predicate Drawn(draw: Levels) {
    1 <= draw.hunger <= 10 && 1 <= draw.energy <= 10 && 1 <= draw.happiness <= 10
  }

  /** The condition for a star: hunger and energy both exactly 5. */
  predicate Balanced(l: Levels) {
    l.hunger == 5 && l.energy == 5
  }

  /** The counters after `check_for_star`, when `draw` is what the three random draws return. */
  function StarCheck(l: Levels, draw: Levels): (r: Levels)
    ensures !Balanced(l) ==> r == l
    ensures Balanced(l) && Drawn(draw) ==> r.InRange() && 1 <= r.hunger && 1 <= r.energy && 1 <= r.happiness
    ensures l.InRange() && Drawn(draw) ==> r.InRange()
  {
    if Balanced(l) then draw else l
  }

  /** The stars `check_for_star` adds. */
  function Award(l: Levels): (n: nat)
    ensures n <= 1 && (n == 1 <==> Balanced(l))
  {
    if Balanced(l) then 1 else 0
  }

  /** What `train_pet` does with the answer of the trick dialog (`None` when it is cancelled). */
  datatype Verdict = NoTrick | Duplicate(trick: string) | Learned(trick: string)

  /** The guard in `train_pet`: the answer is stripped; nothing is taught when the dialog is
      cancelled or the answer is blank, and a trick already known is refused. */
  function Judge(known: seq<string>, answer: Option<string>): (v: Verdict)
    ensures v.NoTrick? <==> answer.None? || AllSpace(answer.value)
    ensures !v.NoTrick? ==> v.trick == Strip(answer.value) && v.trick != []
    ensures v.Learned? <==> !v.NoTrick? && v.trick !in known
  {
    if answer.None? then NoTrick
    else
      var trick := Strip(answer.value);
      if trick == [] then NoTrick
      else if trick in known then Duplicate(trick)
      else Learned(trick)
  }

  /** The tricks after one answer has been judged. */
  function Teach(known: seq<string>, answer: Option<string>): seq<string> {
    var v := Judge(known, answer);
    if v.Learned? then known + [v.trick] else known
  }

  /** The tricks after a series of answers, in order. */
  function TeachAll(known: seq<string>, answers: seq<Option<string>>): seq<string>
    decreases |answers|
  {
    if answers == [] then known else TeachAll(Teach(known, answers[0]), answers[1..])
  }

  predicate Distinct(s: seq<string>) {
    forall i, j :: 0 <= i < j < |s| ==> s[i] != s[j]
  }

  /** What the guard keeps true of the tricks list: no repeats, and every entry non-empty and
      with no whitespace at its ends. */
  predicate GoodTricks(s: seq<string>) {
    Distinct(s) && forall i :: 0 <= i < |s| ==> s[i] != [] && Strip(s[i]) == s[i]
  }

  /** One guarded answer keeps the tricks list good and only ever adds at the end. */
  lemma TeachKeepsGood(known: seq<string>, answer: Option<string>)
    requires GoodTricks(known)
    ensures GoodTricks(Teach(known, answer))
    ensures known <= Teach(known, answer)
  {
    var v := Judge(known, answer);
    if v.Learned? {
      var t := v.trick;
      StripIdempotent(answer.value);
      assert t != [] && Strip(t) == t;
      AppendKeepsGood(known, t);
    }
  }

  /** Appending a non-empty, stripped trick that is not yet known keeps the list good. */
  lemma AppendKeepsGood(known: seq<string>, t: string)
    requires GoodTricks(known) && t != [] && Strip(t) == t && t !in known
    ensures GoodTricks(known + [t])
  {
    var s := known + [t];
    forall i, j | 0 <= i < j < |s|
      ensures s[i] != s[j]
    {
      if j == |known| {
        assert s[i] == known[i];
      } else {
        assert s[i] == known[i] && s[j] == known[j];
      }
    }
    forall i | 0 <= i < |s|
      ensures s[i] != [] && Strip(s[i]) == s[i]
    {
      if i < |known| {
        assert s[i] == known[i];
      }
    }
  }

  /** Any series of guarded answers keeps the tricks list good, and the tricks known at the start
      stay at the front in their order. */
  lemma {:induction false} TeachAllKeepsGood(known: seq<string>, answers: seq<Option<string>>)
    requires GoodTricks(known)
    ensures GoodTricks(TeachAll(known, answers))
    ensures known <= TeachAll(known, answers)
    decreases |answers|
  {
    if answers != [] {
      TeachKeepsGood(known, answers[0]);
      TeachAllKeepsGood(Teach(known, answers[0]), answers[1..]);
    }
  }

  class PetApp {
    const pet: Pet
    var stars: nat

    constructor (pet: Pet)
      ensures this.pet == pet && stars == 0
    {
      this.pet := pet;
      stars := 0;
    }

    /** `check_for_star`; `draw` holds the three values `random.randint(1, 10)` returns. */
    method CheckForStar(draw: Levels)
      requires Drawn(draw)
      modifies this, pet
      ensures Balanced(old(pet.State())) ==> stars == old(stars) + 1 && pet.State() == draw
      ensures !Balanced(old(pet.State())) ==> stars == old(stars) && pet.State() == old(pet.State())
      ensures pet.tricks == old(pet.tricks)
      ensures old(pet.InRange()) ==> pet.InRange()
    {
      if pet.hunger == 5 && pet.energy == 5 {
        stars := stars + 1;
        pet.hunger := draw.hunger;
        pet.energy := draw.energy;
        pet.happiness := draw.happiness;
      }
    }

    /** `feed_pet`: eat, then the status refresh with its achievement check. */
    method FeedPet(draw: Levels)
      requires Drawn(draw)
      modifies this, pet
      ensures stars == old(stars) + Award(old(pet.State()).Eat())
      ensures pet.State() == StarCheck(old(pet.State()).Eat(), draw)
      ensures pet.tricks == old(pet.tricks)
      ensures old(pet.InRange()) ==> pet.InRange()
    {
      pet.Eat();
      CheckForStar(draw);
    }

    /** `sleep_pet`: sleep, then the status refresh with its achievement check. */
    method SleepPet(draw: Levels)
      requires Drawn(draw)
      modifies this, pet
      ensures stars == old(stars) + Award(old(pet.State()).Sleep())
      ensures pet.State() == StarCheck(old(pet.State()).Sleep(), draw)
      ensures pet.tricks == old(pet.tricks)
      ensures old(pet.InRange()) ==> pet.InRange()
    {
      pet.Sleep();
      CheckForStar(draw);
    }

    /** `play_with_pet`: a pet with no energy refuses and nothing is refreshed; otherwise play,
        then the status refresh with its achievement check. */
    method PlayWithPet(draw: Levels) returns (played: bool)
      requires Drawn(draw)
      modifies this, pet
      ensures played == old(pet.State()).CanPlay()
      ensures played ==>
        (stars == old(stars) + Award(old(pet.State()).Play())
         && pet.State() == StarCheck(old(pet.State()).Play(), draw))
      ensures !played ==> stars == old(stars) && pet.State() == old(pet.State())
      ensures pet.tricks == old(pet.tricks)
      ensures old(pet.InRange()) ==> pet.InRange()
    {
      played := pet.Play();
      if played {
        CheckForStar(draw);
      }
    }

    /** The part of `train_pet` after a correct answer to the math question: the trick dialog's
        answer is judged, a new trick is appended and the status refreshed; a refused or missing
        trick changes nothing. */
    method TrainPet(answer: Option<string>, draw: Levels) returns (v: Verdict)
      requires Drawn(draw)
      modifies this, pet
      ensures v == Judge(old(pet.tricks), answer)
      ensures pet.tricks == Teach(old(pet.tricks), answer)
      ensures v.Learned? ==> pet.tricks == old(pet.tricks) + [v.trick]
      ensures v.Learned? ==>
        (stars == old(stars) + Award(old(pet.State())) && pet.State() == StarCheck(old(pet.State()), draw))
      ensures !v.Learned? ==> pet.tricks == old(pet.tricks) && stars == old(stars) && pet.State() == old(pet.State())
      ensures GoodTricks(old(pet.tricks)) ==> GoodTricks(pet.tricks)
      ensures old(pet.InRange()) ==> pet.InRange()
    {
      v := Judge(pet.tricks, answer);
      if GoodTricks(pet.tricks) {
        TeachKeepsGood(pet.tricks, answer);
      }
      if v.Learned? {
        pet.Train(v.trick);
        CheckForStar(draw);
      }
    }
  }
}
