/** A client of the model: example behaviours of the pet (feeding, sleeping, a refused play, a
    duplicate trick, a star, a save and load), derived from the contracts of `Pet` and `PetApp`
    alone. */
module Scenarios {
  import opened Wrappers
  import opened Text
  import opened Pets
  import opened App

  method CareExamples() {
    // feeding a default pet: hunger 5 becomes 2, happiness 6
    var rex := new Pet("Rex");
    rex.Eat();
    assert rex.hunger == 2 && rex.happiness == 6 && rex.energy == 5;

    // happiness is capped at 10
    var glad := new Pet("Glad", happiness := 10);
    glad.Eat();
    assert glad.happiness == 10;

    // sleeping from energy 8 gives 10, not 13
    var tired := new Pet("Tired", energy := 8);
    tired.Sleep();
    assert tired.energy == 10;

    // a pet with no energy refuses to play and stays as it was
    var flat := new Pet("Flat", 3, 0, 4);
    var played := flat.Play();
    assert !played && flat.State() == Levels(3, 0, 4);
  }

  method TrainingExample(rng: Levels)
    requires Drawn(rng)
  {
    // teaching "sit" twice: the second answer is refused and one trick is known
    assert StripAt("sit", 0, 3) && "sit"[0..3] == "sit";
    StripUnique("sit", "sit", Strip("sit"));
    var pup := new Pet("Pup", 2, 7, 5);
    var app := new PetApp(pup);
    var first := app.TrainPet(Some("sit"), rng);
    assert first == Learned("sit");
    assert pup.tricks == ["sit"];
    var second := app.TrainPet(Some("sit"), rng);
    assert second == Duplicate("sit");
    assert |pup.tricks| == 1;
  }

  method StarExample(rng: Levels)
    requires Drawn(rng)
  {
    // a balanced pet earns a star when the status is refreshed
    var calm := new Pet("Calm", 8, 5, 1);
    var home := new PetApp(calm);
    home.FeedPet(rng);
    assert home.stars == 1 && calm.State() == rng;
  }

  method SaveLoadExample() {
    // saving and loading gives the same five attributes back
    var pup := new Pet("Pup", 1, 2, 3, ["sit", "roll"]);
    var saved := pup.ToDict();
    var loaded := Pet.FromDict(saved);
    assert loaded.Ok? && loaded.value.Data() == pup.Data();
    assert loaded.value.ShowTricks() == "sit, roll";
  }
}
