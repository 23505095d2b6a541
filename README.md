# Virtual pet: a verified model of its pet logic

The program is a desktop "virtual pet". A `Pet` has a name, three integer counters (`hunger`,
`energy`, `happiness`) and an ordered list of learned `tricks`. The window's buttons feed the
pet, put it to sleep, play with it and teach it tricks. Each status refresh also runs an
achievement check: a pet whose hunger and energy are both 5 earns a star, and then its three
counters are set to random values in [1,10]. The pet can be saved to a five-field JSON record and
loaded back.

This project models that logic in Dafny. Modules:

- `Pets` (`pet.dfy`): the `Pet` class of `pet.py`. Its fields are updated in place, as in the
  source. The value `Levels` holds the three counters and gives the effect of `eat`, `sleep` and
  `play` on them as functions. `Run` applies any series of those actions, and `RunInRange` proves
  that counters starting in [0,10] stay in [0,10].
- `Records` (`records.dfy`): the saved record. `Json` stands for the values `json.load` can
  return. `Decode` is the five key lookups of `from_dict`, including its `KeyError`. `Pet.ToDict`
  states the round trip: decoding what `to_dict` produces gives back all five attributes.
- `Text` (`text.dfy`): the two Python string operations used, `str.strip()` and `str.join`.
  `Strip` is proved against a declarative description (`IsStripOf`), and `StripUnique` proves
  that this description fixes the result.
- `App` (`app.dfy`): the two plain-logic rules inside the window class, plus the button handlers
  that run them. These are the trick guard of `train_pet` and `check_for_star`. The random draws
  and the dialog answers are parameters. The "Show Status" button (pet.py:215-216) runs
  `update_status` with no care action before it, so `App.PetApp.CheckForStar` also stands for
  that button; its label text is left out.
- `Scenarios` (`scenarios.dfy`): a client method derived from the contracts alone. It covers:
  feeding from hunger 5, sleeping from energy 8, refusing to play at energy 0, teaching "sit"
  twice, earning a star, and a save/load round trip.
- `Wrappers` (`wrappers.dfy`): `Option` and `Result`.

Three things a reader might assume about the program are not true of the code, and the model
follows the code:

- The counters are not kept in [0,10] at all times. Each update clamps one side only (for
  example, `max(0, hunger - 3)` has no upper bound). Neither the constructor nor `from_dict`
  checks any value. So every bounds property here assumes that the counters start in range.
- `from_dict` checks no types. A missing key raises a `KeyError` that `load_pet` does not catch.
- `show_tricks` does not return its default message only when there are no tricks. A pet whose only
  trick is literally `No tricks learned yet.` shows the same text. `Pet.ShowTricks` states the
  precise condition.

## Model

| member | source | states |
|---|---|---|
| `Pets.Max` | pet.py:31 | Python's `max`: the result is at least both arguments and is one of them |
| `Pets.Min` | pet.py:32 | Python's `min`: the result is at most both arguments and is one of them |
| `Pets.Levels.Eat` | pet.py:31-32 | feeding leaves energy alone, never raises hunger above `max(hunger, 0)`, never lowers happiness below `min(happiness, 10)`, and keeps in-range counters in range |
| `Pets.Levels.Sleep` | pet.py:38 | sleeping changes only energy, never lowers it below `min(energy, 10)`, and keeps in-range counters in range |
| `Pets.Levels.Play` | pet.py:45-50 | with no energy, nothing changes; with energy, energy strictly falls while hunger and happiness do not fall (up to the cap of 10); in-range counters stay in range |
| `Pets.RunInRange` | pet.py:27-50 | counters that start in [0,10] stay in [0,10] after any sequence of eat, sleep and play |
| `Pets.Pet.constructor` | pet.py:17-25 | the new pet holds exactly the given name, counters and tricks, with defaults 5, 5, 5 and no tricks |
| `Pets.Pet.Eat` | pet.py:27-32 | hunger becomes `max(0, hunger-3)` and happiness `min(10, happiness+1)`; energy, name and tricks are unchanged |
| `Pets.Pet.Sleep` | pet.py:34-38 | energy becomes `min(10, energy+5)`; everything else is unchanged |
| `Pets.Pet.Play` | pet.py:40-50 | returns true exactly when energy > 0, and then energy becomes `max(0, energy-2)`, happiness `min(10, happiness+2)`, hunger `min(10, hunger+1)`; when it returns false the pet is entirely unchanged |
| `Pets.Pet.Train` | pet.py:52-56 | the trick is appended at the end, keeping the earlier tricks in order; the counters are unchanged; the summary grows by ", " and the trick, or becomes the trick alone for the first one |
| `Pets.Pet.ShowTricks` | pet.py:64-69 | the sentinel appears exactly when there are no tricks or the only trick is spelled like the sentinel; otherwise the tricks are joined by ", " in order |
| `Pets.Pet.ToDict` | pet.py:71-81 | the record has exactly the five keys, and decoding it gives back the pet's five attributes field for field |
| `Pets.Pet.FromDict` | pet.py:83-94 | a record that decodes gives a new pet holding exactly the decoded attributes; otherwise the decoding error is returned |
| `Records.Decode` | pet.py:88-94 | a record decodes exactly when all five keys are present and each value is of its kind (string name, integer counters, a tricks value that `TricksOf` accepts). A missing key is always a `KeyError`, and it is the first missing key in the order name, hunger, energy, happiness, tricks. `WrongKind(k)` is reported only when all keys are present and the value under `k` is of the wrong kind. A success reads each attribute from its own key |
| `Records.TricksOf` | pet.py:25 | a stored tricks value of null, 0, "" or [] becomes the empty list (`tricks or []`); an array of strings becomes those strings in order; anything else is rejected |
| `Records.StringArray` | pet.py:80 | the stored tricks array holds each trick, in order, as a JSON string |
| `Records.DecodeIgnoresOtherKeys` | pet.py:88-94 | keys other than the five do not affect decoding |
| `Text.IsSpaceCodes` | pet.py:383-384 | the character test that `strip()` uses is true of exactly the 29 code points for which Python's `str.isspace()` is true |
| `Text.Strip` | pet.py:383-384 | the result is `s` with leading and trailing whitespace removed and none left at either end; it is empty exactly when `s` is all whitespace |
| `Text.StripUnique` | pet.py:383-384 | the description of a stripped string admits only one result |
| `Text.StripIdempotent` | pet.py:384 | a stripped trick is unchanged by stripping it again |
| `Text.Join` | pet.py:69 | `sep.join(parts)`: empty for no parts; otherwise it starts with the first part |
| `Text.JoinEndsWithLast` | pet.py:69 | a join of one or more parts ends with the last part |
| `Text.JoinLength` | pet.py:69 | the joined text is as long as all parts together plus one separator between each two neighbours |
| `Text.JoinAppend` | pet.py:69 | joining one more part appends the separator and that part |
| `App.StarCheck` | pet.py:319-328 | an unbalanced pet keeps its counters; a balanced one gets counters in [1,10]; in-range counters stay in range |
| `App.Award` | pet.py:319-320 | exactly one star is added when hunger and energy are both 5, and none otherwise |
| `App.Judge` | pet.py:383-388 | nothing is taught when the dialog is cancelled or the answer is all whitespace; otherwise the stripped, non-empty answer is learned exactly when it is not already known, and is reported as a duplicate when it is |
| `App.TeachKeepsGood` | pet.py:383-388 | one guarded answer keeps the tricks duplicate-free, non-empty and stripped, and only adds at the end |
| `App.TeachAllKeepsGood` | pet.py:383-388 | any series of guarded answers keeps the tricks duplicate-free, non-empty and stripped, with the starting tricks kept at the front in order |
| `App.PetApp.constructor` | pet.py:98-104 | the window holds the given pet and starts with no stars |
| `App.PetApp.CheckForStar` | pet.py:314-328 | when hunger and energy are both 5, stars rise by exactly one and the counters become the drawn values in [1,10]; otherwise stars and counters are unchanged; name and tricks are never changed |
| `App.PetApp.FeedPet` | pet.py:336-338 | feeding followed by the achievement check, with counters kept in range |
| `App.PetApp.SleepPet` | pet.py:340-342 | sleeping followed by the achievement check, with counters kept in range |
| `App.PetApp.PlayWithPet` | pet.py:344-348 | a refusal changes nothing and runs no check; a successful play is followed by the achievement check |
| `App.PetApp.TrainPet` | pet.py:382-392 | the guarded trick is appended only when `Judge` learns it, and then the achievement check runs; a refused or missing trick changes nothing; a good tricks list stays good |

## Left out

- The window: widgets, layout, stylesheets, light/dark mode, the about box, loading and uploading
  images, status-bar and label text, and all message boxes. These are presentation and calls into
  the GUI library. Dialog answers are parameters.
- The math question in `train_pet` (pet.py:356-380). It draws random numbers and compares a
  rounded float division. `App.PetApp.TrainPet` starts after a correct answer.
- `get_status` (pet.py:58-62): it only formats the counters as display text.
- `save_pet` and `load_pet` (pet.py:400-416): file and JSON I/O. Only the record they write and
  read is modelled. The `KeyError` of `Records.Decode` is the exception `load_pet` does not
  catch, so no graceful handling of a malformed record is claimed. A saved file whose top-level
  JSON value is not an object (a list, a number, `null`) is not representable either: there
  `data["name"]` raises a `TypeError`, which `load_pet` does not catch.
- main.py and `main()` (pet.py:419-431): application start-up and the name dialog.
- The random draws of `check_for_star` are a parameter, `draw`, whose three values are in [1,10].
  In the source they are drawn only when a star is awarded.
- Records.Decode: a value of the wrong JSON kind (for example, a string for `hunger`) is rejected
  with `WrongKind`. The source would build a Pet holding that value, which this typed model
  cannot represent. JSON booleans, floats and objects are all `JOther` and are rejected too,
  although Python would treat `true` as the integer 1. In particular a stored tricks value of
  `false`, `0.0` or `{}` is rejected, where `tricks or []` would turn it into an empty list.
- Pets.Pet.constructor: `tricks or []` keeps the caller's list object when it is non-empty, so the
  pet shares it with the caller (for example, with the loaded dictionary). The model uses
  sequence values and does not capture that aliasing.
- Integer width: Python integers are unbounded, like Dafny's `int`, so there is no wrap-around to
  model.
