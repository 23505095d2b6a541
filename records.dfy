/** The saved form of a pet: the five-field JSON object that `to_dict` builds and `from_dict` reads
    (pet.py:71-94). */
module Records {
  import opened Wrappers

  /** A JSON value as `json.load` hands it over. `JOther` stands for the kinds a pet record never
      holds in a valid file: booleans, floats and objects. */
  datatype Json = JNull | JInt(i: int) | JStr(s: string) | JArray(items: seq<Json>) | JOther

  /** The five attributes of a pet, as `to_dict` lists them. */
  datatype PetData = PetData(name: string, hunger: int, energy: int, happiness: int, tricks: seq<string>)

  /** `KeyError` is what `from_dict` raises for a missing key; `WrongKind` is a value that a Pet
      of this model cannot hold. */
  datatype DecodeError = KeyError(key: string) | WrongKind(key: string)

  /** The keys in the order in which `from_dict` looks them up. */
  const FieldOrder: seq<string> := ["name", "hunger", "energy", "happiness", "tricks"]

  /** The falsy values among the kinds this model represents: null, 0, "" and []. `tricks or []`
      replaces each of them by an empty list. (Python also treats `false`, `0.0` and `{}` as falsy;
      here they are `JOther`.) */
  predicate Falsy(v: Json) {
    v == JNull || v == JInt(0) || v == JStr("") || v == JArray([])
  }

  predicate AllStrings(items: seq<Json>) {
    forall k :: 0 <= k < |items| ==> items[k].JStr?
  }

  /** The JSON array that `json.dump` writes for a list of tricks. */
  function StringArray(tricks: seq<string>): (v: Json)
    ensures v.JArray? && |v.items| == |tricks|
    ensures forall k :: 0 <= k < |tricks| ==> v.items[k] == JStr(tricks[k])
  {
    JArray(seq(|tricks|, k requires 0 <= k < |tricks| => JStr(tricks[k])))
  }

  /** The tricks list a Pet ends up with for the stored value `v`, after the constructor's
      `tricks or []`; `None` when `v` is neither falsy nor an array of strings. */
  function TricksOf(v: Json): (r: Option<seq<string>>)
    ensures Falsy(v) ==> r == Some([])
    ensures r.Some? && !Falsy(v) ==>
      (v.JArray? && |r.value| == |v.items| && forall k :: 0 <= k < |v.items| ==> v.items[k] == JStr(r.value[k]))
    ensures r.None? <==> !Falsy(v) && !(v.JArray? && AllStrings(v.items))
  {
    if Falsy(v) then Some([])
    else if v.JArray? && AllStrings(v.items) then
      Some(seq(|v.items|, k requires 0 <= k < |v.items| => v.items[k].s))
    else None
  }

  /** The lookups of `from_dict`: every key is read before any value is used, so a missing key
      is reported first, and the first missing one in `FieldOrder` is the one reported. */
  function Decode(m: map<string, Json>): (r: Result<PetData, DecodeError>)
    ensures r.Ok? ==> forall k :: k in FieldOrder ==> k in m
    ensures r.Ok? ==>
      (m["name"] == JStr(r.value.name) && m["hunger"] == JInt(r.value.hunger)
       && m["energy"] == JInt(r.value.energy) && m["happiness"] == JInt(r.value.happiness)
       && TricksOf(m["tricks"]) == Some(r.value.tricks))
    ensures (exists k :: k in FieldOrder && k !in m) <==> r.Err? && r.error.KeyError?
    ensures r.Err? && r.error.KeyError? ==> r.error.key in FieldOrder && r.error.key !in m
    ensures r.Err? && r.error.KeyError? ==>
      forall p, q :: 0 <= p < q < |FieldOrder| && FieldOrder[q] == r.error.key ==> FieldOrder[p] in m
    ensures ((forall k :: k in FieldOrder ==> k in m) && m["name"].JStr? && m["hunger"].JInt?
             && m["energy"].JInt? && m["happiness"].JInt? && TricksOf(m["tricks"]).Some?) ==> r.Ok?
    ensures r.Err? && r.error.WrongKind? ==> r.error.key in FieldOrder
    ensures r.Err? && r.error.WrongKind? ==>
      ((forall k :: k in FieldOrder ==> k in m)
       && (r.error.key == "name" ==> !m["name"].JStr?)
       && (r.error.key == "hunger" ==> !m["hunger"].JInt?)
       && (r.error.key == "energy" ==> !m["energy"].JInt?)
       && (r.error.key == "happiness" ==> !m["happiness"].JInt?)
       && (r.error.key == "tricks" ==> TricksOf(m["tricks"]).None?))
  {
    if "name" !in m then Err(KeyError("name"))
    else if "hunger" !in m then Err(KeyError("hunger"))
    else if "energy" !in m then Err(KeyError("energy"))
    else if "happiness" !in m then Err(KeyError("happiness"))
    else if "tricks" !in m then Err(KeyError("tricks"))
    else if !m["name"].JStr? then Err(WrongKind("name"))
    else if !m["hunger"].JInt? then Err(WrongKind("hunger"))
    else if !m["energy"].JInt? then Err(WrongKind("energy"))
    else if !m["happiness"].JInt? then Err(WrongKind("happiness"))
    else match TricksOf(m["tricks"])
      case None => Err(WrongKind("tricks"))
      case Some(tricks) =>
        Ok(PetData(m["name"].s, m["hunger"].i, m["energy"].i, m["happiness"].i, tricks))
  }

  /** Keys other than the five are ignored. */
  lemma DecodeIgnoresOtherKeys(m: map<string, Json>, extra: map<string, Json>)
    requires forall k :: k in FieldOrder ==> k !in extra
    ensures Decode(m + extra) == Decode(m)
  {
    assert forall k :: k in FieldOrder ==> (k in m + extra <==> k in m);
  }
}
