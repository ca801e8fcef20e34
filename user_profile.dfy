/** UserProfile.cs: the player's profile and the parallel-list dictionary it stores
    per-level progress in. */
module Profiles {
  import opened Collections
  import opened Text

  /** SerializableDictionary: keys and values kept as two parallel lists, Keys[i] mapping to
      Values[i]. `defaultValue` is C#'s default(TValue), which TryGetValue reports for a
      missing key; Dafny has no type-level default, so the model takes it at construction. */
  class SerializableDictionary<K(==,!new), V> {
    var keys: seq<K>
    var values: seq<V>
    const defaultValue: V

    /** The lists stay parallel and no key is stored twice. */
    ghost predicate Valid()
      reads this
    {
      |keys| == |values| && NoDuplicates(keys)
    }

    /** The dictionary as a map: each key to the value at its index. */
    ghost function Contents(): map<K, V>
      reads this
      requires Valid()
    {
      map k | k in keys :: values[IndexOf(keys, k)]
    }

    constructor (defaultValue: V)
      ensures Valid()
      ensures keys == [] && values == [] && this.defaultValue == defaultValue
      ensures Contents() == map[]
    {
      keys := [];
      values := [];
      this.defaultValue := defaultValue;
    }

    /** What Set does to the two lists: overwrite the value at the key's index, or append
        the key and the value together. */
    twostate predicate SetApplied(key: K, value: V)
      reads this
    {
      var i := IndexOf(old(keys), key);
      if 0 <= i then
        keys == old(keys) && i < |old(values)| && values == old(values)[i := value]
      else
        keys == old(keys) + [key] && values == old(values) + [value]
    }

    /** Set: last write wins for `key`; every other key keeps its value. */
    method Set(key: K, value: V)
      requires Valid()
      modifies this
      ensures Valid()
      ensures SetApplied(key, value)
      ensures Contents() == old(Contents())[key := value]
      ensures TryGetValue(key) == (true, value)
      ensures forall k | k != key :: TryGetValue(k) == old(TryGetValue(k))
    {
      var index := IndexOf(keys, key);
      if index >= 0 {
        values := values[index := value];
        forall k | k in keys
          ensures values[IndexOf(keys, k)] == old(Contents())[key := value][k]
        {
          IndexOfDistinct(keys, index);
        }
      } else {
        AppendFreshNoDuplicates(keys, key);
        keys := keys + [key];
        values := values + [value];
        forall k | k in keys
          ensures values[IndexOf(keys, k)] == old(Contents())[key := value][k]
        {
          IndexOfAppend(old(keys), key, k);
        }
      }
    }

    /** TryGetValue: (true, the stored value) for a stored key, (false, default) otherwise. */
    function TryGetValue(key: K): (r: (bool, V))
      reads this
      requires Valid()
      ensures r.0 <==> key in Contents()
      ensures r.0 ==> r.1 == Contents()[key]
      ensures !r.0 ==> r.1 == defaultValue
    {
      var index := IndexOf(keys, key);
      if index >= 0 then (true, values[index]) else (false, defaultValue)
    }

    /** ContainsKey: the key is among the stored keys, exactly when TryGetValue finds it. */
    function ContainsKey(key: K): (b: bool)
      reads this
      ensures b <==> key in keys
      ensures Valid() ==> b == TryGetValue(key).0
    {
      key in keys
    }
  }

  /** The local player profile. `levelProgress` maps level ids to percentages. */
  class UserProfile {
    var firstName: string
    var lastName: string
    var totalProgress: real
    var gems: int
    var completedLevelIds: seq<string>
    const levelProgress: SerializableDictionary<string, real>

    /** The completed-level list is a set, and the progress dictionary is well formed. */
    ghost predicate Valid()
      reads this, levelProgress
    {
      levelProgress.Valid() && NoDuplicates(completedLevelIds)
    }

    /** The profile as on first run: "Player", no gems, no progress, nothing completed. */
    ghost predicate IsDefault()
      reads this, levelProgress
    {
      && firstName == "Player" && lastName == ""
      && totalProgress == 0.0 && gems == 0
      && completedLevelIds == []
      && levelProgress.keys == [] && levelProgress.values == []
    }

    /** A fresh profile, as on first run. */
    constructor ()
      ensures Valid() && fresh(levelProgress)
      ensures IsDefault()
      ensures levelProgress.defaultValue == 0.0
    {
      firstName := "Player";
      lastName := "";
      totalProgress := 0.0;
      gems := 0;
      completedLevelIds := [];
      levelProgress := new SerializableDictionary(0.0);
    }

    /** FullName: first and last name joined by a blank, white space trimmed off the ends.
        Two trimmed non-empty names are joined as they are; an empty last name leaves the
        trimmed first name. */
    function FullName(): (name: string)
      reads this
      ensures IsTrimmed(name)
      ensures exists k :: TrimmedAt(firstName + " " + lastName, name, k)
      ensures IsTrimmed(firstName) && IsTrimmed(lastName) && firstName != [] && lastName != []
        ==> name == firstName + " " + lastName
      ensures lastName == [] ==> name == Trim(firstName)
    {
      var joined := firstName + " " + lastName;
      if lastName == [] then
        assert joined == firstName + " ";
        TrimDropsTrailingSpace(firstName);
        Trim(joined)
      else
        Trim(joined)
    }
  }

  /** The default profile's full name is "Player". */
  lemma DefaultFullName(p: UserProfile)
    requires p.firstName == "Player" && p.lastName == ""
    ensures p.FullName() == "Player"
  {
    var first: string := "Player";
    assert first[0] == 'P' && first[|first| - 1] == 'r';
    assert IsTrimmed(first);
    assert p.FullName() == Trim(first);
  }
}
