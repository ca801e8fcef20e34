/** LevelSelectionUI.DetermineStateId: which level state plays a level, guessed from the
    level's id. The rest of the selection screen is user interface. */
module LevelSelection {
  import opened Text
  import LevelStateIds

  /** The id is lowered and searched, in this order, for "warmup", "warm" or "1" (warmup),
      "miqat" or "2" (miqat), "tawaf" or "3" (tawaf); anything else plays as warmup. A
      warmup marker wins over every other, a miqat marker over a tawaf one. */
  function DetermineStateId(levelId: string): (stateId: string)
    ensures LevelStateIds.IsValid(stateId)
    ensures var l := ToLower(levelId);
      Contains(l, "warm") || Contains(l, "1") ==> stateId == LevelStateIds.Warmup
    ensures var l := ToLower(levelId);
      && !(Contains(l, "warm") || Contains(l, "1"))
      && (Contains(l, "miqat") || Contains(l, "2"))
      ==> stateId == LevelStateIds.Miqat
    ensures var l := ToLower(levelId);
      && !(Contains(l, "warm") || Contains(l, "1"))
      && !(Contains(l, "miqat") || Contains(l, "2"))
      && (Contains(l, "tawaf") || Contains(l, "3"))
      ==> stateId == LevelStateIds.Tawaf
    ensures var l := ToLower(levelId);
      && !(Contains(l, "warm") || Contains(l, "1"))
      && !(Contains(l, "miqat") || Contains(l, "2"))
      && !(Contains(l, "tawaf") || Contains(l, "3"))
      ==> stateId == LevelStateIds.Warmup
    ensures stateId == LevelStateIds.Miqat ==>
      Contains(ToLower(levelId), "miqat") || Contains(ToLower(levelId), "2")
    ensures stateId == LevelStateIds.Tawaf ==>
      Contains(ToLower(levelId), "tawaf") || Contains(ToLower(levelId), "3")
  {
    var id := ToLower(levelId);
    if Contains(id, "warmup") then
      WarmupMarkerSubsumed(id);
      LevelStateIds.Warmup
    else if Contains(id, "warm") || Contains(id, "1") then
      LevelStateIds.Warmup
    else if Contains(id, "miqat") || Contains(id, "2") then
      LevelStateIds.Miqat
    else if Contains(id, "tawaf") || Contains(id, "3") then
      LevelStateIds.Tawaf
    else
      LevelStateIds.Warmup
  }

  /** The search for "warmup" never decides anything: an id containing it contains "warm". */
  lemma WarmupMarkerSubsumed(id: string)
    requires Contains(id, "warmup")
    ensures Contains(id, "warm")
  {
    assert "warmup" == "warm" + "up";
    ContainsPrefixOfNeedle(id, "warm", "up");
  }

  /** The classification ignores the case of the ASCII letters in the id. */
  lemma CaseInsensitive(levelId: string)
    ensures DetermineStateId(ToLower(levelId)) == DetermineStateId(levelId)
  {
    ToLowerIdempotent(levelId);
  }

  /** Every character of a contained text occurs in the text. */
  lemma ContainedCharacters(s: string, sub: string, j: int)
    requires Contains(s, sub) && 0 <= j < |sub|
    ensures sub[j] in s
  {
    var i :| OccursAt(s, sub, i);
    assert s[i + j] == sub[j];
  }

  /** A text always contains itself. */
  lemma ContainsItself(s: string)
    ensures Contains(s, s)
  {
    assert OccursAt(s, s, 0);
  }

  /** Each state id, used as a level id, is played by its own state. */
  lemma StateIdsClassifyAsThemselves(stateId: string)
    requires LevelStateIds.IsValid(stateId)
    ensures DetermineStateId(stateId) == stateId
  {
    if stateId == LevelStateIds.Warmup {
      WarmupClassifiesAsItself();
    } else if stateId == LevelStateIds.Miqat {
      MiqatClassifiesAsItself();
    } else {
      TawafClassifiesAsItself();
    }
  }

  lemma WarmupClassifiesAsItself()
    ensures DetermineStateId(LevelStateIds.Warmup) == LevelStateIds.Warmup
  {
    assert OccursAt(ToLower(LevelStateIds.Warmup), "warm", 0);
  }

  lemma MiqatClassifiesAsItself()
    ensures DetermineStateId(LevelStateIds.Miqat) == LevelStateIds.Miqat
  {
    var id := LevelStateIds.Miqat;
    assert ToLower(id) == id;
    ContainsItself(id);
    MissingCharacter(id, "warm", 0);
    MissingCharacter(id, "1", 0);
  }

  lemma TawafClassifiesAsItself()
    ensures DetermineStateId(LevelStateIds.Tawaf) == LevelStateIds.Tawaf
  {
    var id := LevelStateIds.Tawaf;
    assert ToLower(id) == id;
    ContainsItself(id);
    NoWarmupOrMiqatMarker(id);
  }

  /** Without the letters 'r' and 'm' and the digits '1' and '2', no warmup or miqat
      marker can occur. */
  lemma NoWarmupOrMiqatMarker(id: string)
    requires 'r' !in id && 'm' !in id && '1' !in id && '2' !in id
    ensures !(Contains(id, "warm") || Contains(id, "1"))
    ensures !(Contains(id, "miqat") || Contains(id, "2"))
  {
    MissingCharacter(id, "warm", 2);
    MissingCharacter(id, "1", 0);
    MissingCharacter(id, "miqat", 0);
    MissingCharacter(id, "2", 0);
  }

  /** A text lacking one of the characters of `sub` does not contain `sub`. */
  lemma MissingCharacter(s: string, sub: string, j: int)
    requires 0 <= j < |sub| && sub[j] !in s
    ensures !Contains(s, sub)
  {
    if Contains(s, sub) {
      ContainedCharacters(s, sub, j);
    }
  }

  /** A digit outranks a name: "tawaf_1" plays as warmup, not as tawaf. */
  lemma DigitOutranksName()
    ensures DetermineStateId("tawaf_1") == LevelStateIds.Warmup
  {
    assert OccursAt(ToLower("tawaf_1"), "1", 6);
  }
}
