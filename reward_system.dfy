/** RewardSystem.cs: gem awards with a positivity guard and a notification of the new total. */
module Rewards {
  import opened Wrappers
  import opened QuizData
  import opened Core

  /** The OnGemsEarned notification: the amount awarded and the gem total after it. */
  datatype GemsEarned = GemsEarned(amount: int, newTotal: int)

  class RewardSystem {

    constructor ()
    {
    }

    /** AwardGems: a non-positive amount does nothing and notifies nobody; a positive one
        goes to the game manager's profile (when there is a game manager) and is reported
        with the new total. Gems never decrease through this path. */
    method AwardGems(amount: int, instance: GameManager?) returns (earned: Option<GemsEarned>)
      requires instance != null ==> instance.Ready()
      modifies GemProfiles(instance)`gems
      ensures instance != null ==> instance.Ready()
      ensures amount <= 0 ==> earned == None && GemTotal(instance) == old(GemTotal(instance))
      ensures amount > 0 ==> earned == Some(GemsEarned(amount, GemTotal(instance)))
      ensures GemTotal(instance) == old(GemTotal(instance)) + (if amount > 0 && instance != null then amount else 0)
      ensures GemTotal(instance) >= old(GemTotal(instance))
    {
      if amount <= 0 {
        return None;
      }
      if instance != null {
        instance.AddGems(amount);
      }
      var newTotal := if instance != null then instance.profileService.profile.gems else 0;
      earned := Some(GemsEarned(amount, newTotal));
    }

    /** GrantCompletionBonus: nothing for a missing level; otherwise exactly the level's
        completion bonus, under the same positivity guard. */
    method GrantCompletionBonus(levelData: Option<LevelData>, instance: GameManager?) returns (earned: Option<GemsEarned>)
      requires instance != null ==> instance.Ready()
      modifies GemProfiles(instance)`gems
      ensures instance != null ==> instance.Ready()
      ensures levelData.None? ==> earned == None && GemTotal(instance) == old(GemTotal(instance))
      ensures levelData.Some? ==>
        var bonus := levelData.value.completionBonusGems;
        && earned == (if bonus > 0 then Some(GemsEarned(bonus, GemTotal(instance))) else None)
        && GemTotal(instance) == old(GemTotal(instance)) + (if bonus > 0 && instance != null then bonus else 0)
    {
      if levelData.None? {
        return None;
      }
      earned := AwardGems(levelData.value.completionBonusGems, instance);
    }
  }
}
