/** UserProfileService.cs (in memory only) and ProgressService.cs: per-level progress,
    the completed-level set and the overall progress mean. */
module Services {
  import opened Collections
  import opened Profiles

  /** The service that owns the single profile instance every other service shares. Loading
      it from and saving it to the device are not modelled: the service starts from the
      default profile, as it does on first run. */
  class UserProfileService {
    const profile: UserProfile

    constructor ()
      ensures fresh(profile) && fresh(profile.levelProgress)
      ensures profile.Valid() && profile.IsDefault()
    {
      profile := new UserProfile();
    }
  }

  /** The sum of the percentages, added from first to last as the foreach loop does. */
  function Sum(s: seq<real>): real {
    if |s| == 0 then 0.0 else Sum(s[..|s| - 1]) + s[|s| - 1]
  }

  /** The arithmetic mean of the stored percentages, 0 when none are stored. */
  function Mean(s: seq<real>): real {
    if |s| == 0 then 0.0 else Sum(s) / |s| as real
  }

  /** Values that all lie in [lo, hi] sum to between |s| * lo and |s| * hi. */
  lemma {:induction false} SumBounds(s: seq<real>, lo: real, hi: real)
    requires forall i | 0 <= i < |s| :: lo <= s[i] <= hi
    ensures |s| as real * lo <= Sum(s) <= |s| as real * hi
  {
    if |s| > 0 {
      SumBounds(s[..|s| - 1], lo, hi);
    }
  }

  /** Percentages in [0, 100] have a mean in [0, 100]. */
  lemma MeanIsPercentage(s: seq<real>)
    requires forall i | 0 <= i < |s| :: 0.0 <= s[i] <= 100.0
    ensures 0.0 <= Mean(s) <= 100.0
  {
    SumBounds(s, 0.0, 100.0);
    if |s| > 0 {
      var n := |s| as real;
      assert Sum(s) / n <= 100.0 by {
        assert Sum(s) <= n * 100.0;
      }
    }
  }

  /** Levels {A: 100, B: 50} give a total progress of 75. */
  lemma MeanOfTwoLevels()
    ensures Mean([100.0, 50.0]) == 75.0
  {
    assert [100.0, 50.0][..1] == [100.0];
    assert [100.0][..0] == [];
  }

  /** The completed-level list after recording `percent` for `levelId`: the id is appended
      when the score passes and it is not already there. The list stays duplicate-free, never
      loses an entry, and gains exactly a passing id. */
  function MarkCompleted(ids: seq<string>, levelId: string, percent: real, passThreshold: int): (r: seq<string>)
    ensures NoDuplicates(ids) ==> NoDuplicates(r)
    ensures |ids| <= |r| && r[..|ids|] == ids
    ensures forall x :: x in r <==> x in ids || (x == levelId && percent >= passThreshold as real)
  {
    if percent >= passThreshold as real && levelId !in ids then ids + [levelId] else ids
  }

  /** Recording the same result twice leaves the completed list as one recording does. */
  lemma MarkCompletedIdempotent(ids: seq<string>, levelId: string, percent: real, passThreshold: int)
    ensures var once := MarkCompleted(ids, levelId, percent, passThreshold);
      MarkCompleted(once, levelId, percent, passThreshold) == once
  {
  }

  /** Tracks progress through the profile service it was built on. */
  class ProgressService {
    const profileService: UserProfileService

    constructor (profileService: UserProfileService)
      ensures this.profileService == profileService
    {
      this.profileService := profileService;
    }

    /** RecordLevelProgress: store `progressPercent` for `levelId` (last write wins, even
        over a higher score), mark the level completed when it passes, and recompute the
        total as the mean of all stored percentages. Name and gems are left alone. */
    method RecordLevelProgress(levelId: string, progressPercent: real, passThreshold: int := 60)
      requires profileService.profile.Valid()
      modifies profileService.profile, profileService.profile.levelProgress
      ensures profileService.profile.Valid()
      ensures profileService.profile.levelProgress.SetApplied(levelId, progressPercent)
      ensures profileService.profile.levelProgress.Contents()
        == old(profileService.profile.levelProgress.Contents())[levelId := progressPercent]
      ensures profileService.profile.completedLevelIds
        == MarkCompleted(old(profileService.profile.completedLevelIds), levelId, progressPercent, passThreshold)
      ensures profileService.profile.totalProgress == Mean(profileService.profile.levelProgress.values)
      ensures GetLevelProgress(levelId) == progressPercent
      ensures forall id | id != levelId :: GetLevelProgress(id) == old(GetLevelProgress(id))
      ensures profileService.profile.firstName == old(profileService.profile.firstName)
      ensures profileService.profile.lastName == old(profileService.profile.lastName)
      ensures profileService.profile.gems == old(profileService.profile.gems)
    {
      var profile := profileService.profile;
      profile.levelProgress.Set(levelId, progressPercent);

      if progressPercent >= passThreshold as real && levelId !in profile.completedLevelIds {
        AppendFreshNoDuplicates(profile.completedLevelIds, levelId);
        profile.completedLevelIds := profile.completedLevelIds + [levelId];
      }

      profile.totalProgress := CalculateTotalProgress(profile);
    }

    /** GetLevelProgress: the stored percentage, or 0 for a level never recorded. */
    function GetLevelProgress(levelId: string): (pct: real)
      reads profileService.profile, profileService.profile.levelProgress
      requires profileService.profile.Valid()
      ensures levelId in profileService.profile.levelProgress.Contents()
        ==> pct == profileService.profile.levelProgress.Contents()[levelId]
      ensures levelId !in profileService.profile.levelProgress.Contents() ==> pct == 0.0
    {
      var (found, pct) := profileService.profile.levelProgress.TryGetValue(levelId);
      if found then pct else 0.0
    }

    /** IsLevelCompleted: membership in the completed-level list; a pure read. */
    function IsLevelCompleted(levelId: string): (completed: bool)
      reads profileService.profile
      ensures completed <==> IndexOf(profileService.profile.completedLevelIds, levelId) >= 0
    {
      levelId in profileService.profile.completedLevelIds
    }

    /** CalculateTotalProgress: the mean of the stored percentages, summed by a loop. */
    method CalculateTotalProgress(profile: UserProfile) returns (total: real)
      ensures total == Mean(profile.levelProgress.values)
    {
      var values := profile.levelProgress.values;
      if |values| == 0 {
        return 0.0;
      }
      var sum := 0.0;
      var i := 0;
      while i < |values|
        invariant 0 <= i <= |values|
        invariant sum == Sum(values[..i])
      {
        assert values[..i + 1][..i] == values[..i];
        sum := sum + values[i];
        i := i + 1;
      }
      assert values[..|values|] == values;
      total := sum / |values| as real;
    }
  }
}
