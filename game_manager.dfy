/** GameManager.cs: the singleton that owns the shared services, and its gem helper. */
module Core {
  import opened Profiles
  import opened Services

  /** The static property GameManager.Instance. */
  class InstanceSlot {
    var instance: GameManager?

    constructor ()
      ensures instance == null
    {
      instance := null;
    }
  }

  /** The profile objects reachable from a game manager: what a gem award may touch. */
  ghost function ProfileObjects(gm: GameManager?): set<object>
    reads gm
  {
    if gm != null && gm.profileService != null
    then {gm.profileService.profile, gm.profileService.profile.levelProgress}
    else {}
  }

  /** The profile whose gem count an award changes: the game manager's, when there is one.
      Awards modify its `gems` field and nothing else. */
  ghost function GemProfiles(gm: GameManager?): set<UserProfile>
    reads gm
  {
    if gm != null && gm.profileService != null then {gm.profileService.profile} else {}
  }

  /** `GameManager.Instance?.ProfileService.GetProfile().Gems ?? 0`: the player's gems, or 0
      when there is no game manager. */
  function GemTotal(gm: GameManager?): int
    reads gm, ProfileObjects(gm)
  {
    if gm != null && gm.profileService != null then gm.profileService.profile.gems else 0
  }

  class GameManager {
    var profileService: UserProfileService?
    var progressService: ProgressService?
    /** Destroy(gameObject) was requested for this duplicate. */
    var destroyed: bool

    constructor ()
      ensures profileService == null && progressService == null && !destroyed
    {
      profileService := null;
      progressService := null;
      destroyed := false;
    }

    /** The services are wired: the progress service works on the same profile service whose
        profile AddGems changes, and that profile is well formed. */
    ghost predicate Ready()
      reads this, ProfileObjects(this)
    {
      && profileService != null
      && progressService != null
      && progressService.profileService == profileService
      && profileService.profile.Valid()
    }

    /** Awake: a second game manager, while another one is the Instance, destroys itself and
        leaves the Instance alone; otherwise this one becomes the Instance and builds the
        services, the progress service on top of the new profile service. */
    method Awake(slot: InstanceSlot)
      modifies this, slot
      ensures old(slot.instance) != null && old(slot.instance) != this ==>
        && destroyed
        && slot.instance == old(slot.instance)
        && profileService == old(profileService)
        && progressService == old(progressService)
      ensures old(slot.instance) == null || old(slot.instance) == this ==>
        && slot.instance == this
        && destroyed == old(destroyed)
        && Ready()
        && fresh(profileService) && fresh(progressService)
        && fresh(profileService.profile) && fresh(profileService.profile.levelProgress)
        && profileService.profile.IsDefault()
    {
      if slot.instance != null && slot.instance != this {
        destroyed := true;
        return;
      }
      slot.instance := this;
      InitialiseServices();
    }

    /** InitialiseServices: a new profile service, and a progress service built on it. */
    method InitialiseServices()
      modifies this
      ensures Ready()
      ensures destroyed == old(destroyed)
      ensures fresh(profileService) && fresh(progressService)
      ensures fresh(profileService.profile) && fresh(profileService.profile.levelProgress)
      ensures profileService.profile.IsDefault()
    {
      profileService := new UserProfileService();
      progressService := new ProgressService(profileService);
    }

    /** AddGems: the profile's gems change by exactly `amount`, with no sign check, and no
        other field of the profile changes. */
    method AddGems(amount: int)
      requires Ready()
      modifies profileService.profile`gems
      ensures Ready()
      ensures profileService.profile.gems == old(profileService.profile.gems) + amount
      ensures GemTotal(this) == old(GemTotal(this)) + amount
    {
      var p := profileService.profile;
      p.gems := p.gems + amount;
    }
  }
}
