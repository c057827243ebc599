/** components/ProfileModal.tsx: skill unlocking, the level progress bar and the title rules. */
module ProfileModal {
  import opened Wrappers
  import opened Types
  import opened Gamification
  import opened Storage

  /** `SKILL_TREE.find(s => s.id === id)`. */
  function FindSkill(tree: seq<Skill>, id: string): (r: Option<Skill>)
    ensures r.Some? ==> r.value in tree && r.value.id == id
    ensures r.None? ==> forall s :: s in tree ==> s.id != id
  {
    if tree == [] then None
    else if tree[0].id == id then Some(tree[0])
    else FindSkill(tree[1..], id)
  }

  lemma SkillIdsDistinct()
    ensures forall i, j :: 0 <= i < j < |SkillTree| ==> SkillTree[i].id != SkillTree[j].id
  {
  }

  /** The profile `handleUnlockSkill` hands to `onUpdateProfile`, or `None` when it does nothing. */
  function Unlock(p: UserProfile, skillId: string): (r: Option<UserProfile>)
    ensures r.Some? <==> skillId !in p.skills && exists s :: s in SkillTree && s.id == skillId && p.skillPoints >= s.cost
    ensures r.Some? ==> r.value.skillPoints >= 0 && exists s :: (s in SkillTree && s.id == skillId
      && r.value == p.(skillPoints := p.skillPoints - s.cost, skills := p.skills + [skillId]))
  {
    SkillIdsDistinct();
    UnlockFrom(SkillTree, p, skillId)
  }

  /** `handleUnlockSkill` over any skill list whose ids are distinct. */
  function UnlockFrom(tree: seq<Skill>, p: UserProfile, skillId: string): (r: Option<UserProfile>)
    requires forall i, j :: 0 <= i < j < |tree| ==> tree[i].id != tree[j].id
    ensures r.Some? <==> skillId !in p.skills && exists s :: s in tree && s.id == skillId && p.skillPoints >= s.cost
    ensures r.Some? ==> r.value.skillPoints >= 0 && exists s :: (s in tree && s.id == skillId
      && r.value == p.(skillPoints := p.skillPoints - s.cost, skills := p.skills + [skillId]))
  {
    var skillData := FindSkill(tree, skillId);
    if skillId !in p.skills && skillData.Some? && p.skillPoints >= skillData.value.cost then
      Some(p.(skillPoints := p.skillPoints - skillData.value.cost, skills := p.skills + [skillId]))
    else None
  }

  /** A skill cannot be bought twice. */
  lemma UnlockOnlyOnce(p: UserProfile, skillId: string)
    requires Unlock(p, skillId).Some?
    ensures Unlock(Unlock(p, skillId).value, skillId).None?
  {
    assert skillId in Unlock(p, skillId).value.skills;
  }

  predicate Distinct(s: seq<string>) {
    forall i, j :: 0 <= i < j < |s| ==> s[i] != s[j]
  }

  lemma UnlockKeepsSkillsDistinct(p: UserProfile, skillId: string)
    requires Distinct(p.skills) && Unlock(p, skillId).Some?
    ensures Distinct(Unlock(p, skillId).value.skills)
  {
    var after := Unlock(p, skillId).value.skills;
    forall i, j | 0 <= i < j < |after| ensures after[i] != after[j] {
      if j == |p.skills| {
        assert after[i] == p.skills[i];
      } else {
        assert after[i] == p.skills[i] && after[j] == p.skills[j];
      }
    }
  }

  /** `handleUnlockSkill`. The spread copy shares the `skills` array with the shown
      profile, so the push is visible there too; `shown` is the displayed profile afterwards. */
  method HandleUnlockSkill(store: LocalStorage, profile: UserProfile, skillId: string)
    returns (shown: UserProfile, update: Option<UserProfile>)
    modifies store
    ensures update == Unlock(profile, skillId)
    ensures update.Some? ==> (shown == profile.(skills := profile.skills + [skillId])
      && store.items == old(store.items)[ProfileKey := ProfileRecord(Store(update.value))])
    ensures update.None? ==> shown == profile && store.items == old(store.items)
  {
    var updatedProfile := profile;
    var owned := skillId in updatedProfile.skills;
    var skillData := FindSkill(SkillTree, skillId);
    SkillIdsDistinct();
    if !owned && skillData.Some? && updatedProfile.skillPoints >= skillData.value.cost {
      updatedProfile := updatedProfile.(skillPoints := updatedProfile.skillPoints - skillData.value.cost);
      updatedProfile := updatedProfile.(skills := updatedProfile.skills + [skillId]);
      shown := profile.(skills := updatedProfile.skills);
      update := Some(updatedProfile);
      store.SetItem(ProfileKey, ProfileRecord(Store(updatedProfile)));
    } else {
      shown, update := profile, None;
    }
  }

  /** `xp % 500` with JavaScript's remainder, which keeps the sign of `xp`. */
  function JsRem500(xp: int): int {
    if xp >= 0 then xp % XpPerLevel else -((-xp) % XpPerLevel)
  }

  /** `Math.min(100, ((xp % 500) / 500) * 100)`. */
  function ProgressPercent(xp: int): (r: real)
    ensures xp >= 0 ==> 0.0 <= r < 100.0
    ensures xp >= 0 ==> r * 5.0 == (xp - GetNextLevelXp(CalculateLevel(xp) - 1)) as real
    ensures xp < 0 ==> r <= 0.0
  {
    var ratio := (JsRem500(xp) as real / XpPerLevel as real) * 100.0;
    if ratio < 100.0 then ratio else 100.0
  }

  /** The rank button for `Titles[i]` is enabled when `level > i`. */
  predicate TitleUnlocked(p: UserProfile, i: nat) {
    p.level > i
  }

  /** The check mark: the chosen title, or the earned one when none is chosen (an empty choice counts as none). */
  predicate TitleActive(p: UserProfile, title: string) {
    p.activeTitle == Some(title) || ((p.activeTitle.None? || p.activeTitle == Some("")) && p.title == title)
  }

  /** The title in the header, `activeTitle || title`: it is active, and no other rank title is. */
  function DisplayedTitle(p: UserProfile): (t: string)
    ensures TitleActive(p, t)
    ensures forall other :: other in Titles && TitleActive(p, other) ==> other == t
  {
    assert forall k :: 0 <= k < |Titles| ==> |Titles[k]| > 0;
    if p.activeTitle.Some? && p.activeTitle.value != "" then p.activeTitle.value else p.title
  }

  /** The title earned by level is always among the enabled rank buttons. */
  lemma EarnedTitleUnlocked(p: UserProfile)
    requires p.level >= 1 && p.title == GetTitle(p.level)
    ensures exists i: nat :: i < |Titles| && Titles[i] == p.title && TitleUnlocked(p, i)
  {
    var i: nat := if p.level - 1 < |Titles| - 1 then p.level - 1 else |Titles| - 1;
    assert Titles[i] == p.title && TitleUnlocked(p, i);
  }

  /** `handleSetTitle`, reachable only through an enabled rank button. */
  method HandleSetTitle(store: LocalStorage, profile: UserProfile, i: nat) returns (update: Option<UserProfile>)
    requires i < |Titles|
    modifies store
    ensures !TitleUnlocked(profile, i) ==> update.None? && store.items == old(store.items)
    ensures TitleUnlocked(profile, i) ==> (update == Some(profile.(activeTitle := Some(Titles[i])))
      && DisplayedTitle(update.value) == Titles[i]
      && store.items == old(store.items)[ProfileKey := ProfileRecord(Store(update.value))])
  {
    if !TitleUnlocked(profile, i) {
      return None;
    }
    var updatedProfile := profile.(activeTitle := Some(Titles[i]));
    assert Titles[i] != "" by {
      assert forall k :: 0 <= k < |Titles| ==> |Titles[k]| > 0;
    }
    store.SetItem(ProfileKey, ProfileRecord(Store(updatedProfile)));
    update := Some(updatedProfile);
  }
}
