/**
 * The `ServerPlayer` mixin as an object: the skin caches, the timestamp, the
 * profile's property multimap and the model-parts byte are fields that its
 * methods update in place. Each method is proved against the matching
 * function of SkinStore, through `State()`.
 */
module TailoredPlayerMixin {
  import opened Wrappers
  import opened SkinStore
  import opened CapeRule

  /** A `CompoundTag` the save hooks are handed: a mutable map of named tags. */
  class CompoundTag {
    var entries: map<string, Tag>

    constructor (entries: map<string, Tag>)
      ensures this.entries == entries
    {
      this.entries := entries;
    }
  }

  class TailoredPlayer {
    var skinValue: Option<string>
    var skinSignature: Option<string>
    var lastSkinChangeTime: int
    /**
     * The contents of the game profile's property multimap. In the source the
     * map object is shared with the profile; here only this class writes the
     * field (outside writes between calls are an `Op` in SkinTraces).
     */
    var properties: PropertyMap
    /** How often `reloadSkin` was called. */
    var reloads: nat
    /** The entity's player-model-parts byte. */
    var modelParts: bv8

    /** The skin store this object holds. */
    function State(): SkinState
      reads this
    {
      SkinState(skinValue, skinSignature, lastSkinChangeTime, properties, reloads)
    }

    /** A new player entity, with the profile the login gave it. */
    constructor (properties: PropertyMap, modelParts: bv8)
      ensures State() == Initial(properties)
      ensures skinValue == None && skinSignature == None && lastSkinChangeTime == 0
      ensures this.properties == properties && this.modelParts == modelParts
    {
      skinValue, skinSignature := None, None;
      lastSkinChangeTime := 0;
      this.properties := properties;
      reloads := 0;
      this.modelParts := modelParts;
    }

    /** `reloadSkin()`: its packets are not modelled; the call is one reload event. */
    method ReloadSkin()
      modifies this`reloads
      ensures reloads == old(reloads) + 1
    {
      reloads := reloads + 1;
    }

    /** `setSkin(Property, reload)`. */
    method SetSkinProperty(skinData: Property, reload: bool, now: int)
      modifies this`properties, this`skinValue, this`skinSignature, this`reloads, this`lastSkinChangeTime
      ensures State() == SkinStore.SetSkinProperty(old(State()), skinData, reload, now)
      ensures Get(properties, TexturesKey) == [skinData]
      ensures skinValue == Some(skinData.value) && skinSignature == skinData.signature
      ensures lastSkinChangeTime == now
      ensures reloads == old(reloads) + (if reload then 1 else 0)
    {
      properties := RemoveAll(properties, TexturesKey);
      properties := Put(properties, TexturesKey, skinData);
      skinValue := Some(skinData.value);
      skinSignature := skinData.signature;
      if reload {
        ReloadSkin();
      }
      lastSkinChangeTime := now;
    }

    /** `setSkin(value, signature, reload)`. */
    method SetSkin(value: string, signature: string, reload: bool, now: int)
      modifies this`properties, this`skinValue, this`skinSignature, this`reloads, this`lastSkinChangeTime
      ensures State() == SkinStore.SetSkin(old(State()), value, signature, reload, now)
      ensures Get(properties, TexturesKey) == [TexturesProperty(value, signature)]
      ensures skinValue == Some(value) && skinSignature == Some(signature)
      ensures lastSkinChangeTime == now
      ensures reloads == old(reloads) + (if reload then 1 else 0)
    {
      SetSkinProperty(TexturesProperty(value, signature), reload, now);
    }

    /** `getSkinValue()`: read through the cache, filling it from the first textures entry. */
    method GetSkinValue() returns (v: Option<string>)
      modifies this`skinValue
      ensures (State(), v) == SkinStore.GetSkinValue(old(State()))
      ensures old(skinValue).Some? ==> v == old(skinValue)
      ensures old(skinValue).None? ==> v == FirstValue(old(State()))
      ensures skinValue == v
    {
      if skinValue == None {
        var textures := Get(properties, TexturesKey);
        if textures != [] {
          skinValue := Some(textures[0].value);
        }
      }
      v := skinValue;
    }

    /** `getSkinSignature()`: read through the cache, filling it from the first textures entry. */
    method GetSkinSignature() returns (s: Option<string>)
      modifies this`skinSignature
      ensures (State(), s) == SkinStore.GetSkinSignature(old(State()))
      ensures old(skinSignature).Some? ==> s == old(skinSignature)
      ensures old(skinSignature).None? ==> s == FirstSignature(old(State()))
      ensures skinSignature == s
    {
      if skinSignature == None {
        var textures := Get(properties, TexturesKey);
        if textures != [] {
          skinSignature := textures[0].signature;
        }
      }
      s := skinSignature;
    }

    /** `getLastSkinChange()`. */
    method GetLastSkinChange() returns (t: int)
      ensures t == lastSkinChangeTime
    {
      t := lastSkinChangeTime;
    }

    /** `clearSkin()`: the textures slot is emptied and the skin reloaded; the caches stay. */
    method ClearSkin()
      modifies this`properties, this`reloads
      ensures State() == SkinStore.ClearSkin(old(State()))
      ensures Get(properties, TexturesKey) == []
      ensures properties - {TexturesKey} == old(properties) - {TexturesKey}
      ensures reloads == old(reloads) + 1
    {
      properties := RemoveAll(properties, TexturesKey);
      ReloadSkin();
    }

    /** `resetLastSkinChange()`. */
    method ResetLastSkinChange()
      modifies this`lastSkinChangeTime
      ensures State() == SkinStore.ResetLastSkinChange(old(State()))
      ensures lastSkinChangeTime == 0
    {
      lastSkinChangeTime := 0;
    }

    /** `disableCapeIfNeeded`: when capes are disallowed the stored byte has its cape bit cleared. */
    method DisableCapeIfNeeded(allowCapes: bool, modelCustomisation: Int32)
      modifies this`modelParts
      ensures allowCapes ==> modelParts == old(modelParts)
      ensures !allowCapes ==> modelParts == CapeMask(modelCustomisation)
    {
      if !allowCapes {
        var playerModel := ToByte(modelCustomisation);
        playerModel := ClearCapeBit(playerModel);
        modelParts := playerModel;
      }
    }

    /** `writeCustomDataToNbt(tag)`: adds the skin entry when both getters give a value. */
    method WriteCustomDataToNbt(tag: CompoundTag)
      modifies this`skinValue, this`skinSignature, tag
      ensures (State(), tag.entries) == WriteSkinData(old(State()), old(tag.entries))
    {
      var v := GetSkinValue();
      if v != None {
        var s := GetSkinSignature();
        if s != None {
          v := GetSkinValue();
          s := GetSkinSignature();
          tag.entries := tag.entries[SkinDataKey := SkinDataTag(v.value, s.value)];
        }
      }
    }

    /** `readCustomDataFromNbt(tag)`: restores the caches, and the skin when both fields are there. */
    method ReadCustomDataFromNbt(tag: CompoundTag, now: int)
      modifies this`properties, this`skinValue, this`skinSignature, this`reloads, this`lastSkinChangeTime
      ensures State() == ReadSkinData(old(State()), tag.entries, now)
      ensures reloads == old(reloads)
    {
      var skinData := GetCompound(tag.entries, SkinDataKey);
      skinValue := GetStringOrNull(skinData, ValueKey);
      skinSignature := GetStringOrNull(skinData, SignatureKey);
      if skinValue != None && skinSignature != None {
        SetSkin(skinValue.value, skinSignature.value, false, now);
      }
    }
  }

  /**
   * A player without a custom skin sets one with a reload, is saved, and a
   * new entity loads the save: both see the new skin, and only the first
   * reloaded.
   */
  method SetSaveLoadScenario(login: PropertyMap, now: int, later: int)
  {
    var player := new TailoredPlayer(login, 0);
    player.SetSkin("abc", "sig1", true, now);
    var v := player.GetSkinValue();
    var s := player.GetSkinSignature();
    assert v == Some("abc") && s == Some("sig1");
    assert player.reloads == 1;

    var tag := new CompoundTag(map[]);
    player.WriteCustomDataToNbt(tag);
    var loaded := new TailoredPlayer(login, 0);
    loaded.ReadCustomDataFromNbt(tag, later);
    v := loaded.GetSkinValue();
    s := loaded.GetSkinSignature();
    assert v == Some("abc") && s == Some("sig1");
    assert loaded.reloads == 0;
    var t := loaded.GetLastSkinChange();
    assert t == later;

    loaded.ClearSkin();
    v := loaded.GetSkinValue();
    assert v == Some("abc");
  }
}
