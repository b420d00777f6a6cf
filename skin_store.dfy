/**
 * The per-player skin store of FabricTailor's `ServerPlayer` mixin, as values:
 * the two skin caches, the last-change timestamp, the game profile's property
 * multimap, and a count of skin reloads. Every operation of the mixin is a
 * function from the old store to the new one; the class in tailored_player.dfy
 * is proved against these functions, and the lemmas here state what the
 * operations promise, alone and over any sequence of calls.
 */
module SkinStore {
  import opened Wrappers

  /** The property key the skin lives under. */
  const TexturesKey: string := "textures"
  /** The save-data entry holding the skin. */
  const SkinDataKey: string := "fabrictailor:skin_data"
  const ValueKey: string := "value"
  const SignatureKey: string := "signature"

  /** An authlib profile property: a name, a value and a signature that may be null. */
  datatype Property = Property(name: string, value: string, signature: Option<string>)

  /**
   * The profile's property multimap: the entries stored under each key, in
   * insertion order. A key with no entries is absent, as in a Guava multimap.
   */
  type PropertyMap = map<string, seq<Property>>

  /** `map.get(key)`: the entries under key, empty when there are none. */
  function Get(m: PropertyMap, key: string): seq<Property>
  {
    if key in m then m[key] else []
  }

  /** `map.removeAll(key)`. */
  function RemoveAll(m: PropertyMap, key: string): (r: PropertyMap)
    ensures Get(r, key) == []
    ensures r - {key} == m - {key}
  {
    m - {key}
  }

  /**
   * `map.put(key, p)`. authlib's `Property` compares by identity, so the
   * property objects put here are never already present and put appends.
   */
  function Put(m: PropertyMap, key: string, p: Property): (r: PropertyMap)
    ensures Get(r, key) == Get(m, key) + [p]
    ensures r - {key} == m - {key}
  {
    m[key := Get(m, key) + [p]]
  }

  /**
   * The mixin's state for one player. `reloads` counts the calls of
   * `reloadSkin`, whose packets are not modelled.
   */
  datatype SkinState = SkinState(
    skinValue: Option<string>,
    skinSignature: Option<string>,
    lastSkinChangeTime: int,
    properties: PropertyMap,
    reloads: nat)

  /** The `"textures"` slot of the property multimap. */
  function Textures(st: SkinState): seq<Property>
  {
    Get(st.properties, TexturesKey)
  }

  /** A new player entity: no cached skin, timestamp 0, the profile as the login gave it. */
  function Initial(properties: PropertyMap): SkinState
  {
    SkinState(None, None, 0, properties, 0)
  }

  /** Both caches set, or both unset. */
  predicate Paired(st: SkinState)
  {
    st.skinValue.Some? <==> st.skinSignature.Some?
  }

  // ---------------------------------------------------------------------
  // Operations
  // ---------------------------------------------------------------------

  /**
   * `setSkin(Property, reload)`: the textures slot is replaced by the one
   * property, both caches take its value and signature, a reload happens iff
   * `reload`, and the timestamp is stamped on either path.
   */
  function SetSkinProperty(st: SkinState, p: Property, reload: bool, now: int): (r: SkinState)
    ensures Textures(r) == [p]
    ensures r.properties - {TexturesKey} == st.properties - {TexturesKey}
    ensures r.skinValue == Some(p.value) && r.skinSignature == p.signature
    ensures r.lastSkinChangeTime == now
    ensures r.reloads == if reload then st.reloads + 1 else st.reloads
  {
    var properties := Put(RemoveAll(st.properties, TexturesKey), TexturesKey, p);
    var reloads := if reload then st.reloads + 1 else st.reloads;
    st.(properties := properties, skinValue := Some(p.value), skinSignature := p.signature,
        reloads := reloads, lastSkinChangeTime := now)
  }

  /** The property `setSkin(String, String, reload)` builds. */
  function TexturesProperty(value: string, signature: string): Property
  {
    Property(TexturesKey, value, Some(signature))
  }

  /** `setSkin(value, signature, reload)`. */
  function SetSkin(st: SkinState, value: string, signature: string, reload: bool, now: int): (r: SkinState)
    ensures Textures(r) == [TexturesProperty(value, signature)]
    ensures r.properties - {TexturesKey} == st.properties - {TexturesKey}
    ensures r.skinValue == Some(value) && r.skinSignature == Some(signature)
    ensures r.lastSkinChangeTime == now
    ensures r.reloads == if reload then st.reloads + 1 else st.reloads
  {
    SetSkinProperty(st, TexturesProperty(value, signature), reload, now)
  }

  /**
   * `clearSkin()`: the textures slot is emptied and one reload happens; the
   * caches and the timestamp are left as they were.
   */
  function ClearSkin(st: SkinState): (r: SkinState)
    ensures Textures(r) == []
    ensures r.properties - {TexturesKey} == st.properties - {TexturesKey}
    ensures r.skinValue == st.skinValue && r.skinSignature == st.skinSignature
    ensures r.lastSkinChangeTime == st.lastSkinChangeTime
    ensures r.reloads == st.reloads + 1
  {
    st.(properties := RemoveAll(st.properties, TexturesKey), reloads := st.reloads + 1)
  }

  /** The value of the first textures entry, if there is one. */
  function FirstValue(st: SkinState): Option<string>
  {
    if Textures(st) == [] then None else Some(Textures(st)[0].value)
  }

  /** The signature of the first textures entry, if there is one and it is signed. */
  function FirstSignature(st: SkinState): Option<string>
  {
    if Textures(st) == [] then None else Textures(st)[0].signature
  }

  /**
   * `getSkinValue()`: the new state and the result. A set cache is returned
   * without looking at the map; an unset one is filled from the first textures
   * entry when there is one. Only the value cache can change.
   */
  function GetSkinValue(st: SkinState): (r: (SkinState, Option<string>))
    ensures r.0 == st.(skinValue := r.1)
    ensures st.skinValue.Some? ==> r.1 == st.skinValue
    ensures st.skinValue.None? ==> r.1 == FirstValue(st)
  {
    if st.skinValue.None? && Textures(st) != [] then
      var v := Some(Textures(st)[0].value);
      (st.(skinValue := v), v)
    else
      (st, st.skinValue)
  }

  /** `getSkinSignature()`, the same read-through cache for the signature. */
  function GetSkinSignature(st: SkinState): (r: (SkinState, Option<string>))
    ensures r.0 == st.(skinSignature := r.1)
    ensures st.skinSignature.Some? ==> r.1 == st.skinSignature
    ensures st.skinSignature.None? ==> r.1 == FirstSignature(st)
  {
    if st.skinSignature.None? && Textures(st) != [] then
      var s := Textures(st)[0].signature;
      (st.(skinSignature := s), s)
    else
      (st, st.skinSignature)
  }

  /** `resetLastSkinChange()`. */
  function ResetLastSkinChange(st: SkinState): (r: SkinState)
    ensures r.lastSkinChangeTime == 0
    ensures r.(lastSkinChangeTime := st.lastSkinChangeTime) == st
  {
    st.(lastSkinChangeTime := 0)
  }

  // ---------------------------------------------------------------------
  // Save data
  // ---------------------------------------------------------------------

  /** A save-data tag: a string, a compound of named tags, or any other kind of tag. */
  datatype Tag = StringTag(s: string) | Compound(entries: map<string, Tag>) | OtherTag

  /** `tag.getCompound(key)`: the entries of the compound under key; an empty compound when absent or not a compound. */
  function GetCompound(tag: map<string, Tag>, key: string): map<string, Tag>
  {
    if key in tag && tag[key].Compound? then tag[key].entries else map[]
  }

  /** `tag.contains(key) ? tag.getString(key) : null`; getString gives "" for a tag that is not a string. */
  function GetStringOrNull(tag: map<string, Tag>, key: string): Option<string>
  {
    if key !in tag then None
    else if tag[key].StringTag? then Some(tag[key].s)
    else Some("")
  }

  /** The compound the save hook writes. */
  function SkinDataTag(value: string, signature: string): Tag
  {
    Compound(map[ValueKey := StringTag(value), SignatureKey := StringTag(signature)])
  }

  /**
   * `writeCustomDataToNbt(tag)`: the state after the getters ran, and the new
   * tag. The skin entry is added exactly when both getters return a value;
   * the signature getter is not called when the value getter gives null.
   */
  function WriteSkinData(st: SkinState, tag: map<string, Tag>): (r: (SkinState, map<string, Tag>))
    ensures r.0.properties == st.properties && r.0.lastSkinChangeTime == st.lastSkinChangeTime
    ensures r.0.reloads == st.reloads
    ensures r.0.skinValue == GetSkinValue(st).1
    ensures r.0.skinValue.Some? ==> r.0.skinSignature == GetSkinSignature(GetSkinValue(st).0).1
    ensures r.0.skinValue.None? ==> r.0.skinSignature == st.skinSignature
    ensures r.0.skinValue.Some? && r.0.skinSignature.Some? ==>
              r.1 == tag[SkinDataKey := SkinDataTag(r.0.skinValue.value, r.0.skinSignature.value)]
    ensures !(r.0.skinValue.Some? && r.0.skinSignature.Some?) ==> r.1 == tag
  {
    var (s1, v) := GetSkinValue(st);
    if v.None? then (s1, tag)
    else
      var (s2, sig) := GetSkinSignature(s1);
      if sig.None? then (s2, tag)
      else (s2, tag[SkinDataKey := SkinDataTag(v.value, sig.value)])
  }

  /**
   * `readCustomDataFromNbt(tag)`: each cache takes its field of the skin
   * entry, or null when the field is missing; when both are present the skin
   * is set silently (no reload, but the timestamp is stamped).
   */
  function ReadSkinData(st: SkinState, tag: map<string, Tag>, now: int): (r: SkinState)
    ensures r.skinValue == GetStringOrNull(GetCompound(tag, SkinDataKey), ValueKey)
    ensures r.skinSignature == GetStringOrNull(GetCompound(tag, SkinDataKey), SignatureKey)
    ensures r.reloads == st.reloads
    ensures r.skinValue.Some? && r.skinSignature.Some? ==>
              Textures(r) == [TexturesProperty(r.skinValue.value, r.skinSignature.value)] &&
              r.properties - {TexturesKey} == st.properties - {TexturesKey} &&
              r.lastSkinChangeTime == now
    ensures !(r.skinValue.Some? && r.skinSignature.Some?) ==>
              r.properties == st.properties && r.lastSkinChangeTime == st.lastSkinChangeTime
  {
    var skinData := GetCompound(tag, SkinDataKey);
    var st1 := st.(skinValue := GetStringOrNull(skinData, ValueKey),
                   skinSignature := GetStringOrNull(skinData, SignatureKey));
    if st1.skinValue.Some? && st1.skinSignature.Some? then
      SetSkin(st1, st1.skinValue.value, st1.skinSignature.value, false, now)
    else
      st1
  }

  // ---------------------------------------------------------------------
  // Properties of single calls
  // ---------------------------------------------------------------------

  /** A second `getSkinValue` returns what the first did and changes nothing. */
  lemma GetSkinValueIdempotent(st: SkinState)
    ensures GetSkinValue(GetSkinValue(st).0) == (GetSkinValue(st).0, GetSkinValue(st).1)
  {
  }

  /** A second `getSkinSignature` returns what the first did and changes nothing. */
  lemma GetSkinSignatureIdempotent(st: SkinState)
    ensures GetSkinSignature(GetSkinSignature(st).0) == (GetSkinSignature(st).0, GetSkinSignature(st).1)
  {
  }

  /** After `setSkin`, the getters return the new skin without changing the state. */
  lemma SetSkinThenGet(st: SkinState, value: string, signature: string, reload: bool, now: int)
    ensures var r := SetSkin(st, value, signature, reload, now);
            GetSkinValue(r) == (r, Some(value)) && GetSkinSignature(r) == (r, Some(signature))
  {
  }

  /**
   * `clearSkin` leaves the caches, so a getter after it returns the skin
   * cached before it, and fills nothing from the now empty slot.
   */
  lemma ClearSkinThenGet(st: SkinState)
    ensures GetSkinValue(ClearSkin(st)).1 == st.skinValue
    ensures GetSkinSignature(ClearSkin(st)).1 == st.skinSignature
  {
  }

  /** A second `clearSkin` changes nothing but the reload count. */
  lemma ClearSkinTwice(st: SkinState)
    ensures ClearSkin(ClearSkin(st)) == ClearSkin(st).(reloads := st.reloads + 2)
  {
  }

  /**
   * Because the caches survive `clearSkin`, saving after a clear still writes
   * the skin that was cached before it.
   */
  lemma ClearSkinThenSave(st: SkinState, tag: map<string, Tag>)
    requires st.skinValue.Some? && st.skinSignature.Some?
    ensures WriteSkinData(ClearSkin(st), tag).1 ==
            tag[SkinDataKey := SkinDataTag(st.skinValue.value, st.skinSignature.value)]
  {
  }

  /**
   * Saving and loading into any other player entity: when the save hook wrote
   * the skin entry, loading it restores both caches and the one textures
   * entry, without a reload and with the timestamp of the load.
   */
  lemma SaveThenLoad(st: SkinState, tag: map<string, Tag>, other: SkinState, now: int)
    requires WriteSkinData(st, tag).0.skinValue.Some? && WriteSkinData(st, tag).0.skinSignature.Some?
    ensures var (saved, written) := WriteSkinData(st, tag);
            var loaded := ReadSkinData(other, written, now);
            loaded.skinValue == saved.skinValue && loaded.skinSignature == saved.skinSignature &&
            Textures(loaded) == [TexturesProperty(saved.skinValue.value, saved.skinSignature.value)] &&
            loaded.properties - {TexturesKey} == other.properties - {TexturesKey} &&
            loaded.reloads == other.reloads && loaded.lastSkinChangeTime == now
  {
  }

  /** The round trip of a skin set with `setSkin`: save, then load, gives it back. */
  lemma SetSkinSaveLoad(st: SkinState, value: string, signature: string, reload: bool, now: int,
                        tag: map<string, Tag>, other: SkinState, later: int)
    ensures var written := WriteSkinData(SetSkin(st, value, signature, reload, now), tag).1;
            var loaded := ReadSkinData(other, written, later);
            loaded.skinValue == Some(value) && loaded.skinSignature == Some(signature) &&
            Textures(loaded) == [TexturesProperty(value, signature)] &&
            loaded.reloads == other.reloads
  {
  }

  /**
   * A skin entry holding only one of its two fields sets that cache, clears
   * the other, and leaves the property map and the timestamp alone.
   */
  lemma LoadOneField(st: SkinState, tag: map<string, Tag>, now: int)
    requires ValueKey in GetCompound(tag, SkinDataKey) <==> SignatureKey !in GetCompound(tag, SkinDataKey)
    ensures var r := ReadSkinData(st, tag, now);
            !Paired(r) && r.properties == st.properties &&
            r.lastSkinChangeTime == st.lastSkinChangeTime && r.reloads == st.reloads
  {
  }

  /** Loading a tag without skin data leaves both caches unset and the map alone. */
  lemma LoadWithoutSkinData(st: SkinState, tag: map<string, Tag>, now: int)
    requires SkinDataKey !in tag
    ensures ReadSkinData(st, tag, now) == st.(skinValue := None, skinSignature := None)
  {
  }

  /** The signature getter alone can break the pairing too. */
  lemma SignatureGetterCanUnpair()
    ensures var st := Initial(map[TexturesKey := [TexturesProperty("abc", "sig1")]]);
            Paired(st) && !Paired(GetSkinSignature(st).0)
  {
  }

  /** And so can the save hook, through its getters, for a profile skin without a signature. */
  lemma SaveCanUnpair()
    ensures var st := Initial(map[TexturesKey := [Property(TexturesKey, "abc", None)]]);
            Paired(st) && !Paired(WriteSkinData(st, map[]).0) && WriteSkinData(st, map[]).1 == map[]
  {
  }

  /** `setSkin(Property, …)` with an unsigned property leaves only the value cached. */
  lemma UnsignedSetSkinCanUnpair(value: string, reload: bool, now: int)
    ensures var st := Initial(map[]);
            Paired(st) && !Paired(SetSkinProperty(st, Property(TexturesKey, value, None), reload, now))
  {
  }

  /** The caches need not be paired: the value getter alone can break the pairing. */
  lemma GetterCanUnpair()
    ensures var st := Initial(map[TexturesKey := [TexturesProperty("abc", "sig1")]]);
            Paired(st) && !Paired(GetSkinValue(st).0)
  {
  }
}
