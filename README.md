# FabricTailor skin store, modelled in Dafny

FabricTailor is a Fabric mod for Minecraft servers. It lets players change their skin. Its `ServerPlayer` mixin gives every player entity a small skin store:

- two cached strings, the skin's texture value and its signature, either of which may be null;
- a last-change timestamp, 0 at first;
- the `"textures"` slot of the game profile's property multimap.

It offers `setSkin`, `clearSkin`, two read-through getters, `getLastSkinChange` and `resetLastSkinChange`. A save hook writes the skin to the player's save data under `"fabrictailor:skin_data"`, and a load hook reads it back. A third hook clears the cape bit of the model-customisation byte the client sends when capes are not allowed.

The model has five modules:

- `Wrappers` (wrappers.dfy): `Option`, standing for Java's nullable references.
- `CapeRule` (cape.dfy): the cape mask on a byte (`bv8`), and the bits it keeps.
- `SkinStore` (skin_store.dfy): the store as a value, `SkinState`. It includes a count of `reloadSkin` calls. Each operation and each hook is a function from the old state to the new one, with lemmas relating several calls: cache semantics, the stale cache after `clearSkin`, save-then-load.
- `SkinTraces` (skin_traces.dfy): any sequence of calls (`Run`) of both `setSkin` overloads and every other operation and hook, with inductive lemmas on reload counts, the size of the textures slot, untouched properties, cache pairing and the timestamp. It includes outside writes of the shared profile map between calls (`ProfileWriteOp`), which the read-through getters exist for.
- `TailoredPlayerMixin` (tailored_player.dfy): the mixin as a class. Its fields are updated in place by methods that follow the Java statement by statement. Each method that changes the skin store has an `ensures` tying `State()` to the matching `SkinStore` function of the old state. `ReloadSkin`, `GetLastSkinChange` and `DisableCapeIfNeeded` are specified on their fields, the last one through `CapeMask`. A `CompoundTag` class stands for the tag the save hooks mutate.

The property multimap is a `map<string, seq<Property>>`:

- An absent key means no entries, as in Guava. `map.get` of a missing key gives an empty collection.
- `removeAll` deletes the key.
- `put` appends. authlib's `Property` compares by identity, so the property being put is never already present.

The model follows the code as written, including where it is easy to misread:

- `setSkin` stamps the timestamp on the silent path too, including the one the load hook takes.
- `clearSkin` leaves both caches. The getters after it return the old skin (`ClearSkinThenGet`), and a save after it writes the old skin again (`ClearSkinThenSave`).
- The caches need not be paired. Any of these can leave exactly one set: each getter alone (`GetterCanUnpair`, `SignatureGetterCanUnpair`); the save hook through its getters (`SaveCanUnpair`); the load hook given a one-field save entry (`LoadOneField`, `LoadCanUnpair`); and `setSkin(Property, …)` with an unsigned property (`UnsignedSetSkinCanUnpair`). Pairing survives only the two-string `setSkin`, `setSkin(Property, …)` with a signed property, `clearSkin`, `resetLastSkinChange` and outside writes of the profile (`RunPaired`).
- Minecraft's `getCompound` never returns null; it gives an empty tag. So the load hook's null check always passes, and loading save data without a skin entry sets both caches to null (`LoadWithoutSkinData`).

## Model

| member | source | states |
|---|---|---|
| CapeRule.ClearCapeBit | src/main/java/org/samo_lego/fabrictailor/mixin/ServerPlayerEntityMixin_TailoredPlayer.java:170 | `& ~1` turns bit 0 off and keeps bits 1 to 7 |
| CapeRule.CapeMask | src/main/java/org/samo_lego/fabrictailor/mixin/ServerPlayerEntityMixin_TailoredPlayer.java:167-170 | the stored byte has the cape bit off and bits 1 to 7 of the low eight bits of the client's int (the `(byte)` cast) |
| CapeRule.CastAndMaskCases | src/main/java/org/samo_lego/fabrictailor/mixin/ServerPlayerEntityMixin_TailoredPlayer.java:167-170 | worked cases of the `(byte)` cast and the mask, negative ints included: -1 gives 0xFF and 0xFE, -128 gives 0x80, 0x17F gives 0x7F and 0x7E |
| CapeRule.CapeMaskIdempotent | src/main/java/org/samo_lego/fabrictailor/mixin/ServerPlayerEntityMixin_TailoredPlayer.java:170 | masking the stored byte again changes nothing |
| CapeRule.CapeMaskKeepsCapeless | src/main/java/org/samo_lego/fabrictailor/mixin/ServerPlayerEntityMixin_TailoredPlayer.java:167-170 | the mask leaves the byte as sent exactly when the cape bit was already off |
| SkinStore.RemoveAll | src/main/java/org/samo_lego/fabrictailor/mixin/ServerPlayerEntityMixin_TailoredPlayer.java:87 | `removeAll` leaves no entry under the key and every other key as it was |
| SkinStore.Put | src/main/java/org/samo_lego/fabrictailor/mixin/ServerPlayerEntityMixin_TailoredPlayer.java:93 | `put` appends the property under the key and touches no other key |
| SkinStore.SetSkinProperty | src/main/java/org/samo_lego/fabrictailor/mixin/ServerPlayerEntityMixin_TailoredPlayer.java:85-111 | afterwards the textures slot holds exactly the given property and no other key changed; the caches are its value and signature; the timestamp is `now` whether or not it reloads; one reload iff `reload` |
| SkinStore.SetSkin | src/main/java/org/samo_lego/fabrictailor/mixin/ServerPlayerEntityMixin_TailoredPlayer.java:114-116 | the same for the property named `"textures"` built from the two strings: one textures entry, both caches `Some`, timestamp `now`, one reload iff `reload` |
| SkinStore.ClearSkin | src/main/java/org/samo_lego/fabrictailor/mixin/ServerPlayerEntityMixin_TailoredPlayer.java:150-157 | the textures slot is empty, other keys are untouched, caches and timestamp are unchanged, exactly one reload |
| SkinStore.GetSkinValue | src/main/java/org/samo_lego/fabrictailor/mixin/ServerPlayerEntityMixin_TailoredPlayer.java:119-129 | a set cache is returned as is; an unset one takes the first textures entry's value, or stays null when the slot is empty; nothing but the value cache changes, and the result is the new cache |
| SkinStore.GetSkinSignature | src/main/java/org/samo_lego/fabrictailor/mixin/ServerPlayerEntityMixin_TailoredPlayer.java:132-142 | the same read-through cache for the signature, which may be null in the first entry |
| SkinStore.ResetLastSkinChange | src/main/java/org/samo_lego/fabrictailor/mixin/ServerPlayerEntityMixin_TailoredPlayer.java:160-162 | the timestamp is 0 whatever it was, and nothing else changes |
| SkinStore.WriteSkinData | src/main/java/org/samo_lego/fabrictailor/mixin/ServerPlayerEntityMixin_TailoredPlayer.java:177-185 | the getters fill the caches (the signature getter only when the value is non-null); the skin entry with fields `"value"` and `"signature"` is put exactly when both are non-null, otherwise the tag is unchanged |
| SkinStore.ReadSkinData | src/main/java/org/samo_lego/fabrictailor/mixin/ServerPlayerEntityMixin_TailoredPlayer.java:188-198 | each cache is its field of the skin entry or null; with both present, the textures slot holds that one skin and the timestamp is `now`; with one missing, the map and timestamp are unchanged; never a reload |
| SkinStore.GetSkinValueIdempotent | src/main/java/org/samo_lego/fabrictailor/mixin/ServerPlayerEntityMixin_TailoredPlayer.java:119-129 | a second `getSkinValue` returns the first call's result and changes nothing |
| SkinStore.GetSkinSignatureIdempotent | src/main/java/org/samo_lego/fabrictailor/mixin/ServerPlayerEntityMixin_TailoredPlayer.java:132-142 | a second `getSkinSignature` returns the first call's result and changes nothing |
| SkinStore.SetSkinThenGet | src/main/java/org/samo_lego/fabrictailor/mixin/ServerPlayerEntityMixin_TailoredPlayer.java:96-97 | after `setSkin` both getters return the new strings without consulting the map or changing anything |
| SkinStore.ClearSkinThenGet | src/main/java/org/samo_lego/fabrictailor/mixin/ServerPlayerEntityMixin_TailoredPlayer.java:150-157 | after `clearSkin` the getters return whatever was cached before it (including null) |
| SkinStore.ClearSkinTwice | src/main/java/org/samo_lego/fabrictailor/mixin/ServerPlayerEntityMixin_TailoredPlayer.java:150-157 | a second `clearSkin` changes nothing but adding one more reload |
| SkinStore.ClearSkinThenSave | src/main/java/org/samo_lego/fabrictailor/mixin/ServerPlayerEntityMixin_TailoredPlayer.java:177-185 | a save after `clearSkin` still writes the skin that was cached before the clear |
| SkinStore.SaveThenLoad | src/main/java/org/samo_lego/fabrictailor/mixin/ServerPlayerEntityMixin_TailoredPlayer.java:176-198 | when the save hook wrote the skin entry, loading it into any entity restores both caches and the single textures entry, leaves other properties, sends no reload and stamps the load time |
| SkinStore.SetSkinSaveLoad | src/main/java/org/samo_lego/fabrictailor/mixin/ServerPlayerEntityMixin_TailoredPlayer.java:176-198 | `setSkin(v, s, r)`, then save, then load gives back `v` and `s` and one textures entry, without a reload on load |
| SkinStore.LoadOneField | src/main/java/org/samo_lego/fabrictailor/mixin/ServerPlayerEntityMixin_TailoredPlayer.java:191-196 | a skin entry with only one field leaves exactly one cache set, and the map, timestamp and reloads as they were |
| SkinStore.LoadWithoutSkinData | src/main/java/org/samo_lego/fabrictailor/mixin/ServerPlayerEntityMixin_TailoredPlayer.java:189-192 | without a skin entry, loading sets both caches to null and changes nothing else |
| SkinStore.SignatureGetterCanUnpair | src/main/java/org/samo_lego/fabrictailor/mixin/ServerPlayerEntityMixin_TailoredPlayer.java:132-142 | on a fresh entity whose profile has a skin, `getSkinSignature` alone leaves the signature set and the value null |
| SkinStore.SaveCanUnpair | src/main/java/org/samo_lego/fabrictailor/mixin/ServerPlayerEntityMixin_TailoredPlayer.java:177-185 | for a profile skin without a signature, the save hook's getters leave only the value cached and it writes nothing |
| SkinStore.UnsignedSetSkinCanUnpair | src/main/java/org/samo_lego/fabrictailor/mixin/ServerPlayerEntityMixin_TailoredPlayer.java:85-111 | `setSkin(Property, …)` with a property whose signature is null leaves the value cached and the signature null |
| SkinStore.GetterCanUnpair | src/main/java/org/samo_lego/fabrictailor/mixin/ServerPlayerEntityMixin_TailoredPlayer.java:119-129 | on a fresh entity whose profile has a skin, `getSkinValue` alone leaves the value set and the signature null |
| SkinTraces.RunReloads | src/main/java/org/samo_lego/fabrictailor/mixin/ServerPlayerEntityMixin_TailoredPlayer.java:85-157 | over any sequence of calls, the reloads sent are one per reloading `setSkin` of either overload plus one per `clearSkin`, and none for silent sets, getters, saves or loads |
| SkinTraces.RunTexturesAtMostOne | src/main/java/org/samo_lego/fabrictailor/mixin/ServerPlayerEntityMixin_TailoredPlayer.java:85-198 | if the textures slot holds at most one entry, it still does after any sequence of calls whose outside profile writes leave at most one there |
| SkinTraces.RunKeepsOtherProperties | src/main/java/org/samo_lego/fabrictailor/mixin/ServerPlayerEntityMixin_TailoredPlayer.java:85-198 | no sequence of the mixin's own calls (no outside profile writes) changes a profile property other than `"textures"` |
| SkinTraces.RunPaired | src/main/java/org/samo_lego/fabrictailor/mixin/ServerPlayerEntityMixin_TailoredPlayer.java:85-162 | from paired caches, any sequence of two-string `setSkin`, `setSkin(Property, …)` with a signed property, `clearSkin`, `resetLastSkinChange` and outside profile writes keeps them paired |
| SkinTraces.LoadCanUnpair | src/main/java/org/samo_lego/fabrictailor/mixin/ServerPlayerEntityMixin_TailoredPlayer.java:191-192 | loading a skin entry that holds only a value leaves the caches unpaired |
| SkinTraces.RunTimestampMonotone | src/main/java/org/samo_lego/fabrictailor/mixin/ServerPlayerEntityMixin_TailoredPlayer.java:103 | with a clock that never goes back and no `resetLastSkinChange`, the timestamp never ends below where it started; every `setSkin` of either overload and every two-field load stamps it |
| SkinTraces.RunLastSkinChange | src/main/java/org/samo_lego/fabrictailor/mixin/ServerPlayerEntityMixin_TailoredPlayer.java:103 | after any run the timestamp is the clock reading of the last `setSkin` of either overload or two-field load, or 0 if a `resetLastSkinChange` came after it, or the old timestamp if no call set it |
| SkinTraces.GetterReadsOutsideWrite | src/main/java/org/samo_lego/fabrictailor/mixin/ServerPlayerEntityMixin_TailoredPlayer.java:119-129 | a skin written into the shared profile from outside while the value is uncached is what `getSkinValue` then returns |
| SkinTraces.GetterIgnoresOutsideWrite | src/main/java/org/samo_lego/fabrictailor/mixin/ServerPlayerEntityMixin_TailoredPlayer.java:119-129 | once the value is cached, a later outside write of the textures slot is not seen by `getSkinValue` |
| SkinTraces.RunThenReset | src/main/java/org/samo_lego/fabrictailor/mixin/ServerPlayerEntityMixin_TailoredPlayer.java:160-162 | `resetLastSkinChange` after any sequence of calls leaves the timestamp 0 |
| SkinTraces.RunAppend | src/main/java/org/samo_lego/fabrictailor/mixin/ServerPlayerEntityMixin_TailoredPlayer.java:85-198 | running two sequences of calls one after the other is running them joined |
| TailoredPlayerMixin.TailoredPlayer.constructor | src/main/java/org/samo_lego/fabrictailor/mixin/ServerPlayerEntityMixin_TailoredPlayer.java:34-37 | a new entity has both caches null, timestamp 0, no reloads and the profile's properties |
| TailoredPlayerMixin.TailoredPlayer.ReloadSkin | src/main/java/org/samo_lego/fabrictailor/mixin/ServerPlayerEntityMixin_TailoredPlayer.java:50-77 | one call is one reload event |
| TailoredPlayerMixin.TailoredPlayer.SetSkinProperty | src/main/java/org/samo_lego/fabrictailor/mixin/ServerPlayerEntityMixin_TailoredPlayer.java:85-111 | the object's new state is `SkinStore.SetSkinProperty` of the old one: one textures entry, caches from the property, timestamp `now`, one reload iff `reload` |
| TailoredPlayerMixin.TailoredPlayer.SetSkin | src/main/java/org/samo_lego/fabrictailor/mixin/ServerPlayerEntityMixin_TailoredPlayer.java:114-116 | the new state is `SkinStore.SetSkin` of the old one |
| TailoredPlayerMixin.TailoredPlayer.GetSkinValue | src/main/java/org/samo_lego/fabrictailor/mixin/ServerPlayerEntityMixin_TailoredPlayer.java:119-129 | returns the cache if set, else fills it from the first textures entry; the new state and result are `SkinStore.GetSkinValue` of the old state |
| TailoredPlayerMixin.TailoredPlayer.GetSkinSignature | src/main/java/org/samo_lego/fabrictailor/mixin/ServerPlayerEntityMixin_TailoredPlayer.java:132-142 | the same for the signature, as `SkinStore.GetSkinSignature` |
| TailoredPlayerMixin.TailoredPlayer.GetLastSkinChange | src/main/java/org/samo_lego/fabrictailor/mixin/ServerPlayerEntityMixin_TailoredPlayer.java:145-147 | returns the timestamp and changes nothing |
| TailoredPlayerMixin.TailoredPlayer.ClearSkin | src/main/java/org/samo_lego/fabrictailor/mixin/ServerPlayerEntityMixin_TailoredPlayer.java:150-157 | empties the textures slot, reloads once, leaves caches and timestamp, as `SkinStore.ClearSkin` |
| TailoredPlayerMixin.TailoredPlayer.ResetLastSkinChange | src/main/java/org/samo_lego/fabrictailor/mixin/ServerPlayerEntityMixin_TailoredPlayer.java:160-162 | sets the timestamp to 0 and changes nothing else |
| TailoredPlayerMixin.TailoredPlayer.DisableCapeIfNeeded | src/main/java/org/samo_lego/fabrictailor/mixin/ServerPlayerEntityMixin_TailoredPlayer.java:165-173 | with capes allowed the model-parts byte is not written; otherwise it becomes `CapeMask` of the client's value |
| TailoredPlayerMixin.TailoredPlayer.WriteCustomDataToNbt | src/main/java/org/samo_lego/fabrictailor/mixin/ServerPlayerEntityMixin_TailoredPlayer.java:176-185 | the object's new state and the tag's new entries are `SkinStore.WriteSkinData` of the old ones |
| TailoredPlayerMixin.TailoredPlayer.ReadCustomDataFromNbt | src/main/java/org/samo_lego/fabrictailor/mixin/ServerPlayerEntityMixin_TailoredPlayer.java:187-198 | the new state is `SkinStore.ReadSkinData` of the old state and the tag; no reload |

`TailoredPlayerMixin.SetSaveLoadScenario` is a client of the class. It sets a skin with a reload, saves it, loads it into a new entity, and clears it. Every step is proved from the method contracts alone.

## Left out

- `reloadSkin`'s body (lines 50-77) is left out. Its tab-list packets, tracker re-pairing, respawn, teleport and resends of experience, health and effects are calls into the game server's networking. The model counts each call as one reload event, including the early return when the server is null.
- `System.currentTimeMillis()` is replaced by a `now` parameter. The Java `long` is an unbounded `int`; no arithmetic is done on it.
- Exceptions thrown by foreign code are not modelled. This covers `InsecureTextureException` and `Error` in `setSkin`, a runtime exception escaping `reloadSkin`, and a throwing `removeAll`. `removeAll` and `put` on the profile's map never throw, and `reloadSkin` is taken to return normally. A `NoSuchElementException` in the getters, raised by an empty textures slot, is modelled by its outcome: the cache stays null.
- Signature validation of textures is done by authlib, which is not part of this model.
- `config.allowCapes` is an input boolean of `DisableCapeIfNeeded`. The entity-data setter is modelled only by the byte it stores, in the field `modelParts`.
- Only `Property` itself models a null signature. A null `value`, or a null argument to the two-string `setSkin`, is not modelled.
- Save-data tags other than strings and compounds are one opaque kind, `OtherTag`. Only the entries the hooks read or write matter.
- The class holds the contents of the profile's property map as its own `properties` field. In the source the map object is shared with the `GameProfile`, and code holding the profile can write it between calls. The class does not model that aliasing. Outside writes between calls are modelled only in the trace model, as `ProfileWriteOp`. `RunKeepsOtherProperties` covers runs without outside writes, and `RunTexturesAtMostOne` covers runs whose outside writes leave at most one textures entry.
- Threading is left out. The model assumes that no two calls on one player overlap.
