/**
 * Sequences of calls on one player's skin store, and what holds after any
 * of them: how many reloads were sent, that the textures slot never holds
 * more than one entry, that no other profile property is touched, when the
 * two caches stay paired, and that the timestamp never goes back while the
 * clock does not.
 */
module SkinTraces {
  import opened Wrappers
  import opened SkinStore

  /** One call on the store; `now` is the clock reading at the call. */
  datatype Op =
    | SetSkinPropertyOp(p: Property, reload: bool, now: int)
    | SetSkinOp(value: string, signature: string, reload: bool, now: int)
    | ClearSkinOp
    | GetSkinValueOp
    | GetSkinSignatureOp
    | ResetLastSkinChangeOp
    | SaveOp(tag: map<string, Tag>)
    | LoadOp(tag: map<string, Tag>, now: int)
      /** Code outside the mixin writes the shared profile's property map between calls. */
    | ProfileWriteOp(properties: PropertyMap)

  function Step(st: SkinState, op: Op): SkinState
  {
    match op
    case SetSkinPropertyOp(p, reload, now) => SetSkinProperty(st, p, reload, now)
    case SetSkinOp(v, s, reload, now) => SetSkin(st, v, s, reload, now)
    case ClearSkinOp => ClearSkin(st)
    case GetSkinValueOp => GetSkinValue(st).0
    case GetSkinSignatureOp => GetSkinSignature(st).0
    case ResetLastSkinChangeOp => ResetLastSkinChange(st)
    case SaveOp(tag) => WriteSkinData(st, tag).0
    case LoadOp(tag, now) => ReadSkinData(st, tag, now)
    case ProfileWriteOp(properties) => st.(properties := properties)
  }

  /** The store after the calls `ops`, in order. */
  function Run(st: SkinState, ops: seq<Op>): SkinState
    decreases |ops|
  {
    if ops == [] then st else Run(Step(st, ops[0]), ops[1..])
  }

  /** The reloads a call sends: one for a reloading `setSkin` (either overload) and for every `clearSkin`. */
  function ReloadsOf(op: Op): nat
  {
    match op
    case SetSkinPropertyOp(_, reload, _) => if reload then 1 else 0
    case SetSkinOp(_, _, reload, _) => if reload then 1 else 0
    case ClearSkinOp => 1
    case _ => 0
  }

  function Reloads(ops: seq<Op>): nat
    decreases |ops|
  {
    if ops == [] then 0 else ReloadsOf(ops[0]) + Reloads(ops[1..])
  }

  /** Exactly the reloads the calls ask for are sent; loading never reloads. */
  lemma {:induction false} RunReloads(st: SkinState, ops: seq<Op>)
    ensures Run(st, ops).reloads == st.reloads + Reloads(ops)
    decreases |ops|
  {
    if ops != [] {
      RunReloads(Step(st, ops[0]), ops[1..]);
    }
  }

  /**
   * A store whose textures slot holds at most one entry keeps it so, as long
   * as outside writes of the profile leave at most one there too.
   */
  lemma {:induction false} RunTexturesAtMostOne(st: SkinState, ops: seq<Op>)
    requires |Textures(st)| <= 1
    requires forall i :: 0 <= i < |ops| && ops[i].ProfileWriteOp? ==> |Get(ops[i].properties, TexturesKey)| <= 1
    ensures |Textures(Run(st, ops))| <= 1
    decreases |ops|
  {
    if ops != [] {
      assert ops[0].ProfileWriteOp? ==> |Get(ops[0].properties, TexturesKey)| <= 1;
      RunTexturesAtMostOne(Step(st, ops[0]), ops[1..]);
    }
  }

  /**
   * None of the mixin's own calls touches a profile property other than
   * `"textures"`: over a run without outside writes, the other keys stay.
   */
  lemma {:induction false} RunKeepsOtherProperties(st: SkinState, ops: seq<Op>)
    requires forall i :: 0 <= i < |ops| ==> !ops[i].ProfileWriteOp?
    ensures Run(st, ops).properties - {TexturesKey} == st.properties - {TexturesKey}
    decreases |ops|
  {
    if ops != [] {
      assert !ops[0].ProfileWriteOp?;
      RunKeepsOtherProperties(Step(st, ops[0]), ops[1..]);
    }
  }

  /**
   * The calls that keep the caches paired: the two-string `setSkin`,
   * `setSkin(Property, …)` with a signed property, `clearSkin`,
   * `resetLastSkinChange`, and outside writes of the profile.
   */
  predicate KeepsPairing(op: Op)
  {
    || op.SetSkinOp?
    || (op.SetSkinPropertyOp? && op.p.signature.Some?)
    || op.ClearSkinOp?
    || op.ResetLastSkinChangeOp?
    || op.ProfileWriteOp?
  }

  /**
   * Over those calls alone the two caches stay paired (the getters, both
   * save hooks and `setSkin` with an unsigned property can break it).
   */
  lemma {:induction false} RunPaired(st: SkinState, ops: seq<Op>)
    requires Paired(st)
    requires forall i :: 0 <= i < |ops| ==> KeepsPairing(ops[i])
    ensures Paired(Run(st, ops))
    decreases |ops|
  {
    if ops != [] {
      assert KeepsPairing(ops[0]);
      RunPaired(Step(st, ops[0]), ops[1..]);
    }
  }

  /** The load hook alone can leave one cache set. */
  lemma LoadCanUnpair()
    ensures var tag := map[SkinDataKey := Compound(map[ValueKey := StringTag("abc")])];
            !Paired(Run(Initial(map[]), [LoadOp(tag, 5)]))
  {
  }

  /** The clock reading a call stamps the timestamp with, if it does. */
  function StampOf(op: Op): Option<int>
  {
    match op
    case SetSkinPropertyOp(_, _, now) => Some(now)
    case SetSkinOp(_, _, _, now) => Some(now)
    case LoadOp(tag, now) =>
      var skinData := GetCompound(tag, SkinDataKey);
      if ValueKey in skinData && SignatureKey in skinData then Some(now) else None
    case _ => None
  }

  /** The clock readings of the stamping calls, from t on, never go back. */
  predicate ClockFrom(t: int, ops: seq<Op>)
    decreases |ops|
  {
    ops == [] ||
    match StampOf(ops[0])
    case None => ClockFrom(t, ops[1..])
    case Some(n) => t <= n && ClockFrom(n, ops[1..])
  }

  /**
   * With a clock that does not go back and no `resetLastSkinChange`, the
   * timestamp never decreases: it ends at least where it started.
   */
  lemma {:induction false} RunTimestampMonotone(st: SkinState, ops: seq<Op>)
    requires ClockFrom(st.lastSkinChangeTime, ops)
    requires forall i :: 0 <= i < |ops| ==> !ops[i].ResetLastSkinChangeOp?
    ensures st.lastSkinChangeTime <= Run(st, ops).lastSkinChangeTime
    decreases |ops|
  {
    if ops != [] {
      var next := Step(st, ops[0]);
      assert !ops[0].ResetLastSkinChangeOp?;
      assert StampOf(ops[0]).Some? ==> next.lastSkinChangeTime == StampOf(ops[0]).value;
      assert StampOf(ops[0]).None? ==> next.lastSkinChangeTime == st.lastSkinChangeTime;
      RunTimestampMonotone(next, ops[1..]);
    }
  }

  /** The timestamp a call leaves: its stamp, 0 for `resetLastSkinChange`, else unchanged. */
  function TimestampOf(op: Op): Option<int>
  {
    if op.ResetLastSkinChangeOp? then Some(0) else StampOf(op)
  }

  /** The timestamp after the calls ops, starting from t: the last one any of them leaves. */
  function LastStamp(t: int, ops: seq<Op>): int
    decreases |ops|
  {
    if ops == [] then t
    else match TimestampOf(ops[0])
      case None => LastStamp(t, ops[1..])
      case Some(n) => LastStamp(n, ops[1..])
  }

  /**
   * After any run the timestamp is the clock reading of the last stamping call
   * (a `setSkin` of either overload or a two-field load), or 0 if a reset
   * came later, or the old timestamp if no call set it.
   */
  lemma {:induction false} RunLastSkinChange(st: SkinState, ops: seq<Op>)
    ensures Run(st, ops).lastSkinChangeTime == LastStamp(st.lastSkinChangeTime, ops)
    decreases |ops|
  {
    if ops != [] {
      var next := Step(st, ops[0]);
      assert TimestampOf(ops[0]).Some? ==> next.lastSkinChangeTime == TimestampOf(ops[0]).value;
      assert TimestampOf(ops[0]).None? ==> next.lastSkinChangeTime == st.lastSkinChangeTime;
      RunLastSkinChange(next, ops[1..]);
    }
  }

  /** An outside write into a profile whose skin is not cached yet is what the getters pick up. */
  lemma GetterReadsOutsideWrite(st: SkinState, p: Property)
    requires st.skinValue.None?
    ensures var r := Run(st, [ProfileWriteOp(st.properties[TexturesKey := [p]]), GetSkinValueOp]);
            r.skinValue == Some(p.value)
  {
    var write := ProfileWriteOp(st.properties[TexturesKey := [p]]);
    var ops := [write, GetSkinValueOp];
    assert ops[1..] == [GetSkinValueOp];
    assert [GetSkinValueOp][1..] == [];
    assert Run(st, ops) == GetSkinValue(Step(st, write)).0;
  }

  /** Once the value is cached, a later outside write of the textures slot is not seen. */
  lemma GetterIgnoresOutsideWrite(st: SkinState, p: Property)
    requires st.skinValue.Some?
    ensures var r := Run(st, [ProfileWriteOp(st.properties[TexturesKey := [p]]), GetSkinValueOp]);
            r.skinValue == st.skinValue
  {
    var write := ProfileWriteOp(st.properties[TexturesKey := [p]]);
    var ops := [write, GetSkinValueOp];
    assert ops[1..] == [GetSkinValueOp];
    assert [GetSkinValueOp][1..] == [];
    assert Run(st, ops) == GetSkinValue(Step(st, write)).0;
  }

  /** `resetLastSkinChange` at the end of any run puts the timestamp back to 0. */
  lemma RunThenReset(st: SkinState, ops: seq<Op>)
    ensures Run(st, ops + [ResetLastSkinChangeOp]).lastSkinChangeTime == 0
  {
    RunAppend(st, ops, [ResetLastSkinChangeOp]);
  }

  /** Running two sequences of calls one after the other is running them joined. */
  lemma {:induction false} RunAppend(st: SkinState, ops: seq<Op>, more: seq<Op>)
    ensures Run(st, ops + more) == Run(Run(st, ops), more)
    decreases |ops|
  {
    if ops == [] {
      assert ops + more == more;
    } else {
      assert (ops + more)[0] == ops[0];
      assert (ops + more)[1..] == ops[1..] + more;
      RunAppend(Step(st, ops[0]), ops[1..], more);
    }
  }
}
