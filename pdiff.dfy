/** The mod-compatibility step of registration (server/gameserver.js:60-79):
    every mod in the mod-info payload whose `pdiff` is truthy has that raw
    text fingerprinted with sha1 and replaced by its parsed form, which
    carries the fingerprint as `hash`, or by null when anything in that
    step throws. The hash function and the definition-diff parser are
    collaborators given as parameters.
 */
module Pdiff {
  import opened Js

  /** The try/catch block for one truthy `pdiff`. Hashing a value that is
      not a string throws (the digest accepts only text and buffers), and
      so does the parser on text it rejects (None); both end in null, and
      the hash already computed is dropped with the parse result. */
  function ProcessPdiff(raw: Value, sha1: string -> string,
                        parse: string -> Option<map<string, Value>>): (r: Value)
    requires Truthy(raw)
    ensures r == Null <==> !raw.Str? || parse(raw.s).None?
    ensures r != Null ==> raw.Str? && r.Obj? && "hash" in r.props && r.props["hash"] == Str(sha1(raw.s))
    ensures r != Null ==> forall k | k in parse(raw.s).value && k != "hash" ::
              k in r.props && r.props[k] == parse(raw.s).value[k]
    ensures r != Null ==> r.props.Keys == parse(raw.s).value.Keys + {"hash"}
  {
    match raw
    case Str(text) =>
      var hash := sha1(text);
      (match parse(text)
       case None => Null
       case Some(diff) => Obj(diff["hash" := Str(hash)]))
    case _ => Null
  }

  /** A mod whose `pdiff` is truthy; only objects have one. */
  predicate HasPdiff(m: Value) {
    m.Obj? && "pdiff" in m.props && Truthy(m.props["pdiff"])
  }

  /** One pass of the loop body: None when reading `mod.pdiff` throws
      (the mod is null or undefined), the mod unchanged when its `pdiff`
      is falsy, and otherwise the mod with `pdiff` processed. */
  function ProcessMod(m: Value, sha1: string -> string,
                      parse: string -> Option<map<string, Value>>): (r: Option<Value>)
    ensures r.None? <==> Nullish(m)
    ensures r.Some? && !HasPdiff(m) ==> r.value == m
    ensures HasPdiff(m) ==> r.Some? && r.value.Obj? && r.value.props.Keys == m.props.Keys
    ensures HasPdiff(m) ==> forall k | k in m.props && k != "pdiff" :: r.value.props[k] == m.props[k]
    ensures HasPdiff(m) ==> r.value.props["pdiff"] == ProcessPdiff(m.props["pdiff"], sha1, parse)
  {
    match GetProperty(m, "pdiff")
    case None => None
    case Some(pdiff) =>
      if Truthy(pdiff) then Some(Obj(m.props["pdiff" := ProcessPdiff(pdiff, sha1, parse)]))
      else Some(m)
  }

  /** The loop over an array of mods, as a value: None when some element
      is null or undefined, otherwise every mod processed in place. */
  function ProcessModList(mods: seq<Value>, sha1: string -> string,
                          parse: string -> Option<map<string, Value>>): (r: Option<seq<Value>>)
    ensures r.Some? <==> forall i | 0 <= i < |mods| :: !Nullish(mods[i])
    ensures r.Some? ==> |r.value| == |mods|
    ensures r.Some? ==> forall i | 0 <= i < |mods| :: ProcessMod(mods[i], sha1, parse) == Some(r.value[i])
  {
    if mods == [] then Some([])
    else
      match ProcessMod(mods[0], sha1, parse)
      case None => None
      case Some(first) =>
        match ProcessModList(mods[1..], sha1, parse)
        case None => None
        case Some(others) => Some([first] + others)
  }

  /** Lines 61-79 as a value: None when the handler throws (a null or
      undefined mod, or a truthy `Mods` that cannot be iterated), otherwise
      the mod-info value the record will hold. */
  function ProcessModInfo(modInfo: Value, sha1: string -> string,
                          parse: string -> Option<map<string, Value>>): (r: Option<Value>)
    ensures !Truthy(modInfo) ==> r == Some(modInfo)
    ensures r.None? <==>
      (&& modInfo.Obj? && "Mods" in modInfo.props && Truthy(modInfo.props["Mods"])
       && !modInfo.props["Mods"].Str?
       && (modInfo.props["Mods"].Arr? ==>
             exists i | 0 <= i < |modInfo.props["Mods"].items| :: Nullish(modInfo.props["Mods"].items[i])))
    ensures r.Some? && modInfo.Obj? ==> r.value.Obj? && r.value.props.Keys == modInfo.props.Keys
    ensures r.Some? && modInfo.Obj? ==> forall k | k in modInfo.props && k != "Mods" ::
              r.value.props[k] == modInfo.props[k]
    ensures r.Some? && !modInfo.Obj? ==> r.value == modInfo
    ensures r.Some? && modInfo.Obj? && "Mods" in modInfo.props && modInfo.props["Mods"].Arr? ==>
      r.value.props["Mods"] == Arr(ProcessModList(modInfo.props["Mods"].items, sha1, parse).value)
    ensures r.Some? && modInfo.Obj? && "Mods" in modInfo.props && !modInfo.props["Mods"].Arr? ==> r.value == modInfo
  {
    if !Truthy(modInfo) then Some(modInfo)
    else
      var mods := GetProperty(modInfo, "Mods").value;
      if !Truthy(mods) then Some(modInfo)
      else
        match mods
        case Arr(items) =>
          (match ProcessModList(items, sha1, parse)
           case None => None
           case Some(processed) => Some(Obj(modInfo.props["Mods" := Arr(processed)])))
        // iterating a string yields one-character strings, which have no `pdiff`
        case Str(_) => Some(modInfo)
        // `for ... of` over a number, `true` or a plain object throws
        case _ => None
  }

  /** What a registration stores for the i-th mod of an array `Mods`: a mod
      without a truthy `pdiff` as it came, and any other either with `pdiff`
      null or with the parsed diff whose `hash` is the sha1 of the original
      raw text. */
  lemma {:induction false} StoredModIsFingerprinted(modInfo: Value, sha1: string -> string,
                                                    parse: string -> Option<map<string, Value>>, i: nat)
    requires modInfo.Obj? && "Mods" in modInfo.props && modInfo.props["Mods"].Arr?
    requires i < |modInfo.props["Mods"].items|
    requires ProcessModInfo(modInfo, sha1, parse).Some?
    ensures var stored := ProcessModInfo(modInfo, sha1, parse).value.props["Mods"];
      var m := modInfo.props["Mods"].items[i];
      && stored.Arr? && |stored.items| == |modInfo.props["Mods"].items|
      && (!HasPdiff(m) ==> stored.items[i] == m)
      && (HasPdiff(m) ==>
            (&& stored.items[i].Obj? && "pdiff" in stored.items[i].props
             && var p := stored.items[i].props["pdiff"];
                p == Null || (m.props["pdiff"].Str? && p.Obj? && "hash" in p.props
                              && p.props["hash"] == Str(sha1(m.props["pdiff"].s)))))
  {
    var items := modInfo.props["Mods"].items;
    var processed := ProcessModList(items, sha1, parse).value;
    assert ProcessModInfo(modInfo, sha1, parse).value.props["Mods"] == Arr(processed);
    assert ProcessMod(items[i], sha1, parse) == Some(processed[i]);
  }

  /** The `for ... of` loop over an array of mods, overwriting each mod's
      `pdiff` in place. It returns false where the loop throws; the
      registration is then abandoned, so what the earlier passes wrote is
      never seen. */
  method ProcessModsInPlace(mods: array<Value>, sha1: string -> string,
                            parse: string -> Option<map<string, Value>>) returns (ok: bool)
    modifies mods
    ensures ok <==> ProcessModList(old(mods[..]), sha1, parse).Some?
    ensures ok ==> mods[..] == ProcessModList(old(mods[..]), sha1, parse).value
  {
    var i := 0;
    while i < mods.Length
      invariant 0 <= i <= mods.Length
      invariant forall j | 0 <= j < i :: ProcessMod(old(mods[j]), sha1, parse) == Some(mods[j])
      invariant forall j | i <= j < mods.Length :: mods[j] == old(mods[j])
    {
      var m := mods[i];
      var pdiff := GetProperty(m, "pdiff");
      if pdiff.None? {
        return false;
      }
      if Truthy(pdiff.value) {
        mods[i] := Obj(m.props["pdiff" := ProcessPdiff(pdiff.value, sha1, parse)]);
      }
      i := i + 1;
    }
    ok := true;
  }
}
