/** Layered configuration: trees merged key by key, except that lists of policy files add up. */
module ConfigMerge {
  import opened Text

  datatype Value = Scalar(text: string) | List(items: seq<Value>) | Object(fields: map<string, Value>)

  /** The dotted path of a key; the empty path has no dot after it. */
  function Child(path: string, key: string): string {
    if path == "" then key else path + "." + key
  }

  predicate AddsUp(child: string, existing: Value, v: Value) {
    child == "policy.files" && existing.List? && v.List?
  }

  function Merge(base: Value, overlay: Value, path: string): Value
    decreases overlay
  {
    if base.Object? && overlay.Object? then
      Object(map k | k in base.fields.Keys + overlay.fields.Keys ::
               if k !in overlay.fields then base.fields[k]
               else if k !in base.fields then overlay.fields[k]
               else if AddsUp(Child(path, k), base.fields[k], overlay.fields[k]) then
                 List(base.fields[k].items + overlay.fields[k].items)
               else Merge(base.fields[k], overlay.fields[k], Child(path, k)))
    else overlay
  }

  /** The loop over the overlay's keys; their order does not matter. */
  method DeepMerge(base: Value, overlay: Value, path: string) returns (merged: Value)
    ensures merged == Merge(base, overlay, path)
    decreases overlay
  {
    if !base.Object? || !overlay.Object? {
      return overlay;
    }
    var fields: map<string, Value> := base.fields;
    var keys := overlay.fields.Keys;
    ghost var whole := Merge(base, overlay, path).fields;
    while keys != {}
      invariant keys <= overlay.fields.Keys
      invariant fields.Keys == base.fields.Keys + (overlay.fields.Keys - keys)
      invariant forall k :: k in fields ==> fields[k] == if k in keys then base.fields[k] else whole[k]
      decreases keys
    {
      var k :| k in keys;
      var v := overlay.fields[k];
      var child := Child(path, k);
      if k !in fields {
        fields := fields[k := v];
      } else if AddsUp(child, fields[k], v) {
        fields := fields[k := List(fields[k].items + v.items)];
      } else {
        var inner := DeepMerge(fields[k], v, child);
        fields := fields[k := inner];
      }
      keys := keys - {k};
    }
    assert fields == whole;
    return Object(fields);
  }

  // ------------------------------------------------------------------- look-ups

  /** The value at a path of keys. */
  function At(v: Value, keys: seq<string>): Option<Value>
    decreases |keys|
  {
    if keys == [] then Some(v)
    else if v.Object? && keys[0] in v.fields then At(v.fields[keys[0]], keys[1..])
    else None
  }

  function Dotted(path: string, keys: seq<string>): string
    decreases |keys|
  {
    if keys == [] then path else Dotted(Child(path, keys[0]), keys[1..])
  }

  /** The overlay sets a leaf at these keys: anything but a further mapping. */
  predicate SetsLeaf(overlay: Value, keys: seq<string>) {
    At(overlay, keys).Some? && !At(overlay, keys).value.Object?
  }

  /** The overlay is a mapping all along these keys, and then does not mention the next. */
  predicate Untouched(overlay: Value, keys: seq<string>)
    decreases |keys|
  {
    keys != [] && overlay.Object? && (keys[0] in overlay.fields ==> Untouched(overlay.fields[keys[0]], keys[1..]))
  }

  predicate BothLists(base: Value, overlay: Value, keys: seq<string>) {
    && At(base, keys).Some? && At(base, keys).value.List?
    && At(overlay, keys).Some? && At(overlay, keys).value.List?
  }

  /** A leaf the overlay sets has the overlay's value, or adds to the base's list under exactly one path. */
  lemma {:induction false} LeafIsSet(base: Value, overlay: Value, path: string, keys: seq<string>)
    requires SetsLeaf(overlay, keys)
    ensures At(Merge(base, overlay, path), keys)
         == if keys != [] && Dotted(path, keys) == "policy.files" && BothLists(base, overlay, keys)
            then Some(List(At(base, keys).value.items + At(overlay, keys).value.items))
            else At(overlay, keys)
    decreases |keys|
  {
    if keys != [] && base.Object? && keys[0] in base.fields {
      var k, rest := keys[0], keys[1..];
      assert Dotted(path, keys) == Dotted(Child(path, k), rest);
      assert rest == [] ==> Dotted(path, keys) == Child(path, k);
      assert At(base, keys) == At(base.fields[k], rest) && At(overlay, keys) == At(overlay.fields[k], rest);
      assert At(Merge(base, overlay, path), keys) == At(Merge(base, overlay, path).fields[k], rest);
      if !AddsUp(Child(path, k), base.fields[k], overlay.fields[k]) {
        LeafIsSet(base.fields[k], overlay.fields[k], Child(path, k), keys[1..]);
      }
    }
  }

  /** What the overlay does not touch survives, and nothing appears there. */
  lemma {:induction false} UntouchedSurvives(base: Value, overlay: Value, path: string, keys: seq<string>)
    requires Untouched(overlay, keys)
    ensures At(base, keys).Some? ==> At(Merge(base, overlay, path), keys) == At(base, keys)
    ensures At(base, keys).None? ==> At(Merge(base, overlay, path), keys).None?
    decreases |keys|
  {
    var k := keys[0];
    if k in overlay.fields {
      NothingUntouched(overlay.fields[k], keys[1..]);
      if base.Object? && k in base.fields && !AddsUp(Child(path, k), base.fields[k], overlay.fields[k]) {
        UntouchedSurvives(base.fields[k], overlay.fields[k], Child(path, k), keys[1..]);
      }
    }
  }

  lemma {:induction false} NothingUntouched(overlay: Value, keys: seq<string>)
    requires Untouched(overlay, keys)
    ensures At(overlay, keys).None?
    decreases |keys|
  {
    if keys[0] in overlay.fields {
      NothingUntouched(overlay.fields[keys[0]], keys[1..]);
    }
  }

  // --------------------------------------------------------------------- layers

  /** Earlier layers first; the merge starts from an empty mapping. */
  function Fold(layers: seq<Value>): Value {
    if layers == [] then Object(map[]) else Merge(Fold(layers[..|layers| - 1]), layers[|layers| - 1], "")
  }

  method MergeLayers(layers: seq<Value>) returns (merged: Value)
    ensures merged == Fold(layers)
  {
    merged := Object(map[]);
    for i := 0 to |layers|
      invariant merged == Fold(layers[..i])
    {
      assert layers[..i + 1][..i] == layers[..i];
      merged := DeepMerge(merged, layers[i], "");
    }
    assert layers[..|layers|] == layers;
  }

  const POLICY_FILES: seq<string> := ["policy", "files"]

  /** A mapping whose `policy`, if any, is a mapping, and whose `policy.files`, if any, is a list. */
  predicate WellShaped(layer: Value) {
    && layer.Object?
    && ("policy" in layer.fields ==>
          && layer.fields["policy"].Object?
          && ("files" in layer.fields["policy"].fields ==> layer.fields["policy"].fields["files"].List?))
  }

  function FilesOf(layer: Value): seq<Value> {
    var v := At(layer, POLICY_FILES);
    if v.Some? && v.value.List? then v.value.items else []
  }

  function AllFiles(layers: seq<Value>): seq<Value> {
    if layers == [] then [] else AllFiles(layers[..|layers| - 1]) + FilesOf(layers[|layers| - 1])
  }

  lemma FilesAt(layer: Value)
    requires WellShaped(layer)
    ensures At(layer, POLICY_FILES)
         == if "policy" in layer.fields && "files" in layer.fields["policy"].fields
            then Some(layer.fields["policy"].fields["files"]) else None
  {
    assert POLICY_FILES[1..] == ["files"];
    assert POLICY_FILES[1..][1..] == [];
  }

  lemma PolicyFilesPath()
    ensures Dotted("", POLICY_FILES) == "policy.files" && Child("", "policy") == "policy"
            && Child("policy", "files") == "policy.files"
  {
    assert "policy" + "." + "files" == "policy.files";
    assert POLICY_FILES[1..] == ["files"];
    assert POLICY_FILES[1..][1..] == [];
  }

  lemma MergeKeepsShape(base: Value, overlay: Value)
    requires WellShaped(base) && WellShaped(overlay)
    ensures WellShaped(Merge(base, overlay, ""))
    ensures FilesOf(Merge(base, overlay, "")) == FilesOf(base) + FilesOf(overlay)
  {
    PolicyFilesPath();
    FilesAt(base);
    FilesAt(overlay);
    var merged := Merge(base, overlay, "");
    assert WellShaped(merged);
    FilesAt(merged);
  }

  /** The policy files of all layers add up, in the order of the layers. */
  lemma {:induction false} PolicyFilesAddUp(layers: seq<Value>)
    requires forall i :: 0 <= i < |layers| ==> WellShaped(layers[i])
    ensures WellShaped(Fold(layers))
    ensures FilesOf(Fold(layers)) == AllFiles(layers)
    decreases |layers|
  {
    if layers == [] {
      FilesAt(Fold(layers));
    } else {
      var last := |layers| - 1;
      PolicyFilesAddUp(layers[..last]);
      MergeKeepsShape(Fold(layers[..last]), layers[last]);
    }
  }

  /** Any other leaf has the value of the last layer that sets it, whatever the earlier layers say. */
  lemma {:induction false} LastLayerWins(layers: seq<Value>, i: nat, keys: seq<string>)
    requires i < |layers| && keys != [] && SetsLeaf(layers[i], keys)
    requires Dotted("", keys) != "policy.files"
    requires forall j :: i < j < |layers| ==> Untouched(layers[j], keys)
    ensures At(Fold(layers), keys) == At(layers[i], keys)
    decreases |layers|
  {
    var last := |layers| - 1;
    var before := layers[..last];
    if i == last {
      LeafIsSet(Fold(before), layers[last], "", keys);
    } else {
      LastLayerWins(before, i, keys);
      UntouchedSurvives(Fold(before), layers[last], "", keys);
    }
  }

  // ------------------------------------------------------------- replace_global

  /** Empties the list of policy files of a layer that has one. */
  function WithoutFiles(layer: Value): Value {
    if At(layer, POLICY_FILES).Some? && layer.Object? && "policy" in layer.fields
       && layer.fields["policy"].Object? && "files" in layer.fields["policy"].fields
    then
      Object(layer.fields["policy" := Object(layer.fields["policy"].fields["files" := List([])])])
    else layer
  }

  function AllWithoutFiles(layers: seq<Value>): (r: seq<Value>)
    ensures |r| == |layers|
    ensures forall i :: 0 <= i < |layers| ==> r[i] == WithoutFiles(layers[i])
  {
    seq(|layers|, i requires 0 <= i < |layers| => WithoutFiles(layers[i]))
  }

  lemma NoFilesLeft(layer: Value)
    requires WellShaped(layer)
    ensures WellShaped(WithoutFiles(layer)) && FilesOf(WithoutFiles(layer)) == []
  {
    FilesAt(layer);
    FilesAt(WithoutFiles(layer));
  }

  lemma {:induction false} NoFilesInAll(layers: seq<Value>)
    requires forall i :: 0 <= i < |layers| ==> FilesOf(layers[i]) == []
    ensures AllFiles(layers) == []
    decreases |layers|
  {
    if layers != [] {
      NoFilesInAll(layers[..|layers| - 1]);
    }
  }

  lemma OneMoreLayer(layers: seq<Value>, layer: Value)
    ensures AllFiles(layers + [layer]) == AllFiles(layers) + FilesOf(layer)
  {
    hide FilesOf;
    assert (layers + [layer])[..|layers|] == layers;
  }

  /** A project that replaces the global policy is left with its own files and those given on the command line. */
  lemma ReplacedFiles(earlier: seq<Value>, project: Value, cli: Value)
    requires forall i :: 0 <= i < |earlier| ==> WellShaped(earlier[i])
    requires WellShaped(project) && WellShaped(cli)
    ensures FilesOf(Fold(AllWithoutFiles(earlier) + [project] + [cli])) == FilesOf(project) + FilesOf(cli)
  {
    hide Fold, FilesOf, WellShaped, WithoutFiles, AllFiles, At;
    var cleared := AllWithoutFiles(earlier);
    forall i | 0 <= i < |earlier| ensures WellShaped(cleared[i]) && FilesOf(cleared[i]) == [] {
      NoFilesLeft(earlier[i]);
    }
    NoFilesInAll(cleared);
    OneMoreLayer(cleared, project);
    OneMoreLayer(cleared + [project], cli);
    PolicyFilesAddUp(cleared + [project] + [cli]);
  }
}
