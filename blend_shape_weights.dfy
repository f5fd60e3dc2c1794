/**
 * Setting and reading a facial shape's weight on a character: the shape name
 * is translated between profiles, expanded into its concrete names, and looked
 * up in the mesh of each direct child that has a skinned mesh renderer.
 * Weights are values of a type parameter that are only copied.
 */
module BlendShapeWeights {
  import opened Wrappers
  import opened FacialProfiles
  import opened ShapeExpansion
  import opened FacialMapping

  /**
   * A child's skinned mesh renderer: the shape names of its shared mesh, in
   * index order, and one weight per shape.
   */
  class SkinnedMeshRenderer<W> {
    const sharedMesh: seq<string>
    const weights: array<W>

    constructor (mesh: seq<string>, initial: W)
      ensures sharedMesh == mesh && weights.Length == |mesh| && fresh(weights)
      ensures forall k :: 0 <= k < weights.Length ==> weights[k] == initial
    {
      sharedMesh := mesh;
      weights := new W[|mesh|](_ => initial);
    }
  }

  /** `Mesh.GetBlendShapeIndex`: the index of the first shape called `name`, or -1. */
  function GetBlendShapeIndex(mesh: seq<string>, name: string): (index: int)
    ensures -1 <= index < |mesh|
    ensures index == -1 <==> name !in mesh
    ensures 0 <= index ==> mesh[index] == name && forall j :: 0 <= j < index ==> mesh[j] != name
  {
    if mesh == [] then -1
    else if mesh[0] == name then 0
    else
      var index := GetBlendShapeIndex(mesh[1..], name);
      assert forall j :: 1 <= j < |mesh| ==> mesh[j] == mesh[1..][j - 1];
      if index == -1 then -1 else index + 1
  }

  /** Every renderer present has one weight per shape. */
  ghost predicate ChildrenSized<W>(children: seq<Option<SkinnedMeshRenderer<W>>>) {
    forall j :: 0 <= j < |children| && children[j].Some? ==>
      children[j].value.weights.Length == |children[j].value.sharedMesh|
  }

  /** Every renderer present has one weight per shape, and no two share a weight array. */
  ghost predicate ChildrenValid<W>(children: seq<Option<SkinnedMeshRenderer<W>>>) {
    && ChildrenSized(children)
    && (forall i, j :: 0 <= i < j < |children| && children[i].Some? && children[j].Some? ==>
          children[i].value.weights != children[j].value.weights)
  }

  /** The weight arrays of the renderers present. */
  ghost function WeightArrays<W>(root: Option<seq<Option<SkinnedMeshRenderer<W>>>>): set<array<W>> {
    if root.None? then {}
    else set j | 0 <= j < |root.value| && root.value[j].Some? :: root.value[j].value.weights
  }

  /** Index `k` of a non-empty mesh is where one of `names` is first found. */
  ghost predicate Targets(mesh: seq<string>, names: seq<string>, k: int) {
    |mesh| > 0 && exists n :: n in names && GetBlendShapeIndex(mesh, n) == k
  }

  /** The child has a renderer whose non-empty mesh holds one of `names`. */
  ghost predicate Hit<W>(child: Option<SkinnedMeshRenderer<W>>, names: seq<string>) {
    child.Some? && |child.value.sharedMesh| > 0 && exists n :: n in names && n in child.value.sharedMesh
  }

  /**
   * `SetCharacterBlendShape`. With no root nothing is looked up or written.
   * Otherwise the name is translated (updating the caches as `MappingFrom`
   * says); a non-empty translation is expanded, and every child renderer gets
   * `weight` at exactly the indices where an expanded name is found, all other
   * weights unchanged. The result says whether any weight was written.
   */
  method SetCharacterBlendShape<W>(mapper: FacialProfileMapper, root: Option<seq<Option<SkinnedMeshRenderer<W>>>>,
                                   shapeName: string, from: FacialProfile, to: FacialProfile, weight: W)
    returns (res: bool)
    requires root.Some? ==> ChildrenValid(root.value)
    modifies mapper`cacheStd, mapper`cacheExPlus, mapper`cacheExt, mapper`cacheCC3Pair, mapper`cacheCC4Pair, mapper`cacheDirect
    modifies mapper`multiShapeNames, mapper`tempNames, WeightArrays(root)
    ensures var t := MappingFrom(MapperTables, old(mapper.State()), to, shapeName, from);
      && mapper.State() == (if root.Some? then t.caches else old(mapper.State()))
      && (res <==> root.Some? && t.name != "" &&
                   exists j :: 0 <= j < |root.value| && Hit(root.value[j], MultiShapeNames(t.name)))
      && (root.Some? ==> forall j, k :: 0 <= j < |root.value| && root.value[j].Some? && 0 <= k < root.value[j].value.weights.Length ==>
            root.value[j].value.weights[k] ==
              if t.name != "" && Targets(root.value[j].value.sharedMesh, MultiShapeNames(t.name), k) then weight
              else old(root.value[j].value.weights[k]))
    ensures old(mapper.Valid()) ==> mapper.Valid()
  {
    res := false;
    if root.None? {
      return;
    }
    var children := root.value;
    var profileShapeName := mapper.GetMappingFrom(to, shapeName, from);
    if profileShapeName == "" {
      return;
    }
    res := SetExpandedWeights(mapper, children, profileShapeName, weight);
  }

  /**
   * The part of `SetCharacterBlendShape` after the translation: the name is
   * expanded through the mapper's buffers and every child renderer gets
   * `weight` wherever an expanded name is found. The caches do not change.
   */
  method SetExpandedWeights<W>(mapper: FacialProfileMapper, children: seq<Option<SkinnedMeshRenderer<W>>>,
                               profileShapeName: string, weight: W)
    returns (res: bool)
    requires ChildrenValid(children)
    modifies mapper`multiShapeNames, mapper`tempNames, WeightArrays(Some(children))
    ensures mapper.State() == old(mapper.State())
    ensures mapper.Valid() == old(mapper.Valid())
    ensures res <==> exists j :: 0 <= j < |children| && Hit(children[j], MultiShapeNames(profileShapeName))
    ensures forall j, k :: 0 <= j < |children| && children[j].Some? && 0 <= k < children[j].value.weights.Length ==>
      children[j].value.weights[k] ==
        if Targets(children[j].value.sharedMesh, MultiShapeNames(profileShapeName), k) then weight
        else old(children[j].value.weights[k])
  {
    var names := mapper.GetMultiShapeNames(profileShapeName);
    res := SetChildrenWeights(children, names, weight);
  }

  /**
   * The loop over the children in `SetCharacterBlendShape`: every renderer
   * present with a non-empty mesh gets `weight` at the indices of `names`,
   * all other weights kept; true when some child was hit.
   */
  method SetChildrenWeights<W>(children: seq<Option<SkinnedMeshRenderer<W>>>, names: seq<string>, weight: W)
    returns (res: bool)
    requires ChildrenValid(children)
    modifies WeightArrays(Some(children))
    ensures res <==> exists j :: 0 <= j < |children| && Hit(children[j], names)
    ensures forall j, k :: 0 <= j < |children| && children[j].Some? && 0 <= k < children[j].value.weights.Length ==>
      children[j].value.weights[k] ==
        if Targets(children[j].value.sharedMesh, names, k) then weight else old(children[j].value.weights[k])
  {
    res := false;
    var i := 0;
    while i < |children|
      invariant 0 <= i <= |children|
      invariant res <==> exists j :: 0 <= j < i && Hit(children[j], names)
      invariant forall j, k :: 0 <= j < |children| && children[j].Some? && 0 <= k < children[j].value.weights.Length ==>
        children[j].value.weights[k] ==
          if j < i && Targets(children[j].value.sharedMesh, names, k) then weight
          else old(children[j].value.weights[k])
    {
      if children[i].Some? {
        var renderer := children[i].value;
        var mesh := renderer.sharedMesh;
        if |mesh| > 0 {
          var hit := SetMeshWeights(renderer, names, weight);
          res := res || hit;
        }
      }
      i := i + 1;
    }
  }

  /**
   * One child's part of `SetCharacterBlendShape`: `weight` at the index of
   * every name of `names` the mesh holds, every other weight kept; true when
   * some name was found.
   */
  method SetMeshWeights<W>(renderer: SkinnedMeshRenderer<W>, names: seq<string>, weight: W) returns (hit: bool)
    requires renderer.weights.Length == |renderer.sharedMesh| > 0
    modifies renderer.weights
    ensures hit <==> exists n :: n in names && n in renderer.sharedMesh
    ensures forall k :: 0 <= k < renderer.weights.Length ==>
      renderer.weights[k] == if Targets(renderer.sharedMesh, names, k) then weight else old(renderer.weights[k])
  {
    var mesh := renderer.sharedMesh;
    hit := false;
    var n := 0;
    while n < |names|
      invariant 0 <= n <= |names|
      invariant hit <==> exists m :: 0 <= m < n && names[m] in mesh
      invariant forall k :: 0 <= k < renderer.weights.Length ==>
        renderer.weights[k] ==
          if exists m :: 0 <= m < n && GetBlendShapeIndex(mesh, names[m]) == k then weight
          else old(renderer.weights[k])
    {
      var index := GetBlendShapeIndex(mesh, names[n]);
      if index >= 0 {
        renderer.weights[index] := weight;
        hit := true;
      }
      n := n + 1;
    }
  }

  /** The child has a renderer whose non-empty mesh has `name` at an index above 0. */
  predicate Readable<W>(child: Option<SkinnedMeshRenderer<W>>, name: string) {
    child.Some? && |child.value.sharedMesh| > 0 && GetBlendShapeIndex(child.value.sharedMesh, name) > 0
  }

  /** How many children are readable for `name`. */
  function ReadCount<W>(children: seq<Option<SkinnedMeshRenderer<W>>>, name: string): (count: nat)
    ensures count <= |children|
  {
    if children == [] then 0
    else
      var last := |children| - 1;
      assert forall j :: 0 <= j < last ==> children[..last][j] == children[j];
      ReadCount(children[..last], name) + (if Readable(children[last], name) then 1 else 0)
  }

  /**
   * `weight` is what the read loop leaves: `zero` when no child is readable,
   * otherwise the weight at the name's index in the last readable child.
   */
  ghost predicate LastRead<W>(children: seq<Option<SkinnedMeshRenderer<W>>>, name: string, zero: W, weight: W)
    reads WeightArrays(Some(children))
  {
    if forall j :: 0 <= j < |children| ==> !Readable(children[j], name) then weight == zero
    else exists j :: 0 <= j < |children| && Readable(children[j], name) &&
                     (forall l :: j < l < |children| ==> !Readable(children[l], name)) &&
                     ReadsAs(children[j].value, name, weight)
  }

  /** The renderer holds `weight` at the index of the first shape called `name`. */
  ghost predicate ReadsAs<W>(renderer: SkinnedMeshRenderer<W>, name: string, weight: W)
    reads renderer.weights
  {
    var k := GetBlendShapeIndex(renderer.sharedMesh, name);
    0 <= k < renderer.weights.Length && renderer.weights[k] == weight
  }

  /**
   * `GetCharacterBlendShapeWeight`, without its final division: the number of
   * children with the translated name at an index above 0, and the weight
   * read from the last of them (`zero` if there is none). With no root or an
   * empty translation nothing is read. No weight changes.
   */
  method GetCharacterBlendShapeWeight<W>(mapper: FacialProfileMapper, root: Option<seq<Option<SkinnedMeshRenderer<W>>>>,
                                         shapeName: string, from: FacialProfile, to: FacialProfile, zero: W)
    returns (found: bool, weight: W, numWeights: nat)
    requires root.Some? ==> ChildrenValid(root.value)
    modifies mapper`cacheStd, mapper`cacheExPlus, mapper`cacheExt, mapper`cacheCC3Pair, mapper`cacheCC4Pair, mapper`cacheDirect
    ensures var t := MappingFrom(MapperTables, old(mapper.State()), to, shapeName, from);
      && mapper.State() == (if root.Some? then t.caches else old(mapper.State()))
      && (root.None? || t.name == "" ==> numWeights == 0)
      && (root.Some? && t.name != "" ==>
            numWeights == ReadCount(root.value, t.name) && LastRead(root.value, t.name, zero, weight))
    ensures found <==> numWeights > 0
    ensures numWeights == 0 ==> weight == zero
    ensures old(mapper.Valid()) ==> mapper.Valid()
  {
    weight := zero;
    numWeights := 0;
    if root.Some? {
      var children := root.value;
      var profileShapeName := mapper.GetMappingFrom(to, shapeName, from);
      if profileShapeName != "" {
        weight, numWeights := ReadChildrenWeights(children, profileShapeName, zero);
      }
    }
    found := numWeights > 0;
  }

  /**
   * The loop over the children in `GetCharacterBlendShapeWeight`: the number
   * of readable children and the weight of the last of them.
   */
  method ReadChildrenWeights<W>(children: seq<Option<SkinnedMeshRenderer<W>>>, name: string, zero: W)
    returns (weight: W, numWeights: nat)
    requires forall j :: 0 <= j < |children| && children[j].Some? ==>
      children[j].value.weights.Length == |children[j].value.sharedMesh|
    ensures numWeights == ReadCount(children, name)
    ensures LastRead(children, name, zero, weight)
    ensures numWeights == 0 <==> forall j :: 0 <= j < |children| ==> !Readable(children[j], name)
    ensures numWeights == 0 ==> weight == zero
  {
    ghost var last;
    weight, numWeights, last := ReadChildrenLoop(children, name, zero);
    LastReadAt(children, name, zero, weight, last);
    ReadCountZero(children, name);
  }

  /**
   * The read loop itself: it counts the readable children and keeps the
   * weight of the last of them, `last` (-1 when there is none).
   */
  method ReadChildrenLoop<W>(children: seq<Option<SkinnedMeshRenderer<W>>>, name: string, zero: W)
    returns (weight: W, numWeights: nat, ghost last: int)
    requires forall j :: 0 <= j < |children| && children[j].Some? ==>
      children[j].value.weights.Length == |children[j].value.sharedMesh|
    ensures numWeights == ReadCount(children, name)
    ensures -1 <= last < |children|
    ensures last == -1 ==> weight == zero
    ensures last >= 0 ==> Readable(children[last], name) && ReadsAs(children[last].value, name, weight)
    ensures forall j :: last < j < |children| ==> !Readable(children[j], name)
  {
    weight := zero;
    numWeights := 0;
    last := -1;
    var i := 0;
    while i < |children|
      invariant 0 <= i <= |children|
      invariant numWeights == ReadCount(children[..i], name)
      invariant -1 <= last < i
      invariant last == -1 ==> weight == zero
      invariant last >= 0 ==> Readable(children[last], name) && ReadsAs(children[last].value, name, weight)
      invariant forall j :: last < j < i ==> !Readable(children[j], name)
    {
      ReadCountStep(children, i, name);
      var readable, w := ReadChild(children[i], name);
      if readable {
        weight := w.value;
        numWeights := numWeights + 1;
        last := i;
      }
      i := i + 1;
    }
    assert children[..|children|] == children;
  }

  /**
   * One child's part of the read loop: whether it has a renderer whose
   * non-empty mesh has `name` at an index above 0, and the weight there.
   */
  method ReadChild<W>(child: Option<SkinnedMeshRenderer<W>>, name: string) returns (readable: bool, weight: Option<W>)
    requires child.Some? ==> child.value.weights.Length == |child.value.sharedMesh|
    ensures readable <==> Readable(child, name)
    ensures readable <==> weight.Some?
    ensures readable ==> ReadsAs(child.value, name, weight.value)
  {
    readable, weight := false, Option.None;
    if child.Some? {
      var renderer := child.value;
      var mesh := renderer.sharedMesh;
      if |mesh| > 0 {
        var shapeIndexS := GetBlendShapeIndex(mesh, name);
        if shapeIndexS > 0 {
          readable, weight := true, Some(renderer.weights[shapeIndexS]);
        }
      }
    }
  }

  /** The read loop's end state, with `last` the last readable child (-1 for none), satisfies `LastRead`. */
  lemma LastReadAt<W>(children: seq<Option<SkinnedMeshRenderer<W>>>, name: string, zero: W, weight: W, last: int)
    requires -1 <= last < |children|
    requires last == -1 ==> weight == zero
    requires last >= 0 ==> Readable(children[last], name) && ReadsAs(children[last].value, name, weight)
    requires forall j :: last < j < |children| ==> !Readable(children[j], name)
    ensures LastRead(children, name, zero, weight)
  {
    if last >= 0 {
      assert !forall j :: 0 <= j < |children| ==> !Readable(children[j], name);
    }
  }

  /** Every child is read exactly when every child is readable. */
  lemma {:induction false} ReadCountAll<W>(children: seq<Option<SkinnedMeshRenderer<W>>>, name: string)
    ensures ReadCount(children, name) == |children| <==> forall j :: 0 <= j < |children| ==> Readable(children[j], name)
  {
    if children != [] {
      var last := |children| - 1;
      assert forall j :: 0 <= j < last ==> children[..last][j] == children[j];
      ReadCountAll(children[..last], name);
    }
  }

  /** No child is read exactly when none is readable. */
  lemma {:induction false} ReadCountZero<W>(children: seq<Option<SkinnedMeshRenderer<W>>>, name: string)
    ensures ReadCount(children, name) == 0 <==> forall j :: 0 <= j < |children| ==> !Readable(children[j], name)
  {
    if children != [] {
      var last := |children| - 1;
      assert forall j :: 0 <= j < last ==> children[..last][j] == children[j];
      ReadCountZero(children[..last], name);
    }
  }

  /** Reading one more child adds one to the count exactly when it is readable. */
  lemma ReadCountStep<W>(children: seq<Option<SkinnedMeshRenderer<W>>>, i: nat, name: string)
    requires i < |children|
    ensures ReadCount(children[..i + 1], name) == ReadCount(children[..i], name) + if Readable(children[i], name) then 1 else 0
  {
    assert children[..i + 1][..i] == children[..i];
  }

  /**
   * The first shape of a mesh is never read: if every renderer present has
   * the name as its first shape, nothing is found.
   */
  lemma {:induction false} FirstShapeNeverRead<W>(children: seq<Option<SkinnedMeshRenderer<W>>>, name: string)
    requires forall j :: 0 <= j < |children| && children[j].Some? ==>
      |children[j].value.sharedMesh| > 0 && children[j].value.sharedMesh[0] == name
    ensures ReadCount(children, name) == 0
  {
    if children != [] {
      var last := |children| - 1;
      assert forall j :: 0 <= j < last ==> children[..last][j] == children[j];
      FirstShapeNeverRead(children[..last], name);
    }
  }
}
