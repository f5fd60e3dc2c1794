/**
 * The two profile detectors: from the animated property names of a clip, and
 * from the blend-shape names of every mesh under a prefab. Both keep a running
 * best guess per axis; both are proved to return the highest signature tier
 * present on each axis, whatever the order of the names.
 */
module ProfileDetection {
  import opened Wrappers
  import opened Strings
  import opened FacialProfiles

  /** Shapes whose presence marks the ExPlus expression dialect. */
  const ExPlusSignatures: set<string> :=
    {"A01_Brow_Inner_Up", "A06_Eye_Look_Up_Left", "A15_Eye_Blink_Right", "A25_Jaw_Open", "A37_Mouth_Close"}
  /** Shapes whose presence marks the Ext expression dialect. */
  const ExtSignatures: set<string> :=
    {"Ear_Up_L", "Ear_Up_R", "Eyelash_Upper_Up_L", "Eyelash_Upper_Up_R", "Eye_L_Look_L", "Eye_R_Look_R"}
  /** Shapes whose presence marks the Std expression dialect. */
  const StdSignatures: set<string> :=
    {"Mouth_L", "Mouth_R", "Eye_Wide_L", "Eye_Wide_R", "Mouth_Smile", "Eye_Blink"}
  /** Shapes whose presence marks the PairsCC4 viseme dialect. */
  const PairsCC4Signatures: set<string> := {"V_Open", "V_Tight", "V_Tongue_up", "V_Tongue_Raise"}
  /** Shapes whose presence marks the PairsCC3 viseme dialect. */
  const PairsCC3Signatures: set<string> := {"Open", "Tight", "Tongue_up", "Tongue_Raise"}
  /** Shapes whose presence marks the Direct viseme dialect. */
  const DirectSignatures: set<string> := {"AE", "EE", "Er", "Oh"}
  /** Malformed brow names whose presence means the names need correcting. */
  const CorrectionSignatures: set<string> :=
    {"Brow_Raise_Inner_Left", "Brow_Raise_Outer_Left", "Brow_Drop_Left", "Brow_Raise_Right"}

  /** The prefix of an animated property that drives a blend shape. */
  const BlendShapePrefix := "blendShape."

  /** Detection priority of an expression dialect: ExPlus > Ext > Std > None. */
  function ExpressionRank(e: ExpressionProfile): nat {
    match e
    case None => 0
    case Std => 1
    case Ext => 2
    case ExPlus => 3
  }

  /** Detection priority of a viseme dialect: PairsCC4 > PairsCC3 > Direct > None. */
  function VisemeRank(v: VisemeProfile): nat {
    match v
    case None => 0
    case Direct => 1
    case PairsCC3 => 2
    case PairsCC4 => 3
  }

  /** The expression dialect one shape name is a signature of, if any. */
  function ExpressionTier(name: string): ExpressionProfile {
    if name in ExPlusSignatures then ExpressionProfile.ExPlus
    else if name in ExtSignatures then ExpressionProfile.Ext
    else if name in StdSignatures then ExpressionProfile.Std
    else ExpressionProfile.None
  }

  /** The viseme dialect one shape name is a signature of, if any. */
  function VisemeTier(name: string): VisemeProfile {
    if name in PairsCC4Signatures then VisemeProfile.PairsCC4
    else if name in PairsCC3Signatures then VisemeProfile.PairsCC3
    else if name in DirectSignatures then VisemeProfile.Direct
    else VisemeProfile.None
  }

  /** `e` is the highest expression tier among `names` (None when there is none). */
  ghost predicate HighestExpression(e: ExpressionProfile, names: seq<string>) {
    && (forall i :: 0 <= i < |names| ==> ExpressionRank(ExpressionTier(names[i])) <= ExpressionRank(e))
    && (e == ExpressionProfile.None || exists i :: 0 <= i < |names| && ExpressionTier(names[i]) == e)
  }

  /** `v` is the highest viseme tier among `names` (None when there is none). */
  ghost predicate HighestViseme(v: VisemeProfile, names: seq<string>) {
    && (forall i :: 0 <= i < |names| ==> VisemeRank(VisemeTier(names[i])) <= VisemeRank(v))
    && (v == VisemeProfile.None || exists i :: 0 <= i < |names| && VisemeTier(names[i]) == v)
  }

  /** `p` is the profile the shape names `names` reveal. */
  ghost predicate Detects(p: FacialProfile, names: seq<string>) {
    && HighestExpression(p.expressionProfile, names)
    && HighestViseme(p.visemeProfile, names)
    && (p.corrections <==> exists i :: 0 <= i < |names| && names[i] in CorrectionSignatures)
  }

  /** The blend-shape names a clip animates: its prefixed property names, prefix removed. */
  function ClipShapeNames(propertyNames: seq<string>): seq<string> {
    if propertyNames == [] then []
    else
      var last := propertyNames[|propertyNames| - 1];
      var front := ClipShapeNames(propertyNames[..|propertyNames| - 1]);
      if StartsWith(last, BlendShapePrefix) then front + [last[|BlendShapePrefix|..]]
      else front
  }

  /**
   * A clip's shape names are exactly the names behind its "blendShape."
   * properties: each comes from such a property, and each such property
   * contributes its name.
   */
  lemma {:induction false} ClipShapeNamesContents(propertyNames: seq<string>)
    ensures forall n :: n in ClipShapeNames(propertyNames) ==> BlendShapePrefix + n in propertyNames
    ensures forall i :: 0 <= i < |propertyNames| && StartsWith(propertyNames[i], BlendShapePrefix) ==>
      propertyNames[i][|BlendShapePrefix|..] in ClipShapeNames(propertyNames)
  {
    if propertyNames != [] {
      var k := |propertyNames| - 1;
      var last := propertyNames[k];
      ClipShapeNamesContents(propertyNames[..k]);
      assert forall i :: 0 <= i < k ==> propertyNames[..k][i] == propertyNames[i];
      if StartsWith(last, BlendShapePrefix) {
        assert BlendShapePrefix + last[|BlendShapePrefix|..] == last;
      }
    }
  }

  /** One more property adds its shape name, if it names one. */
  lemma ClipShapeNamesStep(propertyNames: seq<string>, i: nat)
    requires i < |propertyNames|
    ensures ClipShapeNames(propertyNames[..i + 1]) ==
      ClipShapeNames(propertyNames[..i]) +
        if StartsWith(propertyNames[i], BlendShapePrefix) then [propertyNames[i][|BlendShapePrefix|..]] else []
  {
    assert propertyNames[..i + 1][..i] == propertyNames[..i];
  }

  /** All shape names of the meshes that exist, mesh after mesh. */
  function MeshShapeNames(meshes: seq<Option<seq<string>>>): (names: seq<string>)
    ensures forall i, n :: 0 <= i < |meshes| && meshes[i].Some? && n in meshes[i].value ==> n in names
    ensures forall n :: n in names ==> exists i :: 0 <= i < |meshes| && meshes[i].Some? && n in meshes[i].value
  {
    if meshes == [] then []
    else
      var last := meshes[|meshes| - 1];
      var front := MeshShapeNames(meshes[..|meshes| - 1]);
      assert forall i :: 0 <= i < |meshes| - 1 ==> meshes[..|meshes| - 1][i] == meshes[i];
      if last.Some? then front + last.value else front
  }

  /** The names that take part in a verdict are all that matter: order and repetition do not. */
  lemma DetectsUnique(p: FacialProfile, a: seq<string>, q: FacialProfile, b: seq<string>)
    requires forall n :: n in a <==> n in b
    requires Detects(p, a) && Detects(q, b)
    ensures p == q
  {
    ExpressionRankInjective(p.expressionProfile, q.expressionProfile, a, b);
    VisemeRankInjective(p.visemeProfile, q.visemeProfile, a, b);
    if p.corrections {
      var i :| 0 <= i < |a| && a[i] in CorrectionSignatures;
      assert a[i] in b;
    }
    if q.corrections {
      var i :| 0 <= i < |b| && b[i] in CorrectionSignatures;
      assert b[i] in a;
    }
  }

  lemma ExpressionRankInjective(e: ExpressionProfile, f: ExpressionProfile, a: seq<string>, b: seq<string>)
    requires forall n :: n in a <==> n in b
    requires HighestExpression(e, a) && HighestExpression(f, b)
    ensures e == f
  {
    if e != ExpressionProfile.None {
      var i :| 0 <= i < |a| && ExpressionTier(a[i]) == e;
      assert a[i] in b;
    }
    if f != ExpressionProfile.None {
      var i :| 0 <= i < |b| && ExpressionTier(b[i]) == f;
      assert b[i] in a;
    }
  }

  lemma VisemeRankInjective(v: VisemeProfile, w: VisemeProfile, a: seq<string>, b: seq<string>)
    requires forall n :: n in a <==> n in b
    requires HighestViseme(v, a) && HighestViseme(w, b)
    ensures v == w
  {
    if v != VisemeProfile.None {
      var i :| 0 <= i < |a| && VisemeTier(a[i]) == v;
      assert a[i] in b;
    }
    if w != VisemeProfile.None {
      var i :| 0 <= i < |b| && VisemeTier(b[i]) == w;
      assert b[i] in a;
    }
  }

  /**
   * No name is a signature of two dialects, or of a dialect and the
   * corrections; stated set by set against those listed before it. No ExPlus
   * signature is an Extended one.
   */
  lemma DisjointFromExt()
    ensures ExPlusSignatures !! ExtSignatures
  {
  }

  /** No ExPlus or Extended signature is a Std one. */
  lemma DisjointFromStd()
    ensures ExPlusSignatures !! StdSignatures
    ensures ExtSignatures !! StdSignatures
  {
  }

  /** No expression signature is a CC4 one. */
  lemma DisjointFromPairsCC4()
    ensures ExPlusSignatures !! PairsCC4Signatures
    ensures ExtSignatures !! PairsCC4Signatures
    ensures StdSignatures !! PairsCC4Signatures
  {
  }

  /** No expression or CC4 signature is a CC3 one. */
  lemma DisjointFromPairsCC3()
    ensures ExPlusSignatures !! PairsCC3Signatures
    ensures ExtSignatures !! PairsCC3Signatures
    ensures StdSignatures !! PairsCC3Signatures
    ensures PairsCC4Signatures !! PairsCC3Signatures
  {
  }

  /** No expression, CC4 or CC3 signature is a Direct one. */
  lemma DisjointFromDirect()
    ensures ExPlusSignatures !! DirectSignatures
    ensures ExtSignatures !! DirectSignatures
    ensures StdSignatures !! DirectSignatures
    ensures PairsCC4Signatures !! DirectSignatures
    ensures PairsCC3Signatures !! DirectSignatures
  {
  }

  /** No dialect signature is a correction signature. */
  lemma DisjointFromCorrection()
    ensures ExPlusSignatures !! CorrectionSignatures
    ensures ExtSignatures !! CorrectionSignatures
    ensures StdSignatures !! CorrectionSignatures
    ensures PairsCC4Signatures !! CorrectionSignatures
    ensures PairsCC3Signatures !! CorrectionSignatures
    ensures DirectSignatures !! CorrectionSignatures
  {
  }

  /** One more name: the running guess moves exactly as the detector's switch moves it. */
  lemma DetectsAppendName(e: ExpressionProfile, v: VisemeProfile, c: bool, names: seq<string>, n: string,
                          e': ExpressionProfile, v': VisemeProfile, c': bool)
    requires Detects(FacialProfile(e, v, c), names)
    requires e' == (if n in ExPlusSignatures then ExpressionProfile.ExPlus
                    else if n in ExtSignatures && (e == ExpressionProfile.None || e == ExpressionProfile.Std) then ExpressionProfile.Ext
                    else if n in StdSignatures && e == ExpressionProfile.None then ExpressionProfile.Std
                    else e)
    requires v' == (if n in PairsCC4Signatures then VisemeProfile.PairsCC4
                    else if n in PairsCC3Signatures && (v == VisemeProfile.None || v == VisemeProfile.Direct) then VisemeProfile.PairsCC3
                    else if n in DirectSignatures && v == VisemeProfile.None then VisemeProfile.Direct
                    else v)
    requires c' == (c || n in CorrectionSignatures)
    ensures Detects(FacialProfile(e', v', c'), names + [n])
  {
    var all := names + [n];
    assert all[|names|] == n;
    assert forall i :: 0 <= i < |names| ==> all[i] == names[i];
    if e' != ExpressionProfile.None && e' != e {
      assert ExpressionTier(all[|names|]) == e';
    }
    if v' != VisemeProfile.None && v' != v {
      assert VisemeTier(all[|names|]) == v';
    }
  }

  /**
   * One animated blend shape's turn in `GetAnimationClipFacialProfile`: the
   * first signature set that holds the name decides which guess may move.
   * As no name is a signature of two dialects, each axis moves as if tested
   * on its own.
   */
  method ClipNameStep(e: ExpressionProfile, v: VisemeProfile, c: bool, n: string)
    returns (e': ExpressionProfile, v': VisemeProfile, c': bool)
    ensures e' == (if n in ExPlusSignatures then ExpressionProfile.ExPlus
                   else if n in ExtSignatures && (e == ExpressionProfile.None || e == ExpressionProfile.Std) then ExpressionProfile.Ext
                   else if n in StdSignatures && e == ExpressionProfile.None then ExpressionProfile.Std
                   else e)
    ensures v' == (if n in PairsCC4Signatures then VisemeProfile.PairsCC4
                   else if n in PairsCC3Signatures && (v == VisemeProfile.None || v == VisemeProfile.Direct) then VisemeProfile.PairsCC3
                   else if n in DirectSignatures && v == VisemeProfile.None then VisemeProfile.Direct
                   else v)
    ensures c' == (c || n in CorrectionSignatures)
  {
    DisjointFromExt();
    DisjointFromStd();
    DisjointFromPairsCC4();
    DisjointFromPairsCC3();
    DisjointFromDirect();
    DisjointFromCorrection();
    e', v', c' := e, v, c;
    if n in ExPlusSignatures {
      e' := ExpressionProfile.ExPlus;
    } else if n in ExtSignatures {
      if e' == ExpressionProfile.None || e' == ExpressionProfile.Std {
        e' := ExpressionProfile.Ext;
      }
    } else if n in StdSignatures {
      if e' == ExpressionProfile.None {
        e' := ExpressionProfile.Std;
      }
    } else if n in PairsCC4Signatures {
      v' := VisemeProfile.PairsCC4;
    } else if n in PairsCC3Signatures {
      if v' == VisemeProfile.None || v' == VisemeProfile.Direct {
        v' := VisemeProfile.PairsCC3;
      }
    } else if n in DirectSignatures {
      if v' == VisemeProfile.None {
        v' := VisemeProfile.Direct;
      }
    } else if n in CorrectionSignatures {
      c' := true;
    }
  }

  /**
   * The profile of an animation clip, given the names of its animated
   * properties (None for a missing clip).
   */
  method GetAnimationClipFacialProfile(clip: Option<seq<string>>) returns (profile: FacialProfile)
    ensures clip.None? ==> profile == DefaultProfile
    ensures clip.Some? ==> Detects(profile, ClipShapeNames(clip.value))
  {
    var expressionProfile := ExpressionProfile.None;
    var visemeProfile := VisemeProfile.None;
    if clip.None? {
      return DefaultProfile;
    }
    var curveBindings := clip.value;
    var corrections := false;
    var i := 0;
    ghost var names: seq<string> := [];
    while i < |curveBindings|
      invariant 0 <= i <= |curveBindings|
      invariant names == ClipShapeNames(curveBindings[..i])
      invariant Detects(FacialProfile(expressionProfile, visemeProfile, corrections), names)
    {
      var propertyName := curveBindings[i];
      ClipShapeNamesStep(curveBindings, i);
      if StartsWith(propertyName, BlendShapePrefix) {
        var blendShapeName := propertyName[|BlendShapePrefix|..];
        ghost var e, v, c := expressionProfile, visemeProfile, corrections;
        expressionProfile, visemeProfile, corrections := ClipNameStep(expressionProfile, visemeProfile, corrections, blendShapeName);
        DetectsAppendName(e, v, c, names, blendShapeName, expressionProfile, visemeProfile, corrections);
        names := names + [blendShapeName];
      }
      i := i + 1;
    }
    assert curveBindings[..i] == curveBindings;
    profile := FacialProfile(expressionProfile, visemeProfile, corrections);
  }

  /** `mesh.HasShape(s)` for some signature `s` in `signatures`. */
  predicate HasAnyShape(mesh: seq<string>, signatures: set<string>) {
    exists s :: s in signatures && s in mesh
  }

  /** One more mesh on the expression axis: the detector's three tests in order. */
  lemma ExpressionAppendMesh(e: ExpressionProfile, names: seq<string>, mesh: seq<string>, e': ExpressionProfile)
    requires HighestExpression(e, names)
    requires
      var e1 := if HasAnyShape(mesh, ExPlusSignatures) then ExpressionProfile.ExPlus else e;
      var e2 := if HasAnyShape(mesh, ExtSignatures) && (e1 == ExpressionProfile.None || e1 == ExpressionProfile.Std)
                then ExpressionProfile.Ext else e1;
      e' == if HasAnyShape(mesh, StdSignatures) && e2 == ExpressionProfile.None then ExpressionProfile.Std else e2
    ensures HighestExpression(e', names + mesh)
  {
    DisjointFromExt();
    DisjointFromStd();
    var all := names + mesh;
    assert forall i :: 0 <= i < |names| ==> all[i] == names[i];
    assert forall j :: |names| <= j < |all| ==> all[j] == mesh[j - |names|];
    forall i | 0 <= i < |mesh|
      ensures ExpressionRank(ExpressionTier(mesh[i])) <= ExpressionRank(e')
    {
      var n := mesh[i];
      if n in ExPlusSignatures { assert HasAnyShape(mesh, ExPlusSignatures); }
      if n in ExtSignatures { assert HasAnyShape(mesh, ExtSignatures); }
      if n in StdSignatures { assert HasAnyShape(mesh, StdSignatures); }
    }
    if e' != e {
      var sigs := if e' == ExpressionProfile.ExPlus then ExPlusSignatures
                  else if e' == ExpressionProfile.Ext then ExtSignatures else StdSignatures;
      var s :| s in sigs && s in mesh;
      var k :| 0 <= k < |mesh| && mesh[k] == s;
      assert all[|names| + k] == s;
      assert ExpressionTier(all[|names| + k]) == e';
    }
  }

  /** One more mesh on the viseme axis: the detector's three tests in order. */
  lemma VisemeAppendMesh(v: VisemeProfile, names: seq<string>, mesh: seq<string>, v': VisemeProfile)
    requires HighestViseme(v, names)
    requires
      var v1 := if HasAnyShape(mesh, PairsCC4Signatures) then VisemeProfile.PairsCC4 else v;
      var v2 := if HasAnyShape(mesh, PairsCC3Signatures) && (v1 == VisemeProfile.None || v1 == VisemeProfile.Direct)
                then VisemeProfile.PairsCC3 else v1;
      v' == if HasAnyShape(mesh, DirectSignatures) && v2 == VisemeProfile.None then VisemeProfile.Direct else v2
    ensures HighestViseme(v', names + mesh)
  {
    DisjointFromPairsCC3();
    DisjointFromDirect();
    var all := names + mesh;
    assert forall i :: 0 <= i < |names| ==> all[i] == names[i];
    assert forall j :: |names| <= j < |all| ==> all[j] == mesh[j - |names|];
    forall i | 0 <= i < |mesh|
      ensures VisemeRank(VisemeTier(mesh[i])) <= VisemeRank(v')
    {
      var n := mesh[i];
      if n in PairsCC4Signatures { assert HasAnyShape(mesh, PairsCC4Signatures); }
      if n in PairsCC3Signatures { assert HasAnyShape(mesh, PairsCC3Signatures); }
      if n in DirectSignatures { assert HasAnyShape(mesh, DirectSignatures); }
    }
    if v' != v {
      var sigs := if v' == VisemeProfile.PairsCC4 then PairsCC4Signatures
                  else if v' == VisemeProfile.PairsCC3 then PairsCC3Signatures else DirectSignatures;
      var s :| s in sigs && s in mesh;
      var k :| 0 <= k < |mesh| && mesh[k] == s;
      assert all[|names| + k] == s;
      assert VisemeTier(all[|names| + k]) == v';
    }
  }

  /** One more mesh on the corrections axis. */
  lemma CorrectionsAppendMesh(c: bool, names: seq<string>, mesh: seq<string>)
    requires c <==> exists i :: 0 <= i < |names| && names[i] in CorrectionSignatures
    ensures (c || HasAnyShape(mesh, CorrectionSignatures)) <==>
            exists i :: 0 <= i < |names + mesh| && (names + mesh)[i] in CorrectionSignatures
  {
    var all := names + mesh;
    if c {
      var i :| 0 <= i < |names| && names[i] in CorrectionSignatures;
      assert all[i] == names[i];
    } else if HasAnyShape(mesh, CorrectionSignatures) {
      var s :| s in CorrectionSignatures && s in mesh;
      var k :| 0 <= k < |mesh| && mesh[k] == s;
      assert all[|names| + k] == s;
    }
    if i :| 0 <= i < |all| && all[i] in CorrectionSignatures {
      if i >= |names| {
        assert all[i] == mesh[i - |names|];
      } else {
        assert all[i] == names[i];
      }
    }
  }

  /** The expression part of one mesh's turn in `GetMeshFacialProfile`: the three tests in order. */
  method MeshExpressionStep(e: ExpressionProfile, mesh: seq<string>) returns (e': ExpressionProfile)
    ensures
      var e1 := if HasAnyShape(mesh, ExPlusSignatures) then ExpressionProfile.ExPlus else e;
      var e2 := if HasAnyShape(mesh, ExtSignatures) && (e1 == ExpressionProfile.None || e1 == ExpressionProfile.Std)
                then ExpressionProfile.Ext else e1;
      e' == if HasAnyShape(mesh, StdSignatures) && e2 == ExpressionProfile.None then ExpressionProfile.Std else e2
  {
    e' := e;
    if HasAnyShape(mesh, ExPlusSignatures) {
      e' := ExpressionProfile.ExPlus;
    }
    if HasAnyShape(mesh, ExtSignatures) {
      if e' == ExpressionProfile.None || e' == ExpressionProfile.Std {
        e' := ExpressionProfile.Ext;
      }
    }
    if HasAnyShape(mesh, StdSignatures) {
      if e' == ExpressionProfile.None {
        e' := ExpressionProfile.Std;
      }
    }
  }

  /** The viseme part of one mesh's turn in `GetMeshFacialProfile`: the three tests in order. */
  method MeshVisemeStep(v: VisemeProfile, mesh: seq<string>) returns (v': VisemeProfile)
    ensures
      var v1 := if HasAnyShape(mesh, PairsCC4Signatures) then VisemeProfile.PairsCC4 else v;
      var v2 := if HasAnyShape(mesh, PairsCC3Signatures) && (v1 == VisemeProfile.None || v1 == VisemeProfile.Direct)
                then VisemeProfile.PairsCC3 else v1;
      v' == if HasAnyShape(mesh, DirectSignatures) && v2 == VisemeProfile.None then VisemeProfile.Direct else v2
  {
    v' := v;
    if HasAnyShape(mesh, PairsCC4Signatures) {
      v' := VisemeProfile.PairsCC4;
    }
    if HasAnyShape(mesh, PairsCC3Signatures) {
      if v' == VisemeProfile.None || v' == VisemeProfile.Direct {
        v' := VisemeProfile.PairsCC3;
      }
    }
    if HasAnyShape(mesh, DirectSignatures) {
      if v' == VisemeProfile.None {
        v' := VisemeProfile.Direct;
      }
    }
  }

  /**
   * The profile of a prefab, given the shared mesh of every skinned mesh
   * renderer under it (None for a renderer without a mesh, and for a missing
   * prefab).
   */
  method GetMeshFacialProfile(prefab: Option<seq<Option<seq<string>>>>) returns (profile: FacialProfile)
    ensures prefab.None? ==> profile == DefaultProfile
    ensures prefab.Some? ==> Detects(profile, MeshShapeNames(prefab.value))
  {
    var expressionProfile := ExpressionProfile.None;
    var visemeProfile := VisemeProfile.None;
    if prefab.None? {
      return DefaultProfile;
    }
    var corrections := false;
    var renderers := prefab.value;
    var i := 0;
    while i < |renderers|
      invariant 0 <= i <= |renderers|
      invariant Detects(FacialProfile(expressionProfile, visemeProfile, corrections), MeshShapeNames(renderers[..i]))
    {
      assert renderers[..i + 1][..i] == renderers[..i];
      var sharedMesh := renderers[i];
      if sharedMesh.Some? {
        var mesh := sharedMesh.value;
        if |mesh| > 0 {
          ghost var e, v, c := expressionProfile, visemeProfile, corrections;
          expressionProfile := MeshExpressionStep(expressionProfile, mesh);
          visemeProfile := MeshVisemeStep(visemeProfile, mesh);
          if HasAnyShape(mesh, CorrectionSignatures) {
            corrections := true;
          }
          ghost var names := MeshShapeNames(renderers[..i]);
          ExpressionAppendMesh(e, names, mesh, expressionProfile);
          VisemeAppendMesh(v, names, mesh, visemeProfile);
          CorrectionsAppendMesh(c, names, mesh);
        } else {
          assert MeshShapeNames(renderers[..i + 1]) == MeshShapeNames(renderers[..i]) + mesh;
          assert MeshShapeNames(renderers[..i]) + mesh == MeshShapeNames(renderers[..i]);
        }
      }
      i := i + 1;
    }
    assert renderers[..i] == renderers;
    profile := FacialProfile(expressionProfile, visemeProfile, corrections);
  }

  /** Whether the meshes under a prefab carry any expression or viseme signature. */
  method MeshHasFacialBlendShapes(obj: Option<seq<Option<seq<string>>>>) returns (r: bool)
    ensures r <==> obj.Some? && exists n :: n in MeshShapeNames(obj.value) &&
                                  (ExpressionTier(n) != ExpressionProfile.None || VisemeTier(n) != VisemeProfile.None)
  {
    var profile := GetMeshFacialProfile(obj);
    r := profile.HasFacialShapes();
    if obj.Some? && !r {
      forall n | n in MeshShapeNames(obj.value)
        ensures ExpressionTier(n) == ExpressionProfile.None && VisemeTier(n) == VisemeProfile.None
      {
        var i :| 0 <= i < |MeshShapeNames(obj.value)| && MeshShapeNames(obj.value)[i] == n;
        assert ExpressionRank(ExpressionTier(MeshShapeNames(obj.value)[i])) <= 0;
      }
    }
    if r {
      var names := MeshShapeNames(obj.value);
      if profile.expressionProfile != ExpressionProfile.None {
        var i :| 0 <= i < |names| && ExpressionTier(names[i]) == profile.expressionProfile;
        assert names[i] in names;
      } else {
        var i :| 0 <= i < |names| && VisemeTier(names[i]) == profile.visemeProfile;
        assert names[i] in names;
      }
    }
  }

  /** A clip and a prefab that use the same blend-shape names get the same profile. */
  lemma {:induction false} ClipAndMeshAgree(clip: seq<string>, prefab: seq<Option<seq<string>>>, p: FacialProfile, q: FacialProfile)
    requires forall n :: n in ClipShapeNames(clip) <==> n in MeshShapeNames(prefab)
    requires Detects(p, ClipShapeNames(clip)) && Detects(q, MeshShapeNames(prefab))
    ensures p == q
  {
    DetectsUnique(p, ClipShapeNames(clip), q, MeshShapeNames(prefab));
  }
}
