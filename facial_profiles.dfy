/** Option, used for the source's null references and "try" lookups. */
module Wrappers {
  datatype Option<+T> = None | Some(value: T)
}

/**
 * The data of the facial profile mapper: the two dialect enumerations, the
 * facial profile, the correspondence rows with their accessors, the three
 * compiled-in tables, and the first-match scans of the correction table.
 */
module FacialProfiles {
  import opened Wrappers

  /** Expression (facial) naming dialect; declaration order as in the source. */
  datatype ExpressionProfile = None | Std | ExPlus | Ext

  /** Viseme (lip-sync) naming dialect; declaration order as in the source. */
  datatype VisemeProfile = None | PairsCC3 | PairsCC4 | Direct

  /**
   * A rig's or a clip's naming convention: one dialect per axis, plus whether
   * its names carry the known mis-named brow shapes.
   */
  datatype FacialProfile = FacialProfile(
    expressionProfile: ExpressionProfile,
    visemeProfile: VisemeProfile,
    corrections: bool)
  {
    /** Same dialect pair; the corrections flag takes no part. */
    function IsSameProfile(from: FacialProfile): (r: bool)
      ensures r <==> from.(corrections := corrections) == this
    {
      from.expressionProfile == expressionProfile && from.visemeProfile == visemeProfile
    }

    /** At least one axis names a dialect. */
    function HasFacialShapes(): (r: bool)
      ensures !r <==> this.(corrections := false) == DefaultProfile
    {
      expressionProfile != ExpressionProfile.None || visemeProfile != VisemeProfile.None
    }
  }

  /** The profile a C# `default(FacialProfile)` holds: no dialects, no corrections. */
  const DefaultProfile := FacialProfile(ExpressionProfile.None, VisemeProfile.None, false)

  /** `string.IsNullOrEmpty`, with `Option.None` standing for null. */
  predicate IsNullOrEmpty(s: Option<string>) {
    s.None? || s.value == ""
  }

  /** One expression shape under its three expression dialects ("" = no equivalent). */
  datatype ExpressionProfileMapping = ExpressionProfileMapping(Standard: string, ExPlus: string, Extended: string)
  {
    /** The shape's name in dialect `to`; null (None) for the None dialect. */
    function GetMapping(to: ExpressionProfile): (r: Option<string>)
      ensures r.None? <==> to == ExpressionProfile.None
      ensures r.Some? ==> r.value in [Standard, ExPlus, Extended]
    {
      match to
      case Std => Some(Standard)
      case ExPlus => Some(ExPlus)
      case Ext => Some(Extended)
      case None => Option.None
    }

    /** The row claims the non-empty `blendShapeName` in dialect `from`. */
    function HasMapping(blendShapeName: string, from: ExpressionProfile): (r: bool)
      ensures r <==> blendShapeName != "" && GetMapping(from) == Some(blendShapeName)
    {
      if blendShapeName == "" then false
      else if from == ExpressionProfile.Std && Standard == blendShapeName then true
      else if from == ExpressionProfile.ExPlus && ExPlus == blendShapeName then true
      else if from == ExpressionProfile.Ext && Extended == blendShapeName then true
      else false
    }

    /** The row claims the non-empty `blendShapeName` in any dialect (the one-argument overload). */
    function HasAnyMapping(blendShapeName: string): (r: bool)
      ensures r <==> exists d :: HasMapping(blendShapeName, d)
    {
      if blendShapeName == "" then false
      else
        assert HasMapping(blendShapeName, ExpressionProfile.Std) <==> Standard == blendShapeName;
        assert HasMapping(blendShapeName, ExpressionProfile.ExPlus) <==> ExPlus == blendShapeName;
        assert HasMapping(blendShapeName, ExpressionProfile.Ext) <==> Extended == blendShapeName;
        Standard == blendShapeName || ExPlus == blendShapeName || Extended == blendShapeName
    }
  }

  /** One viseme under its three viseme dialects ("" = no equivalent). */
  datatype VisemeProfileMapping = VisemeProfileMapping(CC3: string, CC4: string, Direct: string)
  {
    /** The viseme's name in dialect `to`; null (None) for the None dialect. */
    function GetMapping(to: VisemeProfile): (r: Option<string>)
      ensures r.None? <==> to == VisemeProfile.None
      ensures r.Some? ==> r.value in [CC3, CC4, Direct]
    {
      match to
      case PairsCC3 => Some(CC3)
      case PairsCC4 => Some(CC4)
      case Direct => Some(Direct)
      case None => Option.None
    }

    /** The row claims the non-empty `blendShapeName` in dialect `from`. */
    function HasMapping(blendShapeName: string, from: VisemeProfile): (r: bool)
      ensures r <==> blendShapeName != "" && GetMapping(from) == Some(blendShapeName)
    {
      if blendShapeName == "" then false
      else if from == VisemeProfile.PairsCC3 && CC3 == blendShapeName then true
      else if from == VisemeProfile.PairsCC4 && CC4 == blendShapeName then true
      else if from == VisemeProfile.Direct && Direct == blendShapeName then true
      else false
    }
  }

  /** A known-good shape name and the malformed name one exporter wrote instead. */
  datatype MappingCorrection = MappingCorrection(correct: string, incorrect: string)

  /** The expression correspondence table, in scan order (written in four parts by face region). */
  const FacialProfileMaps: seq<ExpressionProfileMapping> := BrowEyeRows + CheekNoseJawRows + MouthRows + TongueRows

  /** Rows 0-19: brows and eyes. */
  const BrowEyeRows: seq<ExpressionProfileMapping> := [
    ExpressionProfileMapping("Brow_Raise_Inner_L/R", "A01_Brow_Inner_Up", "Brow_Raise_Inner_L/R"),
    ExpressionProfileMapping("Brow_Drop_L", "A02_Brow_Down_Left", "Brow_Drop_L"),
    ExpressionProfileMapping("Brow_Drop_R", "A03_Brow_Down_Right", "Brow_Drop_R"),
    ExpressionProfileMapping("Brow_Raise_Outer_L", "A04_Brow_Outer_Up_Left", "Brow_Raise_Outer_L"),
    ExpressionProfileMapping("Brow_Raise_Outer_R", "A05_Brow_Outer_Up_Right", "Brow_Raise_Outer_R"),
    ExpressionProfileMapping("", "A06_Eye_Look_Up_Left", "Eye_L_Look_Up"),
    ExpressionProfileMapping("", "A07_Eye_Look_Up_Right", "Eye_R_Look_Up"),
    ExpressionProfileMapping("", "A08_Eye_Look_Down_Left", "Eye_L_Look_Down"),
    ExpressionProfileMapping("", "A09_Eye_Look_Down_Right", "Eye_R_Look_Down"),
    ExpressionProfileMapping("", "A10_Eye_Look_Out_Left", "Eye_L_Look_L"),
    ExpressionProfileMapping("", "A11_Eye_Look_In_Left", "Eye_L_Look_R"),
    ExpressionProfileMapping("", "A12_Eye_Look_In_Right", "Eye_R_Look_L"),
    ExpressionProfileMapping("", "A13_Eye_Look_Out_Right", "Eye_R_Look_R"),
    ExpressionProfileMapping("Eye_Blink", "Eye_Blink", "Eyes_Blink"),
    ExpressionProfileMapping("Eye_Blink_L", "A14_Eye_Blink_Left", "Eye_Blink_L"),
    ExpressionProfileMapping("Eye_Blink_R", "A15_Eye_Blink_Right", "Eye_Blink_R"),
    ExpressionProfileMapping("Eye_Squint_L", "A16_Eye_Squint_Left", "Eye_Squint_L"),
    ExpressionProfileMapping("Eye_Squint_R", "A17_Eye_Squint_Right", "Eye_Squint_R"),
    ExpressionProfileMapping("Eye_Wide_L", "A18_Eye_Wide_Left", "Eye_Wide_L"),
    ExpressionProfileMapping("Eye_Wide_R", "A19_Eye_Wide_Right", "Eye_Wide_R")
  ]

  /** Rows 20-28: cheeks, nose and jaw. */
  const CheekNoseJawRows: seq<ExpressionProfileMapping> := [
    ExpressionProfileMapping("Cheek_Puff_L/R", "A20_Cheek_Puff", "Cheek_Puff_L/R"),
    ExpressionProfileMapping("Cheek_Raise_L", "A21_Cheek_Squint_Left", "Cheek_Raise_L"),
    ExpressionProfileMapping("Cheek_Raise_R", "A22_Cheek_Squint_Right", "Cheek_Raise_R"),
    ExpressionProfileMapping("Nose_Flank_Raise_L", "A23_Nose_Sneer_Left", "Nose_Sneer_L"),
    ExpressionProfileMapping("Nose_Flank_Raise_R", "A24_Nose_Sneer_Right", "Nose_Sneer_R"),
    ExpressionProfileMapping("", "A25_Jaw_Open", "Jaw_Open"),
    ExpressionProfileMapping("", "A26_Jaw_Forward", "Jaw_Forward"),
    ExpressionProfileMapping("", "A27_Jaw_Left", "Jaw_L"),
    ExpressionProfileMapping("", "A28_Jaw_Right", "Jaw_R")
  ]

  /** Rows 29-51: mouth. */
  const MouthRows: seq<ExpressionProfileMapping> := [
    ExpressionProfileMapping("Mouth_Pucker_Open", "A29_Mouth_Funnel", "Mouth_Funnel_Up/Down_L/R"),
    ExpressionProfileMapping("Mouth_Pucker", "A30_Mouth_Pucker", "Mouth_Pucker_Up/Down_L/R"),
    ExpressionProfileMapping("Mouth_L", "A31_Mouth_Left", "Mouth_L"),
    ExpressionProfileMapping("Mouth_R", "A32_Mouth_Right", "Mouth_R"),
    ExpressionProfileMapping("Mouth_Top_Lip_Under", "A33_Mouth_Roll_Upper", "Mouth_Roll_Out_Upper_L/R"),
    ExpressionProfileMapping("Mouth_Bottom_Lip_Under", "A34_Mouth_Roll_Lower", "Mouth_Roll_Out_Lower_L/R"),
    ExpressionProfileMapping("Mouth_Top_Lip_Up", "A35_Mouth_Shrug_Upper", "Mouth_Shrug_Upper"),
    ExpressionProfileMapping("", "A36_Mouth_Shrug_Lower", "Mouth_Shrug_Lower"),
    ExpressionProfileMapping("", "A37_Mouth_Close", "Mouth_Close"),
    ExpressionProfileMapping("Mouth_Smile_L", "A38_Mouth_Smile_Left", "Mouth_Smile_L"),
    ExpressionProfileMapping("Mouth_Smile_R", "A39_Mouth_Smile_Right", "Mouth_Smile_R"),
    ExpressionProfileMapping("Mouth_Frown_L", "A40_Mouth_Frown_Left", "Mouth_Frown_L"),
    ExpressionProfileMapping("Mouth_Frown_R", "A41_Mouth_Frown_Right", "Mouth_Frown_R"),
    ExpressionProfileMapping("Mouth_Dimple_L", "A42_Mouth_Dimple_Left", "Mouth_Dimple_L"),
    ExpressionProfileMapping("Mouth_Dimple_R", "A43_Mouth_Dimple_Right", "Mouth_Dimple_R"),
    ExpressionProfileMapping("", "A44_Mouth_Upper_Up_Left", "Mouth_Up_Upper_L"),
    ExpressionProfileMapping("", "A45_Mouth_Upper_Up_Right", "Mouth_Up_Upper_R"),
    ExpressionProfileMapping("", "A46_Mouth_Lower_Down_Left", "Mouth_Down_Lower_L"),
    ExpressionProfileMapping("", "A47_Mouth_Lower_Down_Right", "Mouth_Down_Lower_R"),
    ExpressionProfileMapping("", "A48_Mouth_Press_Left", "Mouth_Press_L"),
    ExpressionProfileMapping("", "A49_Mouth_Press_Right", "Mouth_Press_R"),
    ExpressionProfileMapping("", "A50_Mouth_Stretch_Left", "Mouth_Stretch_L"),
    ExpressionProfileMapping("", "A51_Mouth_Stretch_Right", "Mouth_Stretch_R")
  ]

  /** Rows 52-63: tongue. */
  const TongueRows: seq<ExpressionProfileMapping> := [
    ExpressionProfileMapping("", "A52_Tongue_Out", "Tongue_Out"),
    ExpressionProfileMapping("", "T01_Tongue_Up", "Tongue_Up"),
    ExpressionProfileMapping("", "T02_Tongue_Down", "Tongue_Down"),
    ExpressionProfileMapping("", "T03_Tongue_Left", "Tongue_L"),
    ExpressionProfileMapping("", "T04_Tongue_Right", "Tongue_R"),
    ExpressionProfileMapping("", "T05_Tongue_Roll", "Tongue_Roll"),
    ExpressionProfileMapping("", "T06_Tongue_Tip_Up", "Tongue_Tip_Up"),
    ExpressionProfileMapping("", "T07_Tongue_Tip_Down", "Tongue_Tip_Down"),
    ExpressionProfileMapping("", "T08_Tongue_Width", "Tongue_Wide"),
    ExpressionProfileMapping("", "T09_Tongue_Thickness", "Tongue_Narrow"),
    ExpressionProfileMapping("", "T10_Tongue_Bulge_Left", "Tongue_Bulge_L"),
    ExpressionProfileMapping("", "T11_Tongue_Bulge_Right", "Tongue_Bulge_R")
  ]

  /** The viseme correspondence table, in scan order; no row has a Direct name. */
  const VisemeProfileMaps: seq<VisemeProfileMapping> := [
    VisemeProfileMapping("Open", "V_Open", ""),
    VisemeProfileMapping("Explosive", "V_Explosive", ""),
    VisemeProfileMapping("Dental_Lip", "V_Dental_Lip", ""),
    VisemeProfileMapping("Tight-O", "V_Tight_O", ""),
    VisemeProfileMapping("Tight", "V_Tight", ""),
    VisemeProfileMapping("Wide", "V_Wide", ""),
    VisemeProfileMapping("Affricate", "V_Affricate", ""),
    VisemeProfileMapping("Lip_Open", "V_Lip_Open", ""),
    VisemeProfileMapping("Tongue_up", "V_Tongue_up", ""),
    VisemeProfileMapping("Tongue_Raise", "V_Tongue_Raise", ""),
    VisemeProfileMapping("Tongue_Out", "V_Tongue_Out", ""),
    VisemeProfileMapping("Tongue_Narrow", "V_Tongue_Narrow", ""),
    VisemeProfileMapping("Tongue_Lower", "V_Tongue_Lower", ""),
    VisemeProfileMapping("Tongue_Curl-U", "V_Tongue_Curl_U", ""),
    VisemeProfileMapping("Tongue_Curl-D", "V_Tongue_Curl_D", "")
  ]

  /** The (correct, incorrect) brow-name pairs. */
  const Corrections: seq<MappingCorrection> := [
    MappingCorrection("Brow_Raise_Inner_L", "Brow_Raise_Inner_Left"),
    MappingCorrection("Brow_Raise_Inner_R", "Brow_Raise_Inner_Right"),
    MappingCorrection("Brow_Raise_Outer_L", "Brow_Raise_Outer_Left"),
    MappingCorrection("Brow_Raise_Outer_R", "Brow_Raise_Outer_Right"),
    MappingCorrection("Brow_Drop_L", "Brow_Drop_Left"),
    MappingCorrection("Brow_Drop_R", "Brow_Drop_Right"),
    MappingCorrection("Brow_Raise_L", "Brow_Raise_Left"),
    MappingCorrection("Brow_Raise_R", "Brow_Raise_Right")
  ]

  /** The result of a "try" lookup: whether it matched, and the out string. */
  datatype NameLookup = NameLookup(found: bool, name: string)

  /**
   * First pair whose incorrect name is `blendShapeName`: its correct name;
   * otherwise not found, with the name handed back.
   */
  function CorrectionIn(pairs: seq<MappingCorrection>, blendShapeName: string): (r: NameLookup)
    ensures r.found <==> exists i :: 0 <= i < |pairs| && pairs[i].incorrect == blendShapeName
    ensures r.found ==> exists i :: 0 <= i < |pairs| && pairs[i].incorrect == blendShapeName &&
                                   r.name == pairs[i].correct &&
                                   forall j :: 0 <= j < i ==> pairs[j].incorrect != blendShapeName
    ensures !r.found ==> r.name == blendShapeName
  {
    if pairs == [] then NameLookup(false, blendShapeName)
    else if pairs[0].incorrect == blendShapeName then NameLookup(true, pairs[0].correct)
    else
      var r := CorrectionIn(pairs[1..], blendShapeName);
      assert forall i :: 1 <= i < |pairs| ==> pairs[i] == pairs[1..][i - 1];
      r
  }

  /**
   * First pair whose correct name is `blendShapeName`: its incorrect name;
   * otherwise not found, with the name handed back.
   */
  function IncorrectionIn(pairs: seq<MappingCorrection>, blendShapeName: string): (r: NameLookup)
    ensures r.found <==> exists i :: 0 <= i < |pairs| && pairs[i].correct == blendShapeName
    ensures r.found ==> exists i :: 0 <= i < |pairs| && pairs[i].correct == blendShapeName &&
                                   r.name == pairs[i].incorrect &&
                                   forall j :: 0 <= j < i ==> pairs[j].correct != blendShapeName
    ensures !r.found ==> r.name == blendShapeName
  {
    if pairs == [] then NameLookup(false, blendShapeName)
    else if pairs[0].correct == blendShapeName then NameLookup(true, pairs[0].incorrect)
    else
      var r := IncorrectionIn(pairs[1..], blendShapeName);
      assert forall i :: 1 <= i < |pairs| ==> pairs[i] == pairs[1..][i - 1];
      r
  }

  /** No name is correct in two pairs, and none incorrect in two. */
  lemma CorrectionsUnique()
    ensures forall i, j :: 0 <= i < j < |Corrections| ==>
      Corrections[i].correct != Corrections[j].correct &&
      Corrections[i].incorrect != Corrections[j].incorrect
  {
  }

  /** Correcting a pair's incorrect name and incorrecting the result gives it back, and vice versa. */
  lemma {:induction false} CorrectionRoundTrip(i: nat)
    requires i < |Corrections|
    ensures CorrectionIn(Corrections, Corrections[i].incorrect) == NameLookup(true, Corrections[i].correct)
    ensures IncorrectionIn(Corrections, Corrections[i].correct) == NameLookup(true, Corrections[i].incorrect)
    ensures IncorrectionIn(Corrections, CorrectionIn(Corrections, Corrections[i].incorrect).name).name == Corrections[i].incorrect
    ensures CorrectionIn(Corrections, IncorrectionIn(Corrections, Corrections[i].correct).name).name == Corrections[i].correct
  {
    CorrectionsUnique();
  }
}
