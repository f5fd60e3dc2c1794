/**
 * Facts about the compiled-in tables that the general lookup lemmas need to
 * apply: which names are claimed twice, and what the rows involved say.
 */
module MapperTableFacts {
  import opened Wrappers
  import opened FacialProfiles
  import opened FacialMapping
  import opened MapperColumns

  /**
   * "Tongue_Out" is claimed both by an Extended expression row and by the
   * CC3 viseme row whose CC4 name is "V_Tongue_Out", so
   * `DoubleClaimDependsOnHistory` applies to it: from (Ext, PairsCC3) to
   * (Ext, PairsCC4) it gives "Tongue_Out" on fresh caches and "V_Tongue_Out"
   * after a (None, PairsCC3) lookup.
   */
  lemma TongueOutClaimedTwice()
    ensures ExpressionClaims(MapperTables, "Tongue_Out", ExpressionProfile.Ext)
    ensures FirstVisemeRow(VisemeProfileMaps, "Tongue_Out", VisemeProfile.PairsCC3) == Some(VisemeProfileMaps[10])
    ensures VisemeProfileMaps[10].GetMapping(VisemeProfile.PairsCC4) == Some("V_Tongue_Out")
  {
    assert FacialProfileMaps[52].HasMapping("Tongue_Out", ExpressionProfile.Ext);
    assert VisemeProfileMaps[10].HasMapping("Tongue_Out", VisemeProfile.PairsCC3);
    CC3ColumnUnique();
    VisemeRowIsFirst(VisemeProfileMaps, VisemeProfile.PairsCC3, 10, "Tongue_Out");
  }

  /** "Tongue_Narrow" is claimed twice in the same way, with CC4 name "V_Tongue_Narrow". */
  lemma TongueNarrowClaimedTwice()
    ensures ExpressionClaims(MapperTables, "Tongue_Narrow", ExpressionProfile.Ext)
    ensures FirstVisemeRow(VisemeProfileMaps, "Tongue_Narrow", VisemeProfile.PairsCC3) == Some(VisemeProfileMaps[11])
    ensures VisemeProfileMaps[11].GetMapping(VisemeProfile.PairsCC4) == Some("V_Tongue_Narrow")
  {
    assert FacialProfileMaps[61].HasMapping("Tongue_Narrow", ExpressionProfile.Ext);
    assert VisemeProfileMaps[11].HasMapping("Tongue_Narrow", VisemeProfile.PairsCC3);
    CC3ColumnUnique();
    VisemeRowIsFirst(VisemeProfileMaps, VisemeProfile.PairsCC3, 11, "Tongue_Narrow");
  }

  /**
   * "Brow_Drop_L" is a Std name that no viseme row claims, so
   * `NoneSourceSharesStdCache` applies to it for a (None, v) source with any
   * viseme dialect v.
   */
  lemma BrowDropClaimedInStd()
    ensures ExpressionClaims(MapperTables, "Brow_Drop_L", ExpressionProfile.Std)
    ensures forall v :: !VisemeClaims(MapperTables, "Brow_Drop_L", v)
  {
    assert FacialProfileMaps[1].HasMapping("Brow_Drop_L", ExpressionProfile.Std);
    NoVisemeClaims("Brow_Drop_L");
  }

  /**
   * "Open" is a CC3 name that no expression row claims in any dialect, so
   * `NoneSourceSharesCC3Cache` applies to it for a (e, None) source with any
   * expression dialect e.
   */
  lemma OpenClaimedInCC3()
    ensures VisemeClaims(MapperTables, "Open", VisemeProfile.PairsCC3)
    ensures forall d :: !ExpressionClaims(MapperTables, "Open", d)
  {
    assert VisemeProfileMaps[0].HasMapping("Open", VisemeProfile.PairsCC3);
    forall d ensures !ExpressionClaims(MapperTables, "Open", d) {
      NoExpressionClaims("Open", d);
    }
  }

  /** A name starting with a letter no expression name starts with is claimed by no expression row. */
  lemma NoExpressionClaims(blendShapeName: string, d: ExpressionProfile)
    requires blendShapeName != "" && blendShapeName[0] !in ExpressionTableLetters
    ensures !ExpressionClaims(MapperTables, blendShapeName, d)
  {
    ExpressionTableInitials(d);
    InitialExcludesClaim(FacialProfileMaps, d, ExpressionTableLetters, blendShapeName);
  }

  /** A name starting with a letter no viseme name starts with is claimed by no viseme row. */
  lemma NoVisemeClaims(blendShapeName: string)
    requires blendShapeName != "" && blendShapeName[0] !in VisemeTableLetters
    ensures forall d :: !VisemeClaims(MapperTables, blendShapeName, d)
  {
    forall d ensures !VisemeClaims(MapperTables, blendShapeName, d) {
      VisemeTableInitials(d);
      VisemeInitialExcludesClaim(VisemeProfileMaps, d, VisemeTableLetters, blendShapeName);
    }
  }

  /** Each expression column of the compiled-in table names each shape once. */
  lemma MapperExpressionColumnUnique(d: ExpressionProfile)
    ensures ExpressionColumnUnique(FacialProfileMaps, d)
  {
    match d
    case Std => StdColumnUnique();
    case ExPlus => ExPlusColumnUnique();
    case Ext => ExtColumnUnique();
    case None =>
  }

  /** Each viseme column of the compiled-in table names each viseme once. */
  lemma MapperVisemeColumnUnique(d: VisemeProfile)
    ensures VisemeColumnUnique(VisemeProfileMaps, d)
  {
    match d
    case PairsCC3 => CC3ColumnUnique();
    case PairsCC4 => CC4ColumnUnique();
    case Direct => DirectColumnEmpty();
    case None =>
  }

  /** In the compiled-in expression table, a row's own name in a dialect finds that row first. */
  lemma MapperExpressionRowIsFirst(i: nat, d: ExpressionProfile)
    requires i < |FacialProfileMaps|
    ensures var name := FacialProfileMaps[i].GetMapping(d);
      !IsNullOrEmpty(name) ==> FirstExpressionRow(FacialProfileMaps, name.value, d) == Some(FacialProfileMaps[i])
  {
    var name := FacialProfileMaps[i].GetMapping(d);
    if !IsNullOrEmpty(name) {
      MapperExpressionColumnUnique(d);
      ExpressionRowIsFirst(FacialProfileMaps, d, i, name.value);
    }
  }

  /** In the compiled-in viseme table, a row's own name in a dialect finds that row first. */
  lemma MapperVisemeRowIsFirst(i: nat, d: VisemeProfile)
    requires i < |VisemeProfileMaps|
    ensures var name := VisemeProfileMaps[i].GetMapping(d);
      !IsNullOrEmpty(name) ==> FirstVisemeRow(VisemeProfileMaps, name.value, d) == Some(VisemeProfileMaps[i])
  {
    var name := VisemeProfileMaps[i].GetMapping(d);
    if !IsNullOrEmpty(name) {
      MapperVisemeColumnUnique(d);
      VisemeRowIsFirst(VisemeProfileMaps, d, i, name.value);
    }
  }

  /**
   * A source whose viseme dialect is CC4 or Direct, and whose expression
   * dialect is not None, reads every name unambiguously: no CC4 name is an
   * expression name (the CC4 names start with V, no expression name does),
   * and no row claims a Direct name.
   */
  lemma UnambiguousBesideCC4(blendShapeName: string, from: FacialProfile)
    requires from.expressionProfile != ExpressionProfile.None
    requires from.visemeProfile == VisemeProfile.PairsCC4 || from.visemeProfile == VisemeProfile.Direct
    ensures Unambiguous(MapperTables, blendShapeName, from)
  {
    if from.visemeProfile == VisemeProfile.Direct {
      NoDirectClaims(blendShapeName);
    } else {
      CC4NamesNotExpressions(blendShapeName, from.expressionProfile);
    }
  }

  /** No name is both a CC4 name and an expression name. */
  lemma CC4NamesNotExpressions(blendShapeName: string, d: ExpressionProfile)
    ensures !(ExpressionClaims(MapperTables, blendShapeName, d) && VisemeClaims(MapperTables, blendShapeName, VisemeProfile.PairsCC4))
  {
    if blendShapeName != "" && blendShapeName[0] == 'V' {
      NoExpressionClaims(blendShapeName, d);
    } else {
      OnlyVNamesAreCC4(blendShapeName);
    }
  }

  /** Every CC4 name starts with V. */
  lemma OnlyVNamesAreCC4(blendShapeName: string)
    requires blendShapeName == "" || blendShapeName[0] != 'V'
    ensures !VisemeClaims(MapperTables, blendShapeName, VisemeProfile.PairsCC4)
  {
    VisemeTableInitials(VisemeProfile.PairsCC4);
    VisemeInitialExcludesClaim(VisemeProfileMaps, VisemeProfile.PairsCC4, {'V'}, blendShapeName);
  }

  /**
   * What a row of the compiled-in expression table promises: its name in the
   * source's dialect, when unambiguous, translates under any valid caches to
   * its name in the target's dialect (or to itself where that is empty).
   */
  lemma MapperExpressionRowTranslates(c: Caches, i: nat, from: FacialProfile, to: FacialProfile)
    requires CachesValid(MapperTables, c) && i < |FacialProfileMaps|
    ensures var name := FacialProfileMaps[i].GetMapping(from.expressionProfile);
      !IsNullOrEmpty(name) && Unambiguous(MapperTables, name.value, from) ==>
        var r := ProfileMapping(MapperTables, c, name.value, from, to);
        r.found && r.mapping == OrName(FacialProfileMaps[i].GetMapping(to.expressionProfile), name.value)
  {
    var name := FacialProfileMaps[i].GetMapping(from.expressionProfile);
    if !IsNullOrEmpty(name) && Unambiguous(MapperTables, name.value, from) {
      MapperExpressionColumnUnique(from.expressionProfile);
      ExpressionRowTranslates(MapperTables, c, i, name.value, from, to);
    }
  }

  /** What a row of the compiled-in viseme table promises, in the same sense. */
  lemma MapperVisemeRowTranslates(c: Caches, i: nat, from: FacialProfile, to: FacialProfile)
    requires CachesValid(MapperTables, c) && i < |VisemeProfileMaps|
    ensures var name := VisemeProfileMaps[i].GetMapping(from.visemeProfile);
      !IsNullOrEmpty(name) && Unambiguous(MapperTables, name.value, from) ==>
        var r := ProfileMapping(MapperTables, c, name.value, from, to);
        r.found && r.mapping == OrName(VisemeProfileMaps[i].GetMapping(to.visemeProfile), name.value)
  {
    var name := VisemeProfileMaps[i].GetMapping(from.visemeProfile);
    if !IsNullOrEmpty(name) && Unambiguous(MapperTables, name.value, from) {
      MapperVisemeColumnUnique(from.visemeProfile);
      VisemeRowTranslates(MapperTables, c, i, name.value, from, to);
    }
  }

  /**
   * Between two profiles that both read visemes as CC4 (or Direct) and
   * expressions in some dialect, every row of the compiled-in expression
   * table that names its shape in both dialects round-trips: its name goes
   * there and comes back, whatever valid caches the lookups start from.
   */
  lemma MapperExpressionRowRoundTrip(c: Caches, i: nat, a: FacialProfile, b: FacialProfile)
    requires CachesValid(MapperTables, c) && i < |FacialProfileMaps|
    requires a.expressionProfile != ExpressionProfile.None && b.expressionProfile != ExpressionProfile.None
    requires a.visemeProfile == VisemeProfile.PairsCC4 || a.visemeProfile == VisemeProfile.Direct
    requires b.visemeProfile == VisemeProfile.PairsCC4 || b.visemeProfile == VisemeProfile.Direct
    ensures var x := FacialProfileMaps[i].GetMapping(a.expressionProfile).value;
      var y := FacialProfileMaps[i].GetMapping(b.expressionProfile).value;
      x != "" && y != "" ==>
        var there := ProfileMapping(MapperTables, c, x, a, b);
        && there.found && there.mapping == y
        && var back := ProfileMapping(MapperTables, there.caches, y, b, a);
           back.found && back.mapping == x
  {
    var x := FacialProfileMaps[i].GetMapping(a.expressionProfile).value;
    var y := FacialProfileMaps[i].GetMapping(b.expressionProfile).value;
    if x != "" && y != "" {
      UnambiguousBesideCC4(x, a);
      UnambiguousBesideCC4(y, b);
      MapperExpressionColumnUnique(a.expressionProfile);
      MapperExpressionColumnUnique(b.expressionProfile);
      ExpressionRowRoundTrip(MapperTables, c, i, a, b, x, y);
    }
  }

  /**
   * The same round trip through a row of the compiled-in viseme table, for
   * names unambiguous for their profiles (a CC3 name that is also an Extended
   * expression name, such as "Tongue_Out", is not).
   */
  lemma MapperVisemeRowRoundTrip(c: Caches, i: nat, a: FacialProfile, b: FacialProfile)
    requires CachesValid(MapperTables, c) && i < |VisemeProfileMaps|
    ensures var x := VisemeProfileMaps[i].GetMapping(a.visemeProfile);
      var y := VisemeProfileMaps[i].GetMapping(b.visemeProfile);
      !IsNullOrEmpty(x) && !IsNullOrEmpty(y) && Unambiguous(MapperTables, x.value, a) && Unambiguous(MapperTables, y.value, b) ==>
        var there := ProfileMapping(MapperTables, c, x.value, a, b);
        && there.found && there.mapping == y.value
        && var back := ProfileMapping(MapperTables, there.caches, y.value, b, a);
           back.found && back.mapping == x.value
  {
    var x := VisemeProfileMaps[i].GetMapping(a.visemeProfile);
    var y := VisemeProfileMaps[i].GetMapping(b.visemeProfile);
    if !IsNullOrEmpty(x) && !IsNullOrEmpty(y) && Unambiguous(MapperTables, x.value, a) && Unambiguous(MapperTables, y.value, b) {
      MapperVisemeColumnUnique(a.visemeProfile);
      MapperVisemeColumnUnique(b.visemeProfile);
      VisemeRowRoundTrip(MapperTables, c, i, a, b, x.value, y.value);
    }
  }

  /** Every viseme name is at most 15 characters long. */
  lemma VisemeNamesShort()
    ensures forall j :: 0 <= j < |VisemeProfileMaps| ==>
      |VisemeProfileMaps[j].CC3| <= 15 && |VisemeProfileMaps[j].CC4| <= 15 && |VisemeProfileMaps[j].Direct| <= 15
  {
  }

  /** Hence a longer name is claimed by no viseme row. */
  lemma LongNamesNotVisemes(blendShapeName: string)
    requires |blendShapeName| > 15
    ensures forall d :: !VisemeClaims(MapperTables, blendShapeName, d)
  {
    VisemeNamesShort();
  }

  /**
   * The names a round trip through corrections 2-5 passes through: the
   * corrected name is brow row 3, 4, 1 or 2's Std and Extended name, the row
   * names the shape in every expression dialect, and both names are read
   * unambiguously (no viseme name starts with B, and none is as long as the
   * ExPlus brow names).
   */
  lemma BrowCorrectionNames(i: nat, defective: FacialProfile, clean: FacialProfile)
    requires 2 <= i < 6
    requires defective.expressionProfile == ExpressionProfile.Std || defective.expressionProfile == ExpressionProfile.Ext
    requires clean.expressionProfile != ExpressionProfile.None
    ensures var row := if i < 4 then i + 1 else i - 3;
      var y := FacialProfileMaps[row].GetMapping(clean.expressionProfile).value;
      && FacialProfileMaps[row].HasMapping(Corrections[i].correct, defective.expressionProfile)
      && FacialProfileMaps[row].HasMapping(y, clean.expressionProfile)
      && Unambiguous(MapperTables, Corrections[i].correct, defective)
      && Unambiguous(MapperTables, y, clean)
  {
    var row := if i < 4 then i + 1 else i - 3;
    var x := Corrections[i].correct;
    var y := FacialProfileMaps[row].GetMapping(clean.expressionProfile).value;
    assert FacialProfileMaps[row] == BrowEyeRows[row];
    assert x == FacialProfileMaps[row].Standard == FacialProfileMaps[row].Extended;
    assert y != "";
    NoVisemeClaims(x);
    if y != x {
      assert |y| > 15;
      LongNamesNotVisemes(y);
    }
  }

  /**
   * The correction layer round-trips for the four malformed brow names whose
   * corrected names are rows of the table (Brow_Raise_Outer_Left/Right,
   * Brow_Drop_Left/Right): from a profile with corrections that reads them as
   * Std or Ext names, the malformed name goes to the brow row's name in the
   * clean profile's dialect and comes back as the malformed name.
   */
  lemma BrowCorrectionsRoundTrip(c: Caches, i: nat, defective: FacialProfile, clean: FacialProfile)
    requires CachesValid(MapperTables, c) && 2 <= i < 6
    requires defective.corrections && !clean.corrections
    requires defective.expressionProfile == ExpressionProfile.Std || defective.expressionProfile == ExpressionProfile.Ext
    requires clean.expressionProfile != ExpressionProfile.None
    ensures var row := if i < 4 then i + 1 else i - 3;
      var there := MappingFrom(MapperTables, c, clean, Corrections[i].incorrect, defective);
      && there.name == FacialProfileMaps[row].GetMapping(clean.expressionProfile).value
      && MappingFrom(MapperTables, there.caches, defective, there.name, clean).name == Corrections[i].incorrect
  {
    var row := if i < 4 then i + 1 else i - 3;
    var y := FacialProfileMaps[row].GetMapping(clean.expressionProfile).value;
    BrowCorrectionNames(i, defective, clean);
    MapperExpressionColumnUnique(defective.expressionProfile);
    MapperExpressionColumnUnique(clean.expressionProfile);
    ExpressionRowRoundTrip(MapperTables, c, row, defective, clean, Corrections[i].correct, y);
    CorrectionLayerRoundTrip(MapperTables, c, i, defective, clean);
  }

  /** No ExPlus name starts with B: the brow-and-eye ExPlus names start with A or E, the others are lower-face names. */
  lemma BrowNamesNotExPlus(blendShapeName: string)
    requires blendShapeName != "" && blendShapeName[0] == 'B'
    ensures !ExpressionClaims(MapperTables, blendShapeName, ExpressionProfile.ExPlus)
  {
    ExPlusBrowEyeInitials();
    InitialExcludesClaim(BrowEyeRows, ExpressionProfile.ExPlus, {'A', 'E'}, blendShapeName);
    BrowNamesNotLowerFace(blendShapeName, ExpressionProfile.ExPlus);
    UnclaimedInRegions(MapperTables, BrowEyeRows, CheekNoseJawRows, MouthRows, TongueRows, blendShapeName, ExpressionProfile.ExPlus);
  }

  /**
   * The four malformed names that round-trip from a Std or Ext profile
   * (corrections 2-5) do not round-trip from a profile with corrections
   * that reads expressions as ExPlus (a CC3+ExPlus export): the
   * corrected name is a Std and Extended name but no ExPlus name, so it goes
   * over unchanged, and from a Std or Ext clean profile it comes back as the
   * brow row's ExPlus name ("A02_Brow_Down_Left" for "Brow_Drop_Left"), not
   * as the malformed name.
   */
  lemma ExPlusCorrectionsStayCorrected(c: Caches, i: nat, defective: FacialProfile, clean: FacialProfile)
    requires CachesValid(MapperTables, c) && 2 <= i < 6
    requires defective.corrections && !clean.corrections
    requires defective.expressionProfile == ExpressionProfile.ExPlus
    requires clean.expressionProfile == ExpressionProfile.Std || clean.expressionProfile == ExpressionProfile.Ext
    ensures var row := if i < 4 then i + 1 else i - 3;
      var there := MappingFrom(MapperTables, c, clean, Corrections[i].incorrect, defective);
      && there == Translation(Corrections[i].correct, c)
      && MappingFrom(MapperTables, c, defective, there.name, clean).name == FacialProfileMaps[row].ExPlus
      && FacialProfileMaps[row].ExPlus != Corrections[i].incorrect
  {
    ExPlusCorrectionGoesOver(c, i, defective, clean);
    ExPlusCorrectionComesBack(c, i, defective, clean);
    BrowExPlusNamesNotCorrections(i);
  }

  /** The malformed name goes over as its corrected name, which no ExPlus or viseme row claims. */
  lemma ExPlusCorrectionGoesOver(c: Caches, i: nat, defective: FacialProfile, clean: FacialProfile)
    requires CachesValid(MapperTables, c) && 2 <= i < 6
    requires defective.corrections && defective.expressionProfile == ExpressionProfile.ExPlus
    ensures MappingFrom(MapperTables, c, clean, Corrections[i].incorrect, defective) == Translation(Corrections[i].correct, c)
  {
    var correct := Corrections[i].correct;
    CorrectionRoundTrip(i);
    BrowCorrectionsStartWithB(i);
    BrowNamesNotViseme(correct);
    BrowNamesNotExPlus(correct);
    assert !ExpressionClaims(MapperTables, correct, ExpressionCacheDialect(defective.expressionProfile));
    assert !VisemeClaims(MapperTables, correct, VisemeCacheDialect(defective.visemeProfile));
    MappingFromFallback(MapperTables, c, clean, Corrections[i].incorrect, defective);
  }

  /** No viseme name starts with B. */
  lemma BrowNamesNotViseme(blendShapeName: string)
    requires blendShapeName != "" && blendShapeName[0] == 'B'
    ensures forall v :: !VisemeClaims(MapperTables, blendShapeName, v)
  {
    NoVisemeClaims(blendShapeName);
  }

  /** Every correct and incorrect brow name starts with B. */
  lemma BrowCorrectionsStartWithB(i: nat)
    requires i < |Corrections|
    ensures Corrections[i].correct != "" && Corrections[i].correct[0] == 'B'
    ensures Corrections[i].incorrect != "" && Corrections[i].incorrect[0] == 'B'
  {
  }

  /** The corrected name comes back from a Std or Ext profile as the brow row's ExPlus name. */
  lemma ExPlusCorrectionComesBack(c: Caches, i: nat, defective: FacialProfile, clean: FacialProfile)
    requires CachesValid(MapperTables, c) && 2 <= i < 6
    requires defective.expressionProfile == ExpressionProfile.ExPlus && !clean.corrections
    requires clean.expressionProfile == ExpressionProfile.Std || clean.expressionProfile == ExpressionProfile.Ext
    ensures var row := if i < 4 then i + 1 else i - 3;
      MappingFrom(MapperTables, c, defective, Corrections[i].correct, clean).name == FacialProfileMaps[row].ExPlus
  {
    var row := if i < 4 then i + 1 else i - 3;
    var correct := Corrections[i].correct;
    BrowCorrectionNames(i, clean, defective);
    MapperExpressionColumnUnique(clean.expressionProfile);
    ExpressionRowTranslates(MapperTables, c, row, correct, clean, defective);
    MappingFromUncorrectedName(MapperTables, c, defective, correct, clean);
    BrowExPlusNamesNotCorrections(i);
  }

  /** The ExPlus names of brow rows 1-4 start with A, so they are no pair's correct or incorrect name. */
  lemma BrowExPlusNamesNotCorrections(i: nat)
    requires 2 <= i < 6
    ensures var row := if i < 4 then i + 1 else i - 3;
      && !IncorrectionIn(Corrections, FacialProfileMaps[row].ExPlus).found
      && FacialProfileMaps[row].ExPlus != Corrections[i].incorrect
  {
    var row := if i < 4 then i + 1 else i - 3;
    assert FacialProfileMaps[row] == BrowEyeRows[row];
    assert FacialProfileMaps[row].ExPlus[0] == 'A';
    assert forall k :: 0 <= k < |Corrections| ==> Corrections[k].correct[0] == 'B' && Corrections[k].incorrect[0] == 'B';
  }

  /** No brow row's Std or Extended name is one of the four corrected names that name no row. */
  lemma UnlistedBrowNamesNotBrowRows(i: nat)
    requires i < |Corrections| && (i < 2 || 6 <= i)
    ensures forall j :: 0 <= j < 5 ==>
      BrowEyeRows[j].Standard != Corrections[i].correct && BrowEyeRows[j].Extended != Corrections[i].correct
  {
  }

  /** Hence none of the five brow rows claims them in Std or Extended. */
  lemma UnlistedBrowNamesNotBrowRowsClaim(i: nat, d: ExpressionProfile)
    requires i < |Corrections| && (i < 2 || 6 <= i)
    requires d == ExpressionProfile.Std || d == ExpressionProfile.Ext
    ensures FirstExpressionRow(BrowEyeRows[..5], Corrections[i].correct, d) == Option.None
  {
    UnlistedBrowNamesNotBrowRows(i);
    assert forall j :: 0 <= j < 5 ==> !BrowEyeRows[..5][j].HasMapping(Corrections[i].correct, d);
  }

  /** Nor any eye row, whose Std and Extended names start with E. */
  lemma UnlistedBrowNamesNotBrowEyeStdExt(i: nat, d: ExpressionProfile)
    requires i < |Corrections| && (i < 2 || 6 <= i)
    requires d == ExpressionProfile.Std || d == ExpressionProfile.Ext
    ensures FirstExpressionRow(BrowEyeRows, Corrections[i].correct, d) == Option.None
  {
    var name := Corrections[i].correct;
    assert name[0] == 'B';
    UnlistedBrowNamesNotBrowRowsClaim(i, d);
    EyeRowsInitials();
    InitialExcludesClaim(BrowEyeRows[5..], d, {'E'}, name);
    UnclaimedInAppend(BrowEyeRows[..5], BrowEyeRows[5..], name, d);
    assert BrowEyeRows[..5] + BrowEyeRows[5..] == BrowEyeRows;
  }

  /** Nor in ExPlus, where the brow-and-eye names start with A or E: no brow-and-eye row claims them. */
  lemma UnlistedBrowNamesNotBrowEye(i: nat, d: ExpressionProfile)
    requires i < |Corrections| && (i < 2 || 6 <= i)
    ensures FirstExpressionRow(BrowEyeRows, Corrections[i].correct, d) == Option.None
  {
    var name := Corrections[i].correct;
    assert name != "" && name[0] == 'B';
    if d == ExpressionProfile.ExPlus {
      ExPlusBrowEyeInitials();
      InitialExcludesClaim(BrowEyeRows, d, {'A', 'E'}, name);
    } else if d != ExpressionProfile.None {
      UnlistedBrowNamesNotBrowEyeStdExt(i, d);
    }
  }

  /** No row below the brows and eyes claims a name starting with B, in any dialect. */
  lemma BrowNamesNotLowerFace(blendShapeName: string, d: ExpressionProfile)
    requires blendShapeName != "" && blendShapeName[0] == 'B'
    ensures FirstExpressionRow(CheekNoseJawRows, blendShapeName, d) == Option.None
    ensures FirstExpressionRow(MouthRows, blendShapeName, d) == Option.None
    ensures FirstExpressionRow(TongueRows, blendShapeName, d) == Option.None
  {
    LowerFaceInitials(d);
    InitialExcludesClaim(CheekNoseJawRows, d, LowerFaceLetters, blendShapeName);
    InitialExcludesClaim(MouthRows, d, LowerFaceLetters, blendShapeName);
    InitialExcludesClaim(TongueRows, d, LowerFaceLetters, blendShapeName);
  }

  /**
   * The other four corrections name no row: "Brow_Raise_Inner_L/R" and
   * "Brow_Raise_L/R" are in no expression column (the table's own inner
   * brow row is "Brow_Raise_Inner_L/R", and there is no plain raise row;
   * the ExPlus names start with A, E or T)...
   */
  lemma UnlistedBrowNamesNoExpression(i: nat, d: ExpressionProfile)
    requires i < |Corrections| && (i < 2 || 6 <= i)
    ensures !ExpressionClaims(MapperTables, Corrections[i].correct, d)
  {
    var name := Corrections[i].correct;
    assert name != "" && name[0] == 'B';
    UnlistedBrowNamesNotBrowEye(i, d);
    BrowNamesNotLowerFace(name, d);
    UnclaimedInRegions(MapperTables, BrowEyeRows, CheekNoseJawRows, MouthRows, TongueRows, name, d);
  }

  /** ... and in no viseme column, where no name starts with B. */
  lemma UnlistedBrowNamesNoViseme(i: nat, v: VisemeProfile)
    requires i < |Corrections| && (i < 2 || 6 <= i)
    ensures !VisemeClaims(MapperTables, Corrections[i].correct, v)
  {
    var name := Corrections[i].correct;
    assert name[0] == 'B';
    NoVisemeClaims(name);
  }

  /**
   * Hence those four malformed names do not round-trip: a profile with
   * corrections sends each to its corrected name, which is then found
   * nowhere, and that corrected name comes back from the clean profile
   * unchanged rather than as the malformed name. The caches are untouched
   * both ways.
   */
  lemma UnlistedCorrectionsStayCorrected(c: Caches, i: nat, defective: FacialProfile, clean: FacialProfile)
    requires CachesValid(MapperTables, c) && i < |Corrections| && (i < 2 || 6 <= i)
    requires defective.corrections && !clean.corrections
    ensures var there := MappingFrom(MapperTables, c, clean, Corrections[i].incorrect, defective);
      && there == Translation(Corrections[i].correct, c)
      && MappingFrom(MapperTables, c, defective, there.name, clean) == Translation(Corrections[i].correct, c)
      && Corrections[i].correct != Corrections[i].incorrect
  {
    CorrectionRoundTrip(i);
    UnlistedBrowNamesNoExpression(i, ExpressionCacheDialect(defective.expressionProfile));
    UnlistedBrowNamesNoViseme(i, VisemeCacheDialect(defective.visemeProfile));
    MappingFromFallback(MapperTables, c, clean, Corrections[i].incorrect, defective);
    UnlistedBrowNamesNoExpression(i, ExpressionCacheDialect(clean.expressionProfile));
    UnlistedBrowNamesNoViseme(i, VisemeCacheDialect(clean.visemeProfile));
    MappingFromFallback(MapperTables, c, defective, Corrections[i].correct, clean);
  }
}
