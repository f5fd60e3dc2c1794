/**
 * The compiled-in tables name each shape once per dialect: in every column no
 * non-empty name appears in two rows. The expression table is checked region
 * by region (the four constants it is written in), so that each proof
 * compares few pairs of literal names; the append lemmas put the regions back
 * together. Regions whose names start with different letters are kept apart
 * by their initials alone.
 */
module MapperColumns {
  import opened Wrappers
  import opened FacialProfiles
  import opened FacialMapping

  /** No non-empty name of `a` in dialect `d` is also a name of `b` in `d`. */
  ghost predicate ExpressionColumnsApart(a: seq<ExpressionProfileMapping>, b: seq<ExpressionProfileMapping>, d: ExpressionProfile) {
    match d
    case Std => forall i, j :: 0 <= i < |a| && 0 <= j < |b| && a[i].Standard != "" ==> a[i].Standard != b[j].Standard
    case ExPlus => forall i, j :: 0 <= i < |a| && 0 <= j < |b| && a[i].ExPlus != "" ==> a[i].ExPlus != b[j].ExPlus
    case Ext => forall i, j :: 0 <= i < |a| && 0 <= j < |b| && a[i].Extended != "" ==> a[i].Extended != b[j].Extended
    case None => true
  }

  /** Two unique columns with no name in common make a unique column. */
  lemma ExpressionColumnUniqueAppend(a: seq<ExpressionProfileMapping>, b: seq<ExpressionProfileMapping>, d: ExpressionProfile)
    requires ExpressionColumnUnique(a, d) && ExpressionColumnUnique(b, d) && ExpressionColumnsApart(a, b, d)
    ensures ExpressionColumnUnique(a + b, d)
  {
    assert forall i :: 0 <= i < |a| ==> (a + b)[i] == a[i];
    assert forall i :: |a| <= i < |a + b| ==> (a + b)[i] == b[i - |a|];
  }

  /** Being apart from a column is kept when two columns are joined. */
  lemma ExpressionColumnsApartAppend(a: seq<ExpressionProfileMapping>, b: seq<ExpressionProfileMapping>, c: seq<ExpressionProfileMapping>, d: ExpressionProfile)
    requires ExpressionColumnsApart(a, c, d) && ExpressionColumnsApart(b, c, d)
    ensures ExpressionColumnsApart(a + b, c, d)
  {
    assert forall i :: 0 <= i < |a| ==> (a + b)[i] == a[i];
    assert forall i :: |a| <= i < |a + b| ==> (a + b)[i] == b[i - |a|];
  }

  /** Four unique regions, pairwise apart, make a unique table. */
  lemma ExpressionColumnUniqueFromRegions(r0: seq<ExpressionProfileMapping>, r1: seq<ExpressionProfileMapping>,
                                          r2: seq<ExpressionProfileMapping>, r3: seq<ExpressionProfileMapping>, d: ExpressionProfile)
    requires ExpressionColumnUnique(r0, d) && ExpressionColumnUnique(r1, d)
    requires ExpressionColumnUnique(r2, d) && ExpressionColumnUnique(r3, d)
    requires ExpressionColumnsApart(r0, r1, d) && ExpressionColumnsApart(r0, r2, d) && ExpressionColumnsApart(r0, r3, d)
    requires ExpressionColumnsApart(r1, r2, d) && ExpressionColumnsApart(r1, r3, d) && ExpressionColumnsApart(r2, r3, d)
    ensures ExpressionColumnUnique(r0 + r1 + r2 + r3, d)
  {
    ExpressionColumnUniqueAppend(r0, r1, d);
    ExpressionColumnsApartAppend(r0, r1, r2, d);
    ExpressionColumnUniqueAppend(r0 + r1, r2, d);
    ExpressionColumnsApartAppend(r0, r1, r3, d);
    ExpressionColumnsApartAppend(r0 + r1, r2, r3, d);
    ExpressionColumnUniqueAppend(r0 + r1 + r2, r3, d);
  }

  /** Every non-empty name of `rows` in dialect `d` starts with one of `initials`. */
  ghost predicate ExpressionInitials(rows: seq<ExpressionProfileMapping>, d: ExpressionProfile, initials: set<char>) {
    match d
    case Std => forall i :: 0 <= i < |rows| && rows[i].Standard != "" ==> rows[i].Standard[0] in initials
    case ExPlus => forall i :: 0 <= i < |rows| && rows[i].ExPlus != "" ==> rows[i].ExPlus[0] in initials
    case Ext => forall i :: 0 <= i < |rows| && rows[i].Extended != "" ==> rows[i].Extended[0] in initials
    case None => true
  }

  /** Columns whose names start with different letters have no name in common. */
  lemma InitialsKeepApart(a: seq<ExpressionProfileMapping>, b: seq<ExpressionProfileMapping>, d: ExpressionProfile, ia: set<char>, ib: set<char>)
    requires ExpressionInitials(a, d, ia) && ExpressionInitials(b, d, ib) && ia !! ib
    ensures ExpressionColumnsApart(a, b, d)
  {
    match d
    case Std =>
      forall i, j | 0 <= i < |a| && 0 <= j < |b| && a[i].Standard != "" ensures a[i].Standard != b[j].Standard {
        assert a[i].Standard[0] in ia;
        if b[j].Standard != "" { assert b[j].Standard[0] in ib; }
      }
    case ExPlus =>
      forall i, j | 0 <= i < |a| && 0 <= j < |b| && a[i].ExPlus != "" ensures a[i].ExPlus != b[j].ExPlus {
        assert a[i].ExPlus[0] in ia;
        if b[j].ExPlus != "" { assert b[j].ExPlus[0] in ib; }
      }
    case Ext =>
      forall i, j | 0 <= i < |a| && 0 <= j < |b| && a[i].Extended != "" ensures a[i].Extended != b[j].Extended {
        assert a[i].Extended[0] in ia;
        if b[j].Extended != "" { assert b[j].Extended[0] in ib; }
      }
    case None =>
  }

  /** A column cut in three pieces is unique when each piece is and the pieces share no name. */
  lemma ExpressionColumnUniqueInPieces(rows: seq<ExpressionProfileMapping>, k1: nat, k2: nat, d: ExpressionProfile)
    requires k1 <= k2 <= |rows|
    requires ExpressionColumnUnique(rows[..k1], d) && ExpressionColumnUnique(rows[k1..k2], d) && ExpressionColumnUnique(rows[k2..], d)
    requires ExpressionColumnsApart(rows[..k1], rows[k1..k2], d) && ExpressionColumnsApart(rows[..k1], rows[k2..], d)
    requires ExpressionColumnsApart(rows[k1..k2], rows[k2..], d)
    ensures ExpressionColumnUnique(rows, d)
  {
    assert rows == rows[..k1] + rows[k1..k2] + rows[k2..];
    ExpressionColumnUniqueAppend(rows[..k1], rows[k1..k2], d);
    ExpressionColumnsApartAppend(rows[..k1], rows[k1..k2], rows[k2..], d);
    ExpressionColumnUniqueAppend(rows[..k1] + rows[k1..k2], rows[k2..], d);
  }

  /** A column cut in three pieces shares no name with `b` when no piece does. */
  lemma ExpressionColumnsApartInPieces(rows: seq<ExpressionProfileMapping>, k1: nat, k2: nat, b: seq<ExpressionProfileMapping>, d: ExpressionProfile)
    requires k1 <= k2 <= |rows|
    requires ExpressionColumnsApart(rows[..k1], b, d) && ExpressionColumnsApart(rows[k1..k2], b, d) && ExpressionColumnsApart(rows[k2..], b, d)
    ensures ExpressionColumnsApart(rows, b, d)
  {
    assert rows == rows[..k1] + rows[k1..k2] + rows[k2..];
    ExpressionColumnsApartAppend(rows[..k1], rows[k1..k2], b, d);
    ExpressionColumnsApartAppend(rows[..k1] + rows[k1..k2], rows[k2..], b, d);
  }

  /** `a` shares no name with a column cut in three pieces when it shares none with any piece. */
  lemma ExpressionColumnsApartFromPieces(a: seq<ExpressionProfileMapping>, rows: seq<ExpressionProfileMapping>, k1: nat, k2: nat, d: ExpressionProfile)
    requires k1 <= k2 <= |rows|
    requires ExpressionColumnsApart(a, rows[..k1], d) && ExpressionColumnsApart(a, rows[k1..k2], d) && ExpressionColumnsApart(a, rows[k2..], d)
    ensures ExpressionColumnsApart(a, rows, d)
  {
    assert rows == rows[..k1] + rows[k1..k2] + rows[k2..];
    assert forall j :: 0 <= j < |rows| ==> rows[j] in rows[..k1] || rows[j] in rows[k1..k2] || rows[j] in rows[k2..];
  }

  /** The Standard names of the brow-and-eye rows start with {'B', 'E'}. */
  lemma StdBrowEyeInitials()
    ensures ExpressionInitials(BrowEyeRows, ExpressionProfile.Std, {'B', 'E'})
  {
  }

  /** The Standard names of the cheek, nose and jaw rows start with {'C', 'N'}. */
  lemma StdCheekNoseJawInitials()
    ensures ExpressionInitials(CheekNoseJawRows, ExpressionProfile.Std, {'C', 'N'})
  {
  }

  /** The Standard names of the mouth rows start with {'M'}. */
  lemma StdMouthInitials()
    ensures ExpressionInitials(MouthRows, ExpressionProfile.Std, {'M'})
  {
  }

  /** The Standard names of the tongue rows start with {} (the tongue rows have none). */
  lemma StdTongueInitials()
    ensures ExpressionInitials(TongueRows, ExpressionProfile.Std, {})
  {
  }

  /** The Extended names of the brow-and-eye rows start with {'B', 'E'}. */
  lemma ExtBrowEyeInitials()
    ensures ExpressionInitials(BrowEyeRows, ExpressionProfile.Ext, {'B', 'E'})
  {
  }

  /** The Extended names of the cheek, nose and jaw rows start with {'C', 'N', 'J'}. */
  lemma ExtCheekNoseJawInitials()
    ensures ExpressionInitials(CheekNoseJawRows, ExpressionProfile.Ext, {'C', 'N', 'J'})
  {
  }

  /** The Extended names of the mouth rows start with {'M'}. */
  lemma ExtMouthInitials()
    ensures ExpressionInitials(MouthRows, ExpressionProfile.Ext, {'M'})
  {
  }

  /** The Extended names of the tongue rows start with {'T'}. */
  lemma ExtTongueInitials()
    ensures ExpressionInitials(TongueRows, ExpressionProfile.Ext, {'T'})
  {
  }

  /** No two rows of piece 0 of the brow-and-eye rows share a Standard name. */
  lemma StdBrowEyeUnique0()
    ensures ExpressionColumnUnique(BrowEyeRows[..7], ExpressionProfile.Std)
  {
    forall i | 0 <= i < |BrowEyeRows[..7]| && BrowEyeRows[..7][i].Standard != "" ensures forall j :: i < j < |BrowEyeRows[..7]| ==> BrowEyeRows[..7][i].Standard != BrowEyeRows[..7][j].Standard {
    }
  }

  /** No two rows of piece 1 of the brow-and-eye rows share a Standard name. */
  lemma StdBrowEyeUnique1()
    ensures ExpressionColumnUnique(BrowEyeRows[7..14], ExpressionProfile.Std)
  {
    forall i | 0 <= i < |BrowEyeRows[7..14]| && BrowEyeRows[7..14][i].Standard != "" ensures forall j :: i < j < |BrowEyeRows[7..14]| ==> BrowEyeRows[7..14][i].Standard != BrowEyeRows[7..14][j].Standard {
    }
  }

  /** No two rows of piece 2 of the brow-and-eye rows share a Standard name. */
  lemma StdBrowEyeUnique2()
    ensures ExpressionColumnUnique(BrowEyeRows[14..], ExpressionProfile.Std)
  {
    forall i | 0 <= i < |BrowEyeRows[14..]| && BrowEyeRows[14..][i].Standard != "" ensures forall j :: i < j < |BrowEyeRows[14..]| ==> BrowEyeRows[14..][i].Standard != BrowEyeRows[14..][j].Standard {
    }
  }

  /** Pieces 0 and 1 of the brow-and-eye rows share no Standard name. */
  lemma StdBrowEyeApart01()
    ensures ExpressionColumnsApart(BrowEyeRows[..7], BrowEyeRows[7..14], ExpressionProfile.Std)
  {
    forall i | 0 <= i < |BrowEyeRows[..7]| && BrowEyeRows[..7][i].Standard != "" ensures forall j :: 0 <= j < |BrowEyeRows[7..14]| ==> BrowEyeRows[..7][i].Standard != BrowEyeRows[7..14][j].Standard {
    }
  }

  /** Pieces 0 and 2 of the brow-and-eye rows share no Standard name. */
  lemma StdBrowEyeApart02()
    ensures ExpressionColumnsApart(BrowEyeRows[..7], BrowEyeRows[14..], ExpressionProfile.Std)
  {
    forall i | 0 <= i < |BrowEyeRows[..7]| && BrowEyeRows[..7][i].Standard != "" ensures forall j :: 0 <= j < |BrowEyeRows[14..]| ==> BrowEyeRows[..7][i].Standard != BrowEyeRows[14..][j].Standard {
    }
  }

  /** Pieces 1 and 2 of the brow-and-eye rows share no Standard name. */
  lemma StdBrowEyeApart12()
    ensures ExpressionColumnsApart(BrowEyeRows[7..14], BrowEyeRows[14..], ExpressionProfile.Std)
  {
    forall i | 0 <= i < |BrowEyeRows[7..14]| && BrowEyeRows[7..14][i].Standard != "" ensures forall j :: 0 <= j < |BrowEyeRows[14..]| ==> BrowEyeRows[7..14][i].Standard != BrowEyeRows[14..][j].Standard {
    }
  }

  /** No two brow-and-eye rows share a Standard name. */
  lemma StdBrowEyeUnique()
    ensures ExpressionColumnUnique(BrowEyeRows, ExpressionProfile.Std)
  {
    StdBrowEyeUnique0();
    StdBrowEyeUnique1();
    StdBrowEyeUnique2();
    StdBrowEyeApart01();
    StdBrowEyeApart02();
    StdBrowEyeApart12();
    ExpressionColumnUniqueInPieces(BrowEyeRows, 7, 14, ExpressionProfile.Std);
  }

  /** No two cheek, nose and jaw rows share a Standard name. */
  lemma StdCheekNoseJawUnique()
    ensures ExpressionColumnUnique(CheekNoseJawRows, ExpressionProfile.Std)
  {
    forall i | 0 <= i < |CheekNoseJawRows| && CheekNoseJawRows[i].Standard != "" ensures forall j :: i < j < |CheekNoseJawRows| ==> CheekNoseJawRows[i].Standard != CheekNoseJawRows[j].Standard {
    }
  }

  /** No two rows of piece 0 of the mouth rows share a Standard name. */
  lemma StdMouthUnique0()
    ensures ExpressionColumnUnique(MouthRows[..8], ExpressionProfile.Std)
  {
    forall i | 0 <= i < |MouthRows[..8]| && MouthRows[..8][i].Standard != "" ensures forall j :: i < j < |MouthRows[..8]| ==> MouthRows[..8][i].Standard != MouthRows[..8][j].Standard {
    }
  }

  /** No two rows of piece 1 of the mouth rows share a Standard name. */
  lemma StdMouthUnique1()
    ensures ExpressionColumnUnique(MouthRows[8..16], ExpressionProfile.Std)
  {
    forall i | 0 <= i < |MouthRows[8..16]| && MouthRows[8..16][i].Standard != "" ensures forall j :: i < j < |MouthRows[8..16]| ==> MouthRows[8..16][i].Standard != MouthRows[8..16][j].Standard {
    }
  }

  /** No two rows of piece 2 of the mouth rows share a Standard name. */
  lemma StdMouthUnique2()
    ensures ExpressionColumnUnique(MouthRows[16..], ExpressionProfile.Std)
  {
    forall i | 0 <= i < |MouthRows[16..]| && MouthRows[16..][i].Standard != "" ensures forall j :: i < j < |MouthRows[16..]| ==> MouthRows[16..][i].Standard != MouthRows[16..][j].Standard {
    }
  }

  /** Pieces 0 and 1 of the mouth rows share no Standard name. */
  lemma StdMouthApart01()
    ensures ExpressionColumnsApart(MouthRows[..8], MouthRows[8..16], ExpressionProfile.Std)
  {
    forall i | 0 <= i < |MouthRows[..8]| && MouthRows[..8][i].Standard != "" ensures forall j :: 0 <= j < |MouthRows[8..16]| ==> MouthRows[..8][i].Standard != MouthRows[8..16][j].Standard {
    }
  }

  /** Pieces 0 and 2 of the mouth rows share no Standard name. */
  lemma StdMouthApart02()
    ensures ExpressionColumnsApart(MouthRows[..8], MouthRows[16..], ExpressionProfile.Std)
  {
    forall i | 0 <= i < |MouthRows[..8]| && MouthRows[..8][i].Standard != "" ensures forall j :: 0 <= j < |MouthRows[16..]| ==> MouthRows[..8][i].Standard != MouthRows[16..][j].Standard {
    }
  }

  /** Pieces 1 and 2 of the mouth rows share no Standard name. */
  lemma StdMouthApart12()
    ensures ExpressionColumnsApart(MouthRows[8..16], MouthRows[16..], ExpressionProfile.Std)
  {
    forall i | 0 <= i < |MouthRows[8..16]| && MouthRows[8..16][i].Standard != "" ensures forall j :: 0 <= j < |MouthRows[16..]| ==> MouthRows[8..16][i].Standard != MouthRows[16..][j].Standard {
    }
  }

  /** No two mouth rows share a Standard name. */
  lemma StdMouthUnique()
    ensures ExpressionColumnUnique(MouthRows, ExpressionProfile.Std)
  {
    StdMouthUnique0();
    StdMouthUnique1();
    StdMouthUnique2();
    StdMouthApart01();
    StdMouthApart02();
    StdMouthApart12();
    ExpressionColumnUniqueInPieces(MouthRows, 8, 16, ExpressionProfile.Std);
  }

  /** No two rows of piece 0 of the brow-and-eye rows share a Extended name. */
  lemma ExtBrowEyeUnique0()
    ensures ExpressionColumnUnique(BrowEyeRows[..7], ExpressionProfile.Ext)
  {
    forall i | 0 <= i < |BrowEyeRows[..7]| && BrowEyeRows[..7][i].Extended != "" ensures forall j :: i < j < |BrowEyeRows[..7]| ==> BrowEyeRows[..7][i].Extended != BrowEyeRows[..7][j].Extended {
    }
  }

  /** No two rows of piece 1 of the brow-and-eye rows share a Extended name. */
  lemma ExtBrowEyeUnique1()
    ensures ExpressionColumnUnique(BrowEyeRows[7..14], ExpressionProfile.Ext)
  {
    forall i | 0 <= i < |BrowEyeRows[7..14]| && BrowEyeRows[7..14][i].Extended != "" ensures forall j :: i < j < |BrowEyeRows[7..14]| ==> BrowEyeRows[7..14][i].Extended != BrowEyeRows[7..14][j].Extended {
    }
  }

  /** No two rows of piece 2 of the brow-and-eye rows share a Extended name. */
  lemma ExtBrowEyeUnique2()
    ensures ExpressionColumnUnique(BrowEyeRows[14..], ExpressionProfile.Ext)
  {
    forall i | 0 <= i < |BrowEyeRows[14..]| && BrowEyeRows[14..][i].Extended != "" ensures forall j :: i < j < |BrowEyeRows[14..]| ==> BrowEyeRows[14..][i].Extended != BrowEyeRows[14..][j].Extended {
    }
  }

  /** Pieces 0 and 1 of the brow-and-eye rows share no Extended name. */
  lemma ExtBrowEyeApart01()
    ensures ExpressionColumnsApart(BrowEyeRows[..7], BrowEyeRows[7..14], ExpressionProfile.Ext)
  {
    forall i | 0 <= i < |BrowEyeRows[..7]| && BrowEyeRows[..7][i].Extended != "" ensures forall j :: 0 <= j < |BrowEyeRows[7..14]| ==> BrowEyeRows[..7][i].Extended != BrowEyeRows[7..14][j].Extended {
    }
  }

  /** Pieces 0 and 2 of the brow-and-eye rows share no Extended name. */
  lemma ExtBrowEyeApart02()
    ensures ExpressionColumnsApart(BrowEyeRows[..7], BrowEyeRows[14..], ExpressionProfile.Ext)
  {
    forall i | 0 <= i < |BrowEyeRows[..7]| && BrowEyeRows[..7][i].Extended != "" ensures forall j :: 0 <= j < |BrowEyeRows[14..]| ==> BrowEyeRows[..7][i].Extended != BrowEyeRows[14..][j].Extended {
    }
  }

  /** Pieces 1 and 2 of the brow-and-eye rows share no Extended name. */
  lemma ExtBrowEyeApart12()
    ensures ExpressionColumnsApart(BrowEyeRows[7..14], BrowEyeRows[14..], ExpressionProfile.Ext)
  {
    forall i | 0 <= i < |BrowEyeRows[7..14]| && BrowEyeRows[7..14][i].Extended != "" ensures forall j :: 0 <= j < |BrowEyeRows[14..]| ==> BrowEyeRows[7..14][i].Extended != BrowEyeRows[14..][j].Extended {
    }
  }

  /** No two brow-and-eye rows share a Extended name. */
  lemma ExtBrowEyeUnique()
    ensures ExpressionColumnUnique(BrowEyeRows, ExpressionProfile.Ext)
  {
    ExtBrowEyeUnique0();
    ExtBrowEyeUnique1();
    ExtBrowEyeUnique2();
    ExtBrowEyeApart01();
    ExtBrowEyeApart02();
    ExtBrowEyeApart12();
    ExpressionColumnUniqueInPieces(BrowEyeRows, 7, 14, ExpressionProfile.Ext);
  }

  /** No two cheek, nose and jaw rows share a Extended name. */
  lemma ExtCheekNoseJawUnique()
    ensures ExpressionColumnUnique(CheekNoseJawRows, ExpressionProfile.Ext)
  {
    forall i | 0 <= i < |CheekNoseJawRows| && CheekNoseJawRows[i].Extended != "" ensures forall j :: i < j < |CheekNoseJawRows| ==> CheekNoseJawRows[i].Extended != CheekNoseJawRows[j].Extended {
    }
  }

  /** No two rows of piece 0 of the mouth rows share a Extended name. */
  lemma ExtMouthUnique0()
    ensures ExpressionColumnUnique(MouthRows[..8], ExpressionProfile.Ext)
  {
    forall i | 0 <= i < |MouthRows[..8]| && MouthRows[..8][i].Extended != "" ensures forall j :: i < j < |MouthRows[..8]| ==> MouthRows[..8][i].Extended != MouthRows[..8][j].Extended {
    }
  }

  /** No two rows of piece 1 of the mouth rows share a Extended name. */
  lemma ExtMouthUnique1()
    ensures ExpressionColumnUnique(MouthRows[8..16], ExpressionProfile.Ext)
  {
    forall i | 0 <= i < |MouthRows[8..16]| && MouthRows[8..16][i].Extended != "" ensures forall j :: i < j < |MouthRows[8..16]| ==> MouthRows[8..16][i].Extended != MouthRows[8..16][j].Extended {
    }
  }

  /** No two rows of piece 2 of the mouth rows share a Extended name. */
  lemma ExtMouthUnique2()
    ensures ExpressionColumnUnique(MouthRows[16..], ExpressionProfile.Ext)
  {
    forall i | 0 <= i < |MouthRows[16..]| && MouthRows[16..][i].Extended != "" ensures forall j :: i < j < |MouthRows[16..]| ==> MouthRows[16..][i].Extended != MouthRows[16..][j].Extended {
    }
  }

  /** Pieces 0 and 1 of the mouth rows share no Extended name. */
  lemma ExtMouthApart01()
    ensures ExpressionColumnsApart(MouthRows[..8], MouthRows[8..16], ExpressionProfile.Ext)
  {
    forall i | 0 <= i < |MouthRows[..8]| && MouthRows[..8][i].Extended != "" ensures forall j :: 0 <= j < |MouthRows[8..16]| ==> MouthRows[..8][i].Extended != MouthRows[8..16][j].Extended {
    }
  }

  /** Pieces 0 and 2 of the mouth rows share no Extended name. */
  lemma ExtMouthApart02()
    ensures ExpressionColumnsApart(MouthRows[..8], MouthRows[16..], ExpressionProfile.Ext)
  {
    forall i | 0 <= i < |MouthRows[..8]| && MouthRows[..8][i].Extended != "" ensures forall j :: 0 <= j < |MouthRows[16..]| ==> MouthRows[..8][i].Extended != MouthRows[16..][j].Extended {
    }
  }

  /** Pieces 1 and 2 of the mouth rows share no Extended name. */
  lemma ExtMouthApart12()
    ensures ExpressionColumnsApart(MouthRows[8..16], MouthRows[16..], ExpressionProfile.Ext)
  {
    forall i | 0 <= i < |MouthRows[8..16]| && MouthRows[8..16][i].Extended != "" ensures forall j :: 0 <= j < |MouthRows[16..]| ==> MouthRows[8..16][i].Extended != MouthRows[16..][j].Extended {
    }
  }

  /** No two mouth rows share a Extended name. */
  lemma ExtMouthUnique()
    ensures ExpressionColumnUnique(MouthRows, ExpressionProfile.Ext)
  {
    ExtMouthUnique0();
    ExtMouthUnique1();
    ExtMouthUnique2();
    ExtMouthApart01();
    ExtMouthApart02();
    ExtMouthApart12();
    ExpressionColumnUniqueInPieces(MouthRows, 8, 16, ExpressionProfile.Ext);
  }

  /** No two tongue rows share a Extended name. */
  lemma ExtTongueUnique()
    ensures ExpressionColumnUnique(TongueRows, ExpressionProfile.Ext)
  {
    forall i | 0 <= i < |TongueRows| && TongueRows[i].Extended != "" ensures forall j :: i < j < |TongueRows| ==> TongueRows[i].Extended != TongueRows[j].Extended {
    }
  }

  /** No two rows of piece 0 of the brow-and-eye rows share a ExPlus name. */
  lemma ExPlusBrowEyeUnique0()
    ensures ExpressionColumnUnique(BrowEyeRows[..7], ExpressionProfile.ExPlus)
  {
    forall i | 0 <= i < |BrowEyeRows[..7]| && BrowEyeRows[..7][i].ExPlus != "" ensures forall j :: i < j < |BrowEyeRows[..7]| ==> BrowEyeRows[..7][i].ExPlus != BrowEyeRows[..7][j].ExPlus {
    }
  }

  /** No two rows of piece 1 of the brow-and-eye rows share a ExPlus name. */
  lemma ExPlusBrowEyeUnique1()
    ensures ExpressionColumnUnique(BrowEyeRows[7..14], ExpressionProfile.ExPlus)
  {
    forall i | 0 <= i < |BrowEyeRows[7..14]| && BrowEyeRows[7..14][i].ExPlus != "" ensures forall j :: i < j < |BrowEyeRows[7..14]| ==> BrowEyeRows[7..14][i].ExPlus != BrowEyeRows[7..14][j].ExPlus {
    }
  }

  /** No two rows of piece 2 of the brow-and-eye rows share a ExPlus name. */
  lemma ExPlusBrowEyeUnique2()
    ensures ExpressionColumnUnique(BrowEyeRows[14..], ExpressionProfile.ExPlus)
  {
    forall i | 0 <= i < |BrowEyeRows[14..]| && BrowEyeRows[14..][i].ExPlus != "" ensures forall j :: i < j < |BrowEyeRows[14..]| ==> BrowEyeRows[14..][i].ExPlus != BrowEyeRows[14..][j].ExPlus {
    }
  }

  /** Pieces 0 and 1 of the brow-and-eye rows share no ExPlus name. */
  lemma ExPlusBrowEyeApart01()
    ensures ExpressionColumnsApart(BrowEyeRows[..7], BrowEyeRows[7..14], ExpressionProfile.ExPlus)
  {
    forall i | 0 <= i < |BrowEyeRows[..7]| && BrowEyeRows[..7][i].ExPlus != "" ensures forall j :: 0 <= j < |BrowEyeRows[7..14]| ==> BrowEyeRows[..7][i].ExPlus != BrowEyeRows[7..14][j].ExPlus {
    }
  }

  /** Pieces 0 and 2 of the brow-and-eye rows share no ExPlus name. */
  lemma ExPlusBrowEyeApart02()
    ensures ExpressionColumnsApart(BrowEyeRows[..7], BrowEyeRows[14..], ExpressionProfile.ExPlus)
  {
    forall i | 0 <= i < |BrowEyeRows[..7]| && BrowEyeRows[..7][i].ExPlus != "" ensures forall j :: 0 <= j < |BrowEyeRows[14..]| ==> BrowEyeRows[..7][i].ExPlus != BrowEyeRows[14..][j].ExPlus {
    }
  }

  /** Pieces 1 and 2 of the brow-and-eye rows share no ExPlus name. */
  lemma ExPlusBrowEyeApart12()
    ensures ExpressionColumnsApart(BrowEyeRows[7..14], BrowEyeRows[14..], ExpressionProfile.ExPlus)
  {
    forall i | 0 <= i < |BrowEyeRows[7..14]| && BrowEyeRows[7..14][i].ExPlus != "" ensures forall j :: 0 <= j < |BrowEyeRows[14..]| ==> BrowEyeRows[7..14][i].ExPlus != BrowEyeRows[14..][j].ExPlus {
    }
  }

  /** No two brow-and-eye rows share a ExPlus name. */
  lemma ExPlusBrowEyeUnique()
    ensures ExpressionColumnUnique(BrowEyeRows, ExpressionProfile.ExPlus)
  {
    ExPlusBrowEyeUnique0();
    ExPlusBrowEyeUnique1();
    ExPlusBrowEyeUnique2();
    ExPlusBrowEyeApart01();
    ExPlusBrowEyeApart02();
    ExPlusBrowEyeApart12();
    ExpressionColumnUniqueInPieces(BrowEyeRows, 7, 14, ExpressionProfile.ExPlus);
  }

  /** No two cheek, nose and jaw rows share a ExPlus name. */
  lemma ExPlusCheekNoseJawUnique()
    ensures ExpressionColumnUnique(CheekNoseJawRows, ExpressionProfile.ExPlus)
  {
    forall i | 0 <= i < |CheekNoseJawRows| && CheekNoseJawRows[i].ExPlus != "" ensures forall j :: i < j < |CheekNoseJawRows| ==> CheekNoseJawRows[i].ExPlus != CheekNoseJawRows[j].ExPlus {
    }
  }

  /** No two rows of piece 0 of the mouth rows share a ExPlus name. */
  lemma ExPlusMouthUnique0()
    ensures ExpressionColumnUnique(MouthRows[..8], ExpressionProfile.ExPlus)
  {
    forall i | 0 <= i < |MouthRows[..8]| && MouthRows[..8][i].ExPlus != "" ensures forall j :: i < j < |MouthRows[..8]| ==> MouthRows[..8][i].ExPlus != MouthRows[..8][j].ExPlus {
    }
  }

  /** No two rows of piece 1 of the mouth rows share a ExPlus name. */
  lemma ExPlusMouthUnique1()
    ensures ExpressionColumnUnique(MouthRows[8..16], ExpressionProfile.ExPlus)
  {
    forall i | 0 <= i < |MouthRows[8..16]| && MouthRows[8..16][i].ExPlus != "" ensures forall j :: i < j < |MouthRows[8..16]| ==> MouthRows[8..16][i].ExPlus != MouthRows[8..16][j].ExPlus {
    }
  }

  /** No two rows of piece 2 of the mouth rows share a ExPlus name. */
  lemma ExPlusMouthUnique2()
    ensures ExpressionColumnUnique(MouthRows[16..], ExpressionProfile.ExPlus)
  {
    forall i | 0 <= i < |MouthRows[16..]| && MouthRows[16..][i].ExPlus != "" ensures forall j :: i < j < |MouthRows[16..]| ==> MouthRows[16..][i].ExPlus != MouthRows[16..][j].ExPlus {
    }
  }

  /** Pieces 0 and 1 of the mouth rows share no ExPlus name. */
  lemma ExPlusMouthApart01()
    ensures ExpressionColumnsApart(MouthRows[..8], MouthRows[8..16], ExpressionProfile.ExPlus)
  {
    forall i | 0 <= i < |MouthRows[..8]| && MouthRows[..8][i].ExPlus != "" ensures forall j :: 0 <= j < |MouthRows[8..16]| ==> MouthRows[..8][i].ExPlus != MouthRows[8..16][j].ExPlus {
    }
  }

  /** Pieces 0 and 2 of the mouth rows share no ExPlus name. */
  lemma ExPlusMouthApart02()
    ensures ExpressionColumnsApart(MouthRows[..8], MouthRows[16..], ExpressionProfile.ExPlus)
  {
    forall i | 0 <= i < |MouthRows[..8]| && MouthRows[..8][i].ExPlus != "" ensures forall j :: 0 <= j < |MouthRows[16..]| ==> MouthRows[..8][i].ExPlus != MouthRows[16..][j].ExPlus {
    }
  }

  /** Pieces 1 and 2 of the mouth rows share no ExPlus name. */
  lemma ExPlusMouthApart12()
    ensures ExpressionColumnsApart(MouthRows[8..16], MouthRows[16..], ExpressionProfile.ExPlus)
  {
    forall i | 0 <= i < |MouthRows[8..16]| && MouthRows[8..16][i].ExPlus != "" ensures forall j :: 0 <= j < |MouthRows[16..]| ==> MouthRows[8..16][i].ExPlus != MouthRows[16..][j].ExPlus {
    }
  }

  /** No two mouth rows share a ExPlus name. */
  lemma ExPlusMouthUnique()
    ensures ExpressionColumnUnique(MouthRows, ExpressionProfile.ExPlus)
  {
    ExPlusMouthUnique0();
    ExPlusMouthUnique1();
    ExPlusMouthUnique2();
    ExPlusMouthApart01();
    ExPlusMouthApart02();
    ExPlusMouthApart12();
    ExpressionColumnUniqueInPieces(MouthRows, 8, 16, ExpressionProfile.ExPlus);
  }

  /** No two tongue rows share a ExPlus name. */
  lemma ExPlusTongueUnique()
    ensures ExpressionColumnUnique(TongueRows, ExpressionProfile.ExPlus)
  {
    forall i | 0 <= i < |TongueRows| && TongueRows[i].ExPlus != "" ensures forall j :: i < j < |TongueRows| ==> TongueRows[i].ExPlus != TongueRows[j].ExPlus {
    }
  }

  /** Piece 0 of the brow-and-eye ExPlus names are not cheek, nose and jaw names. */
  lemma ExPlusBrowEyeCheekNoseJawApart0()
    ensures ExpressionColumnsApart(BrowEyeRows[..7], CheekNoseJawRows, ExpressionProfile.ExPlus)
  {
    forall i | 0 <= i < |BrowEyeRows[..7]| && BrowEyeRows[..7][i].ExPlus != "" ensures forall j :: 0 <= j < |CheekNoseJawRows| ==> BrowEyeRows[..7][i].ExPlus != CheekNoseJawRows[j].ExPlus {
    }
  }

  /** Piece 1 of the brow-and-eye ExPlus names are not cheek, nose and jaw names. */
  lemma ExPlusBrowEyeCheekNoseJawApart1()
    ensures ExpressionColumnsApart(BrowEyeRows[7..14], CheekNoseJawRows, ExpressionProfile.ExPlus)
  {
    forall i | 0 <= i < |BrowEyeRows[7..14]| && BrowEyeRows[7..14][i].ExPlus != "" ensures forall j :: 0 <= j < |CheekNoseJawRows| ==> BrowEyeRows[7..14][i].ExPlus != CheekNoseJawRows[j].ExPlus {
    }
  }

  /** Piece 2 of the brow-and-eye ExPlus names are not cheek, nose and jaw names. */
  lemma ExPlusBrowEyeCheekNoseJawApart2()
    ensures ExpressionColumnsApart(BrowEyeRows[14..], CheekNoseJawRows, ExpressionProfile.ExPlus)
  {
    forall i | 0 <= i < |BrowEyeRows[14..]| && BrowEyeRows[14..][i].ExPlus != "" ensures forall j :: 0 <= j < |CheekNoseJawRows| ==> BrowEyeRows[14..][i].ExPlus != CheekNoseJawRows[j].ExPlus {
    }
  }

  /** The brow-and-eye ExPlus names are not cheek, nose and jaw names. */
  lemma ExPlusBrowEyeCheekNoseJawApart()
    ensures ExpressionColumnsApart(BrowEyeRows, CheekNoseJawRows, ExpressionProfile.ExPlus)
  {
    ExPlusBrowEyeCheekNoseJawApart0();
    ExPlusBrowEyeCheekNoseJawApart1();
    ExPlusBrowEyeCheekNoseJawApart2();
    ExpressionColumnsApartInPieces(BrowEyeRows, 7, 14, CheekNoseJawRows, ExpressionProfile.ExPlus);
  }

  /** Piece 0 of the brow-and-eye ExPlus names are not mouth names. */
  lemma ExPlusBrowEyeMouthApart0()
    ensures ExpressionColumnsApart(BrowEyeRows[..7], MouthRows, ExpressionProfile.ExPlus)
  {
    forall i | 0 <= i < |BrowEyeRows[..7]| && BrowEyeRows[..7][i].ExPlus != "" ensures forall j :: 0 <= j < |MouthRows| ==> BrowEyeRows[..7][i].ExPlus != MouthRows[j].ExPlus {
    }
  }

  /** Piece 1 of the brow-and-eye ExPlus names are not mouth names. */
  lemma ExPlusBrowEyeMouthApart1()
    ensures ExpressionColumnsApart(BrowEyeRows[7..14], MouthRows, ExpressionProfile.ExPlus)
  {
    forall i | 0 <= i < |BrowEyeRows[7..14]| && BrowEyeRows[7..14][i].ExPlus != "" ensures forall j :: 0 <= j < |MouthRows| ==> BrowEyeRows[7..14][i].ExPlus != MouthRows[j].ExPlus {
    }
  }

  /** Piece 2 of the brow-and-eye ExPlus names are not mouth names. */
  lemma ExPlusBrowEyeMouthApart2()
    ensures ExpressionColumnsApart(BrowEyeRows[14..], MouthRows, ExpressionProfile.ExPlus)
  {
    forall i | 0 <= i < |BrowEyeRows[14..]| && BrowEyeRows[14..][i].ExPlus != "" ensures forall j :: 0 <= j < |MouthRows| ==> BrowEyeRows[14..][i].ExPlus != MouthRows[j].ExPlus {
    }
  }

  /** The brow-and-eye ExPlus names are not mouth names. */
  lemma ExPlusBrowEyeMouthApart()
    ensures ExpressionColumnsApart(BrowEyeRows, MouthRows, ExpressionProfile.ExPlus)
  {
    ExPlusBrowEyeMouthApart0();
    ExPlusBrowEyeMouthApart1();
    ExPlusBrowEyeMouthApart2();
    ExpressionColumnsApartInPieces(BrowEyeRows, 7, 14, MouthRows, ExpressionProfile.ExPlus);
  }

  /** Piece 0 of the brow-and-eye ExPlus names are not tongue names. */
  lemma ExPlusBrowEyeTongueApart0()
    ensures ExpressionColumnsApart(BrowEyeRows[..7], TongueRows, ExpressionProfile.ExPlus)
  {
    forall i | 0 <= i < |BrowEyeRows[..7]| && BrowEyeRows[..7][i].ExPlus != "" ensures forall j :: 0 <= j < |TongueRows| ==> BrowEyeRows[..7][i].ExPlus != TongueRows[j].ExPlus {
    }
  }

  /** Piece 1 of the brow-and-eye ExPlus names are not tongue names. */
  lemma ExPlusBrowEyeTongueApart1()
    ensures ExpressionColumnsApart(BrowEyeRows[7..14], TongueRows, ExpressionProfile.ExPlus)
  {
    forall i | 0 <= i < |BrowEyeRows[7..14]| && BrowEyeRows[7..14][i].ExPlus != "" ensures forall j :: 0 <= j < |TongueRows| ==> BrowEyeRows[7..14][i].ExPlus != TongueRows[j].ExPlus {
    }
  }

  /** Piece 2 of the brow-and-eye ExPlus names are not tongue names. */
  lemma ExPlusBrowEyeTongueApart2()
    ensures ExpressionColumnsApart(BrowEyeRows[14..], TongueRows, ExpressionProfile.ExPlus)
  {
    forall i | 0 <= i < |BrowEyeRows[14..]| && BrowEyeRows[14..][i].ExPlus != "" ensures forall j :: 0 <= j < |TongueRows| ==> BrowEyeRows[14..][i].ExPlus != TongueRows[j].ExPlus {
    }
  }

  /** The brow-and-eye ExPlus names are not tongue names. */
  lemma ExPlusBrowEyeTongueApart()
    ensures ExpressionColumnsApart(BrowEyeRows, TongueRows, ExpressionProfile.ExPlus)
  {
    ExPlusBrowEyeTongueApart0();
    ExPlusBrowEyeTongueApart1();
    ExPlusBrowEyeTongueApart2();
    ExpressionColumnsApartInPieces(BrowEyeRows, 7, 14, TongueRows, ExpressionProfile.ExPlus);
  }

  /** The cheek, nose and jaw ExPlus names are not names of piece 0 of the mouth rows. */
  lemma ExPlusCheekNoseJawMouthApart0()
    ensures ExpressionColumnsApart(CheekNoseJawRows, MouthRows[..8], ExpressionProfile.ExPlus)
  {
    forall i | 0 <= i < |CheekNoseJawRows| && CheekNoseJawRows[i].ExPlus != "" ensures forall j :: 0 <= j < |MouthRows[..8]| ==> CheekNoseJawRows[i].ExPlus != MouthRows[..8][j].ExPlus {
    }
  }

  /** The cheek, nose and jaw ExPlus names are not names of piece 1 of the mouth rows. */
  lemma ExPlusCheekNoseJawMouthApart1()
    ensures ExpressionColumnsApart(CheekNoseJawRows, MouthRows[8..16], ExpressionProfile.ExPlus)
  {
    forall i | 0 <= i < |CheekNoseJawRows| && CheekNoseJawRows[i].ExPlus != "" ensures forall j :: 0 <= j < |MouthRows[8..16]| ==> CheekNoseJawRows[i].ExPlus != MouthRows[8..16][j].ExPlus {
    }
  }

  /** The cheek, nose and jaw ExPlus names are not names of piece 2 of the mouth rows. */
  lemma ExPlusCheekNoseJawMouthApart2()
    ensures ExpressionColumnsApart(CheekNoseJawRows, MouthRows[16..], ExpressionProfile.ExPlus)
  {
    forall i | 0 <= i < |CheekNoseJawRows| && CheekNoseJawRows[i].ExPlus != "" ensures forall j :: 0 <= j < |MouthRows[16..]| ==> CheekNoseJawRows[i].ExPlus != MouthRows[16..][j].ExPlus {
    }
  }

  /** The cheek, nose and jaw ExPlus names are not mouth names. */
  lemma ExPlusCheekNoseJawMouthApart()
    ensures ExpressionColumnsApart(CheekNoseJawRows, MouthRows, ExpressionProfile.ExPlus)
  {
    ExPlusCheekNoseJawMouthApart0();
    ExPlusCheekNoseJawMouthApart1();
    ExPlusCheekNoseJawMouthApart2();
    ExpressionColumnsApartFromPieces(CheekNoseJawRows, MouthRows, 8, 16, ExpressionProfile.ExPlus);
  }

  /** The cheek, nose and jaw ExPlus names are not tongue names. */
  lemma ExPlusCheekNoseJawTongueApart()
    ensures ExpressionColumnsApart(CheekNoseJawRows, TongueRows, ExpressionProfile.ExPlus)
  {
    forall i | 0 <= i < |CheekNoseJawRows| && CheekNoseJawRows[i].ExPlus != "" ensures forall j :: 0 <= j < |TongueRows| ==> CheekNoseJawRows[i].ExPlus != TongueRows[j].ExPlus {
    }
  }

  /** Piece 0 of the mouth ExPlus names are not tongue names. */
  lemma ExPlusMouthTongueApart0()
    ensures ExpressionColumnsApart(MouthRows[..8], TongueRows, ExpressionProfile.ExPlus)
  {
    forall i | 0 <= i < |MouthRows[..8]| && MouthRows[..8][i].ExPlus != "" ensures forall j :: 0 <= j < |TongueRows| ==> MouthRows[..8][i].ExPlus != TongueRows[j].ExPlus {
    }
  }

  /** Piece 1 of the mouth ExPlus names are not tongue names. */
  lemma ExPlusMouthTongueApart1()
    ensures ExpressionColumnsApart(MouthRows[8..16], TongueRows, ExpressionProfile.ExPlus)
  {
    forall i | 0 <= i < |MouthRows[8..16]| && MouthRows[8..16][i].ExPlus != "" ensures forall j :: 0 <= j < |TongueRows| ==> MouthRows[8..16][i].ExPlus != TongueRows[j].ExPlus {
    }
  }

  /** Piece 2 of the mouth ExPlus names are not tongue names. */
  lemma ExPlusMouthTongueApart2()
    ensures ExpressionColumnsApart(MouthRows[16..], TongueRows, ExpressionProfile.ExPlus)
  {
    forall i | 0 <= i < |MouthRows[16..]| && MouthRows[16..][i].ExPlus != "" ensures forall j :: 0 <= j < |TongueRows| ==> MouthRows[16..][i].ExPlus != TongueRows[j].ExPlus {
    }
  }

  /** The mouth ExPlus names are not tongue names. */
  lemma ExPlusMouthTongueApart()
    ensures ExpressionColumnsApart(MouthRows, TongueRows, ExpressionProfile.ExPlus)
  {
    ExPlusMouthTongueApart0();
    ExPlusMouthTongueApart1();
    ExPlusMouthTongueApart2();
    ExpressionColumnsApartInPieces(MouthRows, 8, 16, TongueRows, ExpressionProfile.ExPlus);
  }

  /** The Standard column of the expression table names each shape once. */
  lemma StdColumnUnique()
    ensures ExpressionColumnUnique(FacialProfileMaps, ExpressionProfile.Std)
  {
    StdBrowEyeInitials();
    StdCheekNoseJawInitials();
    StdMouthInitials();
    StdTongueInitials();
    StdBrowEyeUnique();
    StdCheekNoseJawUnique();
    StdMouthUnique();
    assert ExpressionColumnUnique(TongueRows, ExpressionProfile.Std);
    InitialsKeepApart(BrowEyeRows, CheekNoseJawRows, ExpressionProfile.Std, {'B', 'E'}, {'C', 'N'});
    InitialsKeepApart(BrowEyeRows, MouthRows, ExpressionProfile.Std, {'B', 'E'}, {'M'});
    InitialsKeepApart(BrowEyeRows, TongueRows, ExpressionProfile.Std, {'B', 'E'}, {});
    InitialsKeepApart(CheekNoseJawRows, MouthRows, ExpressionProfile.Std, {'C', 'N'}, {'M'});
    InitialsKeepApart(CheekNoseJawRows, TongueRows, ExpressionProfile.Std, {'C', 'N'}, {});
    InitialsKeepApart(MouthRows, TongueRows, ExpressionProfile.Std, {'M'}, {});
    ExpressionColumnUniqueFromRegions(BrowEyeRows, CheekNoseJawRows, MouthRows, TongueRows, ExpressionProfile.Std);
  }

  /** The Extended column of the expression table names each shape once. */
  lemma ExtColumnUnique()
    ensures ExpressionColumnUnique(FacialProfileMaps, ExpressionProfile.Ext)
  {
    ExtBrowEyeInitials();
    ExtCheekNoseJawInitials();
    ExtMouthInitials();
    ExtTongueInitials();
    ExtBrowEyeUnique();
    ExtCheekNoseJawUnique();
    ExtMouthUnique();
    ExtTongueUnique();
    InitialsKeepApart(BrowEyeRows, CheekNoseJawRows, ExpressionProfile.Ext, {'B', 'E'}, {'C', 'N', 'J'});
    InitialsKeepApart(BrowEyeRows, MouthRows, ExpressionProfile.Ext, {'B', 'E'}, {'M'});
    InitialsKeepApart(BrowEyeRows, TongueRows, ExpressionProfile.Ext, {'B', 'E'}, {'T'});
    InitialsKeepApart(CheekNoseJawRows, MouthRows, ExpressionProfile.Ext, {'C', 'N', 'J'}, {'M'});
    InitialsKeepApart(CheekNoseJawRows, TongueRows, ExpressionProfile.Ext, {'C', 'N', 'J'}, {'T'});
    InitialsKeepApart(MouthRows, TongueRows, ExpressionProfile.Ext, {'M'}, {'T'});
    ExpressionColumnUniqueFromRegions(BrowEyeRows, CheekNoseJawRows, MouthRows, TongueRows, ExpressionProfile.Ext);
  }

  /** The ExPlus column of the expression table names each shape once. */
  lemma ExPlusColumnUnique()
    ensures ExpressionColumnUnique(FacialProfileMaps, ExpressionProfile.ExPlus)
  {
    ExPlusBrowEyeUnique();
    ExPlusCheekNoseJawUnique();
    ExPlusMouthUnique();
    ExPlusTongueUnique();
    ExPlusBrowEyeCheekNoseJawApart();
    ExPlusBrowEyeMouthApart();
    ExPlusBrowEyeTongueApart();
    ExPlusCheekNoseJawMouthApart();
    ExPlusCheekNoseJawTongueApart();
    ExPlusMouthTongueApart();
    ExpressionColumnUniqueFromRegions(BrowEyeRows, CheekNoseJawRows, MouthRows, TongueRows, ExpressionProfile.ExPlus);
  }

  /** The ExPlus names of the brow-and-eye rows start with A or E. */
  lemma ExPlusBrowEyeInitials()
    ensures ExpressionInitials(BrowEyeRows, ExpressionProfile.ExPlus, {'A', 'E'})
  {
  }

  /** The ExPlus names of the cheek, nose and jaw rows start with A. */
  lemma ExPlusCheekNoseJawInitials()
    ensures ExpressionInitials(CheekNoseJawRows, ExpressionProfile.ExPlus, {'A'})
  {
  }

  /** The ExPlus names of the mouth rows start with A. */
  lemma ExPlusMouthInitials()
    ensures ExpressionInitials(MouthRows, ExpressionProfile.ExPlus, {'A'})
  {
  }

  /** The ExPlus names of the tongue rows start with A or T. */
  lemma ExPlusTongueInitials()
    ensures ExpressionInitials(TongueRows, ExpressionProfile.ExPlus, {'A', 'T'})
  {
  }

  /** The Std and Extended names of the eye rows (all but the first five brow-and-eye rows) start with E. */
  lemma EyeRowsInitials()
    ensures ExpressionInitials(BrowEyeRows[5..], ExpressionProfile.Std, {'E'})
    ensures ExpressionInitials(BrowEyeRows[5..], ExpressionProfile.Ext, {'E'})
  {
  }

  /** Initials are kept when the letters allowed grow. */
  lemma ExpressionInitialsWiden(rows: seq<ExpressionProfileMapping>, d: ExpressionProfile, initials: set<char>, more: set<char>)
    requires ExpressionInitials(rows, d, initials) && initials <= more
    ensures ExpressionInitials(rows, d, more)
  {
  }

  /** Initials are kept when two columns are joined. */
  lemma ExpressionInitialsAppend(a: seq<ExpressionProfileMapping>, b: seq<ExpressionProfileMapping>, d: ExpressionProfile, initials: set<char>)
    requires ExpressionInitials(a, d, initials) && ExpressionInitials(b, d, initials)
    ensures ExpressionInitials(a + b, d, initials)
  {
    assert forall i :: 0 <= i < |a| ==> (a + b)[i] == a[i];
    assert forall i :: |a| <= i < |a + b| ==> (a + b)[i] == b[i - |a|];
  }

  /** The letters the names of the cheek-nose-jaw, mouth and tongue rows start with, in every dialect. */
  const LowerFaceLetters: set<char> := {'A', 'C', 'E', 'J', 'M', 'N', 'T'}

  /** Every letter a name of the expression table starts with, in any dialect. */
  const ExpressionTableLetters: set<char> := LowerFaceLetters + {'B'}

  /** The names of one region start with letters of `letters`, in every dialect. */
  lemma RegionInitials(rows: seq<ExpressionProfileMapping>, d: ExpressionProfile, std: set<char>, exPlus: set<char>, ext: set<char>, letters: set<char>)
    requires ExpressionInitials(rows, ExpressionProfile.Std, std) && std <= letters
    requires ExpressionInitials(rows, ExpressionProfile.ExPlus, exPlus) && exPlus <= letters
    requires ExpressionInitials(rows, ExpressionProfile.Ext, ext) && ext <= letters
    ensures ExpressionInitials(rows, d, letters)
  {
    match d
    case Std => ExpressionInitialsWiden(rows, d, std, letters);
    case ExPlus => ExpressionInitialsWiden(rows, d, exPlus, letters);
    case Ext => ExpressionInitialsWiden(rows, d, ext, letters);
    case None =>
  }

  /** No name of the cheek-nose-jaw, mouth or tongue rows starts with B, whatever the dialect. */
  lemma LowerFaceInitials(d: ExpressionProfile)
    ensures ExpressionInitials(CheekNoseJawRows, d, LowerFaceLetters)
    ensures ExpressionInitials(MouthRows, d, LowerFaceLetters)
    ensures ExpressionInitials(TongueRows, d, LowerFaceLetters)
  {
    StdCheekNoseJawInitials();
    StdMouthInitials();
    StdTongueInitials();
    ExtCheekNoseJawInitials();
    ExtMouthInitials();
    ExtTongueInitials();
    ExPlusCheekNoseJawInitials();
    ExPlusMouthInitials();
    ExPlusTongueInitials();
    RegionInitials(CheekNoseJawRows, d, {'C', 'N'}, {'A'}, {'C', 'N', 'J'}, LowerFaceLetters);
    RegionInitials(MouthRows, d, {'M'}, {'A'}, {'M'}, LowerFaceLetters);
    RegionInitials(TongueRows, d, {}, {'A', 'T'}, {'T'}, LowerFaceLetters);
  }

  /** Every name of the expression table starts with one of A, B, C, E, J, M, N, T. */
  lemma ExpressionTableInitials(d: ExpressionProfile)
    ensures ExpressionInitials(FacialProfileMaps, d, ExpressionTableLetters)
  {
    StdBrowEyeInitials();
    ExtBrowEyeInitials();
    ExPlusBrowEyeInitials();
    RegionInitials(BrowEyeRows, d, {'B', 'E'}, {'A', 'E'}, {'B', 'E'}, ExpressionTableLetters);
    LowerFaceInitials(d);
    ExpressionInitialsWiden(CheekNoseJawRows, d, LowerFaceLetters, ExpressionTableLetters);
    ExpressionInitialsWiden(MouthRows, d, LowerFaceLetters, ExpressionTableLetters);
    ExpressionInitialsWiden(TongueRows, d, LowerFaceLetters, ExpressionTableLetters);
    ExpressionInitialsAppend(BrowEyeRows, CheekNoseJawRows, d, ExpressionTableLetters);
    ExpressionInitialsAppend(BrowEyeRows + CheekNoseJawRows, MouthRows, d, ExpressionTableLetters);
    ExpressionInitialsAppend(BrowEyeRows + CheekNoseJawRows + MouthRows, TongueRows, d, ExpressionTableLetters);
  }

  /** A name whose initial no name of a column has is claimed by no row of that column. */
  lemma InitialExcludesClaim(rows: seq<ExpressionProfileMapping>, d: ExpressionProfile, initials: set<char>, blendShapeName: string)
    requires ExpressionInitials(rows, d, initials)
    requires blendShapeName == "" || blendShapeName[0] !in initials
    ensures FirstExpressionRow(rows, blendShapeName, d) == Option.None
  {
    forall i | 0 <= i < |rows| ensures !rows[i].HasMapping(blendShapeName, d) {
      match d
      case Std => assert rows[i].Standard != "" ==> rows[i].Standard[0] in initials;
      case ExPlus => assert rows[i].ExPlus != "" ==> rows[i].ExPlus[0] in initials;
      case Ext => assert rows[i].Extended != "" ==> rows[i].Extended[0] in initials;
      case None =>
    }
  }

  /** A name claimed by no row of either of two columns is claimed by no row of the two joined. */
  lemma UnclaimedInAppend(a: seq<ExpressionProfileMapping>, b: seq<ExpressionProfileMapping>, blendShapeName: string, d: ExpressionProfile)
    requires FirstExpressionRow(a, blendShapeName, d) == Option.None
    requires FirstExpressionRow(b, blendShapeName, d) == Option.None
    ensures FirstExpressionRow(a + b, blendShapeName, d) == Option.None
  {
    assert forall i :: 0 <= i < |a| ==> (a + b)[i] == a[i];
    assert forall i :: |a| <= i < |a + b| ==> (a + b)[i] == b[i - |a|];
  }

  /** A name claimed by no row of any of four regions is claimed by no row of tables made of them. */
  lemma UnclaimedInRegions(t: Tables, r0: seq<ExpressionProfileMapping>, r1: seq<ExpressionProfileMapping>,
                           r2: seq<ExpressionProfileMapping>, r3: seq<ExpressionProfileMapping>, blendShapeName: string, d: ExpressionProfile)
    requires t.facialProfileMaps == r0 + r1 + r2 + r3
    requires FirstExpressionRow(r0, blendShapeName, d) == Option.None && FirstExpressionRow(r1, blendShapeName, d) == Option.None
    requires FirstExpressionRow(r2, blendShapeName, d) == Option.None && FirstExpressionRow(r3, blendShapeName, d) == Option.None
    ensures !ExpressionClaims(t, blendShapeName, d)
  {
    UnclaimedInAppend(r0, r1, blendShapeName, d);
    UnclaimedInAppend(r0 + r1, r2, blendShapeName, d);
    UnclaimedInAppend(r0 + r1 + r2, r3, blendShapeName, d);
  }

  /** Every non-empty name of `rows` in dialect `d` starts with one of `initials`. */
  ghost predicate VisemeInitials(rows: seq<VisemeProfileMapping>, d: VisemeProfile, initials: set<char>) {
    match d
    case PairsCC3 => forall i :: 0 <= i < |rows| && rows[i].CC3 != "" ==> rows[i].CC3[0] in initials
    case PairsCC4 => forall i :: 0 <= i < |rows| && rows[i].CC4 != "" ==> rows[i].CC4[0] in initials
    case Direct => forall i :: 0 <= i < |rows| && rows[i].Direct != "" ==> rows[i].Direct[0] in initials
    case None => true
  }

  /** Every letter a name of the viseme table starts with, in any dialect. */
  const VisemeTableLetters: set<char> := {'A', 'D', 'E', 'L', 'O', 'T', 'V', 'W'}

  /** The CC3 names start with A, D, E, L, O, T or W; the CC4 names with V; there are no Direct names. */
  lemma VisemeTableInitials(d: VisemeProfile)
    ensures VisemeInitials(VisemeProfileMaps, d, VisemeTableLetters)
  {
  }

  /** A name whose initial no name of a viseme column has is claimed by no row of that column. */
  lemma VisemeInitialExcludesClaim(rows: seq<VisemeProfileMapping>, d: VisemeProfile, initials: set<char>, blendShapeName: string)
    requires VisemeInitials(rows, d, initials)
    requires blendShapeName == "" || blendShapeName[0] !in initials
    ensures FirstVisemeRow(rows, blendShapeName, d) == Option.None
  {
    forall i | 0 <= i < |rows| ensures !rows[i].HasMapping(blendShapeName, d) {
      match d
      case PairsCC3 => assert rows[i].CC3 != "" ==> rows[i].CC3[0] in initials;
      case PairsCC4 => assert rows[i].CC4 != "" ==> rows[i].CC4[0] in initials;
      case Direct => assert rows[i].Direct != "" ==> rows[i].Direct[0] in initials;
      case None =>
    }
  }

  /** The CC3 column of the viseme table names each viseme once. */
  lemma CC3ColumnUnique()
    ensures VisemeColumnUnique(VisemeProfileMaps, VisemeProfile.PairsCC3)
  {
    forall i | 0 <= i < |VisemeProfileMaps| && VisemeProfileMaps[i].CC3 != "" ensures forall j :: i < j < |VisemeProfileMaps| ==> VisemeProfileMaps[i].CC3 != VisemeProfileMaps[j].CC3 {
    }
  }

  /** No non-empty name of `a` in dialect `d` is also a name of `b` in `d`. */
  ghost predicate VisemeColumnsApart(a: seq<VisemeProfileMapping>, b: seq<VisemeProfileMapping>, d: VisemeProfile) {
    match d
    case PairsCC3 => forall i, j :: 0 <= i < |a| && 0 <= j < |b| && a[i].CC3 != "" ==> a[i].CC3 != b[j].CC3
    case PairsCC4 => forall i, j :: 0 <= i < |a| && 0 <= j < |b| && a[i].CC4 != "" ==> a[i].CC4 != b[j].CC4
    case Direct => forall i, j :: 0 <= i < |a| && 0 <= j < |b| && a[i].Direct != "" ==> a[i].Direct != b[j].Direct
    case None => true
  }

  /** A viseme column cut in two is unique when each piece is and the pieces share no name. */
  lemma VisemeColumnUniqueInPieces(rows: seq<VisemeProfileMapping>, k: nat, d: VisemeProfile)
    requires k <= |rows|
    requires VisemeColumnUnique(rows[..k], d) && VisemeColumnUnique(rows[k..], d) && VisemeColumnsApart(rows[..k], rows[k..], d)
    ensures VisemeColumnUnique(rows, d)
  {
    assert forall i :: 0 <= i < k ==> rows[i] == rows[..k][i];
    assert forall i :: k <= i < |rows| ==> rows[i] == rows[k..][i - k];
  }

  /** No two of the first eight visemes share a CC4 name. */
  lemma CC4Unique0()
    ensures VisemeColumnUnique(VisemeProfileMaps[..8], VisemeProfile.PairsCC4)
  {
    forall i | 0 <= i < |VisemeProfileMaps[..8]| && VisemeProfileMaps[..8][i].CC4 != "" ensures forall j :: i < j < |VisemeProfileMaps[..8]| ==> VisemeProfileMaps[..8][i].CC4 != VisemeProfileMaps[..8][j].CC4 {
    }
  }

  /** No two of the tongue visemes share a CC4 name. */
  lemma CC4Unique1()
    ensures VisemeColumnUnique(VisemeProfileMaps[8..], VisemeProfile.PairsCC4)
  {
    forall i | 0 <= i < |VisemeProfileMaps[8..]| && VisemeProfileMaps[8..][i].CC4 != "" ensures forall j :: i < j < |VisemeProfileMaps[8..]| ==> VisemeProfileMaps[8..][i].CC4 != VisemeProfileMaps[8..][j].CC4 {
    }
  }

  /** The first eight visemes share no CC4 name with the tongue visemes. */
  lemma CC4Apart01()
    ensures VisemeColumnsApart(VisemeProfileMaps[..8], VisemeProfileMaps[8..], VisemeProfile.PairsCC4)
  {
    forall i | 0 <= i < |VisemeProfileMaps[..8]| && VisemeProfileMaps[..8][i].CC4 != "" ensures forall j :: 0 <= j < |VisemeProfileMaps[8..]| ==> VisemeProfileMaps[..8][i].CC4 != VisemeProfileMaps[8..][j].CC4 {
    }
  }

  /** The CC4 column of the viseme table names each viseme once. */
  lemma CC4ColumnUnique()
    ensures VisemeColumnUnique(VisemeProfileMaps, VisemeProfile.PairsCC4)
  {
    CC4Unique0();
    CC4Unique1();
    CC4Apart01();
    VisemeColumnUniqueInPieces(VisemeProfileMaps, 8, VisemeProfile.PairsCC4);
  }
}
