/**
 * Translation of one shape name from a source profile to a target profile:
 * the six per-dialect lookup caches, the cached two-table lookup
 * (`GetFacialProfileMapping`), the correction-aware translation
 * (`GetMappingFrom`) and the combined-name expansion with its two shared
 * buffers. The pure functions state what each call returns and how it leaves
 * the caches; the class `FacialProfileMapper` holds the caches and buffers as
 * fields and its methods are proved against those functions.
 */
module FacialMapping {
  import opened Wrappers
  import opened Strings
  import opened FacialProfiles
  import opened ShapeExpansion

  /** The six lookup caches, one per source dialect, as one value. */
  datatype Caches = Caches(
    std: map<string, ExpressionProfileMapping>,
    exPlus: map<string, ExpressionProfileMapping>,
    ext: map<string, ExpressionProfileMapping>,
    cc3Pair: map<string, VisemeProfileMapping>,
    cc4Pair: map<string, VisemeProfileMapping>,
    direct: map<string, VisemeProfileMapping>)

  /** The caches as the program starts: all empty. */
  const EmptyCaches := Caches(map[], map[], map[], map[], map[], map[])

  /** The dialect whose cache an expression source reads: the None dialect shares Std's. */
  function ExpressionCacheDialect(profile: ExpressionProfile): (d: ExpressionProfile)
    ensures d != ExpressionProfile.None
    ensures profile != ExpressionProfile.None ==> d == profile
    ensures profile == ExpressionProfile.None ==> d == ExpressionProfile.Std
  {
    match profile
    case ExPlus => ExpressionProfile.ExPlus
    case Ext => ExpressionProfile.Ext
    case _ => ExpressionProfile.Std
  }

  /** The dialect whose cache a viseme source reads: the None dialect shares PairsCC3's. */
  function VisemeCacheDialect(profile: VisemeProfile): (d: VisemeProfile)
    ensures d != VisemeProfile.None
    ensures profile != VisemeProfile.None ==> d == profile
    ensures profile == VisemeProfile.None ==> d == VisemeProfile.PairsCC3
  {
    match profile
    case Direct => VisemeProfile.Direct
    case PairsCC4 => VisemeProfile.PairsCC4
    case _ => VisemeProfile.PairsCC3
  }

  /** The expression cache a source dialect reads and writes. */
  function GetExpressionCache(c: Caches, profile: ExpressionProfile): map<string, ExpressionProfileMapping> {
    match ExpressionCacheDialect(profile)
    case ExPlus => c.exPlus
    case Ext => c.ext
    case _ => c.std
  }

  /** The viseme cache a source dialect reads and writes. */
  function GetVisemeCache(c: Caches, profile: VisemeProfile): map<string, VisemeProfileMapping> {
    match VisemeCacheDialect(profile)
    case Direct => c.direct
    case PairsCC4 => c.cc4Pair
    case _ => c.cc3Pair
  }

  /** `c` with the expression cache of `profile` replaced by `m`, the others kept. */
  function SetExpressionCache(c: Caches, profile: ExpressionProfile, m: map<string, ExpressionProfileMapping>): (r: Caches)
    ensures GetExpressionCache(r, profile) == m
    ensures forall p :: ExpressionCacheDialect(p) != ExpressionCacheDialect(profile) ==>
      GetExpressionCache(r, p) == GetExpressionCache(c, p)
    ensures forall p :: GetVisemeCache(r, p) == GetVisemeCache(c, p)
  {
    match ExpressionCacheDialect(profile)
    case ExPlus => c.(exPlus := m)
    case Ext => c.(ext := m)
    case _ => c.(std := m)
  }

  /** `c` with the viseme cache of `profile` replaced by `m`, the others kept. */
  function SetVisemeCache(c: Caches, profile: VisemeProfile, m: map<string, VisemeProfileMapping>): (r: Caches)
    ensures GetVisemeCache(r, profile) == m
    ensures forall p :: VisemeCacheDialect(p) != VisemeCacheDialect(profile) ==>
      GetVisemeCache(r, p) == GetVisemeCache(c, p)
    ensures forall p :: GetExpressionCache(r, p) == GetExpressionCache(c, p)
  {
    match VisemeCacheDialect(profile)
    case Direct => c.(direct := m)
    case PairsCC4 => c.(cc4Pair := m)
    case _ => c.(cc3Pair := m)
  }

  /** `Dictionary.Add`: the key must not be present yet. */
  function Add<V>(m: map<string, V>, key: string, value: V): map<string, V>
    requires key !in m
  {
    m[key := value]
  }

  /** The first row of `rows` that claims `blendShapeName` in dialect `from`, if any. */
  function FirstExpressionRow(rows: seq<ExpressionProfileMapping>, blendShapeName: string, from: ExpressionProfile)
    : (r: Option<ExpressionProfileMapping>)
    ensures r.None? <==> forall i :: 0 <= i < |rows| ==> !rows[i].HasMapping(blendShapeName, from)
    ensures r.Some? ==> exists i :: 0 <= i < |rows| && rows[i] == r.value &&
                                   r.value.HasMapping(blendShapeName, from) &&
                                   forall j :: 0 <= j < i ==> !rows[j].HasMapping(blendShapeName, from)
  {
    if rows == [] then Option.None
    else if rows[0].HasMapping(blendShapeName, from) then Some(rows[0])
    else
      var r := FirstExpressionRow(rows[1..], blendShapeName, from);
      assert forall i :: 1 <= i < |rows| ==> rows[i] == rows[1..][i - 1];
      r
  }

  /** The first row of `rows` that claims `blendShapeName` in dialect `from`, if any. */
  function FirstVisemeRow(rows: seq<VisemeProfileMapping>, blendShapeName: string, from: VisemeProfile)
    : (r: Option<VisemeProfileMapping>)
    ensures r.None? <==> forall i :: 0 <= i < |rows| ==> !rows[i].HasMapping(blendShapeName, from)
    ensures r.Some? ==> exists i :: 0 <= i < |rows| && rows[i] == r.value &&
                                   r.value.HasMapping(blendShapeName, from) &&
                                   forall j :: 0 <= j < i ==> !rows[j].HasMapping(blendShapeName, from)
  {
    if rows == [] then Option.None
    else if rows[0].HasMapping(blendShapeName, from) then Some(rows[0])
    else
      var r := FirstVisemeRow(rows[1..], blendShapeName, from);
      assert forall i :: 1 <= i < |rows| ==> rows[i] == rows[1..][i - 1];
      r
  }

  /**
   * The two correspondence tables. The lookup is stated over any pair of
   * tables, so its properties hold whatever the rows; `MapperTables` holds the
   * compiled-in ones.
   */
  datatype Tables = Tables(facialProfileMaps: seq<ExpressionProfileMapping>, visemeProfileMaps: seq<VisemeProfileMapping>)

  const MapperTables := Tables(FacialProfileMaps, VisemeProfileMaps)

  /** Some expression row claims `blendShapeName` in dialect `d`. */
  predicate ExpressionClaims(t: Tables, blendShapeName: string, d: ExpressionProfile) {
    FirstExpressionRow(t.facialProfileMaps, blendShapeName, d).Some?
  }

  /** Some viseme row claims `blendShapeName` in dialect `d`. */
  predicate VisemeClaims(t: Tables, blendShapeName: string, d: VisemeProfile) {
    FirstVisemeRow(t.visemeProfileMaps, blendShapeName, d).Some?
  }

  /** A looked-up column, with a null or empty entry replaced by the input name. */
  function OrName(column: Option<string>, blendShapeName: string): (r: string)
    ensures !IsNullOrEmpty(column) ==> r == column.value
    ensures IsNullOrEmpty(column) ==> r == blendShapeName
  {
    if IsNullOrEmpty(column) then blendShapeName else column.value
  }

  /** Result of one cached lookup: found, the mapped name, and the caches afterwards. */
  datatype Lookup = Lookup(found: bool, mapping: string, caches: Caches)

  /**
   * `GetFacialProfileMapping`: the source's expression cache, then its viseme
   * cache, then a scan of the expression table (caching the row found), then a
   * scan of the viseme table (likewise); otherwise not found and the name
   * itself. A found row whose target column is null or empty gives the name.
   */
  function ProfileMapping(t: Tables, c: Caches, blendShapeName: string, from: FacialProfile, to: FacialProfile): Lookup {
    var cacheFacial := GetExpressionCache(c, from.expressionProfile);
    var cacheViseme := GetVisemeCache(c, from.visemeProfile);
    if blendShapeName in cacheFacial then
      Lookup(true, OrName(cacheFacial[blendShapeName].GetMapping(to.expressionProfile), blendShapeName), c)
    else if blendShapeName in cacheViseme then
      Lookup(true, OrName(cacheViseme[blendShapeName].GetMapping(to.visemeProfile), blendShapeName), c)
    else
      match FirstExpressionRow(t.facialProfileMaps, blendShapeName, from.expressionProfile)
      case Some(row) =>
        Lookup(true, OrName(row.GetMapping(to.expressionProfile), blendShapeName),
               SetExpressionCache(c, from.expressionProfile, Add(cacheFacial, blendShapeName, row)))
      case None =>
        match FirstVisemeRow(t.visemeProfileMaps, blendShapeName, from.visemeProfile)
        case Some(row) =>
          Lookup(true, OrName(row.GetMapping(to.visemeProfile), blendShapeName),
                 SetVisemeCache(c, from.visemeProfile, Add(cacheViseme, blendShapeName, row)))
        case None => Lookup(false, blendShapeName, c)
  }

  /** Every entry of an expression cache is the first row claiming its key in dialect `d`. */
  ghost predicate ExpressionCacheValid(t: Tables, m: map<string, ExpressionProfileMapping>, d: ExpressionProfile) {
    forall k :: k in m ==> FirstExpressionRow(t.facialProfileMaps, k, d) == Some(m[k])
  }

  /** Every entry of a viseme cache is the first row claiming its key in dialect `d`. */
  ghost predicate VisemeCacheValid(t: Tables, m: map<string, VisemeProfileMapping>, d: VisemeProfile) {
    forall k :: k in m ==> FirstVisemeRow(t.visemeProfileMaps, k, d) == Some(m[k])
  }

  /** Each cache holds only what a scan in its own dialect would have found. */
  ghost predicate CachesValid(t: Tables, c: Caches) {
    && ExpressionCacheValid(t, c.std, ExpressionProfile.Std)
    && ExpressionCacheValid(t, c.exPlus, ExpressionProfile.ExPlus)
    && ExpressionCacheValid(t, c.ext, ExpressionProfile.Ext)
    && VisemeCacheValid(t, c.cc3Pair, VisemeProfile.PairsCC3)
    && VisemeCacheValid(t, c.cc4Pair, VisemeProfile.PairsCC4)
    && VisemeCacheValid(t, c.direct, VisemeProfile.Direct)
  }

  /** `n` holds every entry of `m`, unchanged. */
  ghost predicate SubMap<V>(m: map<string, V>, n: map<string, V>) {
    forall k :: k in m ==> k in n && n[k] == m[k]
  }

  /** `d` holds every entry of `c`, unchanged. */
  ghost predicate Extends(c: Caches, d: Caches) {
    && SubMap(c.std, d.std) && SubMap(c.exPlus, d.exPlus) && SubMap(c.ext, d.ext)
    && SubMap(c.cc3Pair, d.cc3Pair) && SubMap(c.cc4Pair, d.cc4Pair) && SubMap(c.direct, d.direct)
  }

  /** Total number of cached entries. */
  function CacheSize(c: Caches): nat {
    |c.std| + |c.exPlus| + |c.ext| + |c.cc3Pair| + |c.cc4Pair| + |c.direct|
  }

  /**
   * Under valid caches a lookup finds exactly the names some row claims: a
   * claim in the source's own dialects is always found, anything found is
   * claimed in the dialects whose caches were read, and a miss hands the name
   * back and leaves the caches alone. The empty name is never found.
   */
  lemma FoundOnlyForClaimedNames(t: Tables, c: Caches, blendShapeName: string, from: FacialProfile, to: FacialProfile)
    requires CachesValid(t, c)
    ensures var r := ProfileMapping(t, c, blendShapeName, from, to);
      && (ExpressionClaims(t, blendShapeName, from.expressionProfile) || VisemeClaims(t, blendShapeName, from.visemeProfile) ==> r.found)
      && (r.found ==> ExpressionClaims(t, blendShapeName, ExpressionCacheDialect(from.expressionProfile)) ||
                      VisemeClaims(t, blendShapeName, VisemeCacheDialect(from.visemeProfile)))
      && (!r.found ==> r.mapping == blendShapeName && r.caches == c)
      && (blendShapeName == "" ==> !r.found)
  {
    ExpressionCacheHolds(t, c, blendShapeName, from.expressionProfile);
    VisemeCacheHolds(t, c, blendShapeName, from.visemeProfile);
  }

  /** A key in a valid expression cache is claimed in the cache's dialect, by the cached row. */
  lemma ExpressionCacheHolds(t: Tables, c: Caches, blendShapeName: string, profile: ExpressionProfile)
    requires CachesValid(t, c)
    ensures blendShapeName in GetExpressionCache(c, profile) ==>
      FirstExpressionRow(t.facialProfileMaps, blendShapeName, ExpressionCacheDialect(profile)) ==
        Some(GetExpressionCache(c, profile)[blendShapeName])
  {
  }

  /** A key in a valid viseme cache is claimed in the cache's dialect, by the cached row. */
  lemma VisemeCacheHolds(t: Tables, c: Caches, blendShapeName: string, profile: VisemeProfile)
    requires CachesValid(t, c)
    ensures blendShapeName in GetVisemeCache(c, profile) ==>
      FirstVisemeRow(t.visemeProfileMaps, blendShapeName, VisemeCacheDialect(profile)) ==
        Some(GetVisemeCache(c, profile)[blendShapeName])
  {
  }

  /**
   * Under valid caches the mapped name is empty exactly when the input is:
   * an empty target column falls back to the input name. A target with no
   * dialects maps every name to itself.
   */
  lemma MappingEmptyOnlyForEmptyName(t: Tables, c: Caches, blendShapeName: string, from: FacialProfile, to: FacialProfile)
    requires CachesValid(t, c)
    ensures ProfileMapping(t, c, blendShapeName, from, to).mapping == "" <==> blendShapeName == ""
    ensures to.expressionProfile == ExpressionProfile.None && to.visemeProfile == VisemeProfile.None ==>
      ProfileMapping(t, c, blendShapeName, from, to).mapping == blendShapeName
  {
    FoundOnlyForClaimedNames(t, c, blendShapeName, from, to);
  }

  /**
   * A lookup keeps the caches valid, only ever adds to them, and adds at most
   * one entry.
   */
  lemma ProfileMappingKeepsCachesValid(t: Tables, c: Caches, blendShapeName: string, from: FacialProfile, to: FacialProfile)
    requires CachesValid(t, c)
    ensures var r := ProfileMapping(t, c, blendShapeName, from, to);
      && CachesValid(t, r.caches)
      && Extends(c, r.caches)
      && (r.caches == c || CacheSize(r.caches) == CacheSize(c) + 1)
  {
    var cacheFacial := GetExpressionCache(c, from.expressionProfile);
    var cacheViseme := GetVisemeCache(c, from.visemeProfile);
    if blendShapeName !in cacheFacial && blendShapeName !in cacheViseme {
      match FirstExpressionRow(t.facialProfileMaps, blendShapeName, from.expressionProfile)
      case Some(row) =>
        AddExpressionEntry(t, c, from.expressionProfile, blendShapeName, row);
      case None =>
        match FirstVisemeRow(t.visemeProfileMaps, blendShapeName, from.visemeProfile)
        case Some(row) =>
          AddVisemeEntry(t, c, from.visemeProfile, blendShapeName, row);
        case None =>
    }
  }

  /** Caching the first row found by an expression scan keeps the caches valid and grows them by one. */
  lemma AddExpressionEntry(t: Tables, c: Caches, profile: ExpressionProfile, blendShapeName: string, row: ExpressionProfileMapping)
    requires CachesValid(t, c) && blendShapeName !in GetExpressionCache(c, profile)
    requires FirstExpressionRow(t.facialProfileMaps, blendShapeName, profile) == Some(row)
    ensures var d := SetExpressionCache(c, profile, Add(GetExpressionCache(c, profile), blendShapeName, row));
      CachesValid(t, d) && Extends(c, d) && CacheSize(d) == CacheSize(c) + 1
  {
    match profile
    case Std => ExpressionEntryAdded(t, c.std, profile, blendShapeName, row);
    case ExPlus => ExpressionEntryAdded(t, c.exPlus, profile, blendShapeName, row);
    case Ext => ExpressionEntryAdded(t, c.ext, profile, blendShapeName, row);
    case None => assert false;
  }

  lemma ExpressionEntryAdded(t: Tables, m: map<string, ExpressionProfileMapping>, d: ExpressionProfile, k: string, row: ExpressionProfileMapping)
    requires ExpressionCacheValid(t, m, d) && k !in m && FirstExpressionRow(t.facialProfileMaps, k, d) == Some(row)
    ensures ExpressionCacheValid(t, m[k := row], d) && SubMap(m, m[k := row]) && |m[k := row]| == |m| + 1
  {
  }

  /** Caching the first row found by a viseme scan keeps the caches valid and grows them by one. */
  lemma AddVisemeEntry(t: Tables, c: Caches, profile: VisemeProfile, blendShapeName: string, row: VisemeProfileMapping)
    requires CachesValid(t, c) && blendShapeName !in GetVisemeCache(c, profile)
    requires FirstVisemeRow(t.visemeProfileMaps, blendShapeName, profile) == Some(row)
    ensures var d := SetVisemeCache(c, profile, Add(GetVisemeCache(c, profile), blendShapeName, row));
      CachesValid(t, d) && Extends(c, d) && CacheSize(d) == CacheSize(c) + 1
  {
    match profile
    case PairsCC3 => VisemeEntryAdded(t, c.cc3Pair, profile, blendShapeName, row);
    case PairsCC4 => VisemeEntryAdded(t, c.cc4Pair, profile, blendShapeName, row);
    case Direct => VisemeEntryAdded(t, c.direct, profile, blendShapeName, row);
    case None => assert false;
  }

  lemma VisemeEntryAdded(t: Tables, m: map<string, VisemeProfileMapping>, d: VisemeProfile, k: string, row: VisemeProfileMapping)
    requires VisemeCacheValid(t, m, d) && k !in m && FirstVisemeRow(t.visemeProfileMaps, k, d) == Some(row)
    ensures VisemeCacheValid(t, m[k := row], d) && SubMap(m, m[k := row]) && |m[k := row]| == |m| + 1
  {
  }

  /** Once a name is found, asking again answers from the cache: same mapping, caches unchanged. */
  lemma RepeatedLookupHitsCache(t: Tables, c: Caches, blendShapeName: string, from: FacialProfile, to: FacialProfile)
    ensures var r := ProfileMapping(t, c, blendShapeName, from, to);
      r.found ==> ProfileMapping(t, r.caches, blendShapeName, from, to) == Lookup(true, r.mapping, r.caches)
  {
  }

  /**
   * The names whose lookup does not depend on what was looked up before: not
   * claimed through a shared cache by a None dialect, and not claimed by both
   * tables in the source's two dialects.
   */
  predicate Unambiguous(t: Tables, blendShapeName: string, from: FacialProfile) {
    && (from.expressionProfile == ExpressionProfile.None ==> !ExpressionClaims(t, blendShapeName, ExpressionProfile.Std))
    && (from.visemeProfile == VisemeProfile.None ==> !VisemeClaims(t, blendShapeName, VisemeProfile.PairsCC3))
    && !(ExpressionClaims(t, blendShapeName, from.expressionProfile) && VisemeClaims(t, blendShapeName, from.visemeProfile))
  }

  /**
   * For an unambiguous name the caches are transparent: with any valid caches
   * the lookup answers as it would with empty ones.
   */
  lemma CachesTransparent(t: Tables, c: Caches, blendShapeName: string, from: FacialProfile, to: FacialProfile)
    requires CachesValid(t, c) && Unambiguous(t, blendShapeName, from)
    ensures var r := ProfileMapping(t, c, blendShapeName, from, to);
            var cold := ProfileMapping(t, EmptyCaches, blendShapeName, from, to);
            r.found == cold.found && r.mapping == cold.mapping
  {
    ExpressionCacheHolds(t, c, blendShapeName, from.expressionProfile);
    VisemeCacheHolds(t, c, blendShapeName, from.visemeProfile);
  }

  /**
   * A name claimed by both tables in the source's two dialects answers as an
   * expression on fresh caches; after a lookup of the same name from a source
   * with no expression dialect (which can only resolve it as a viseme), the
   * same call answers from the viseme cache instead.
   */
  lemma DoubleClaimDependsOnHistory(t: Tables, blendShapeName: string, from: FacialProfile, to: FacialProfile)
    requires ExpressionClaims(t, blendShapeName, from.expressionProfile) && VisemeClaims(t, blendShapeName, from.visemeProfile)
    ensures var prior := ProfileMapping(t, EmptyCaches, blendShapeName, from.(expressionProfile := ExpressionProfile.None), to);
      var expressionRow := FirstExpressionRow(t.facialProfileMaps, blendShapeName, from.expressionProfile).value;
      var visemeRow := FirstVisemeRow(t.visemeProfileMaps, blendShapeName, from.visemeProfile).value;
      && CachesValid(t, prior.caches)
      && ProfileMapping(t, EmptyCaches, blendShapeName, from, to).mapping == OrName(expressionRow.GetMapping(to.expressionProfile), blendShapeName)
      && (to.expressionProfile == from.expressionProfile ==> ProfileMapping(t, EmptyCaches, blendShapeName, from, to).mapping == blendShapeName)
      && ProfileMapping(t, prior.caches, blendShapeName, from, to).mapping == OrName(visemeRow.GetMapping(to.visemeProfile), blendShapeName)
  {
    var none := from.(expressionProfile := ExpressionProfile.None);
    assert FirstExpressionRow(t.facialProfileMaps, blendShapeName, ExpressionProfile.None).None?;
    ProfileMappingKeepsCachesValid(t, EmptyCaches, blendShapeName, none, to);
  }

  /**
   * A source with no expression dialect reads Std's cache: a name only the
   * Std column claims is not found on fresh caches, but is found, with the
   * earlier answer, once a Std source has looked it up.
   */
  lemma NoneSourceSharesStdCache(t: Tables, blendShapeName: string, from: FacialProfile, to: FacialProfile)
    requires from.expressionProfile == ExpressionProfile.None
    requires ExpressionClaims(t, blendShapeName, ExpressionProfile.Std) && !VisemeClaims(t, blendShapeName, from.visemeProfile)
    ensures !ProfileMapping(t, EmptyCaches, blendShapeName, from, to).found
    ensures var prior := ProfileMapping(t, EmptyCaches, blendShapeName, from.(expressionProfile := ExpressionProfile.Std), to);
      && CachesValid(t, prior.caches)
      && prior.found
      && ProfileMapping(t, prior.caches, blendShapeName, from, to) == Lookup(true, prior.mapping, prior.caches)
  {
    var std := from.(expressionProfile := ExpressionProfile.Std);
    assert FirstExpressionRow(t.facialProfileMaps, blendShapeName, ExpressionProfile.None).None?;
    ProfileMappingKeepsCachesValid(t, EmptyCaches, blendShapeName, std, to);
  }

  /**
   * Likewise a source with no viseme dialect reads PairsCC3's cache: a name
   * only the CC3 column claims is not found on fresh caches, but is found,
   * with the earlier answer, once a PairsCC3 source has looked it up.
   */
  lemma NoneSourceSharesCC3Cache(t: Tables, blendShapeName: string, from: FacialProfile, to: FacialProfile)
    requires from.visemeProfile == VisemeProfile.None
    requires VisemeClaims(t, blendShapeName, VisemeProfile.PairsCC3) && !ExpressionClaims(t, blendShapeName, from.expressionProfile)
    ensures !ProfileMapping(t, EmptyCaches, blendShapeName, from, to).found
    ensures var prior := ProfileMapping(t, EmptyCaches, blendShapeName, from.(visemeProfile := VisemeProfile.PairsCC3), to);
      && CachesValid(t, prior.caches)
      && prior.found
      && ProfileMapping(t, prior.caches, blendShapeName, from, to) == Lookup(true, prior.mapping, prior.caches)
  {
    var cc3 := from.(visemeProfile := VisemeProfile.PairsCC3);
    assert FirstVisemeRow(t.visemeProfileMaps, blendShapeName, VisemeProfile.None).None?;
    ProfileMappingKeepsCachesValid(t, EmptyCaches, blendShapeName, cc3, to);
  }

  /**
   * No non-empty name appears in two rows of `rows` in dialect `d`, so no
   * name is claimed by two rows (`ExpressionColumnClaimsOnce`). Stated column
   * by column on the fields themselves, which keeps the check of the
   * compiled-in table small.
   */
  ghost predicate ExpressionColumnUnique(rows: seq<ExpressionProfileMapping>, d: ExpressionProfile) {
    match d
    case Std => forall i, j :: 0 <= i < j < |rows| && rows[i].Standard != "" ==> rows[i].Standard != rows[j].Standard
    case ExPlus => forall i, j :: 0 <= i < j < |rows| && rows[i].ExPlus != "" ==> rows[i].ExPlus != rows[j].ExPlus
    case Ext => forall i, j :: 0 <= i < j < |rows| && rows[i].Extended != "" ==> rows[i].Extended != rows[j].Extended
    case None => true
  }

  /** A unique column claims each name in at most one row. */
  lemma ExpressionColumnClaimsOnce(rows: seq<ExpressionProfileMapping>, d: ExpressionProfile)
    requires ExpressionColumnUnique(rows, d)
    ensures forall i, j, name :: 0 <= i < j < |rows| && rows[i].HasMapping(name, d) ==> !rows[j].HasMapping(name, d)
  {
  }

  /** No non-empty name appears in two rows of `rows` in dialect `d`. */
  ghost predicate VisemeColumnUnique(rows: seq<VisemeProfileMapping>, d: VisemeProfile) {
    match d
    case PairsCC3 => forall i, j :: 0 <= i < j < |rows| && rows[i].CC3 != "" ==> rows[i].CC3 != rows[j].CC3
    case PairsCC4 => forall i, j :: 0 <= i < j < |rows| && rows[i].CC4 != "" ==> rows[i].CC4 != rows[j].CC4
    case Direct => forall i, j :: 0 <= i < j < |rows| && rows[i].Direct != "" ==> rows[i].Direct != rows[j].Direct
    case None => true
  }

  /** A unique column claims each name in at most one row. */
  lemma VisemeColumnClaimsOnce(rows: seq<VisemeProfileMapping>, d: VisemeProfile)
    requires VisemeColumnUnique(rows, d)
    ensures forall i, j, name :: 0 <= i < j < |rows| && rows[i].HasMapping(name, d) ==> !rows[j].HasMapping(name, d)
  {
  }

  /** In a column that names each shape once, the row claiming a name is the first row claiming it. */
  lemma ExpressionRowIsFirst(rows: seq<ExpressionProfileMapping>, d: ExpressionProfile, i: nat, blendShapeName: string)
    requires ExpressionColumnUnique(rows, d)
    requires i < |rows| && rows[i].HasMapping(blendShapeName, d)
    ensures FirstExpressionRow(rows, blendShapeName, d) == Some(rows[i])
  {
    ExpressionColumnClaimsOnce(rows, d);
    var r := FirstExpressionRow(rows, blendShapeName, d);
    var k :| 0 <= k < |rows| && rows[k] == r.value && r.value.HasMapping(blendShapeName, d) &&
             forall j :: 0 <= j < k ==> !rows[j].HasMapping(blendShapeName, d);
    assert !(i < k) && !(k < i);
  }

  /** In a column that names each shape once, the row claiming a name is the first row claiming it. */
  lemma VisemeRowIsFirst(rows: seq<VisemeProfileMapping>, d: VisemeProfile, i: nat, blendShapeName: string)
    requires VisemeColumnUnique(rows, d)
    requires i < |rows| && rows[i].HasMapping(blendShapeName, d)
    ensures FirstVisemeRow(rows, blendShapeName, d) == Some(rows[i])
  {
    VisemeColumnClaimsOnce(rows, d);
    var r := FirstVisemeRow(rows, blendShapeName, d);
    var k :| 0 <= k < |rows| && rows[k] == r.value && r.value.HasMapping(blendShapeName, d) &&
             forall j :: 0 <= j < k ==> !rows[j].HasMapping(blendShapeName, d);
    assert !(i < k) && !(k < i);
  }

  /**
   * What an expression row promises: when the source's column names each
   * shape once, a name that row `i` claims in the source's dialect
   * translates, whatever valid caches hold, to row `i`'s name in the target
   * dialect (or to itself where that is null or empty), provided the name is
   * unambiguous for the source.
   */
  lemma ExpressionRowTranslates(t: Tables, c: Caches, i: nat, blendShapeName: string, from: FacialProfile, to: FacialProfile)
    requires CachesValid(t, c) && ExpressionColumnUnique(t.facialProfileMaps, from.expressionProfile)
    requires i < |t.facialProfileMaps| && t.facialProfileMaps[i].HasMapping(blendShapeName, from.expressionProfile)
    requires Unambiguous(t, blendShapeName, from)
    ensures var r := ProfileMapping(t, c, blendShapeName, from, to);
      r.found && r.mapping == OrName(t.facialProfileMaps[i].GetMapping(to.expressionProfile), blendShapeName)
  {
    CachesTransparent(t, c, blendShapeName, from, to);
    ExpressionRowIsFirst(t.facialProfileMaps, from.expressionProfile, i, blendShapeName);
  }

  /** What a viseme row promises, in the same sense. */
  lemma VisemeRowTranslates(t: Tables, c: Caches, i: nat, blendShapeName: string, from: FacialProfile, to: FacialProfile)
    requires CachesValid(t, c) && VisemeColumnUnique(t.visemeProfileMaps, from.visemeProfile)
    requires i < |t.visemeProfileMaps| && t.visemeProfileMaps[i].HasMapping(blendShapeName, from.visemeProfile)
    requires Unambiguous(t, blendShapeName, from)
    ensures var r := ProfileMapping(t, c, blendShapeName, from, to);
      r.found && r.mapping == OrName(t.visemeProfileMaps[i].GetMapping(to.visemeProfile), blendShapeName)
  {
    CachesTransparent(t, c, blendShapeName, from, to);
    VisemeRowIsFirst(t.visemeProfileMaps, from.visemeProfile, i, blendShapeName);
  }

  /**
   * Hence a round trip through one expression row: its name in dialect `a`
   * goes to its name in dialect `b` and, looked up again on the caches the
   * first lookup left, comes back.
   */
  lemma ExpressionRowRoundTrip(t: Tables, c: Caches, i: nat, a: FacialProfile, b: FacialProfile, x: string, y: string)
    requires CachesValid(t, c)
    requires ExpressionColumnUnique(t.facialProfileMaps, a.expressionProfile)
    requires ExpressionColumnUnique(t.facialProfileMaps, b.expressionProfile)
    requires i < |t.facialProfileMaps|
    requires t.facialProfileMaps[i].HasMapping(x, a.expressionProfile) && t.facialProfileMaps[i].HasMapping(y, b.expressionProfile)
    requires Unambiguous(t, x, a) && Unambiguous(t, y, b)
    ensures var there := ProfileMapping(t, c, x, a, b);
      && there.found && there.mapping == y
      && var back := ProfileMapping(t, there.caches, y, b, a);
         back.found && back.mapping == x
  {
    ExpressionRowTranslates(t, c, i, x, a, b);
    ProfileMappingKeepsCachesValid(t, c, x, a, b);
    ExpressionRowTranslates(t, ProfileMapping(t, c, x, a, b).caches, i, y, b, a);
  }

  /** The same round trip through one viseme row. */
  lemma VisemeRowRoundTrip(t: Tables, c: Caches, i: nat, a: FacialProfile, b: FacialProfile, x: string, y: string)
    requires CachesValid(t, c)
    requires VisemeColumnUnique(t.visemeProfileMaps, a.visemeProfile)
    requires VisemeColumnUnique(t.visemeProfileMaps, b.visemeProfile)
    requires i < |t.visemeProfileMaps|
    requires t.visemeProfileMaps[i].HasMapping(x, a.visemeProfile) && t.visemeProfileMaps[i].HasMapping(y, b.visemeProfile)
    requires Unambiguous(t, x, a) && Unambiguous(t, y, b)
    ensures var there := ProfileMapping(t, c, x, a, b);
      && there.found && there.mapping == y
      && var back := ProfileMapping(t, there.caches, y, b, a);
         back.found && back.mapping == x
  {
    VisemeRowTranslates(t, c, i, x, a, b);
    ProfileMappingKeepsCachesValid(t, c, x, a, b);
    VisemeRowTranslates(t, ProfileMapping(t, c, x, a, b).caches, i, y, b, a);
  }

  /** Result of a translation: the name to use on the target, and the caches afterwards. */
  datatype Translation = Translation(name: string, caches: Caches)

  /**
   * `FacialProfile.GetMappingFrom` on target `to`: a source with corrections
   * first corrects a malformed brow name and, when the corrected name maps,
   * answers with that mapping as it is; otherwise the (possibly corrected) name
   * is looked up, and a found mapping is turned back into the malformed name
   * when the target has corrections. A name that is not found comes back as it
   * went in (after correction).
   */
  function MappingFrom(t: Tables, c: Caches, to: FacialProfile, blendShapeName: string, from: FacialProfile): Translation {
    var correction := CorrectionIn(Corrections, blendShapeName);
    if from.corrections && correction.found then
      var first := ProfileMapping(t, c, correction.name, from, to);
      if first.found then Translation(first.mapping, first.caches)
      else MappingWithIncorrection(t, first.caches, to, correction.name, from)
    else MappingWithIncorrection(t, c, to, blendShapeName, from)
  }

  /** The lookup step of `MappingFrom`, with the incorrection for a target that has corrections. */
  function MappingWithIncorrection(t: Tables, c: Caches, to: FacialProfile, blendShapeName: string, from: FacialProfile): Translation {
    var r := ProfileMapping(t, c, blendShapeName, from, to);
    if r.found then
      var incorrection := IncorrectionIn(Corrections, r.mapping);
      if to.corrections && incorrection.found then Translation(incorrection.name, r.caches)
      else Translation(r.mapping, r.caches)
    else Translation(blendShapeName, r.caches)
  }

  /**
   * A name the source does not correct (the source has no corrections, or
   * the name is not a malformed brow name) takes the ordinary path: the
   * translation is the lookup's mapping, passed through the incorrection
   * table when the target has corrections, and the name itself when nothing
   * is found.
   */
  lemma MappingFromUncorrectedName(t: Tables, c: Caches, to: FacialProfile, blendShapeName: string, from: FacialProfile)
    requires !(from.corrections && CorrectionIn(Corrections, blendShapeName).found)
    ensures var r := ProfileMapping(t, c, blendShapeName, from, to);
      && MappingFrom(t, c, to, blendShapeName, from).caches == r.caches
      && (!r.found ==> MappingFrom(t, c, to, blendShapeName, from).name == blendShapeName)
      && (!to.corrections ==> MappingFrom(t, c, to, blendShapeName, from).name == r.mapping)
      && (to.corrections && r.found ==>
            MappingFrom(t, c, to, blendShapeName, from).name == IncorrectionIn(Corrections, r.mapping).name)
  {
  }

  /**
   * A source with corrections translates a malformed brow name through its
   * corrected name; when that maps, the target's corrections are not applied.
   */
  lemma MappingFromCorrectedName(t: Tables, c: Caches, to: FacialProfile, blendShapeName: string, from: FacialProfile)
    requires from.corrections && CorrectionIn(Corrections, blendShapeName).found
    ensures var correct := CorrectionIn(Corrections, blendShapeName).name;
      var r := ProfileMapping(t, c, correct, from, to);
      && (r.found ==> MappingFrom(t, c, to, blendShapeName, from) == Translation(r.mapping, r.caches))
      && (!r.found ==> MappingFrom(t, c, to, blendShapeName, from) == Translation(correct, c))
  {
  }

  /**
   * Under valid caches a name that no row claims in the dialects the source
   * reads comes back unchanged (corrected first when the source has
   * corrections), and the caches are left alone.
   */
  lemma MappingFromFallback(t: Tables, c: Caches, to: FacialProfile, blendShapeName: string, from: FacialProfile)
    requires CachesValid(t, c)
    ensures var name := if from.corrections then CorrectionIn(Corrections, blendShapeName).name else blendShapeName;
      !ExpressionClaims(t, name, ExpressionCacheDialect(from.expressionProfile)) &&
      !VisemeClaims(t, name, VisemeCacheDialect(from.visemeProfile)) ==>
        MappingFrom(t, c, to, blendShapeName, from) == Translation(name, c)
  {
    var name := if from.corrections then CorrectionIn(Corrections, blendShapeName).name else blendShapeName;
    FoundOnlyForClaimedNames(t, c, name, from, to);
  }

  /**
   * The correction layer keeps a round trip: if the correct brow name is found
   * from the defective profile to the clean one, and its mapping is found from
   * the clean profile back to the correct name, then the malformed name goes
   * there as that mapping and comes back as the malformed name. Which pairs
   * meet the hypothesis depends on the table: `BrowCorrectionsRoundTrip` and
   * `UnlistedCorrectionsStayCorrected` settle it for the compiled-in one.
   */
  lemma CorrectionLayerRoundTrip(t: Tables, c: Caches, i: nat, defective: FacialProfile, clean: FacialProfile)
    requires i < |Corrections| && defective.corrections && !clean.corrections
    requires ProfileMapping(t, c, Corrections[i].correct, defective, clean).found
    requires var there := ProfileMapping(t, c, Corrections[i].correct, defective, clean);
      var back := ProfileMapping(t, there.caches, there.mapping, clean, defective);
      back.found && back.mapping == Corrections[i].correct
    ensures var there := MappingFrom(t, c, clean, Corrections[i].incorrect, defective);
      && there.name == ProfileMapping(t, c, Corrections[i].correct, defective, clean).mapping
      && MappingFrom(t, there.caches, defective, there.name, clean).name == Corrections[i].incorrect
  {
    CorrectionRoundTrip(i);
    var there := ProfileMapping(t, c, Corrections[i].correct, defective, clean);
    MappingFromCorrectedName(t, c, clean, Corrections[i].incorrect, defective);
    MappingFromUncorrectedName(t, there.caches, defective, there.mapping, clean);
  }

  /**
   * A valid Direct cache is empty: every row of the compiled-in viseme table
   * has an empty Direct name, so a Direct source's viseme scan never finds a
   * row to cache.
   */
  lemma DirectCacheStaysEmpty(c: Caches)
    requires CachesValid(MapperTables, c)
    ensures c.direct == map[]
  {
    if k :| k in c.direct {
      NoDirectClaims(k);
    }
  }

  /** A target whose only dialect is Direct gets every name back unchanged. */
  lemma DirectTargetKeepsName(c: Caches, blendShapeName: string, from: FacialProfile, to: FacialProfile)
    requires CachesValid(MapperTables, c)
    requires to.expressionProfile == ExpressionProfile.None && to.visemeProfile == VisemeProfile.Direct
    ensures ProfileMapping(MapperTables, c, blendShapeName, from, to).mapping == blendShapeName
  {
    VisemeCacheHolds(MapperTables, c, blendShapeName, from.visemeProfile);
    DirectColumnEmpty();
  }

  /** No row of the compiled-in viseme table has a Direct name. */
  lemma DirectColumnEmpty()
    ensures forall i :: 0 <= i < |VisemeProfileMaps| ==> VisemeProfileMaps[i].Direct == ""
  {
  }

  /** Hence no row claims any name in the Direct dialect. */
  lemma NoDirectClaims(blendShapeName: string)
    ensures !VisemeClaims(MapperTables, blendShapeName, VisemeProfile.Direct)
  {
    DirectColumnEmpty();
  }

  /** The expression-table loop of `GetFacialProfileMapping`: the first row with `name` in dialect `profile`. */
  method ScanExpressionRows(rows: seq<ExpressionProfileMapping>, name: string, profile: ExpressionProfile)
    returns (row: Option<ExpressionProfileMapping>)
    ensures row == FirstExpressionRow(rows, name, profile)
  {
    var i := 0;
    while i < |rows|
      invariant 0 <= i <= |rows|
      invariant FirstExpressionRow(rows[i..], name, profile) == FirstExpressionRow(rows, name, profile)
    {
      if rows[i].HasMapping(name, profile) {
        return Some(rows[i]);
      }
      assert rows[i..][1..] == rows[i + 1..];
      i := i + 1;
    }
    return Option.None;
  }

  /** The viseme-table loop of `GetFacialProfileMapping`: the first row with `name` in dialect `profile`. */
  method ScanVisemeRows(rows: seq<VisemeProfileMapping>, name: string, profile: VisemeProfile)
    returns (row: Option<VisemeProfileMapping>)
    ensures row == FirstVisemeRow(rows, name, profile)
  {
    var j := 0;
    while j < |rows|
      invariant 0 <= j <= |rows|
      invariant FirstVisemeRow(rows[j..], name, profile) == FirstVisemeRow(rows, name, profile)
    {
      if rows[j].HasMapping(name, profile) {
        return Some(rows[j]);
      }
      assert rows[j..][1..] == rows[j + 1..];
      j := j + 1;
    }
    return Option.None;
  }

  /**
   * The mapper's static state: the six lookup caches, which only grow, and
   * the two buffers that the combined-name expansion clears and refills.
   */
  class FacialProfileMapper {
    var cacheStd: map<string, ExpressionProfileMapping>
    var cacheExPlus: map<string, ExpressionProfileMapping>
    var cacheExt: map<string, ExpressionProfileMapping>
    var cacheCC3Pair: map<string, VisemeProfileMapping>
    var cacheCC4Pair: map<string, VisemeProfileMapping>
    var cacheDirect: map<string, VisemeProfileMapping>
    var multiShapeNames: seq<string>
    var tempNames: seq<string>

    /** The six caches as one value. */
    function State(): Caches
      reads this
    {
      Caches(cacheStd, cacheExPlus, cacheExt, cacheCC3Pair, cacheCC4Pair, cacheDirect)
    }

    /** Each cache holds only first rows of the compiled-in tables under their own keys. */
    ghost predicate Valid()
      reads this
    {
      CachesValid(MapperTables, State())
    }

    /** The state at start-up: empty caches and empty buffers. */
    constructor ()
      ensures State() == EmptyCaches && multiShapeNames == [] && tempNames == []
      ensures Valid()
    {
      cacheStd, cacheExPlus, cacheExt := map[], map[], map[];
      cacheCC3Pair, cacheCC4Pair, cacheDirect := map[], map[], map[];
      multiShapeNames, tempNames := [], [];
    }

    /** Write back the expression cache that `GetExpressionCache` handed out for `profile`. */
    method StoreExpressionCache(profile: ExpressionProfile, m: map<string, ExpressionProfileMapping>)
      modifies this`cacheStd, this`cacheExPlus, this`cacheExt
      ensures State() == SetExpressionCache(old(State()), profile, m)
    {
      match profile
      case ExPlus => cacheExPlus := m;
      case Ext => cacheExt := m;
      case _ => cacheStd := m;
    }

    /** Write back the viseme cache that `GetVisemeCache` handed out for `profile`. */
    method StoreVisemeCache(profile: VisemeProfile, m: map<string, VisemeProfileMapping>)
      modifies this`cacheCC3Pair, this`cacheCC4Pair, this`cacheDirect
      ensures State() == SetVisemeCache(old(State()), profile, m)
    {
      match profile
      case Direct => cacheDirect := m;
      case PairsCC4 => cacheCC4Pair := m;
      case _ => cacheCC3Pair := m;
    }

    /**
     * `GetFacialProfileMapping`: answers as `ProfileMapping` on the compiled-in
     * tables and leaves the caches as it says; valid caches stay valid.
     */
    method GetFacialProfileMapping(blendShapeName: string, from: FacialProfile, to: FacialProfile)
      returns (found: bool, mapping: string)
      modifies this`cacheStd, this`cacheExPlus, this`cacheExt, this`cacheCC3Pair, this`cacheCC4Pair, this`cacheDirect
      ensures Lookup(found, mapping, State()) == ProfileMapping(MapperTables, old(State()), blendShapeName, from, to)
      ensures old(Valid()) ==> Valid()
    {
      if Valid() {
        ProfileMappingKeepsCachesValid(MapperTables, State(), blendShapeName, from, to);
      }
      var cacheFacial := GetExpressionCache(State(), from.expressionProfile);
      var cacheViseme := GetVisemeCache(State(), from.visemeProfile);

      if blendShapeName in cacheFacial {
        return true, OrName(cacheFacial[blendShapeName].GetMapping(to.expressionProfile), blendShapeName);
      }
      if blendShapeName in cacheViseme {
        return true, OrName(cacheViseme[blendShapeName].GetMapping(to.visemeProfile), blendShapeName);
      }

      var fpmSearch := ScanExpressionRows(FacialProfileMaps, blendShapeName, from.expressionProfile);
      if fpmSearch.Some? {
        StoreExpressionCache(from.expressionProfile, Add(cacheFacial, blendShapeName, fpmSearch.value));
        return true, OrName(fpmSearch.value.GetMapping(to.expressionProfile), blendShapeName);
      }

      var vpmSearch := ScanVisemeRows(VisemeProfileMaps, blendShapeName, from.visemeProfile);
      if vpmSearch.Some? {
        StoreVisemeCache(from.visemeProfile, Add(cacheViseme, blendShapeName, vpmSearch.value));
        return true, OrName(vpmSearch.value.GetMapping(to.visemeProfile), blendShapeName);
      }

      return false, blendShapeName;
    }

    /**
     * `FacialProfile.GetMappingFrom` on target `to`: answers as `MappingFrom`
     * on the compiled-in tables and leaves the caches as it says.
     */
    method GetMappingFrom(to: FacialProfile, blendShapeName: string, from: FacialProfile) returns (result: string)
      modifies this`cacheStd, this`cacheExPlus, this`cacheExt, this`cacheCC3Pair, this`cacheCC4Pair, this`cacheDirect
      ensures Translation(result, State()) == MappingFrom(MapperTables, old(State()), to, blendShapeName, from)
      ensures old(Valid()) ==> Valid()
    {
      var name := blendShapeName;
      var found: bool, mapping: string;
      if from.corrections {
        var correction := CorrectionIn(Corrections, name);
        if correction.found {
          name := correction.name;
          found, mapping := GetFacialProfileMapping(name, from, to);
          if found {
            return mapping;
          }
        }
      }

      found, mapping := GetFacialProfileMapping(name, from, to);
      if found {
        if to.corrections {
          var incorrection := IncorrectionIn(Corrections, mapping);
          if incorrection.found {
            return incorrection.name;
          }
        }
        return mapping;
      }
      return name;
    }

    /**
     * `GetMultiShapeNames`: both buffers are cleared on entry, so the result
     * depends on the name alone; it is `MultiShapeNames`, left in
     * `multiShapeNames`, with `tempNames` empty again.
     */
    method GetMultiShapeNames(profileShapeName: string) returns (names: seq<string>)
      modifies this`multiShapeNames, this`tempNames
      ensures names == multiShapeNames == MultiShapeNames(profileShapeName)
      ensures tempNames == []
    {
      multiShapeNames := [];
      tempNames := [];
      if Contains(profileShapeName, "/") {
        if Contains(profileShapeName, SideMarker) {
          multiShapeNames := multiShapeNames + [Replace(profileShapeName, SideMarker, "_L")];
          multiShapeNames := multiShapeNames + [Replace(profileShapeName, SideMarker, "_R")];
          AppendDirectionVariants();
          SideDirectionVariants(profileShapeName);
        } else if Contains(profileShapeName, DirectionMarker) {
          multiShapeNames := multiShapeNames + [Replace(profileShapeName, DirectionMarker, "_Up")];
          multiShapeNames := multiShapeNames + [Replace(profileShapeName, DirectionMarker, "_Down")];
        }
      }

      if |tempNames| > 0 {
        multiShapeNames := [];
        multiShapeNames := multiShapeNames + tempNames;
        tempNames := [];
      }

      if |multiShapeNames| == 0 {
        multiShapeNames := multiShapeNames + [profileShapeName];
      }
      MarkerHasSlash(profileShapeName);
      names := multiShapeNames;
    }

    /** The loop over the side names in `GetMultiShapeNames`: appends the up and down variants of each. */
    method AppendDirectionVariants()
      modifies this`tempNames
      ensures tempNames == old(tempNames) + DirectionVariants(multiShapeNames)
    {
      var i := 0;
      while i < |multiShapeNames|
        invariant 0 <= i <= |multiShapeNames|
        invariant tempNames == old(tempNames) + DirectionVariants(multiShapeNames[..i])
      {
        var lrShapeName := multiShapeNames[i];
        if Contains(lrShapeName, DirectionMarker) {
          tempNames := tempNames + [Replace(lrShapeName, DirectionMarker, "_Up")];
          tempNames := tempNames + [Replace(lrShapeName, DirectionMarker, "_Down")];
        }
        assert multiShapeNames[..i + 1][..i] == multiShapeNames[..i];
        i := i + 1;
      }
      assert multiShapeNames[..i] == multiShapeNames;
    }
  }
}
