/**
 * The expansion of a combined shape name ("_L/R" for a left and a right
 * shape, "_Up/Down" for an up and a down shape) into the concrete shape names
 * of the richer dialects.
 */
module ShapeExpansion {
  import opened Strings

  /** The up and down variants of each name in `names` that carries "_Up/Down", in order. */
  function DirectionVariants(names: seq<string>): (r: seq<string>)
    ensures |r| <= 2 * |names|
    ensures r == [] <==> forall k :: 0 <= k < |names| ==> !Contains(names[k], DirectionMarker)
  {
    if names == [] then []
    else
      var last := names[|names| - 1];
      DirectionVariants(names[..|names| - 1]) +
        (if Contains(last, DirectionMarker)
         then [Replace(last, DirectionMarker, "_Up"), Replace(last, DirectionMarker, "_Down")]
         else [])
  }

  /**
   * The concrete names a (possibly combined) shape name stands for: side
   * before direction, so a name with both markers gives Up_L, Down_L, Up_R,
   * Down_R.
   */
  function MultiShapeNames(profileShapeName: string): seq<string> {
    if Contains(profileShapeName, SideMarker) then
      var left := Replace(profileShapeName, SideMarker, "_L");
      var right := Replace(profileShapeName, SideMarker, "_R");
      if Contains(profileShapeName, DirectionMarker) then
        [Replace(left, DirectionMarker, "_Up"), Replace(left, DirectionMarker, "_Down"),
         Replace(right, DirectionMarker, "_Up"), Replace(right, DirectionMarker, "_Down")]
      else [left, right]
    else if Contains(profileShapeName, DirectionMarker) then
      [Replace(profileShapeName, DirectionMarker, "_Up"), Replace(profileShapeName, DirectionMarker, "_Down")]
    else [profileShapeName]
  }

  /**
   * The expansion has one, two or four names; a name without "/" or without
   * either marker stands for itself alone; and a name with a marker never
   * comes back unchanged as a single name.
   */
  lemma {:induction false} MultiShapeNamesShape(profileShapeName: string)
    ensures |MultiShapeNames(profileShapeName)| in {1, 2, 4}
    ensures !Contains(profileShapeName, "/") ==> MultiShapeNames(profileShapeName) == [profileShapeName]
    ensures |MultiShapeNames(profileShapeName)| == 1 <==>
      !Contains(profileShapeName, SideMarker) && !Contains(profileShapeName, DirectionMarker)
    ensures |MultiShapeNames(profileShapeName)| == 4 <==>
      Contains(profileShapeName, SideMarker) && Contains(profileShapeName, DirectionMarker)
  {
    MarkerHasSlash(profileShapeName);
  }

  /**
   * The direction variants of the two side names of a name with "_L/R": the
   * four names of the expansion when it also has "_Up/Down", none otherwise.
   */
  lemma SideDirectionVariants(profileShapeName: string)
    requires Contains(profileShapeName, SideMarker)
    ensures var sides := [Replace(profileShapeName, SideMarker, "_L"), Replace(profileShapeName, SideMarker, "_R")];
      DirectionVariants(sides) == if Contains(profileShapeName, DirectionMarker) then MultiShapeNames(profileShapeName) else []
  {
    var sides := [Replace(profileShapeName, SideMarker, "_L"), Replace(profileShapeName, SideMarker, "_R")];
    assert sides[..1][..0] == [];
    assert sides[..1] == [sides[0]];
    SideVariantsKeepDirection(profileShapeName);
  }

  /** Each side variant of a name carries "_Up/Down" exactly when the name does. */
  lemma SideVariantsKeepDirection(profileShapeName: string)
    ensures Contains(Replace(profileShapeName, SideMarker, "_L"), DirectionMarker) <==> Contains(profileShapeName, DirectionMarker)
    ensures Contains(Replace(profileShapeName, SideMarker, "_R"), DirectionMarker) <==> Contains(profileShapeName, DirectionMarker)
  {
    SideReplaceKeepsDirection(profileShapeName, "_L");
    SideReplaceKeepsDirection(profileShapeName, "_R");
  }
}
