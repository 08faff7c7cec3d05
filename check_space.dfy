/**
 * The space validator of package check (types/check/space.go): a path name,
 * a display name, a parent-ID sign check and, for a root space, the reserved
 * path-name prefixes.
 */
module SpaceCheck {
  import opened Wrappers
  import opened Check

  /** The fields of a space that the validator reads. */
  datatype Space = Space(pathName: seq<byte>, name: seq<byte>, parentID: int)

  /** Path-name prefixes a root space may not use. */
  const IllegalRootSpaceNames: seq<seq<byte>> := [Ascii("api")]

  /** The search over the reserved names, stopping at the first one that prefixes `pathName`. */
  function HasReservedPrefix(names: seq<seq<byte>>, pathName: seq<byte>): (r: bool)
    ensures r <==> exists i :: 0 <= i < |names| && names[i] <= pathName
  {
    if |names| == 0 then false
    else if names[0] <= pathName then true
    else
      var rest := HasReservedPrefix(names[1..], pathName);
      assert forall i :: 1 <= i < |names| ==> names[i] == names[1..][i - 1];
      rest
  }

  /** Validates a space; the first failing check decides the error. */
  function ValidateSpace(space: Space): (r: Option<ValidationError>)
    ensures PathName(space.pathName) != None ==> r == PathName(space.pathName)
    ensures PathName(space.pathName) == None && Name(space.name) != None ==> r == Name(space.name)
    ensures PathName(space.pathName) == None && Name(space.name) == None && space.parentID < 0 ==>
      r == Some(ErrInvalidParentSpaceID)
    ensures PathName(space.pathName) == None && Name(space.name) == None && space.parentID == 0 ==>
      (r == Some(ErrRootSpaceNameNotAllowed) <==> Ascii("api") <= space.pathName)
    ensures r == None <==>
      && PathName(space.pathName) == None
      && Name(space.name) == None
      && space.parentID >= 0
      && !(space.parentID == 0 && Ascii("api") <= space.pathName)
  {
    if PathName(space.pathName) != None then PathName(space.pathName)
    else if Name(space.name) != None then Name(space.name)
    else if space.parentID < 0 then Some(ErrInvalidParentSpaceID)
    else if space.parentID == 0 && HasReservedPrefix(IllegalRootSpaceNames, space.pathName) then
      Some(ErrRootSpaceNameNotAllowed)
    else None
  }

  /** A child space is never rejected for a reserved prefix: with valid names it is accepted. */
  lemma ChildSpaceIgnoresReservedNames(space: Space)
    requires space.parentID > 0
    requires PathName(space.pathName) == None && Name(space.name) == None
    ensures ValidateSpace(space) == None
  {
  }

  /** The reserved names are matched as prefixes: a root space "apiary" is rejected, as a child it is accepted. */
  lemma ApiaryIsReservedAtRoot()
    ensures ValidateSpace(Space(Ascii("apiary"), Ascii("Apiary"), 0)) == Some(ErrRootSpaceNameNotAllowed)
    ensures ValidateSpace(Space(Ascii("apiary"), Ascii("Apiary"), 7)) == None
  {
  }
}
