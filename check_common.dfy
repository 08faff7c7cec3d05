/**
 * The name validators of package check (types/check/common.go).
 *
 * Go's len() counts bytes and its regexp classes [a-z], [A-Z], [0-9] only match
 * ASCII bytes, so names are modelled as byte strings and each anchored regex
 * `^[first][rest]*$` as a predicate on the first byte and on all later bytes.
 * A validator returns None where the Go code returns nil.
 */
module Check {
  import opened Wrappers

  newtype byte = x: int | 0 <= x < 256

  /** The package-level ValidationError values a validator can return. */
  datatype ValidationError =
    | ErrPathNameLength
    | ErrPathNameRegex
    | ErrNameLength
    | ErrNameRegex
    | ErrUIDLength
    | ErrUIDRegex
    | ErrRootSpaceNameNotAllowed
    | ErrInvalidParentSpaceID

  const MinPathNameLength := 1
  const MaxPathNameLength := 64
  const MinNameLength := 1
  const MaxNameLength := 256
  const MinUIDLength := 2
  const MaxUIDLength := 64

  /** The bytes of an ASCII text, for writing byte-string constants. */
  function Ascii(s: string): (r: seq<byte>)
    requires forall i :: 0 <= i < |s| ==> s[i] as int < 256
    ensures |r| == |s|
    ensures forall i :: 0 <= i < |s| ==> r[i] as int == s[i] as int
  {
    seq(|s|, i requires 0 <= i < |s| => s[i] as int as byte)
  }

  predicate IsLower(b: byte) { 'a' as int <= b as int <= 'z' as int }
  predicate IsUpper(b: byte) { 'A' as int <= b as int <= 'Z' as int }
  predicate IsDigit(b: byte) { '0' as int <= b as int <= '9' as int }

  /** The class [a-z0-9\-\_] shared by the path-name and UID regexes. */
  predicate IsPathNameByte(b: byte) {
    IsLower(b) || IsDigit(b) || b as int == '-' as int || b as int == '_' as int
  }

  /** The class [a-zA-Z0-9\-\_ ] of the display-name regex. */
  predicate IsNameByte(b: byte) {
    IsLower(b) || IsUpper(b) || IsDigit(b) || b as int == '-' as int || b as int == '_' as int || b as int == ' ' as int
  }

  /** `^[a-z][a-z0-9\-\_]*$`, the regex of both path names and UIDs. */
  predicate MatchesPathNameRegex(s: seq<byte>) {
    |s| > 0 && IsLower(s[0]) && forall i :: 1 <= i < |s| ==> IsPathNameByte(s[i])
  }

  /** `^[a-zA-Z][a-zA-Z0-9\-\_ ]*$`, the display-name regex. */
  predicate MatchesNameRegex(s: seq<byte>) {
    |s| > 0 && (IsLower(s[0]) || IsUpper(s[0])) && forall i :: 1 <= i < |s| ==> IsNameByte(s[i])
  }

  /** Validates a path segment: length 1..64, then the path-name regex. */
  function PathName(pathName: seq<byte>): (r: Option<ValidationError>)
    ensures r == Some(ErrPathNameLength) <==> |pathName| < 1 || |pathName| > 64
    ensures r == Some(ErrPathNameRegex) <==>
      1 <= |pathName| <= 64 && !(IsLower(pathName[0]) && forall i :: 1 <= i < |pathName| ==> IsPathNameByte(pathName[i]))
    ensures r == None <==>
      1 <= |pathName| <= 64 && IsLower(pathName[0]) && forall i :: 1 <= i < |pathName| ==> IsPathNameByte(pathName[i])
  {
    var l := |pathName|;
    if l < MinPathNameLength || l > MaxPathNameLength then Some(ErrPathNameLength)
    else if !MatchesPathNameRegex(pathName) then Some(ErrPathNameRegex)
    else None
  }

  /** Validates a display name: length 1..256, then the name regex. */
  function Name(name: seq<byte>): (r: Option<ValidationError>)
    ensures r == Some(ErrNameLength) <==> |name| < 1 || |name| > 256
    ensures r == Some(ErrNameRegex) <==>
      1 <= |name| <= 256 && !((IsLower(name[0]) || IsUpper(name[0])) && forall i :: 1 <= i < |name| ==> IsNameByte(name[i]))
    ensures r == None <==>
      1 <= |name| <= 256 && (IsLower(name[0]) || IsUpper(name[0])) && forall i :: 1 <= i < |name| ==> IsNameByte(name[i])
  {
    var l := |name|;
    if l < MinNameLength || l > MaxNameLength then Some(ErrNameLength)
    else if !MatchesNameRegex(name) then Some(ErrNameRegex)
    else None
  }

  /** Validates an identifier: length 2..64, then the same regex as path names. */
  function UID(uid: seq<byte>): (r: Option<ValidationError>)
    ensures r == Some(ErrUIDLength) <==> |uid| < 2 || |uid| > 64
    ensures r == Some(ErrUIDRegex) <==>
      2 <= |uid| <= 64 && !(IsLower(uid[0]) && forall i :: 1 <= i < |uid| ==> IsPathNameByte(uid[i]))
    ensures r == None <==>
      2 <= |uid| <= 64 && IsLower(uid[0]) && forall i :: 1 <= i < |uid| ==> IsPathNameByte(uid[i])
  {
    var l := |uid|;
    if l < MinUIDLength || l > MaxUIDLength then Some(ErrUIDLength)
    else if !MatchesPathNameRegex(uid) then Some(ErrUIDRegex)
    else None
  }

  /** Every valid UID is a valid path name: same regex, and 2..64 lies inside 1..64. */
  lemma UIDIsPathName(s: seq<byte>)
    ensures UID(s) == None ==> PathName(s) == None
  {
  }

  /** A one-byte name is a valid path name when it is a letter, but never a valid UID. */
  lemma OneLetterIsPathNameNotUID(b: byte)
    requires IsLower(b)
    ensures PathName([b]) == None
    ensures UID([b]) == Some(ErrUIDLength)
  {
  }

  /**
   * Between 65 and 256 bytes the limits part ways: too long for a path name or
   * a UID, whatever the bytes, while a display name is judged by its bytes alone.
   */
  lemma DisplayNamesOutgrowPathNames(s: seq<byte>)
    requires MaxPathNameLength < |s| <= MaxNameLength
    ensures PathName(s) == Some(ErrPathNameLength)
    ensures UID(s) == Some(ErrUIDLength)
    ensures Name(s) == None <==> MatchesNameRegex(s)
  {
  }
}
