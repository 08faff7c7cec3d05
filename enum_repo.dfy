/**
 * The repository attribute enumeration of package enum (types/enum/repo.go):
 * a case-insensitive parser and its printer. RepoAttr is a Go `int`, so any
 * integer is a value of the type; only 0..3 are named.
 */
module RepoAttrs {

  type RepoAttr = int

  const RepoAttrNone: RepoAttr := 0
  const RepoAttrUID: RepoAttr := 1
  const RepoAttrCreated: RepoAttr := 2
  const RepoAttrUpdated: RepoAttr := 3

  // The spellings shared by the enum package.
  const Uid := "uid"
  const Created := "created"
  const CreatedAt := "created_at"
  const Updated := "updated"
  const UpdatedAt := "updated_at"
  const Undefined := "undefined"

  predicate IsUpperChar(c: char) { 'A' <= c <= 'Z' }

  function LowerChar(c: char): char {
    if IsUpperChar(c) then (c as int - 'A' as int + 'a' as int) as char else c
  }

  /** strings.ToLower, on the ASCII letters. */
  function Lower(s: string): (r: string)
    ensures |r| == |s|
    ensures forall i :: 0 <= i < |s| ==> r[i] == LowerChar(s[i])
  {
    if s == [] then [] else [LowerChar(s[0])] + Lower(s[1..])
  }

  /** ParseRepoAttr: matches the lower-cased text against the known spellings. */
  function ParseRepoAttr(s: string): (r: RepoAttr)
    ensures RepoAttrNone <= r <= RepoAttrUpdated
    ensures r == RepoAttrUID <==> Lower(s) == Uid
    ensures r == RepoAttrCreated <==> Lower(s) == Created || Lower(s) == CreatedAt
    ensures r == RepoAttrUpdated <==> Lower(s) == Updated || Lower(s) == UpdatedAt
  {
    var l := Lower(s);
    if l == Uid then RepoAttrUID
    else if l == Created || l == CreatedAt then RepoAttrCreated
    else if l == Updated || l == UpdatedAt then RepoAttrUpdated
    else RepoAttrNone
  }

  /** RepoAttr.String: the canonical spelling, "" for none, "undefined" out of range. */
  function RepoAttrString(a: RepoAttr): (r: string)
    ensures a == RepoAttrNone <==> r == ""
    ensures (a < RepoAttrNone || a > RepoAttrUpdated) <==> r == Undefined
  {
    if a == RepoAttrUID then Uid
    else if a == RepoAttrCreated then Created
    else if a == RepoAttrUpdated then Updated
    else if a == RepoAttrNone then ""
    else Undefined
  }

  lemma {:induction false} LowerIdempotent(s: string)
    ensures Lower(Lower(s)) == Lower(s)
  {
    if s != [] {
      LowerIdempotent(s[1..]);
      assert Lower(s)[1..] == Lower(s[1..]);
    }
  }

  lemma {:induction false} LowerOfLowerCase(s: string)
    requires forall i :: 0 <= i < |s| ==> !IsUpperChar(s[i])
    ensures Lower(s) == s
  {
    if s != [] {
      LowerOfLowerCase(s[1..]);
    }
  }

  /** Parsing ignores case: a text and its lower-cased form parse alike. */
  lemma ParseIgnoresCase(s: string)
    ensures ParseRepoAttr(s) == ParseRepoAttr(Lower(s))
  {
    LowerIdempotent(s);
  }

  /** Printing then parsing gives back each named value. */
  lemma ParsePrintRoundTrip(a: RepoAttr)
    requires RepoAttrNone <= a <= RepoAttrUpdated
    ensures ParseRepoAttr(RepoAttrString(a)) == a
  {
    LowerOfLowerCase(Uid);
    LowerOfLowerCase(Created);
    LowerOfLowerCase(Updated);
    LowerOfLowerCase("");
  }

  /** An out-of-range value prints as "undefined", which parses to none. */
  lemma UndefinedParsesToNone(a: RepoAttr)
    requires a < RepoAttrNone || a > RepoAttrUpdated
    ensures ParseRepoAttr(RepoAttrString(a)) == RepoAttrNone
  {
    LowerOfLowerCase(Undefined);
  }
}
