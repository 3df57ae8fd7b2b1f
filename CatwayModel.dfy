/** The catway schema: a required unique number, a required type that is
    lower-cased and trimmed before its enum check, and an optional trimmed
    state. */
module CatwayModel {
  import opened Js

  datatype Catway = Catway(catwayNumber: int, catwayType: string, catwayState: Js<string>)

  /** The two values of the `catwayType` enum. */
  predicate KnownType(t: string) {
    t == "long" || t == "short"
  }

  /** The `lowercase` setter, then the `trim` setter. */
  function NormalizeType(t: string): (r: string)
    ensures exists i, j :: IsTrimCut(ToLower(t), i, j) && r == ToLower(t)[i..j]
    ensures forall k :: 0 <= k < |r| ==> !('A' <= r[k] <= 'Z')
    ensures r == [] || (!IsSpace(r[0]) && !IsSpace(r[|r| - 1]))
    ensures r == [] <==> forall k :: 0 <= k < |t| ==> IsSpace(t[k])
  {
    var lowered := ToLower(t);
    assert forall k :: 0 <= k < |t| ==> (IsSpace(lowered[k]) <==> IsSpace(t[k]));
    assert forall k :: 0 <= k < |lowered| ==> !('A' <= lowered[k] <= 'Z');
    TrimKeepsLower(lowered);
    Trim(lowered)
  }

  /** Trimming a string without upper-case letters leaves none. */
  lemma TrimKeepsLower(s: string)
    requires forall k :: 0 <= k < |s| ==> !('A' <= s[k] <= 'Z')
    ensures forall k :: 0 <= k < |Trim(s)| ==> !('A' <= Trim(s)[k] <= 'Z')
  {
    var r := Trim(s);
    var i, j :| IsTrimCut(s, i, j) && r == s[i..j];
    assert forall k :: 0 <= k < |r| ==> r[k] == s[i + k];
  }

  /** The `trim` setter of `catwayState`; `null` and a missing value are kept. */
  function NormalizeState(s: Js<string>): (r: Js<string>)
    ensures r.Val? <==> s.Val?
    ensures r.Null? <==> s.Null?
    ensures r.Val? ==> r.v == [] || (!IsSpace(r.v[0]) && !IsSpace(r.v[|r.v| - 1]))
    ensures r.Val? ==> exists i, j :: IsTrimCut(s.v, i, j) && r.v == s.v[i..j]
  {
    if s.Val? then Val(Trim(s.v)) else s
  }

  /** Why the schema refuses a document. */
  datatype SchemaError = Required(path: string) | NotInEnum(path: string)

  /** The document `Catway.create` saves, or the validation error it raises. */
  function Build(catwayNumber: Js<int>, catwayType: Js<string>, catwayState: Js<string>): (r: Result<Catway, SchemaError>)
    ensures r.Success? <==> catwayNumber.Val? && catwayType.Val? && KnownType(NormalizeType(catwayType.v))
    ensures r.Success? ==>
      && r.value.catwayNumber == catwayNumber.v
      && KnownType(r.value.catwayType)
      && r.value.catwayType == NormalizeType(catwayType.v)
      && r.value.catwayState == NormalizeState(catwayState)
    ensures catwayNumber.Val? && catwayType.Val? && NormalizeType(catwayType.v) == "" ==> r == Failure(Required("catwayType"))
  {
    if !catwayNumber.Val? then Failure(Required("catwayNumber"))
    else if !catwayType.Val? || NormalizeType(catwayType.v) == "" then Failure(Required("catwayType"))
    else if !KnownType(NormalizeType(catwayType.v)) then Failure(NotInEnum("catwayType"))
    else Success(Catway(catwayNumber.v, NormalizeType(catwayType.v), NormalizeState(catwayState)))
  }

  /** Normalisation comes before the enum check: `" LONG "` is stored as `"long"`. */
  lemma PaddedUpperCaseAccepted(n: int)
    ensures Build(Val(n), Val(" LONG "), Val(" free ")) == Success(Catway(n, "long", Val("free")))
  {
    LongNormalized();
    FreeNormalized();
  }

  lemma LongNormalized()
    ensures NormalizeType(" LONG ") == "long"
  {
    LowerOfLong();
    TrimOfPadded(" long ", "long");
  }

  lemma FreeNormalized()
    ensures NormalizeState(Val(" free ")) == Val("free")
  {
    TrimOfPadded(" free ", "free");
  }

  lemma LowerOfLong()
    ensures ToLower(" LONG ") == " long "
  {
    var lowered := ToLower(" LONG ");
    assert lowered[0] == LowerChar(' ') && lowered[1] == LowerChar('L') && lowered[2] == LowerChar('O');
    assert lowered[3] == LowerChar('N') && lowered[4] == LowerChar('G') && lowered[5] == LowerChar(' ');
  }

  /** Trimming a word padded by one space on each side gives the word. */
  lemma TrimOfPadded(s: string, w: string)
    requires s == [' '] + w + [' '] && w != [] && !IsSpace(w[0]) && !IsSpace(w[|w| - 1])
    ensures Trim(s) == w
  {
    assert s[1..][0] == w[0];
    assert LeadingSpaces(s) == 1;
    var t := s[1..];
    assert t == w + [' '];
    assert t[..|t| - 1] == w;
    assert ContentEnd(t) == |w|;
    assert t[..|w|] == w;
  }

  /** Any value whose normal form is outside the enum is refused. */
  lemma UnknownTypeRefused(n: int, t: string)
    requires NormalizeType(t) != "" && !KnownType(NormalizeType(t))
    ensures Build(Val(n), Val(t), Undefined) == Failure(NotInEnum("catwayType"))
  {
  }
}
