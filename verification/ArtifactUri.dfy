/** Artifact URIs: printed as type name, underscore, UUID, and parsed by splitting at
    underscores. */
module ArtifactUri {
  import opened Network

  datatype ArtifactType =
    | UnspecifiedType | Program | Stdin | Proof | Transaction | StateType | Export | PrivateStdin

  function TypeName(t: ArtifactType): string {
    match t
    case UnspecifiedType => "UNSPECIFIED_ARTIFACT_TYPE"
    case Program => "PROGRAM"
    case Stdin => "STDIN"
    case Proof => "PROOF"
    case Transaction => "TRANSACTION"
    case StateType => "STATE"
    case Export => "EXPORT"
    case PrivateStdin => "PRIVATE_STDIN"
  }

  function FromName(s: string): Option<ArtifactType> {
    if s == "UNSPECIFIED_ARTIFACT_TYPE" then Some(UnspecifiedType)
    else if s == "PROGRAM" then Some(Program)
    else if s == "STDIN" then Some(Stdin)
    else if s == "PROOF" then Some(Proof)
    else if s == "TRANSACTION" then Some(Transaction)
    else if s == "STATE" then Some(StateType)
    else if s == "EXPORT" then Some(Export)
    else if s == "PRIVATE_STDIN" then Some(PrivateStdin)
    else None
  }

  // ---------- UUID texts, section 4 of RFC 9562 ----------

  predicate IsLowerHex(c: char) {
    '0' <= c <= '9' || 'a' <= c <= 'f'
  }

  predicate IsHex(c: char) {
    IsLowerHex(c) || 'A' <= c <= 'F'
  }

  predicate IsDashPlace(i: int) {
    i == 8 || i == 13 || i == 18 || i == 23
  }

  predicate IsHyphenated(s: string) {
    |s| == 36 && forall i :: 0 <= i < 36 ==> if IsDashPlace(i) then s[i] == '-' else IsHex(s[i])
  }

  /** The canonical text of a UUID: hyphenated, lower case. */
  predicate IsCanonical(s: string) {
    |s| == 36 && forall i :: 0 <= i < 36 ==> if IsDashPlace(i) then s[i] == '-' else IsLowerHex(s[i])
  }

  const NIL_UUID := "00000000-0000-0000-0000-000000000000"

  // A UUID is represented by its canonical text.
  type Uuid = s: string | IsCanonical(s) witness NIL_UUID

  function Hyphenate(s: string): (r: Uuid)
    requires |s| == 32 && forall i :: 0 <= i < 32 ==> IsLowerHex(s[i])
  {
    var r := s[..8] + "-" + s[8..12] + "-" + s[12..16] + "-" + s[16..20] + "-" + s[20..];
    assert r[8] == r[13] == r[18] == r[23] == '-';
    assert forall i :: 0 <= i < 8 ==> r[i] == s[i];
    assert forall i :: 9 <= i < 13 ==> r[i] == s[i - 1];
    assert forall i :: 14 <= i < 18 ==> r[i] == s[i - 2];
    assert forall i :: 19 <= i < 23 ==> r[i] == s[i - 3];
    assert forall i :: 24 <= i < 36 ==> r[i] == s[i - 4];
    r
  }

  // The parser takes 32 bare digits, the hyphenated form, and that form in braces or as a URN.
  function ParseUuid(s: string): Option<Uuid> {
    if |s| == 32 && (forall i :: 0 <= i < 32 ==> IsHex(s[i])) then
      Some(Hyphenate(LowerAll(s)))
    else if IsHyphenated(s) then
      Some(LowerAll(s))
    else if |s| == 38 && s[0] == '{' && s[37] == '}' && IsHyphenated(s[1..37]) then
      Some(LowerAll(s[1..37]))
    else if |s| == 45 && s[..9] == "urn:uuid:" && IsHyphenated(s[9..]) then
      Some(LowerAll(s[9..]))
    else None
  }

  // ---------- splitting ----------

  function IndexOf(s: string, c: char): (i: nat)
    requires c in s
    ensures i < |s| && s[i] == c && c !in s[..i]
  {
    if s[0] == c then 0
    else
      var i := IndexOf(s[1..], c);
      assert s[..i + 1] == [s[0]] + s[1..][..i];
      i + 1
  }

  function Split(s: string, c: char): (parts: seq<string>)
    ensures |parts| >= 1
    ensures |parts| == 1 <==> c !in s
    decreases |s|
  {
    if c !in s then [s]
    else
      var i := IndexOf(s, c);
      [s[..i]] + Split(s[i + 1..], c)
  }

  // ---------- printing and parsing ----------

  datatype Uri = Uri(kind: ArtifactType, id: Uuid)

  const DEFAULT := Uri(UnspecifiedType, NIL_UUID)

  function Print(u: Uri): string {
    TypeName(u.kind) + "_" + u.id
  }

  function Parse(s: string): Option<Uri> {
    var parts := Split(s, '_');
    if |parts| != 2 then None
    else
      var kind, id := FromName(parts[0]), ParseUuid(parts[1]);
      if kind.None? || id.None? then None else Some(Uri(kind.value, id.value))
  }

  lemma FirstOccurrence(a: string, c: char, b: string)
    requires c !in a
    ensures IndexOf(a + [c] + b, c) == |a|
  {
    var s := a + [c] + b;
    assert s[|a|] == c;
    assert s[..|a|] == a;
  }

  lemma SplitAtFirst(a: string, c: char, b: string)
    requires c !in a
    ensures Split(a + [c] + b, c) == [a] + Split(b, c)
  {
    var s := a + [c] + b;
    FirstOccurrence(a, c, b);
    assert c in s;
    assert s[..|a|] == a && s[|a| + 1..] == b;
  }

  // A separator in both halves gives at least three parts.
  lemma ManyParts(a: string, c: char, b: string)
    requires c in a
    ensures |Split(a + [c] + b, c)| >= 3
  {
    var i := IndexOf(a, c);
    var rest := a[i + 1..] + [c] + b;
    assert a + [c] + b == a[..i] + [c] + rest;
    SplitAtFirst(a[..i], c, rest);
    assert rest[|a| - i - 1] == c;
  }

  lemma CanonicalParses(id: Uuid)
    ensures '_' !in id && ParseUuid(id) == Some(id)
  {
    assert LowerAll(id) == id;
  }

  // A UUID without its dashes.
  function Bare(u: Uuid): string {
    u[..8] + u[9..13] + u[14..18] + u[19..23] + u[24..]
  }

  /** Every spelling of a UUID parses to it: hyphenated in either case, without dashes, in braces
      and as a URN. */
  lemma SpellingsParse(u: Uuid, s: string)
    requires IsHyphenated(s) && LowerAll(s) == u
    ensures ParseUuid(s) == Some(u) && ParseUuid("{" + s + "}") == Some(u) && ParseUuid("urn:uuid:" + s) == Some(u)
    ensures ParseUuid(Bare(u)) == Some(u)
  {
    BracedParses(u, s);
    UrnParses(u, s);
    BareParses(u);
  }

  lemma BracedParses(u: Uuid, s: string)
    requires IsHyphenated(s) && LowerAll(s) == u
    ensures ParseUuid("{" + s + "}") == Some(u)
  {
    var t := "{" + s + "}";
    assert |t| == 38 && t[0] == '{' && t[37] == '}' && t[1..37] == s;
  }

  lemma UrnParses(u: Uuid, s: string)
    requires IsHyphenated(s) && LowerAll(s) == u
    ensures ParseUuid("urn:uuid:" + s) == Some(u)
  {
    var t := "urn:uuid:" + s;
    assert |t| == 45 && t[..9] == "urn:uuid:" && t[9..] == s;
  }

  lemma BareParses(u: Uuid)
    ensures ParseUuid(Bare(u)) == Some(u)
  {
    var b := Bare(u);
    BareDigits(u);
    assert LowerAll(b) == b;
    HyphenateBare(u);
  }

  lemma BareDigits(u: Uuid)
    ensures |Bare(u)| == 32 && forall i :: 0 <= i < 32 ==> IsLowerHex(Bare(u)[i])
  {
    forall i | 0 <= i < 32 ensures IsLowerHex(Bare(u)[i]) {
      var at := if i < 8 then i else if i < 12 then i + 1 else if i < 16 then i + 2 else if i < 20 then i + 3 else i + 4;
      assert Bare(u)[i] == u[at] && !IsDashPlace(at);
    }
  }

  lemma HyphenateBare(u: Uuid)
    requires |Bare(u)| == 32 && forall i :: 0 <= i < 32 ==> IsLowerHex(Bare(u)[i])
    ensures Hyphenate(Bare(u)) == u
  {
    var b := Bare(u);
    assert b[..8] == u[..8] && b[8..12] == u[9..13] && b[12..16] == u[14..18] && b[16..20] == u[19..23] && b[20..] == u[24..];
    assert u == u[..8] + [u[8]] + u[9..13] + [u[13]] + u[14..18] + [u[18]] + u[19..23] + [u[23]] + u[24..];
    assert u[8] == '-' && u[13] == '-' && u[18] == '-' && u[23] == '-';
  }

  lemma NamesParse(t: ArtifactType)
    ensures FromName(TypeName(t)) == Some(t)
  {
  }

  /** The round trip holds for exactly the types whose name has no underscore: for programs,
      inputs and proofs, but not for the private inputs the store means to accept. */
  lemma RoundTripIff(u: Uri)
    ensures Parse(Print(u)) == Some(u) <==> '_' !in TypeName(u.kind)
    ensures '_' in TypeName(u.kind) ==> Parse(Print(u)) == None
    ensures '_' in TypeName(u.kind) <==> u.kind.PrivateStdin? || u.kind.UnspecifiedType?
  {
    var name := TypeName(u.kind);
    UnderscoredNames(u.kind);
    CanonicalParses(u.id);
    NamesParse(u.kind);
    if '_' in name {
      ManyParts(name, '_', u.id);
    } else {
      SplitAtFirst(name, '_', u.id);
      assert Split(u.id, '_') == [u.id];
    }
  }

  /** The file names of programs, inputs and proofs. */
  lemma FileNames(u: Uri)
    ensures u.kind.Program? ==> Print(u) == "PROGRAM_" + u.id
    ensures u.kind.Stdin? ==> Print(u) == "STDIN_" + u.id
    ensures u.kind.PrivateStdin? ==> Print(u) == "PRIVATE_STDIN_" + u.id
    ensures u.kind.Proof? ==> Print(u) == "PROOF_" + u.id
  {
    assert "PROGRAM" + "_" == "PROGRAM_" && "STDIN" + "_" == "STDIN_" && "PROOF" + "_" == "PROOF_";
    assert "PRIVATE_STDIN" + "_" == "PRIVATE_STDIN_";
  }

  lemma UnderscoredNames(t: ArtifactType)
    ensures '_' in TypeName(t) <==> t.PrivateStdin? || t.UnspecifiedType?
  {
    if t.PrivateStdin? {
      assert TypeName(t)[7] == '_';
    } else if t.UnspecifiedType? {
      assert TypeName(t)[11] == '_';
    }
  }

  /** Whatever parses is a type name, one underscore and a UUID text that reads as the id; if
      that text is canonical, printing gives the input back. */
  lemma ParsedIsPrinted(s: string)
    requires Parse(s).Some?
    ensures var u := Parse(s).value;
            exists t :: s == TypeName(u.kind) + "_" + t && ParseUuid(t) == Some(u.id)
                        && (IsCanonical(t) ==> Print(u) == s)
  {
    var u := Parse(s).value;
    var parts := Split(s, '_');
    var i := IndexOf(s, '_');
    var t := s[i + 1..];
    assert parts == [s[..i]] + Split(t, '_');
    assert Split(t, '_') == [t];
    assert s == s[..i] + "_" + t;
    KnownNames(s[..i]);
    assert s == TypeName(u.kind) + "_" + t;
    if IsCanonical(t) {
      CanonicalParses(t);
    }
  }

  lemma KnownNames(s: string)
    ensures FromName(s).Some? ==> TypeName(FromName(s).value) == s
  {
  }

  /** Different URIs are stored under different file names. */
  lemma PrintInjective(u: Uri, v: Uri)
    requires Print(u) == Print(v)
    ensures u == v
  {
    var n, m := |TypeName(u.kind)|, |TypeName(v.kind)|;
    assert n == m;
    assert Print(u)[..n] == TypeName(u.kind) && Print(v)[..n] == TypeName(v.kind);
    assert Print(u)[n + 1..] == u.id && Print(v)[n + 1..] == v.id;
    NamesParse(u.kind);
    NamesParse(v.kind);
  }
}
