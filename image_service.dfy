/** Reference extraction from a payment receipt. The recognised text is an
    input; on it the service applies, case-insensitively,
      (?:(?:n[uú]mero\sde\s)?referencia|operaci[oó]n):?\s*(\d{6,20})
    and reports the first capture. `Search` follows the way an ECMAScript
    engine tries the pattern (positions left to right, alternatives in order,
    greedy quantifiers longest first); `Matches` is the plain reading of the
    pattern, and the two are proved to agree. */
module ImageService {
  import opened JsString

  /** The `i` flag without `u` compares upper-case forms, but never lets a
      non-ASCII character match an ASCII one. For the letters of this pattern
      that means: ASCII letters in either case, and ú/Ú, ó/Ó. */
  function Fold(c: char): char {
    if 'A' <= c <= 'Z' then (c as int + 32) as char
    else if c == 'Ú' then 'ú'
    else if c == 'Ó' then 'ó'
    else c
  }

  /** A one-character element of the pattern's fixed-length parts. */
  datatype Atom = Letter(l: char) | EitherLetter(l1: char, l2: char) | Space

  predicate AtomMatches(a: Atom, c: char) {
    match a
    case Letter(l) => Fold(c) == l
    case EitherLetter(l1, l2) => Fold(c) == l1 || Fold(c) == l2
    case Space => IsJsWhitespace(c)
  }

  /** `n[uú]mero\sde\s` */
  const NumeroDe: seq<Atom> := [Letter('n'), EitherLetter('u', 'ú'), Letter('m'), Letter('e'),
    Letter('r'), Letter('o'), Space, Letter('d'), Letter('e'), Space]
  /** `referencia` */
  const Referencia: seq<Atom> := [Letter('r'), Letter('e'), Letter('f'), Letter('e'), Letter('r'),
    Letter('e'), Letter('n'), Letter('c'), Letter('i'), Letter('a')]
  /** `operaci[oó]n` */
  const Operacion: seq<Atom> := [Letter('o'), Letter('p'), Letter('e'), Letter('r'), Letter('a'),
    Letter('c'), Letter('i'), EitherLetter('o', 'ó'), Letter('n')]

  /** Do the atoms match the text from position `p` on? */
  predicate AtomsAt(t: string, p: nat, atoms: seq<Atom>)
    decreases |atoms|
  {
    atoms == [] || (p < |t| && AtomMatches(atoms[0], t[p]) && AtomsAt(t, p + 1, atoms[1..]))
  }

  /** The captured group: the digits `t[start..end]`. */
  datatype Capture = Capture(start: nat, end: nat)

  function Min(a: nat, b: nat): nat { if a < b then a else b }

  /** The number of ASCII digits in a row from position `q`. */
  function DigitRun(t: string, q: nat): (n: nat)
    ensures q + n <= |t| || n == 0
    ensures q + n >= |t| || !IsDigit(t[q + n])
    decreases |t| - q
  {
    if q < |t| && IsDigit(t[q]) then 1 + DigitRun(t, q + 1) else 0
  }

  /** The number of white-space characters in a row from position `q`. */
  function WhitespaceRun(t: string, q: nat): (n: nat)
    ensures q + n <= |t| || n == 0
    ensures q + n >= |t| || !IsJsWhitespace(t[q + n])
    decreases |t| - q
  {
    if q < |t| && IsJsWhitespace(t[q]) then 1 + WhitespaceRun(t, q + 1) else 0
  }

  lemma {:induction false} InDigitRun(t: string, q: nat, i: nat)
    requires q <= i < q + DigitRun(t, q)
    ensures IsDigit(t[i])
    decreases i - q
  {
    if q < i { InDigitRun(t, q + 1, i); }
  }

  lemma {:induction false} InWhitespaceRun(t: string, q: nat, i: nat)
    requires q <= i < q + WhitespaceRun(t, q)
    ensures IsJsWhitespace(t[i])
    decreases i - q
  {
    if q < i { InWhitespaceRun(t, q + 1, i); }
  }

  /** A capture the group `(\d{6,20})` can produce at its start: between 6 and
      20 digits, as many as the run of digits there holds, up to 20. */
  predicate ValidCapture(t: string, c: Capture) {
    && c.start + 6 <= c.end <= c.start + 20 && c.end <= |t|
    && c.end - c.start == Min(DigitRun(t, c.start), 20)
    && AllDigits(t[c.start..c.end])
  }

  /** `(\d{6,20})` at `q`, last element of the pattern: the greedy repetition
      first tries as many digits as there are (up to 20), and since nothing
      follows it that first try succeeds whenever there are at least 6. */
  function DigitsAt(t: string, q: nat): (r: Option<Capture>)
    ensures r.None? <==> DigitRun(t, q) < 6
    ensures r.Some? ==> r.value == Capture(q, q + Min(DigitRun(t, q), 20))
  {
    var n := DigitRun(t, q);
    if n < 6 then None else Some(Capture(q, q + Min(n, 20)))
  }

  /** What `DigitsAt` captures is a valid capture of the group. */
  lemma {:induction false} DigitsAtIsValid(t: string, q: nat)
    ensures DigitsAt(t, q).Some? ==> ValidCapture(t, DigitsAt(t, q).value)
  {
    if DigitsAt(t, q).Some? {
      var c := DigitsAt(t, q).value;
      forall i | 0 <= i < c.end - c.start ensures IsDigit(t[c.start..c.end][i]) {
        InDigitRun(t, q, q + i);
      }
    }
  }

  /** `\s*` and then the digits: the greedy star tries `k` white-space
      characters, then fewer, down to none. */
  function TrySpaces(t: string, q: nat, k: nat): (r: Option<Capture>)
    ensures r.Some? ==> r == DigitsAt(t, r.value.start)
    decreases k
  {
    var c := DigitsAt(t, q + k);
    if c.Some? then c else if k == 0 then None else TrySpaces(t, q, k - 1)
  }

  function SpacesThenDigits(t: string, q: nat): (r: Option<Capture>)
    ensures r.Some? ==> r == DigitsAt(t, r.value.start)
  {
    TrySpaces(t, q, WhitespaceRun(t, q))
  }

  /** `:?` and the rest, after a label ending at `e`: the greedy `?` tries the
      colon first when there is one, then goes without it. */
  function AfterLabel(t: string, e: nat): (r: Option<Capture>)
    ensures r.Some? ==> r == DigitsAt(t, r.value.start)
  {
    if e < |t| && t[e] == ':' then
      var c := SpacesThenDigits(t, e + 1);
      if c.Some? then c else SpacesThenDigits(t, e)
    else SpacesThenDigits(t, e)
  }

  /** Where a label starting at `p` ends, in the order the engine tries them:
      the first alternative with its optional prefix, then without it, then
      the second alternative. */
  function LabelEnds(t: string, p: nat): seq<nat> {
    (if AtomsAt(t, p, NumeroDe + Referencia) then [p + 20] else [])
    + (if AtomsAt(t, p, Referencia) then [p + 10] else [])
    + (if AtomsAt(t, p, Operacion) then [p + 9] else [])
  }

  function FirstAfterLabel(t: string, ends: seq<nat>): (r: Option<Capture>)
    ensures r.Some? ==> r == DigitsAt(t, r.value.start)
  {
    if ends == [] then None
    else
      var c := AfterLabel(t, ends[0]);
      if c.Some? then c else FirstAfterLabel(t, ends[1..])
  }

  /** The match attempt at position `p`. */
  function MatchAt(t: string, p: nat): (r: Option<Capture>)
    ensures r.Some? ==> r == DigitsAt(t, r.value.start)
  {
    FirstAfterLabel(t, LabelEnds(t, p))
  }

  /** `text.match(regex)` without the `g` flag, from position `p` on: the
      first position, left to right, where an attempt succeeds. */
  function SearchFrom(t: string, p: nat): (r: Option<Capture>)
    ensures r.Some? ==> r == DigitsAt(t, r.value.start)
    decreases |t| + 1 - p
  {
    if p > |t| then None
    else
      var c := MatchAt(t, p);
      if c.Some? then c else SearchFrom(t, p + 1)
  }

  function Search(t: string): (r: Option<Capture>)
    ensures r.Some? ==> ValidCapture(t, r.value)
  {
    var r := SearchFrom(t, 0);
    if r.Some? then DigitsAtIsValid(t, r.value.start); r else r
  }

  // ---- the plain reading of the pattern ----

  /** A label of the pattern occupies `t[p..e]`. */
  predicate IsLabel(t: string, p: nat, e: nat) {
    || (AtomsAt(t, p, NumeroDe + Referencia) && e == p + 20)
    || (AtomsAt(t, p, Referencia) && e == p + 10)
    || (AtomsAt(t, p, Operacion) && e == p + 9)
  }

  /** Past the optional colon after a label ending at `e`. */
  function PastColon(t: string, e: nat): nat {
    if e < |t| && t[e] == ':' then e + 1 else e
  }

  /** After a label ending at `e`: an optional colon, all the white space
      there is, then 6 or more digits, of which up to 20 are captured. */
  function Tail(t: string, e: nat): Option<Capture> {
    var q := PastColon(t, e);
    DigitsAt(t, q + WhitespaceRun(t, q))
  }

  /** The pattern matches at `p`, capturing `c`. */
  ghost predicate Matches(t: string, p: nat, c: Capture) {
    exists e :: IsLabel(t, p, e) && Tail(t, e) == Some(c)
  }

  lemma {:induction false} DigitOrColonIsNotSpace(c: char)
    requires IsDigit(c) || c == ':'
    ensures !IsJsWhitespace(c)
  {
  }

  lemma {:induction false} TrySpacesTakesAllSpaces(t: string, q: nat, k: nat)
    requires k <= WhitespaceRun(t, q)
    ensures TrySpaces(t, q, k) == if k == WhitespaceRun(t, q) then DigitsAt(t, q + k) else None
    decreases k
  {
    if k < WhitespaceRun(t, q) {
      InWhitespaceRun(t, q, q + k);
      if IsDigit(t[q + k]) { DigitOrColonIsNotSpace(t[q + k]); }
      assert DigitRun(t, q + k) == 0;
    }
    if k > 0 {
      TrySpacesTakesAllSpaces(t, q, k - 1);
    }
  }

  /** Backtracking into `\s*` never helps: only the longest run of white space
      can be followed by a digit. */
  lemma {:induction false} SpacesThenDigitsIsLongest(t: string, q: nat)
    ensures SpacesThenDigits(t, q) == DigitsAt(t, q + WhitespaceRun(t, q))
  {
    TrySpacesTakesAllSpaces(t, q, WhitespaceRun(t, q));
  }

  /** Nothing of `\s*(\d{6,20})` can start on a colon. */
  lemma {:induction false} NothingStartsAtColon(t: string, e: nat)
    requires e < |t| && t[e] == ':'
    ensures SpacesThenDigits(t, e) == None
  {
    DigitOrColonIsNotSpace(t[e]);
    assert WhitespaceRun(t, e) == 0;
    assert DigitRun(t, e) == 0;
  }

  /** Backtracking into `:?` or `\s*` never helps: the engine's attempt after a
      label is the plain reading's. */
  lemma {:induction false} AfterLabelIsTail(t: string, e: nat)
    ensures AfterLabel(t, e) == Tail(t, e)
  {
    if e < |t| && t[e] == ':' {
      SpacesThenDigitsIsLongest(t, e + 1);
      NothingStartsAtColon(t, e);
    } else {
      SpacesThenDigitsIsLongest(t, e);
    }
  }

  /** No two labels start at the same position: they begin with n, r and o. */
  lemma {:induction false} LabelsExclusive(t: string, p: nat)
    ensures !(AtomsAt(t, p, NumeroDe + Referencia) && AtomsAt(t, p, Referencia))
    ensures !(AtomsAt(t, p, NumeroDe + Referencia) && AtomsAt(t, p, Operacion))
    ensures !(AtomsAt(t, p, Referencia) && AtomsAt(t, p, Operacion))
  {
  }

  /** The one label, if any, that starts at `p`. */
  function LabelEnd(t: string, p: nat): Option<nat> {
    if AtomsAt(t, p, NumeroDe + Referencia) then Some(p + 20)
    else if AtomsAt(t, p, Referencia) then Some(p + 10)
    else if AtomsAt(t, p, Operacion) then Some(p + 9)
    else None
  }

  lemma {:induction false} LabelEndIsLabel(t: string, p: nat, e: nat)
    ensures IsLabel(t, p, e) <==> LabelEnd(t, p) == Some(e)
  {
    LabelsExclusive(t, p);
  }

  lemma {:induction false} MatchAtByLabelEnd(t: string, p: nat)
    ensures MatchAt(t, p) == if LabelEnd(t, p).Some? then AfterLabel(t, LabelEnd(t, p).value) else None
  {
    LabelsExclusive(t, p);
    var ends := LabelEnds(t, p);
    if LabelEnd(t, p).Some? {
      assert ends == [LabelEnd(t, p).value];
      assert ends[1..] == [];
      assert FirstAfterLabel(t, ends[1..]) == None;
    } else {
      assert ends == [];
    }
  }

  /** The engine's attempt at `p` captures `c` exactly when the pattern, read
      plainly, matches at `p` capturing `c`. */
  lemma {:induction false} MatchAtIsMatches(t: string, p: nat, c: Capture)
    ensures MatchAt(t, p) == Some(c) <==> Matches(t, p, c)
  {
    MatchAtByLabelEnd(t, p);
    var le := LabelEnd(t, p);
    if le.Some? {
      AfterLabelIsTail(t, le.value);
      LabelEndIsLabel(t, p, le.value);
      if Matches(t, p, c) {
        var e :| IsLabel(t, p, e) && Tail(t, e) == Some(c);
        LabelEndIsLabel(t, p, e);
      }
    } else if Matches(t, p, c) {
      var e :| IsLabel(t, p, e) && Tail(t, e) == Some(c);
      LabelEndIsLabel(t, p, e);
    }
  }

  /** No match starts in `lo <= q < hi`. */
  ghost predicate NoMatchIn(t: string, lo: nat, hi: nat) {
    forall q: nat, c :: lo <= q < hi ==> !Matches(t, q, c)
  }

  /** No match starts at `lo` or later. */
  ghost predicate NoMatchFrom(t: string, lo: nat) {
    forall q: nat, c :: lo <= q ==> !Matches(t, q, c)
  }

  lemma {:induction false} MatchAtNoneIff(t: string, p: nat)
    ensures MatchAt(t, p).None? <==> forall c :: !Matches(t, p, c)
    ensures MatchAt(t, p).Some? ==> Matches(t, p, MatchAt(t, p).value)
  {
    if MatchAt(t, p).Some? {
      MatchAtIsMatches(t, p, MatchAt(t, p).value);
    } else {
      forall c ensures !Matches(t, p, c) {
        MatchAtIsMatches(t, p, c);
      }
    }
  }

  /** No label fits after the end of the text. */
  lemma {:induction false} NoMatchPastEnd(t: string, p: nat)
    requires p > |t|
    ensures forall c :: !Matches(t, p, c)
  {
    assert !IsLabel(t, p, p + 20) && !IsLabel(t, p, p + 10) && !IsLabel(t, p, p + 9);
  }

  /** `Search` finds the leftmost position where the pattern matches, or
      reports that it matches nowhere. */
  lemma {:induction false} SearchFromIsLeftmost(t: string, p: nat)
    ensures SearchFrom(t, p).None? ==> NoMatchFrom(t, p)
    ensures SearchFrom(t, p).Some? ==>
      exists q: nat :: p <= q <= |t| && Matches(t, q, SearchFrom(t, p).value) && NoMatchIn(t, p, q)
    decreases |t| + 1 - p
  {
    if p > |t| {
      forall q: nat, c | p <= q ensures !Matches(t, q, c) {
        NoMatchPastEnd(t, q);
      }
    } else {
      MatchAtNoneIff(t, p);
      if MatchAt(t, p).Some? {
        assert NoMatchIn(t, p, p);
      } else {
        SearchFromIsLeftmost(t, p + 1);
        if SearchFrom(t, p + 1).Some? {
          var q: nat :| p + 1 <= q <= |t| && Matches(t, q, SearchFrom(t, p + 1).value) && NoMatchIn(t, p + 1, q);
          assert NoMatchIn(t, p, q);
        } else {
          assert NoMatchFrom(t, p);
        }
      }
    }
  }

  lemma {:induction false} SearchIsLeftmost(t: string)
    ensures Search(t).None? ==> NoMatchFrom(t, 0)
    ensures Search(t).Some? ==>
      exists q: nat :: q <= |t| && Matches(t, q, Search(t).value) && NoMatchIn(t, 0, q)
  {
    SearchFromIsLeftmost(t, 0);
  }

  /** At one position the pattern captures at most one group. */
  lemma {:induction false} MatchesUnique(t: string, p: nat, c1: Capture, c2: Capture)
    requires Matches(t, p, c1) && Matches(t, p, c2)
    ensures c1 == c2
  {
    MatchAtIsMatches(t, p, c1);
    MatchAtIsMatches(t, p, c2);
  }

  /** When the plain reading matches at `p` and nowhere before, `Search`
      reports exactly that match. */
  lemma {:induction false} SearchFindsFirstMatch(t: string, p: nat, c: Capture)
    requires Matches(t, p, c) && NoMatchIn(t, 0, p)
    ensures Search(t) == Some(c)
  {
    SearchIsLeftmost(t);
    assert !NoMatchFrom(t, 0);
    var q: nat :| q <= |t| && Matches(t, q, Search(t).value) && NoMatchIn(t, 0, q);
    assert !(p < q);
    assert !(q < p);
    MatchesUnique(t, p, c, Search(t).value);
  }

  // ---- the `i` flag ----

  /** Two texts that differ only in the case of letters. */
  predicate SameUpToCase(t1: string, t2: string) {
    |t1| == |t2| && forall i :: 0 <= i < |t1| ==> SameCaseAt(t1, t2, i)
  }

  predicate SameCaseAt(t1: string, t2: string, i: nat) {
    i < |t1| && i < |t2| && Fold(t1[i]) == Fold(t2[i])
  }

  /** Characters with the same folded form are alike for every part of the
      pattern that is not a letter: digits are equal, and white space and the
      colon are matched alike. */
  lemma {:induction false} FoldKeepsDigit(c: char, d: char)
    requires Fold(c) == Fold(d)
    ensures IsDigit(c) <==> IsDigit(d)
    ensures IsDigit(c) ==> c == d
  {
  }

  lemma {:induction false} FoldKeepsWhitespace(c: char, d: char)
    requires Fold(c) == Fold(d)
    ensures IsJsWhitespace(c) <==> IsJsWhitespace(d)
  {
  }

  lemma {:induction false} FoldKeepsColon(c: char, d: char)
    requires Fold(c) == Fold(d)
    ensures c == ':' <==> d == ':'
  {
  }

  lemma {:induction false} AtomsAtSameCase(t1: string, t2: string, p: nat, atoms: seq<Atom>)
    requires SameUpToCase(t1, t2)
    ensures AtomsAt(t1, p, atoms) <==> AtomsAt(t2, p, atoms)
    decreases |atoms|
  {
    if atoms != [] {
      if p < |t1| {
        assert SameCaseAt(t1, t2, p);
 FoldKeepsWhitespace(t1[p], t2[p]); }
      AtomsAtSameCase(t1, t2, p + 1, atoms[1..]);
    }
  }

  lemma {:induction false} DigitRunSameCase(t1: string, t2: string, q: nat)
    requires SameUpToCase(t1, t2)
    ensures DigitRun(t1, q) == DigitRun(t2, q)
    decreases |t1| - q
  {
    if q < |t1| {
      assert SameCaseAt(t1, t2, q);
      FoldKeepsDigit(t1[q], t2[q]);
      DigitRunSameCase(t1, t2, q + 1);
    }
  }

  lemma {:induction false} WhitespaceRunSameCase(t1: string, t2: string, q: nat)
    requires SameUpToCase(t1, t2)
    ensures WhitespaceRun(t1, q) == WhitespaceRun(t2, q)
    decreases |t1| - q
  {
    if q < |t1| {
      assert SameCaseAt(t1, t2, q);
      FoldKeepsWhitespace(t1[q], t2[q]);
      WhitespaceRunSameCase(t1, t2, q + 1);
    }
  }

  lemma {:induction false} DigitsAtSameCase(t1: string, t2: string, q: nat)
    requires SameUpToCase(t1, t2)
    ensures DigitsAt(t1, q) == DigitsAt(t2, q)
  {
    DigitRunSameCase(t1, t2, q);
  }

  lemma {:induction false} PastColonSameCase(t1: string, t2: string, e: nat)
    requires SameUpToCase(t1, t2)
    ensures PastColon(t1, e) == PastColon(t2, e)
  {
    if e < |t1| {
      assert SameCaseAt(t1, t2, e);
      FoldKeepsColon(t1[e], t2[e]);
    }
  }

  lemma {:induction false} TailSameCase(t1: string, t2: string, e: nat)
    requires SameUpToCase(t1, t2)
    ensures Tail(t1, e) == Tail(t2, e)
  {
    var q := PastColon(t1, e);
    PastColonSameCase(t1, t2, e);
    WhitespaceRunSameCase(t1, t2, q);
    DigitsAtSameCase(t1, t2, q + WhitespaceRun(t1, q));
  }

  lemma {:induction false} MatchAtSameCase(t1: string, t2: string, p: nat)
    requires SameUpToCase(t1, t2)
    ensures MatchAt(t1, p) == MatchAt(t2, p)
  {
    AtomsAtSameCase(t1, t2, p, NumeroDe + Referencia);
    AtomsAtSameCase(t1, t2, p, Referencia);
    AtomsAtSameCase(t1, t2, p, Operacion);
    MatchAtByLabelEnd(t1, p);
    MatchAtByLabelEnd(t2, p);
    if LabelEnd(t1, p).Some? {
      var e := LabelEnd(t1, p).value;
      AfterLabelIsTail(t1, e);
      AfterLabelIsTail(t2, e);
      TailSameCase(t1, t2, e);
    }
  }

  lemma {:induction false} SearchFromSameCase(t1: string, t2: string, p: nat)
    requires SameUpToCase(t1, t2)
    ensures SearchFrom(t1, p) == SearchFrom(t2, p)
    decreases |t1| + 1 - p
  {
    if p <= |t1| {
      MatchAtSameCase(t1, t2, p);
      SearchFromSameCase(t1, t2, p + 1);
    }
  }

  // ---- the service ----

  /** The object `processPaymentImage` resolves to. */
  datatype ExtractionResult = ExtractionResult(success: bool, referenceId: Option<string>, error: Option<string>)

  const NotFoundMessage := "No se pudo encontrar un número de referencia en el comprobante."
  const TechnicalErrorMessage := "Hubo un error técnico al leer la imagen."

  /** The result for a recognised text: the first captured reference, or the
      not-found error. */
  function ExtractReference(text: string): (r: ExtractionResult)
    ensures r.success ==>
      (r.error.None? && r.referenceId.Some?
       && 6 <= |r.referenceId.value| <= 20 && AllDigits(r.referenceId.value))
    ensures !r.success ==> r.referenceId.None? && r.error == Some(NotFoundMessage)
  {
    match Search(text)
    case Some(c) => ExtractionResult(true, Some(text[c.start..c.end]), None)
    case None => ExtractionResult(false, None, Some(NotFoundMessage))
  }

  /** The result reports the leftmost match of the pattern, read plainly, and
      fails only when the pattern matches nowhere in the text. */
  lemma {:induction false} ExtractReferenceIsFirstMatch(text: string)
    ensures ExtractReference(text).success ==>
      exists q: nat, c :: Matches(text, q, c) && NoMatchIn(text, 0, q)
        && ExtractReference(text).referenceId == Some(text[c.start..c.end])
    ensures !ExtractReference(text).success ==> NoMatchFrom(text, 0)
  {
    SearchIsLeftmost(text);
    if Search(text).Some? {
      var q: nat :| q <= |text| && Matches(text, q, Search(text).value) && NoMatchIn(text, 0, q);
      assert Matches(text, q, Search(text).value) && NoMatchIn(text, 0, q);
    }
  }

  /** The pattern carries the `i` flag: changing the case of letters changes
      nothing in the result, down to the reference itself. */
  lemma {:induction false} ExtractReferenceIgnoresCase(t1: string, t2: string)
    requires SameUpToCase(t1, t2)
    ensures ExtractReference(t1) == ExtractReference(t2)
  {
    SearchFromSameCase(t1, t2, 0);
    if Search(t1).Some? {
      DigitsSameCase(t1, t2, Search(t1).value);
    }
  }

  /** Digits are their own folded form, so a capture reads the same in both. */
  lemma {:induction false} DigitsSameCase(t1: string, t2: string, c: Capture)
    requires SameUpToCase(t1, t2) && ValidCapture(t1, c)
    ensures t1[c.start..c.end] == t2[c.start..c.end]
  {
    forall i | c.start <= i < c.end ensures t1[i] == t2[i] {
      assert IsDigit(t1[c.start..c.end][i - c.start]);
      assert SameCaseAt(t1, t2, i);
      FoldKeepsDigit(t1[i], t2[i]);
    }
  }

  /** A capture of more than 20 digits in a row keeps only the first 20. */
  lemma {:induction false} LongRunKeepsTwenty(text: string)
    requires ExtractReference(text).success
    ensures exists q: nat :: (q + |ExtractReference(text).referenceId.value| <= |text|
      && ExtractReference(text).referenceId.value == text[q..q + Min(DigitRun(text, q), 20)])
  {
    var c := Search(text).value;
    assert text[c.start..c.end] == text[c.start..c.start + Min(DigitRun(text, c.start), 20)];
  }

  /** Six digits in a row start at `q`. */
  predicate SixDigitsAt(t: string, q: int) {
    0 <= q <= |t| - 6 && AllDigits(t[q..q + 6])
  }

  /** A reference is found only in text holding six digits in a row. */
  lemma {:induction false} ReferenceNeedsSixDigits(text: string)
    ensures ExtractReference(text).success ==> exists q :: SixDigitsAt(text, q)
  {
    if Search(text).Some? {
      var c := Search(text).value;
      assert text[c.start..c.start + 6] == text[c.start..c.end][..6];
      assert SixDigitsAt(text, c.start);
    }
  }

  /** Matching a concatenation of atoms is matching one part, then the other. */
  lemma {:induction false} AtomsAtConcat(t: string, p: nat, a: seq<Atom>, b: seq<Atom>)
    ensures AtomsAt(t, p, a + b) <==> AtomsAt(t, p, a) && AtomsAt(t, p + |a|, b)
    decreases |a|
  {
    if a != [] {
      assert (a + b)[1..] == a[1..] + b;
      AtomsAtConcat(t, p + 1, a[1..], b);
    } else {
      assert a + b == b;
    }
  }

  /** The atoms from the `k`-th on match the word `w`, character by
      character. */
  predicate SpellsFrom(atoms: seq<Atom>, w: string, k: nat)
    requires |atoms| == |w|
    decreases |atoms| - k
  {
    k >= |atoms| || (AtomMatches(atoms[k], w[k]) && SpellsFrom(atoms, w, k + 1))
  }

  lemma {:induction false} AtomsAtSpells(t: string, p: nat, atoms: seq<Atom>, w: string, k: nat)
    requires |atoms| == |w| && k <= |atoms| && p + |w| <= |t| && t[p..p + |w|] == w
    requires SpellsFrom(atoms, w, k)
    ensures AtomsAt(t, p + k, atoms[k..])
    decreases |atoms| - k
  {
    if k < |atoms| {
      AtomsAtSpells(t, p, atoms, w, k + 1);
      assert atoms[k..][1..] == atoms[k + 1..];
      assert t[p + k] == t[p..p + |w|][k];
    }
  }

  /** A run of digits up to the end of the text is all of `DigitRun`. */
  lemma {:induction false} DigitRunToEnd(t: string, q: nat)
    requires q <= |t| && AllDigits(t[q..])
    ensures DigitRun(t, q) == |t| - q
    decreases |t| - q
  {
    if q < |t| {
      assert t[q] == t[q..][0];
      assert t[q + 1..] == t[q..][1..];
      DigitRunToEnd(t, q + 1);
    }
  }

  /** The long label of a receipt line, with its colon and a space. */
  const ReceiptLabel := "Numero de Referencia: "

  lemma {:induction false} NumeroDeSpelled(t: string, p: nat)
    requires p + 10 <= |t| && t[p..p + 10] == "Numero de "
    ensures AtomsAt(t, p, NumeroDe)
  {
    assert SpellsFrom(NumeroDe, "Numero de ", 7);
    assert SpellsFrom(NumeroDe, "Numero de ", 5);
    assert SpellsFrom(NumeroDe, "Numero de ", 2);
    assert SpellsFrom(NumeroDe, "Numero de ", 0);
    AtomsAtSpells(t, p, NumeroDe, "Numero de ", 0);
  }

  lemma {:induction false} ReferenciaSpelled(t: string, p: nat)
    requires p + 10 <= |t| && t[p..p + 10] == "Referencia"
    ensures AtomsAt(t, p, Referencia)
  {
    assert SpellsFrom(Referencia, "Referencia", 5);
    assert SpellsFrom(Referencia, "Referencia", 0);
    AtomsAtSpells(t, p, Referencia, "Referencia", 0);
  }

  lemma {:induction false} ReceiptLabelWords(t: string)
    requires |t| >= 22 && t[..22] == ReceiptLabel
    ensures t[0..10] == "Numero de " && t[10..20] == "Referencia"
  {
    assert t[0..10] == ReceiptLabel[0..10];
    assert t[10..20] == ReceiptLabel[10..20];
  }

  lemma {:induction false} ReceiptLabelSpelled(t: string)
    requires |t| >= 20 && t[0..10] == "Numero de " && t[10..20] == "Referencia"
    ensures AtomsAt(t, 0, NumeroDe + Referencia)
  {
    NumeroDeSpelled(t, 0);
    ReferenciaSpelled(t, 10);
    AtomsAtConcat(t, 0, NumeroDe, Referencia);
  }

  lemma {:induction false} ReceiptLabelTail(t: string, d: string)
    requires t == ReceiptLabel + d && 6 <= |d| <= 20 && AllDigits(d)
    ensures Tail(t, 20) == Some(Capture(22, |t|))
  {
    assert t[20] == ':' && t[21] == ' ';
    assert t[22] == d[0];
    assert WhitespaceRun(t, 21) == 1;
    assert t[22..] == d;
    DigitRunToEnd(t, 22);
  }

  /** A receipt line reading "Numero de Referencia: " and then 6 to 20 digits
      yields exactly those digits. */
  lemma {:induction false} LabelledReference(t: string, d: string)
    requires t == ReceiptLabel + d && 6 <= |d| <= 20 && AllDigits(d)
    ensures ExtractReference(t) == ExtractionResult(true, Some(d), None)
  {
    assert t[..22] == ReceiptLabel;
    ReceiptLabelWords(t);
    ReceiptLabelSpelled(t);
    ReceiptLabelTail(t, d);
    assert IsLabel(t, 0, 20);
    assert Matches(t, 0, Capture(22, |t|));
    SearchFindsFirstMatch(t, 0, Capture(22, |t|));
    assert t[22..|t|] == d;
  }

  /** Text of thirteen characters whose first four and tenth are not digits
      holds no six digits in a row. */
  lemma {:induction false} NoRunOfSix(t: string)
    requires |t| == 13 && t[9] == ' '
    requires !IsDigit(t[0]) && !IsDigit(t[1]) && !IsDigit(t[2]) && !IsDigit(t[3])
    ensures !exists q :: SixDigitsAt(t, q)
  {
    forall q | 0 <= q <= |t| - 6 ensures !SixDigitsAt(t, q) {
      var k := if q >= 4 then 9 else q;
      assert !IsDigit(t[q..q + 6][k - q]);
    }
  }

  /** A label followed by only three digits is no reference. */
  lemma {:induction false} OperacionWithThreeDigits()
    ensures !ExtractReference("Operación 123").success
  {
    NoRunOfSix("Operación 123");
    ReferenceNeedsSixDigits("Operación 123");
  }

  /** What `worker.recognize` yields: the text, or an exception. */
  datatype Recognition = Recognized(text: string) | RecognitionFailed

  /** The OCR worker, as a resource that must be terminated. */
  class Worker {
    var terminations: nat

    constructor ()
      ensures terminations == 0
    {
      terminations := 0;
    }

    method Terminate()
      modifies this
      ensures terminations == old(terminations) + 1
    {
      terminations := terminations + 1;
    }
  }

  /** `processPaymentImage`: acquire a worker, recognise, extract, and in every
      case terminate the worker exactly once. */
  method ProcessPaymentImage(recognition: Recognition) returns (result: ExtractionResult, ghost worker: Worker)
    ensures fresh(worker) && worker.terminations == 1
    ensures recognition.Recognized? ==> result == ExtractReference(recognition.text)
    ensures recognition.RecognitionFailed? ==>
      result == ExtractionResult(false, None, Some(TechnicalErrorMessage))
  {
    var w := new Worker();
    match recognition {
      case Recognized(text) =>
        var m := Search(text);
        if m.Some? {
          result := ExtractionResult(true, Some(text[m.value.start..m.value.end]), None);
        } else {
          result := ExtractionResult(false, None, Some(NotFoundMessage));
        }
      case RecognitionFailed =>
        result := ExtractionResult(false, None, Some(TechnicalErrorMessage));
    }
    w.Terminate();
    worker := w;
  }
}
