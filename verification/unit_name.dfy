/** The experiment-unit file name `j<J>_r<R>_E<E>_m<M>`: the encoder used for the
    expected result files and the decoder `extract_components`, which matches the
    regular expression `^j(\d+)_r([\d.]+)_E(.*?)_m(\d+)$` with Python's `re.match`. */
module UnitName {
  import opened Wrappers
  import opened Strings

  /** The four groups of the pattern, as the strings they matched. */
  datatype Components = Components(j: string, r: string, e: string, m: string)

  /** The suffix of every per-unit result file. */
  const ResultsSuffix: string := "_results.json"

  /** `j{J}_r{R}_E{E}_m{M}` with every part already rendered as text. */
  function Join(c: Components): string
  {
    "j" + (c.j + ("_r" + (c.r + ("_E" + (c.e + ("_m" + c.m))))))
  }

  /** The grammar the pattern accepts. `\d` is read as the ASCII digits; `.` in
      `(.*?)` does not match a line feed; `$` matches at the end of the text or
      just before one final line feed. */
  predicate Matches(name: string, c: Components)
  {
    && IsDigits(c.j) && IsDigitsOrDots(c.r) && IsDigits(c.m) && '\n' !in c.e
    && (name == Join(c) || name == Join(c) + "\n")
  }

  /** Length of the longest prefix of `s` whose characters satisfy `p`. */
  function Span(s: string, p: char -> bool): (n: nat)
    ensures n <= |s|
    ensures forall i :: 0 <= i < n ==> p(s[i])
    ensures n < |s| ==> !p(s[n])
  {
    if s == [] || !p(s[0]) then 0 else 1 + Span(s[1..], p)
  }

  /** Length of the longest suffix of `s` made of digits. */
  function TrailingDigits(s: string): (n: nat)
    ensures n <= |s|
    ensures forall i :: |s| - n <= i < |s| ==> IsDigit(s[i])
    ensures n < |s| ==> !IsDigit(s[|s| - n - 1])
  {
    if s == [] || !IsDigit(s[|s| - 1]) then 0 else 1 + TrailingDigits(s[..|s| - 1])
  }

  predicate StartsWith(s: string, prefix: string)
  {
    |prefix| <= |s| && s[..|prefix|] == prefix
  }

  /** Removes the line feed that `$` may stand before. */
  function DropFinalNewline(c: string): string
  {
    if |c| > 0 && c[|c| - 1] == '\n' then c[..|c| - 1] else c
  }

  /** Splits `E + "_m" + M` at its one trailing `_m<digits>` (a shorter digit suffix
      is preceded by a digit, not by `m`), refusing an `E` that holds a line feed. */
  function SplitM(body: string): Option<(string, string)>
  {
    var mn := TrailingDigits(body);
    if mn == 0 || |body| < mn + 2 || body[|body| - mn - 2..|body| - mn] != "_m" then None
    else
      var e := body[..|body| - mn - 2];
      if '\n' in e then None else Some((e, body[|body| - mn..]))
  }

  /** Splits the part after `_r` into `R` and the part after `_E`; `[\d.]+` takes
      the maximal run (a shorter run is followed by a digit or dot, not by `_`). */
  function SplitR(b: string): Option<(string, string)>
  {
    var rn := Span(b, IsDigitOrDot);
    if rn == 0 || !StartsWith(b[rn..], "_E") then None else Some((b[..rn], b[rn + 2..]))
  }

  /** Splits the part after `j` into `J` and the part after `_r`; `\d+` takes the
      maximal run. */
  function SplitJ(a: string): Option<(string, string)>
  {
    var jn := Span(a, IsDigit);
    if jn == 0 || !StartsWith(a[jn..], "_r") then None else Some((a[..jn], a[jn + 2..]))
  }

  /** `extract_components` without suffix stripping (run_gen.py, run_meta.py and
      run_mlhc.py): the groups `(J, R, E, M)` of a match, or `None`. */
  function ExtractComponents(name: string): Option<Components>
  {
    if |name| == 0 || name[0] != 'j' then None
    else
      match SplitJ(name[1..])
      case None => None
      case Some(jb) =>
        match SplitR(jb.1)
        case None => None
        case Some(rc) =>
          match SplitM(DropFinalNewline(rc.1))
          case None => None
          case Some(em) => Some(Components(jb.0, rc.0, em.0, em.1))
  }

  /** `extract_components` of save_csv.py: first every `_results.json` is deleted. */
  function ExtractResultComponents(filename: string): Option<Components>
  {
    ExtractComponents(RemoveAll(filename, ResultsSuffix))
  }

  /** The expected result file name `f"j{J}_r{R}_E{E}_m{M}_results.json"`, with the
      integers `J` and `M` rendered by `str`. */
  function ResultFileName(j: nat, r: string, e: string, m: nat): string
  {
    Join(Components(NatToString(j), r, e, NatToString(m))) + ResultsSuffix
  }

  lemma {:induction false} SpanConcat(x: string, y: string, p: char -> bool)
    requires forall i :: 0 <= i < |x| ==> p(x[i])
    requires y != [] && !p(y[0])
    ensures Span(x + y, p) == |x|
  {
    if x != [] {
      assert (x + y)[1..] == x[1..] + y;
      SpanConcat(x[1..], y, p);
    } else {
      assert x + y == y;
    }
  }

  lemma {:induction false} TrailingDigitsConcat(x: string, y: string)
    requires forall i :: 0 <= i < |y| ==> IsDigit(y[i])
    requires x != [] && !IsDigit(x[|x| - 1])
    ensures TrailingDigits(x + y) == |y|
  {
    if y != [] {
      assert (x + y)[..|x + y| - 1] == x + y[..|y| - 1];
      TrailingDigitsConcat(x, y[..|y| - 1]);
    } else {
      assert x + y == x;
    }
  }

  lemma SplitMSound(body: string)
    requires SplitM(body).Some?
    ensures IsDigits(SplitM(body).value.1) && '\n' !in SplitM(body).value.0
    ensures body == SplitM(body).value.0 + ("_m" + SplitM(body).value.1)
  {
    var mn := TrailingDigits(body);
    assert body == body[..|body| - mn - 2] + (body[|body| - mn - 2..|body| - mn] + body[|body| - mn..]);
  }

  lemma SplitMComplete(e: string, m: string)
    requires IsDigits(m) && '\n' !in e
    ensures SplitM(e + ("_m" + m)) == Some((e, m))
  {
    var body := e + ("_m" + m);
    assert body == (e + "_m") + m;
    TrailingDigitsConcat(e + "_m", m);
    assert body[..|body| - |m| - 2] == e;
    assert body[|body| - |m| - 2..|body| - |m|] == "_m";
    assert body[|body| - |m|..] == m;
  }

  lemma SplitRSound(b: string)
    requires SplitR(b).Some?
    ensures IsDigitsOrDots(SplitR(b).value.0)
    ensures b == SplitR(b).value.0 + ("_E" + SplitR(b).value.1)
  {
    var rn := Span(b, IsDigitOrDot);
    assert b == b[..rn] + ("_E" + b[rn + 2..]);
  }

  lemma SplitRComplete(r: string, c: string)
    requires IsDigitsOrDots(r)
    ensures SplitR(r + ("_E" + c)) == Some((r, c))
  {
    var b := r + ("_E" + c);
    SpanConcat(r, "_E" + c, IsDigitOrDot);
    assert b[|r|..] == "_E" + c;
    assert b[|r| + 2..] == c;
    assert b[..|r|] == r;
  }

  lemma SplitJSound(a: string)
    requires SplitJ(a).Some?
    ensures IsDigits(SplitJ(a).value.0)
    ensures a == SplitJ(a).value.0 + ("_r" + SplitJ(a).value.1)
  {
    var jn := Span(a, IsDigit);
    assert a == a[..jn] + ("_r" + a[jn + 2..]);
  }

  lemma SplitJComplete(j: string, b: string)
    requires IsDigits(j)
    ensures SplitJ(j + ("_r" + b)) == Some((j, b))
  {
    var a := j + ("_r" + b);
    SpanConcat(j, "_r" + b, IsDigit);
    assert a[|j|..] == "_r" + b;
    assert a[|j| + 2..] == b;
    assert a[..|j|] == j;
  }

  lemma TailComplete(c: string, e: string, m: string)
    requires IsDigits(m) && '\n' !in e
    requires c == e + ("_m" + m) || c == e + ("_m" + m) + "\n"
    ensures SplitM(DropFinalNewline(c)) == Some((e, m))
  {
    var body := e + ("_m" + m);
    if c == body {
      assert c[|c| - 1] == m[|m| - 1];
    } else {
      assert c[..|c| - 1] == body;
    }
    SplitMComplete(e, m);
  }

  /** The decoder's result is assembled from its three stages. */
  lemma ExtractStages(name: string, b: string, c: string, cs: Components)
    requires |name| > 0 && name[0] == 'j'
    requires SplitJ(name[1..]) == Some((cs.j, b))
    requires SplitR(b) == Some((cs.r, c))
    requires SplitM(DropFinalNewline(c)) == Some((cs.e, cs.m))
    ensures ExtractComponents(name) == Some(cs)
  {
  }

  /** An accepted name passed all three stages. */
  lemma ExtractedStages(name: string)
    requires ExtractComponents(name).Some?
    ensures |name| > 0 && name[0] == 'j' && SplitJ(name[1..]).Some?
    ensures var b := SplitJ(name[1..]).value.1;
            SplitR(b).Some? && SplitM(DropFinalNewline(SplitR(b).value.1)).Some?
    ensures var b := SplitJ(name[1..]).value.1;
            var c := SplitR(b).value.1;
            var em := SplitM(DropFinalNewline(c)).value;
            ExtractComponents(name).value == Components(SplitJ(name[1..]).value.0, SplitR(b).value.0, em.0, em.1)
  {
  }

  lemma JoinStages(name: string, a: string, b: string, c: string, cs: Components)
    requires name == "j" + a && a == cs.j + ("_r" + b) && b == cs.r + ("_E" + c)
    requires DropFinalNewline(c) == cs.e + ("_m" + cs.m)
    ensures name == Join(cs) || name == Join(cs) + "\n"
  {
    var body := cs.e + ("_m" + cs.m);
    if c != body {
      assert c == body + "\n";
      assert name == Join(cs) + "\n";
    }
  }

  /** The groups of an accepted name satisfy their character classes. */
  lemma ExtractedGroups(name: string, cs: Components)
    requires ExtractComponents(name) == Some(cs)
    ensures IsDigits(cs.j) && IsDigitsOrDots(cs.r) && IsDigits(cs.m) && '\n' !in cs.e
  {
    ExtractedStages(name);
    var a := name[1..];
    SplitJSound(a);
    var b := SplitJ(a).value.1;
    SplitRSound(b);
    SplitMSound(DropFinalNewline(SplitR(b).value.1));
  }

  lemma ExtractedHead(name: string, cs: Components)
    requires ExtractComponents(name) == Some(cs)
    ensures name == "j" + name[1..]
  {
    ExtractedStages(name);
  }

  lemma ExtractedJ(name: string, cs: Components)
    requires ExtractComponents(name) == Some(cs)
    ensures name[1..] == cs.j + ("_r" + SplitJ(name[1..]).value.1)
  {
    ExtractedStages(name);
    SplitJSound(name[1..]);
  }

  lemma ExtractedRest(name: string, cs: Components)
    requires ExtractComponents(name) == Some(cs)
    ensures var b := SplitJ(name[1..]).value.1;
            var c := SplitR(b).value.1;
            b == cs.r + ("_E" + c) && DropFinalNewline(c) == cs.e + ("_m" + cs.m)
  {
    ExtractedStages(name);
    var b := SplitJ(name[1..]).value.1;
    SplitRSound(b);
    SplitMSound(DropFinalNewline(SplitR(b).value.1));
  }

  /** Every name the decoder accepts matches the grammar with the groups it returns. */
  lemma ExtractSound(name: string)
    requires ExtractComponents(name).Some?
    ensures Matches(name, ExtractComponents(name).value)
  {
    var cs := ExtractComponents(name).value;
    ExtractedGroups(name, cs);
    ExtractedHead(name, cs);
    ExtractedJ(name, cs);
    ExtractedRest(name, cs);
    var b := SplitJ(name[1..]).value.1;
    JoinStages(name, name[1..], b, SplitR(b).value.1, cs);
  }

  /** Every name the grammar describes is decoded into exactly its groups. */
  lemma ExtractComplete(name: string, cs: Components)
    requires Matches(name, cs)
    ensures ExtractComponents(name) == Some(cs)
  {
    var body := cs.e + ("_m" + cs.m);
    var c := if name == Join(cs) then body else body + "\n";
    var b := cs.r + ("_E" + c);
    var a := cs.j + ("_r" + b);
    assert name == "j" + a;
    assert name[1..] == a;
    SplitJComplete(cs.j, b);
    SplitRComplete(cs.r, c);
    TailComplete(c, cs.e, cs.m);
    ExtractStages(name, b, c, cs);
  }

  /** The decoder returns `(J, R, E, M)` exactly when the name matches the grammar
      with those groups, and `None` exactly when no groups fit. */
  lemma ExtractComponentsIff(name: string, cs: Components)
    ensures ExtractComponents(name) == Some(cs) <==> Matches(name, cs)
    ensures ExtractComponents(name) == None <==> forall c :: !Matches(name, c)
  {
    if ExtractComponents(name).Some? { ExtractSound(name); }
    if Matches(name, cs) { ExtractComplete(name, cs); }
    forall c | Matches(name, c) ensures ExtractComponents(name) == Some(c) {
      ExtractComplete(name, c);
    }
  }

  /** The characters of an encoded result file name, region by region. */
  lemma EncodedNameChars(cs: Components, i: nat)
    requires IsDigits(cs.j) && IsDigitsOrDots(cs.r) && IsDigits(cs.m)
    requires i < |Join(cs)|
    ensures var s := Join(cs) + ResultsSuffix;
            var p := 1 + |cs.j|;
            var q := p + 2 + |cs.r|;
            var t := q + 2 + |cs.e|;
            && (i < p ==> s[i] != '_')
            && (i == p ==> s[i + 2] == cs.r[0])
            && (p < i < q ==> s[i] != '_')
            && (i == q ==> s[i + 1] == 'E')
            && (i == q + 1 ==> s[i] == 'E')
            && (q + 2 <= i < t ==> s[i] == cs.e[i - q - 2])
            && (i == t ==> s[i] == '_' && s[i + 1] == 'm')
            && (t < i ==> s[i] != '_')
  {
    var s := Join(cs) + ResultsSuffix;
    var p := 1 + |cs.j|;
    var q := p + 2 + |cs.r|;
    var t := q + 2 + |cs.e|;
    assert s == "j" + cs.j + "_r" + cs.r + "_E" + cs.e + "_m" + cs.m + ResultsSuffix;
    if i < p && i > 0 { assert s[i] == cs.j[i - 1]; }
    if p < i < q { assert i == p + 1 || s[i] == cs.r[i - p - 2]; }
    if t + 1 < i { assert s[i] == cs.m[i - t - 2]; }
  }

  /** No occurrence of `_results.json` starts before the suffix of an encoded name. */
  lemma NoSuffixBefore(cs: Components, i: nat)
    requires IsDigits(cs.j) && IsDigitsOrDots(cs.r) && IsDigits(cs.m)
    requires !Contains(cs.e, ResultsSuffix)
    requires i < |Join(cs)|
    ensures !OccursAt(Join(cs) + ResultsSuffix, ResultsSuffix, i)
  {
    var s := Join(cs) + ResultsSuffix;
    var q := 3 + |cs.j| + |cs.r|;
    var t := q + 2 + |cs.e|;
    if OccursAt(s, ResultsSuffix, i) {
      SuffixHead(s, i);
      EncodedNameChars(cs, i);
      if q + 2 <= i && i + |ResultsSuffix| <= t {
        SuffixInsideE(cs, i);
      } else if q + 2 <= i < t {
        EncodedNameChars(cs, t);
        SuffixAt(s, i, t - i);
      }
    }
  }

  /** An occurrence of `_results.json` starts with `_re`. */
  lemma SuffixHead(s: string, i: nat)
    requires OccursAt(s, ResultsSuffix, i)
    ensures s[i] == '_' && s[i + 1] == 'r' && s[i + 2] == 'e'
  {
    SuffixAt(s, i, 0);
    SuffixAt(s, i, 1);
    SuffixAt(s, i, 2);
  }

  /** Inside an occurrence of `_results.json`, only the first character is `_`. */
  lemma SuffixAt(s: string, i: nat, k: nat)
    requires OccursAt(s, ResultsSuffix, i) && k < |ResultsSuffix|
    ensures s[i + k] == ResultsSuffix[k]
    ensures k > 0 ==> s[i + k] != '_'
  {
    assert s[i..i + |ResultsSuffix|][k] == s[i + k];
  }

  /** An occurrence lying within the `E` field of an encoded name is an
      occurrence in `E`. */
  lemma SuffixInsideE(cs: Components, i: nat)
    requires 5 + |cs.j| + |cs.r| <= i && i + |ResultsSuffix| <= 5 + |cs.j| + |cs.r| + |cs.e|
    requires OccursAt(Join(cs) + ResultsSuffix, ResultsSuffix, i)
    ensures Contains(cs.e, ResultsSuffix)
  {
    var a := "j" + cs.j + "_r" + cs.r + "_E";
    var s := Join(cs) + ResultsSuffix;
    var o := i - |a|;
    assert s == a + cs.e + ("_m" + cs.m + ResultsSuffix);
    assert s[i..i + |ResultsSuffix|] == cs.e[o..o + |ResultsSuffix|];
    assert OccursAt(cs.e, ResultsSuffix, o);
  }

  /** Round trip: decoding the expected result file name built from `J`, `R`,
      `E`, `M` gives back `(str(J), R, E, str(M))`. */
  lemma ResultFileNameRoundTrip(j: nat, r: string, e: string, m: nat)
    requires IsDigitsOrDots(r)
    requires '\n' !in e
    requires !Contains(e, ResultsSuffix)
    ensures ExtractResultComponents(ResultFileName(j, r, e, m))
            == Some(Components(NatToString(j), r, e, NatToString(m)))
  {
    var cs := Components(NatToString(j), r, e, NatToString(m));
    ResultFileNameStem(j, r, e, m);
    ExtractComplete(Join(cs), cs);
  }

  /** Deleting `_results.json` from an expected result file name leaves its unit
      name `j{J}_r{R}_E{E}_m{M}`. */
  lemma ResultFileNameStem(j: nat, r: string, e: string, m: nat)
    requires IsDigitsOrDots(r)
    requires !Contains(e, ResultsSuffix)
    ensures RemoveAll(ResultFileName(j, r, e, m), ResultsSuffix)
            == Join(Components(NatToString(j), r, e, NatToString(m)))
  {
    var cs := Components(NatToString(j), r, e, NatToString(m));
    forall i: nat | i < |Join(cs)| ensures !OccursAt(Join(cs) + ResultsSuffix, ResultsSuffix, i) {
      NoSuffixBefore(cs, i);
    }
    RemoveAllSuffix(Join(cs), ResultsSuffix);
  }

  /** The copies without suffix stripping accept and reject exactly as the
      save_csv.py copy does on names that hold no `_results.json`. */
  lemma ExtractWithoutSuffixAgrees(name: string)
    requires !Contains(name, ResultsSuffix)
    ensures ExtractResultComponents(name) == ExtractComponents(name)
  {
    RemoveAllAbsent(name, ResultsSuffix);
  }
}
