/** frontend/src/components/VoicemailDetail.jsx: the fallbacks for absent
    analysis fields, the missing-information line, the booking widget's URL
    and prefill, and `highlightText`, which splits the transcript on a
    case-insensitive alternation of the extracted values and marks the parts
    equal to one of them. */
module Detail {
  import opened Wrappers
  import opened Records
  import opened Text

  /** Calling a string method on a value that is not a string. */
  datatype RenderError = TypeError

  /** `vm.analysis || {}`. */
  function AnalysisOf(vm: Voicemail): (a: Analysis)
    ensures vm.analysis.None? ==> a == map[]
    ensures vm.analysis.Some? ==> a == vm.analysis.value
  {
    if vm.analysis.Some? then vm.analysis.value else map[]
  }

  /** `analysis[key] || fallback`. */
  function FieldOr(a: Analysis, key: string, fallback: string): (v: Value)
    ensures JsTruthyField(a, key) ==> v == a[key]
    ensures !JsTruthyField(a, key) ==> v == Str(fallback)
    ensures JsTruthy(v) || fallback == ""
  {
    if JsTruthyField(a, key) then a[key] else Str(fallback)
  }

  /** `analysis.missing_info || []`, shown joined with ", " only when its
      length is positive. A non-empty string there has a length but no
      `join`, which raises. */
  function MissingInfoLine(a: Analysis): (r: Result<Option<string>, RenderError>)
    ensures r.Ok? && r.value.Some? <==> JsTruthyField(a, "missing_info") && a["missing_info"].List? && a["missing_info"].items != []
    ensures r.Ok? && r.value.Some? ==> r.value.value == Join(a["missing_info"].items, ", ")
    ensures r.Err? <==> JsTruthyField(a, "missing_info") && a["missing_info"].Str?
  {
    var info := if JsTruthyField(a, "missing_info") then a["missing_info"] else List([]);
    match info
    case List(items) => if |items| > 0 then Ok(Some(Join(items, ", "))) else Ok(None)
    case Str(_) => Err(TypeError)
    case _ => Ok(None)
  }

  /** Splits a ", "-joined line back into its items (the first ", " ends an item). */
  function SplitComma(s: string): seq<string>
    decreases |s|
  {
    if |s| < 2 then [s]
    else if s[0] == ',' && s[1] == ' ' then [""] + SplitComma(s[2..])
    else var rest := SplitComma(s[1..]); [[s[0]] + rest[0]] + rest[1..]
  }

  lemma {:induction false} SplitCommaPrefix(x: string, rest: string)
    requires forall i :: 0 <= i < |x| ==> x[i] != ','
    ensures SplitComma(x + ", " + rest) == [x] + SplitComma(rest)
    ensures SplitComma(x) == [x]
    decreases |x|
  {
    if x == [] {
      assert x + ", " + rest == ", " + rest;
      assert (", " + rest)[2..] == rest;
    } else {
      SplitCommaPrefix(x[1..], rest);
      assert (x + ", " + rest)[1..] == x[1..] + ", " + rest;
      assert [x[0]] + x[1..] == x;
      if |x| >= 2 {
        assert SplitComma(x) == [[x[0]] + SplitComma(x[1..])[0]] + SplitComma(x[1..])[1..];
      }
    }
  }

  /** The missing-information line determines the list when no item holds a comma. */
  lemma {:induction false} JoinRoundTrip(items: seq<string>)
    requires items != []
    requires forall k, i :: 0 <= k < |items| && 0 <= i < |items[k]| ==> items[k][i] != ','
    ensures SplitComma(Join(items, ", ")) == items
  {
    if |items| == 1 {
      SplitCommaPrefix(items[0], "");
    } else {
      JoinRoundTrip(items[1..]);
      SplitCommaPrefix(items[0], Join(items[1..], ", "));
      assert items == [items[0]] + items[1..];
    }
  }

  /** The booking widget's inputs. */
  datatype Widget = Widget(url: Value, prefillName: Option<Value>, prefillEmail: string)

  /** `analysis.booking_url || VITE_CALENDLY_URL || "https://calendly.com"`,
      prefilled with the patient's name and a fixed email. */
  function BookingWidget(a: Analysis, configuredUrl: Option<string>): (w: Widget)
    ensures JsTruthy(w.url)
    ensures JsTruthyField(a, "booking_url") ==> w.url == a["booking_url"]
    ensures !JsTruthyField(a, "booking_url") && configuredUrl.Some? && configuredUrl.value != "" ==> w.url == Str(configuredUrl.value)
    ensures !JsTruthyField(a, "booking_url") && (configuredUrl.None? || configuredUrl == Some("")) ==> w.url == Str("https://calendly.com")
    ensures w.prefillName == Field(a, "patient_name") && w.prefillEmail == "patient@example.com"
  {
    var url :=
      if JsTruthyField(a, "booking_url") then a["booking_url"]
      else if configuredUrl.Some? && configuredUrl.value != "" then Str(configuredUrl.value)
      else Str("https://calendly.com");
    Widget(url, Field(a, "patient_name"), "patient@example.com")
  }

  // ---------------------------------------------------------------- highlighting

  /** The characters `v.replace(/[.*+?^${}()|[\]\\]/g, '\\$&')` escapes. */
  const Special: set<char> := {'.', '*', '+', '?', '^', '$', '{', '}', '(', ')', '|', '[', ']', '\\'}

  /** A value without syntax characters is left as it is; escaping never shortens. */
  function Escape(v: string): (e: string)
    ensures |e| >= |v|
    ensures (forall i :: 0 <= i < |v| ==> v[i] !in Special) ==> e == v
  {
    if v == [] then []
    else (if v[0] in Special then ['\\', v[0]] else [v[0]]) + Escape(v[1..])
  }

  /** The string a run of regular-expression atoms matches when each atom is
      an ordinary character or a backslash-escaped syntax character; None when
      some atom is anything else. */
  function Literal(pattern: string): Option<string>
    decreases |pattern|
  {
    if pattern == [] then Some([])
    else if pattern[0] == '\\' then
      if |pattern| >= 2 && pattern[1] in Special then
        match Literal(pattern[2..])
        case Some(rest) => Some([pattern[1]] + rest)
        case None => None
      else None
    else if pattern[0] in Special then None
    else match Literal(pattern[1..])
      case Some(rest) => Some([pattern[0]] + rest)
      case None => None
  }

  /** Escaping makes a value match itself literally. */
  lemma {:induction false} EscapeIsLiteral(v: string)
    ensures Literal(Escape(v)) == Some(v)
  {
    if v != [] {
      EscapeIsLiteral(v[1..]);
      var e := Escape(v);
      if v[0] in Special {
        assert e[2..] == Escape(v[1..]);
      } else {
        assert e[1..] == Escape(v[1..]);
      }
      assert [v[0]] + v[1..] == v;
    }
  }

  function EscapeAll(values: seq<string>): (es: seq<string>)
    ensures |es| == |values|
    ensures forall i :: 0 <= i < |values| ==> es[i] == Escape(values[i])
  {
    seq(|values|, i requires 0 <= i < |values| => Escape(values[i]))
  }

  /** `valuesToHighlight.map(escape).join('|')`. */
  function PatternBody(values: seq<string>): string {
    Join(EscapeAll(values), "|")
  }

  /** `new RegExp('(' + body + ')', 'gi')`: one capturing group. */
  function HighlightPattern(values: seq<string>): string {
    "(" + PatternBody(values) + ")"
  }

  /** The alternatives of a pattern body: split at every `|` that is not
      escaped; `cur` is the alternative read so far. */
  function Alternatives(body: string, cur: string): seq<string>
    decreases |body|
  {
    if body == [] then [cur]
    else if body[0] == '\\' && |body| >= 2 then Alternatives(body[2..], cur + body[..2])
    else if body[0] == '|' then [cur] + Alternatives(body[1..], "")
    else Alternatives(body[1..], cur + [body[0]])
  }

  lemma {:induction false} AlternativesSkipEscaped(v: string, rest: string, cur: string)
    ensures Alternatives(Escape(v) + rest, cur) == Alternatives(rest, cur + Escape(v))
  {
    if v != [] {
      var e, t := Escape(v), Escape(v[1..]);
      var h := if v[0] in Special then ['\\', v[0]] else [v[0]];
      assert e == h + t;
      assert Alternatives(e + rest, cur) == Alternatives(t + rest, cur + h) by {
        if v[0] in Special {
          assert (e + rest)[2..] == t + rest;
          assert (e + rest)[..2] == h;
        } else {
          assert (e + rest)[1..] == t + rest;
        }
      }
      AlternativesSkipEscaped(v[1..], rest, cur + h);
      assert cur + h + t == cur + e;
    } else {
      assert Escape(v) + rest == rest;
      assert cur + Escape(v) == cur;
    }
  }

  /** The first escaped value is the first alternative. */
  lemma AlternativesHead(values: seq<string>)
    requires |values| >= 2
    ensures Alternatives(PatternBody(values), "") == [Escape(values[0])] + Alternatives(PatternBody(values[1..]), "")
  {
    var es := EscapeAll(values);
    assert EscapeAll(values[1..]) == es[1..];
    var bar := "|" + PatternBody(values[1..]);
    assert PatternBody(values) == Escape(values[0]) + bar;
    AlternativesSkipEscaped(values[0], bar, "");
    assert "" + Escape(values[0]) == Escape(values[0]);
    assert bar[0] == '|' && bar[1..] == PatternBody(values[1..]);
  }

  /** The pattern is exactly the alternation of the values, each matched
      literally and in the given order. */
  lemma {:induction false} PatternMatchesValuesLiterally(values: seq<string>)
    requires values != []
    ensures |Alternatives(PatternBody(values), "")| == |values|
    ensures forall i :: 0 <= i < |values| ==> Literal(Alternatives(PatternBody(values), "")[i]) == Some(values[i])
  {
    EscapeIsLiteral(values[0]);
    if |values| == 1 {
      assert PatternBody(values) == Escape(values[0]);
      AlternativesSkipEscaped(values[0], "", "");
      assert Escape(values[0]) + "" == Escape(values[0]);
      assert "" + Escape(values[0]) == Escape(values[0]);
      assert Alternatives(PatternBody(values), "") == [Escape(values[0])];
    } else {
      PatternMatchesValuesLiterally(values[1..]);
      AlternativesHead(values);
      var alts := Alternatives(PatternBody(values), "");
      var tail := Alternatives(PatternBody(values[1..]), "");
      forall i | 0 <= i < |values| ensures Literal(alts[i]) == Some(values[i]) {
        if i > 0 {
          assert alts[i] == tail[i - 1];
        }
      }
    }
  }

  /** Equality under the `i` flag. */
  predicate EqualIgnoringCase(a: string, b: string) {
    Lower(a) == Lower(b)
  }

  /** Value `v` matches the text at position `q` ignoring case. */
  predicate MatchesAt(text: string, q: nat, v: string) {
    q + |v| <= |text| && EqualIgnoringCase(text[q..q + |v|], v)
  }

  predicate NoEmptyValue(values: seq<string>) {
    forall i :: 0 <= i < |values| ==> values[i] != ""
  }

  /** The length of what the pattern matches at position `q`: the first
      alternative, in order, that matches there; None when none does. */
  function MatchAt(text: string, q: nat, values: seq<string>): (r: Option<nat>)
    requires q <= |text| && NoEmptyValue(values)
    ensures r.Some? ==> 0 < r.value && q + r.value <= |text|
  {
    if values == [] then None
    else if MatchesAt(text, q, values[0]) then Some(|values[0]|)
    else MatchAt(text, q, values[1..])
  }

  /** A match is some value, ignoring case; no match means no value matches there. */
  lemma {:induction false} MatchAtCorrect(text: string, q: nat, values: seq<string>)
    requires q <= |text| && NoEmptyValue(values)
    ensures MatchAt(text, q, values).Some? ==>
      exists v :: v in values && EqualIgnoringCase(text[q..q + MatchAt(text, q, values).value], v)
    ensures MatchAt(text, q, values).None? ==> forall v :: v in values ==> !MatchesAt(text, q, v)
  {
    if values != [] {
      if MatchesAt(text, q, values[0]) {
        assert MatchAt(text, q, values) == Some(|values[0]|);
        assert values[0] in values;
      } else {
        MatchAtCorrect(text, q, values[1..]);
        assert MatchAt(text, q, values) == MatchAt(text, q, values[1..]);
        if MatchAt(text, q, values).Some? {
          var v :| v in values[1..] && EqualIgnoringCase(text[q..q + MatchAt(text, q, values).value], v);
          assert v in values;
        }
        assert forall v :: v in values ==> v == values[0] || v in values[1..];
      }
    }
  }

  /** The alternation is ordered: the match at a position is the first value,
      in order, that matches there, even when a later one would match more. */
  lemma {:induction false} MatchAtFirstWins(text: string, q: nat, values: seq<string>)
    requires q <= |text| && NoEmptyValue(values)
    ensures MatchAt(text, q, values).Some? ==>
      exists i :: 0 <= i < |values| && MatchesAt(text, q, values[i]) && MatchAt(text, q, values).value == |values[i]|
        && forall j :: 0 <= j < i ==> !MatchesAt(text, q, values[j])
  {
    if values != [] && !MatchesAt(text, q, values[0]) {
      MatchAtFirstWins(text, q, values[1..]);
      if MatchAt(text, q, values).Some? {
        var i :| 0 <= i < |values[1..]| && MatchesAt(text, q, values[1..][i]) && MatchAt(text, q, values[1..]).value == |values[1..][i]|
          && forall j :: 0 <= j < i ==> !MatchesAt(text, q, values[1..][j]);
        assert values[i + 1] == values[1..][i];
        forall j | 0 <= j < i + 1 ensures !MatchesAt(text, q, values[j]) {
          if j > 0 { assert values[j] == values[1..][j - 1]; }
        }
      }
    }
  }

  /** `String.prototype.split` with a regular expression holding one
      capturing group: `p` starts the unmatched text, `q` is the position
      tried next; each match contributes the text before it and the
      captured match itself. */
  function SplitFrom(text: string, values: seq<string>, p: nat, q: nat): seq<string>
    requires p <= q <= |text| && NoEmptyValue(values)
    decreases |text| - q
  {
    if q == |text| then [text[p..]]
    else match MatchAt(text, q, values)
      case None => SplitFrom(text, values, p, q + 1)
      case Some(n) => [text[p..q], text[q..q + n]] + SplitFrom(text, values, q + n, q + n)
  }

  /** `text.split(regex)`: the parts lose nothing of the text, alternate
      between unmatched text and captured matches, and sit where the scan
      found them. */
  function Split(text: string, values: seq<string>): (parts: seq<string>)
    requires NoEmptyValue(values)
    ensures Concat(parts) == text
    ensures Alternating(parts, values)
    ensures Scanned(text, values, parts, 0)
  {
    SplitFromConcat(text, values, 0, 0);
    SplitFromAlternates(text, values, 0, 0);
    SplitFromScanned(text, values, 0, 0);
    SplitFrom(text, values, 0, 0)
  }

  function Concat(parts: seq<string>): string {
    if parts == [] then "" else parts[0] + Concat(parts[1..])
  }

  lemma ConcatPair(a: string, b: string, rest: seq<string>)
    ensures Concat([a, b] + rest) == a + b + Concat(rest)
  {
    var parts := [a, b] + rest;
    assert parts[1..][1..] == rest;
  }

  lemma {:induction false} SplitFromConcat(text: string, values: seq<string>, p: nat, q: nat)
    requires p <= q <= |text| && NoEmptyValue(values)
    ensures Concat(SplitFrom(text, values, p, q)) == text[p..]
    decreases |text| - q
  {
    if q == |text| {
      assert Concat([text[p..]]) == text[p..] + Concat([]);
    } else if MatchAt(text, q, values).None? {
      SplitFromConcat(text, values, p, q + 1);
    } else {
      var n := MatchAt(text, q, values).value;
      assert q + n <= |text|;
      SplitFromConcat(text, values, q + n, q + n);
      ConcatPair(text[p..q], text[q..q + n], SplitFrom(text, values, q + n, q + n));
      assert text[p..] == text[p..q] + text[q..q + n] + text[q + n..];
    }
  }

  /** JavaScript's `values.some(v => v.toLowerCase() === part.toLowerCase())`. */
  function IsHighlightValue(part: string, values: seq<string>): (b: bool)
    ensures b <==> exists v :: v in values && EqualIgnoringCase(part, v)
  {
    if values == [] then false
    else EqualIgnoringCase(part, values[0]) || IsHighlightValue(part, values[1..])
  }

  /** The split parts alternate: text between matches at even positions,
      which never equals a value, and captured matches at odd positions,
      which always do. */
  predicate Alternating(parts: seq<string>, values: seq<string>) {
    |parts| % 2 == 1 && forall i :: 0 <= i < |parts| ==> (IsHighlightValue(parts[i], values) <==> i % 2 == 1)
  }

  /** No value matches anywhere in [p, q). */
  predicate Unmatched(text: string, values: seq<string>, p: nat, q: nat)
    requires p <= q <= |text| && NoEmptyValue(values)
  {
    forall k :: p <= k < q ==> MatchAt(text, k, values).None?
  }

  lemma NoValueEqualsUnmatched(text: string, values: seq<string>, p: nat, q: nat)
    requires p <= q <= |text| && NoEmptyValue(values)
    requires Unmatched(text, values, p, q)
    ensures !IsHighlightValue(text[p..q], values)
  {
    forall v | v in values ensures !EqualIgnoringCase(text[p..q], v) {
      var i :| 0 <= i < |values| && values[i] == v;
      if |v| == q - p {
        assert p < q;
        assert MatchAt(text, p, values).None?;
        MatchAtCorrect(text, p, values);
        assert text[p..p + |v|] == text[p..q];
        assert !MatchesAt(text, p, v);
      }
    }
  }

  lemma AlternatingCons(a: string, b: string, rest: seq<string>, values: seq<string>)
    requires !IsHighlightValue(a, values) && IsHighlightValue(b, values)
    requires Alternating(rest, values)
    ensures Alternating([a, b] + rest, values)
  {
    var parts := [a, b] + rest;
    forall i | 2 <= i < |parts| ensures (IsHighlightValue(parts[i], values) <==> i % 2 == 1) {
      assert parts[i] == rest[i - 2];
    }
  }

  lemma {:induction false} SplitFromAlternates(text: string, values: seq<string>, p: nat, q: nat)
    requires p <= q <= |text| && NoEmptyValue(values)
    requires Unmatched(text, values, p, q)
    ensures Alternating(SplitFrom(text, values, p, q), values)
    decreases |text| - q
  {
    if q == |text| {
      NoValueEqualsUnmatched(text, values, p, q);
      assert text[p..] == text[p..q];
    } else {
      match MatchAt(text, q, values)
      case None =>
        assert Unmatched(text, values, p, q + 1);
        SplitFromAlternates(text, values, p, q + 1);
        assert SplitFrom(text, values, p, q) == SplitFrom(text, values, p, q + 1);
      case Some(n) =>
        assert Unmatched(text, values, q + n, q + n);
        SplitFromAlternates(text, values, q + n, q + n);
        NoValueEqualsUnmatched(text, values, p, q);
        MatchAtCorrect(text, q, values);
        AlternatingCons(text[p..q], text[q..q + n], SplitFrom(text, values, q + n, q + n), values);
    }
  }

  /** Where part `i` starts in the text. */
  function Offset(parts: seq<string>, i: nat): nat
    requires i <= |parts|
  {
    if i == 0 then 0 else Offset(parts, i - 1) + |parts[i - 1]|
  }

  /** Part `i`, laid from position `o` of the text, is the text it covers; an
      even part holds no position where a value matches, and an odd part is
      the match found at its start. */
  predicate PartScanned(text: string, values: seq<string>, parts: seq<string>, o: nat, i: nat)
    requires NoEmptyValue(values) && i < |parts|
  {
    var s := o + Offset(parts, i);
    && s + |parts[i]| <= |text|
    && parts[i] == text[s..s + |parts[i]|]
    && (i % 2 == 0 ==> Unmatched(text, values, s, s + |parts[i]|))
    && (i % 2 == 1 ==> MatchAt(text, s, values) == Some(|parts[i]|))
  }

  /** The parts cover the text from `o` to its end, each as the scan found it. */
  predicate Scanned(text: string, values: seq<string>, parts: seq<string>, o: nat)
    requires NoEmptyValue(values)
  {
    && o + Offset(parts, |parts|) == |text|
    && forall i :: 0 <= i < |parts| ==> PartScanned(text, values, parts, o, i)
  }

  lemma {:induction false} OffsetCons(a: string, b: string, rest: seq<string>, i: nat)
    requires i <= |rest|
    ensures Offset([a, b] + rest, i + 2) == |a| + |b| + Offset(rest, i)
  {
    var parts := [a, b] + rest;
    if i == 0 {
      assert Offset(parts, 1) == |a|;
    } else {
      OffsetCons(a, b, rest, i - 1);
      assert parts[i + 1] == rest[i - 1];
    }
  }

  /** One step of the scan: the unmatched text from `o` to `q`, then the match
      of length `n` at `q`, then the parts scanned from `q + n`. */
  lemma ScannedCons(text: string, values: seq<string>, o: nat, q: nat, n: nat, rest: seq<string>)
    requires NoEmptyValue(values)
    requires o <= q && q + n <= |text|
    requires Unmatched(text, values, o, q)
    requires MatchAt(text, q, values) == Some(n)
    requires Scanned(text, values, rest, q + n)
    ensures Scanned(text, values, [text[o..q], text[q..q + n]] + rest, o)
  {
    ScannedHead(text, values, text[o..q], text[q..q + n], rest, o);
    ScannedTail(text, values, text[o..q], text[q..q + n], rest, o);
  }

  lemma ScannedHead(text: string, values: seq<string>, a: string, b: string, rest: seq<string>, o: nat)
    requires NoEmptyValue(values)
    requires o + |a| + |b| <= |text|
    requires a == text[o..o + |a|] && b == text[o + |a|..o + |a| + |b|]
    requires Unmatched(text, values, o, o + |a|)
    requires MatchAt(text, o + |a|, values) == Some(|b|)
    ensures PartScanned(text, values, [a, b] + rest, o, 0)
    ensures PartScanned(text, values, [a, b] + rest, o, 1)
  {
    var parts := [a, b] + rest;
    assert parts[0] == a && parts[1] == b;
    assert Offset(parts, 1) == |a|;
  }

  lemma ScannedTail(text: string, values: seq<string>, a: string, b: string, rest: seq<string>, o: nat)
    requires NoEmptyValue(values)
    requires Scanned(text, values, rest, o + |a| + |b|)
    ensures forall i :: 2 <= i < |rest| + 2 ==> PartScanned(text, values, [a, b] + rest, o, i)
    ensures o + Offset([a, b] + rest, |rest| + 2) == |text|
  {
    forall i | 2 <= i < |rest| + 2 ensures PartScanned(text, values, [a, b] + rest, o, i) {
      PartScannedShift(text, values, a, b, rest, o, i - 2);
    }
    OffsetCons(a, b, rest, |rest|);
  }

  lemma PartScannedShift(text: string, values: seq<string>, a: string, b: string, rest: seq<string>, o: nat, i: nat)
    requires NoEmptyValue(values) && i < |rest|
    requires PartScanned(text, values, rest, o + |a| + |b|, i)
    ensures PartScanned(text, values, [a, b] + rest, o, i + 2)
  {
    OffsetCons(a, b, rest, i);
    assert ([a, b] + rest)[i + 2] == rest[i];
  }

  lemma {:induction false} SplitFromScanned(text: string, values: seq<string>, p: nat, q: nat)
    requires p <= q <= |text| && NoEmptyValue(values)
    requires Unmatched(text, values, p, q)
    ensures Scanned(text, values, SplitFrom(text, values, p, q), p)
    decreases |text| - q
  {
    if q == |text| {
      var parts := [text[p..]];
      assert Scanned(text, values, parts, p) by {
        assert Offset(parts, 1) == |text| - p;
        assert PartScanned(text, values, parts, p, 0);
      }
    } else {
      match MatchAt(text, q, values)
      case None =>
        assert Unmatched(text, values, p, q + 1);
        SplitFromScanned(text, values, p, q + 1);
      case Some(n) =>
        assert Unmatched(text, values, q + n, q + n);
        SplitFromScanned(text, values, q + n, q + n);
        ScannedCons(text, values, p, q, n, SplitFrom(text, values, q + n, q + n));
    }
  }

  lemma {:induction false} PartAt(parts: seq<string>, n: nat, k: nat)
    requires n <= |parts| && k < Offset(parts, n)
    ensures exists i :: 0 <= i < n && Offset(parts, i) <= k < Offset(parts, i) + |parts[i]|
  {
    if k < Offset(parts, n - 1) {
      PartAt(parts, n - 1, k);
    }
  }

  /** Present implies found: every position where a value occurs lies inside
      a captured (odd) part. */
  lemma ScannedFindsEveryMatch(text: string, values: seq<string>, parts: seq<string>, k: nat, v: string)
    requires NoEmptyValue(values) && Scanned(text, values, parts, 0)
    requires v in values && MatchesAt(text, k, v)
    ensures exists i :: 0 <= i < |parts| && i % 2 == 1 && Offset(parts, i) <= k < Offset(parts, i) + |parts[i]|
  {
    var j :| 0 <= j < |values| && values[j] == v;
    assert k < |text|;
    PartAt(parts, |parts|, k);
    var i :| 0 <= i < |parts| && Offset(parts, i) <= k < Offset(parts, i) + |parts[i]|;
    MatchAtCorrect(text, k, values);
    assert MatchAt(text, k, values).Some?;
    assert PartScanned(text, values, parts, 0, i);
  }

  /** One rendered piece of the transcript. */
  datatype Part = Part(text: string, highlighted: bool)

  /** What `highlightText` renders: null, the plain text, or marked parts. */
  datatype Highlighted = NoText | Plain(text: string) | Marked(parts: seq<Part>)

  function PartTexts(parts: seq<Part>): (texts: seq<string>)
    ensures |texts| == |parts| && forall i :: 0 <= i < |parts| ==> texts[i] == parts[i].text
  {
    seq(|parts|, i requires 0 <= i < |parts| => parts[i].text)
  }

  /** The analysis fields whose values are highlighted, in pattern order. */
  const HighlightKeys: seq<string> := ["symptoms", "appointment_time", "patient_name", "intent", "treatment_mode", "visit_type"]

  /** The seven candidates in order; the referral plan contributes the word
      "referral" rather than its own value. None stands for undefined. */
  function Candidates(a: Analysis): (cs: seq<Option<Value>>)
    ensures |cs| == 7
    ensures forall i :: 0 <= i < |HighlightKeys| ==> cs[i] == Field(a, HighlightKeys[i])
    ensures cs[6].Some? && (JsTruthy(cs[6].value) <==> JsTruthyField(a, "referral_plan"))
    ensures JsTruthyField(a, "referral_plan") ==> cs[6] == Some(Str("referral"))
  {
    [Field(a, "symptoms"), Field(a, "appointment_time"), Field(a, "patient_name"),
     Field(a, "intent"), Field(a, "treatment_mode"), Field(a, "visit_type"),
     if JsTruthyField(a, "referral_plan") then Some(Str("referral")) else Some(Null)]
  }

  /** One candidate after `.filter(Boolean)`. */
  function Kept(c: Option<Value>): seq<Value> {
    if c.Some? && JsTruthy(c.value) then [c.value] else []
  }

  /** `.filter(Boolean)`: only truthy values survive, and never more than
      there were candidates. */
  function TruthyOnly(cs: seq<Option<Value>>): (vs: seq<Value>)
    ensures forall i :: 0 <= i < |vs| ==> JsTruthy(vs[i])
    ensures |vs| <= |cs|
  {
    if cs == [] then [] else Kept(cs[0]) + TruthyOnly(cs[1..])
  }

  /** Filtering keeps exactly the truthy candidates. */
  lemma {:induction false} TruthyOnlyMembers(cs: seq<Option<Value>>)
    ensures forall v :: v in TruthyOnly(cs) <==> Some(v) in cs && JsTruthy(v)
  {
    if cs != [] {
      TruthyOnlyMembers(cs[1..]);
      assert TruthyOnly(cs) == Kept(cs[0]) + TruthyOnly(cs[1..]);
      assert forall c :: c in cs <==> c == cs[0] || c in cs[1..];
    }
  }

  lemma TruthyOnlyCons(c: Option<Value>, rest: seq<Option<Value>>)
    ensures TruthyOnly([c] + rest) == Kept(c) + TruthyOnly(rest)
  {
    assert ([c] + rest)[1..] == rest;
  }

  /** Filtering keeps the order: it distributes over concatenation. */
  lemma {:induction false} TruthyOnlyAppend(a: seq<Option<Value>>, b: seq<Option<Value>>)
    ensures TruthyOnly(a + b) == TruthyOnly(a) + TruthyOnly(b)
  {
    if a == [] {
      assert a + b == b;
    } else {
      var tail := a[1..] + b;
      assert (a + b)[1..] == tail;
      assert TruthyOnly(a + b) == Kept(a[0]) + TruthyOnly(tail);
      TruthyOnlyAppend(a[1..], b);
    }
  }

  /** Candidates that are all truthy pass through unchanged. */
  lemma {:induction false} TruthyOnlyKeepsTruthy(cs: seq<Option<Value>>)
    requires forall i :: 0 <= i < |cs| ==> cs[i].Some? && JsTruthy(cs[i].value)
    ensures |TruthyOnly(cs)| == |cs|
    ensures forall i :: 0 <= i < |cs| ==> TruthyOnly(cs)[i] == cs[i].value
  {
    if cs != [] {
      TruthyOnlyKeepsTruthy(cs[1..]);
      var vs := TruthyOnly(cs);
      forall i | 0 <= i < |cs| ensures vs[i] == cs[i].value {
        if i > 0 { assert vs[i] == TruthyOnly(cs[1..])[i - 1]; }
      }
    }
  }

  predicate AllStrings(vs: seq<Value>) {
    forall i :: 0 <= i < |vs| ==> vs[i].Str?
  }

  function Strings(vs: seq<Value>): (ss: seq<string>)
    requires AllStrings(vs)
    ensures |ss| == |vs| && forall i :: 0 <= i < |vs| ==> ss[i] == vs[i].s
  {
    seq(|vs|, i requires 0 <= i < |vs| && AllStrings(vs) => vs[i].s)
  }

  /** `valuesToHighlight`: the truthy candidates; they must be strings to be escaped. */
  function HighlightValues(a: Analysis): seq<Value> {
    TruthyOnly(Candidates(a))
  }

  /** The highlight values are the truthy fields among symptoms, appointment
      time, patient name, intent, treatment mode and visit type, in that
      order, followed by "referral" when a referral plan is set. */
  lemma HighlightValuesInOrder(a: Analysis)
    ensures HighlightValues(a) ==
      Kept(Field(a, "symptoms")) + Kept(Field(a, "appointment_time")) + Kept(Field(a, "patient_name"))
      + Kept(Field(a, "intent")) + Kept(Field(a, "treatment_mode")) + Kept(Field(a, "visit_type"))
      + (if JsTruthyField(a, "referral_plan") then [Str("referral")] else [])
  {
    var c := Candidates(a);
    var p1 := [c[0]];
    var p2 := p1 + [c[1]];
    var p3 := p2 + [c[2]];
    var p4 := p3 + [c[3]];
    var p5 := p4 + [c[4]];
    var p6 := p5 + [c[5]];
    assert c == p6 + [c[6]];
    TruthyOnlyAppend(p6, [c[6]]);
    TruthyOnlyAppend(p5, [c[5]]);
    TruthyOnlyAppend(p4, [c[4]]);
    TruthyOnlyAppend(p3, [c[3]]);
    TruthyOnlyAppend(p2, [c[2]]);
    TruthyOnlyAppend(p1, [c[1]]);
    forall k | 0 <= k < 7 ensures TruthyOnly([c[k]]) == Kept(c[k]) {
      TruthyOnlyCons(c[k], []);
      assert [c[k]] + [] == [c[k]];
    }
  }

  /** `highlightText(vm.transcript)`. */
  function HighlightText(text: Option<string>, a: Analysis): (r: Result<Highlighted, RenderError>)
    ensures text.None? || text == Some("") ==> r == Ok(NoText)
    ensures text.Some? && text.value != "" && HighlightValues(a) == [] ==> r == Ok(Plain(text.value))
    ensures text.Some? && text.value != "" && HighlightValues(a) != [] && AllStrings(HighlightValues(a)) ==> r.Ok? && r.value.Marked?
    ensures r.Ok? && r.value.Plain? ==> text.Some? && r.value.text == text.value && HighlightValues(a) == []
    ensures r.Err? <==> text.Some? && text.value != "" && !AllStrings(HighlightValues(a))
    ensures r.Ok? && r.value.Marked? ==>
      && text.Some? && HighlightValues(a) != [] && AllStrings(HighlightValues(a))
      && Concat(PartTexts(r.value.parts)) == text.value
      && |r.value.parts| % 2 == 1
      && (forall i :: 0 <= i < |r.value.parts| ==> (r.value.parts[i].highlighted <==> i % 2 == 1))
      && (forall i :: 0 <= i < |r.value.parts| ==>
            (r.value.parts[i].highlighted <==> exists v :: v in Strings(HighlightValues(a)) && EqualIgnoringCase(r.value.parts[i].text, v)))
      && NoEmptyValue(Strings(HighlightValues(a)))
      && Scanned(text.value, Strings(HighlightValues(a)), PartTexts(r.value.parts), 0)
  {
    if text.None? || text.value == "" then Ok(NoText)
    else
      var vs := HighlightValues(a);
      if vs == [] then Ok(Plain(text.value))
      else if !AllStrings(vs) then Err(TypeError)
      else
        var values := Strings(vs);
        assert NoEmptyValue(values);
        var pieces := Split(text.value, values);
        var parts := seq(|pieces|, i requires 0 <= i < |pieces| => Part(pieces[i], IsHighlightValue(pieces[i], values)));
        assert PartTexts(parts) == pieces;
        Ok(Marked(parts))
  }

  /** Present implies found: wherever one of the values occurs in the
      transcript, ignoring case, that position lies inside a highlighted part. */
  lemma HighlightFindsEveryOccurrence(text: string, a: Analysis, v: string, k: nat)
    requires HighlightText(Some(text), a).Ok? && HighlightText(Some(text), a).value.Marked?
    requires v in Strings(HighlightValues(a)) && MatchesAt(text, k, v)
    ensures var parts := HighlightText(Some(text), a).value.parts;
      exists i :: 0 <= i < |parts| && parts[i].highlighted
        && Offset(PartTexts(parts), i) <= k < Offset(PartTexts(parts), i) + |parts[i].text|
  {
    var parts := HighlightText(Some(text), a).value.parts;
    ScannedFindsEveryMatch(text, Strings(HighlightValues(a)), PartTexts(parts), k, v);
  }

  /** The urgency banner's colour. */
  datatype AlertStyle = RedAlert | OrangeAlert | NeutralAlert

  function AlertStyleOf(urgency: Option<string>): (style: AlertStyle)
    ensures style == RedAlert <==> urgency == Some("RED")
    ensures style == OrangeAlert <==> urgency == Some("NEED_VALIDATION")
  {
    if urgency == Some("RED") then RedAlert
    else if urgency == Some("NEED_VALIDATION") then OrangeAlert
    else NeutralAlert
  }

  /** The audio player's source: the backend's audio route for the stored file path. */
  function AudioUrl(apiUrl: string, filePath: string): (url: string)
    ensures |url| == |apiUrl| + |"/api/voicemails/audio/"| + |filePath|
    ensures url[..|apiUrl|] == apiUrl && url[|url| - |filePath|..] == filePath
    ensures url[|apiUrl|..|url| - |filePath|] == "/api/voicemails/audio/"
  {
    apiUrl + "/api/voicemails/audio/" + filePath
  }

  /** What the detail panel shows. */
  datatype DetailView =
    | Placeholder
    | Shown(
        title: Value,
        shortId: string,
        alert: AlertStyle,
        missingInfo: Option<string>,
        appointmentTime: Value,
        symptoms: Value,
        patient: Value,
        mode: Value,
        visitType: Value,
        referralMentioned: bool,
        audioUrl: string,
        transcript: Highlighted,
        widget: Widget)

  /** `VoicemailDetail({vm})`; `apiUrl` is `API_URL` and `configuredUrl` is `VITE_CALENDLY_URL`. */
  function RenderDetail(vm: Option<Voicemail>, apiUrl: string, configuredUrl: Option<string>): (r: Result<DetailView, RenderError>)
    ensures vm.None? ==> r == Ok(Placeholder)
    ensures vm.Some? && r.Ok? ==> r.value.Shown?
    ensures vm.Some? && r.Ok? ==>
      && r.value.title == FieldOr(AnalysisOf(vm.value), "intent", "Unknown Intent")
      && r.value.patient == FieldOr(AnalysisOf(vm.value), "patient_name", "Not mentioned")
      && r.value.widget == BookingWidget(AnalysisOf(vm.value), configuredUrl)
      && r.value.referralMentioned == JsTruthyField(AnalysisOf(vm.value), "referral_plan")
      && r.value.alert == AlertStyleOf(vm.value.urgency)
      && MissingInfoLine(AnalysisOf(vm.value)) == Ok(r.value.missingInfo)
      && HighlightText(vm.value.transcript, AnalysisOf(vm.value)) == Ok(r.value.transcript)
      && |r.value.shortId| <= 8 && r.value.shortId <= vm.value.id
      && r.value.shortId == vm.value.id[..if |vm.value.id| < 8 then |vm.value.id| else 8]
      && r.value.appointmentTime == FieldOr(AnalysisOf(vm.value), "appointment_time", "N/A")
      && r.value.symptoms == FieldOr(AnalysisOf(vm.value), "symptoms", "N/A")
      && r.value.mode == FieldOr(AnalysisOf(vm.value), "treatment_mode", "N/A")
      && r.value.visitType == FieldOr(AnalysisOf(vm.value), "visit_type", "N/A")
      && r.value.audioUrl == AudioUrl(apiUrl, vm.value.filePath)
    ensures vm.Some? ==> (r.Err? <==> MissingInfoLine(AnalysisOf(vm.value)).Err? || HighlightText(vm.value.transcript, AnalysisOf(vm.value)).Err?)
  {
    if vm.None? then Ok(Placeholder)
    else
      var a := AnalysisOf(vm.value);
      match MissingInfoLine(a)
      case Err(e) => Err(e)
      case Ok(missing) =>
        match HighlightText(vm.value.transcript, a)
        case Err(e) => Err(e)
        case Ok(transcript) =>
          var id := vm.value.id;
          Ok(Shown(
            FieldOr(a, "intent", "Unknown Intent"),
            if |id| <= 8 then id else id[..8],
            AlertStyleOf(vm.value.urgency),
            missing,
            FieldOr(a, "appointment_time", "N/A"),
            FieldOr(a, "symptoms", "N/A"),
            FieldOr(a, "patient_name", "Not mentioned"),
            FieldOr(a, "treatment_mode", "N/A"),
            FieldOr(a, "visit_type", "N/A"),
            JsTruthyField(a, "referral_plan"),
            AudioUrl(apiUrl, vm.value.filePath),
            transcript,
            BookingWidget(a, configuredUrl)))
  }
}
