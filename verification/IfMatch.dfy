/** The If-Match scanner (versionPrecondition in internal/api/server.go) against the grammar of entity-tag
    lists: sections 8.8.3 and 13.1.1 of RFC 9110, with the strong comparison of its section 8.8.3.2.
    Empty list elements are not part of the grammar the service accepts. */
module IfMatch {
  import opened Text
  import opened Records

  // ---- The grammar ----

  /** One list element: optional blanks, an optional weakness mark, the quoted tag, optional blanks. */
  datatype Element = Element(before: string, weak: bool, text: string, after: string)

  predicate IsBlank(c: char) { c == ' ' || c == '\t' }

  predicate IsTagChar(c: char) { c == '!' || '#' <= c <= '~' || c >= '\U{80}' }

  predicate Blanks(s: string) { forall i :: 0 <= i < |s| ==> IsBlank(s[i]) }

  predicate TagChars(s: string) { forall i :: 0 <= i < |s| ==> IsTagChar(s[i]) }

  predicate WellFormed(e: Element) { Blanks(e.before) && TagChars(e.text) && Blanks(e.after) }

  predicate WellFormedList(es: seq<Element>) { es != [] && forall i :: 0 <= i < |es| ==> WellFormed(es[i]) }

  /** The entity tag without its weakness mark. */
  function Tag(e: Element): string { "\"" + e.text + "\"" }

  function Mark(e: Element): string { if e.weak then "W/" else "" }

  function Render(e: Element): string { e.before + (Mark(e) + (Tag(e) + e.after)) }

  function RenderList(es: seq<Element>): string
    requires es != []
  {
    if |es| == 1 then Render(es[0]) else Render(es[0]) + ("," + RenderList(es[1..]))
  }

  // ---- Numbers ----

  const INT64_LIMIT := 0x8000_0000_0000_0000

  function Digit(n: nat): char
    requires n < 10
  {
    "0123456789"[n]
  }

  /** strconv.FormatInt for numbers that are not negative. */
  function Decimal(n: nat): string {
    if n < 10 then [Digit(n)] else Decimal(n / 10) + [Digit(n % 10)]
  }

  predicate IsDigit(c: char) { '0' <= c <= '9' }

  predicate AllDigits(s: string) { forall i :: 0 <= i < |s| ==> IsDigit(s[i]) }

  function DigitsValue(s: string): nat
    requires AllDigits(s)
  {
    if s == "" then 0 else DigitsValue(s[..|s| - 1]) * 10 + (s[|s| - 1] as int - '0' as int)
  }

  /** strconv.ParseInt in base ten and 64 bits: an optional sign, digits, and a range. */
  function ParseInt64(s: string): Option<int> {
    var negative := s != "" && s[0] == '-';
    var digits := if s != "" && (s[0] == '-' || s[0] == '+') then s[1..] else s;
    if digits == "" || !AllDigits(digits) then None
    else
      var n: int := DigitsValue(digits);
      if (!negative && n >= INT64_LIMIT) || (negative && n > INT64_LIMIT) then None
      else Some(if negative then -n else n)
  }

  /** The version a strong tag names, if it is the canonical decimal of a positive 64-bit number. */
  function TagVersion(text: string): Option<int> {
    var n := ParseInt64(text);
    if n.Some? && n.value > 0 && Decimal(n.value) == text then n else None
  }

  /** VersionETag. */
  function VersionETag(version: nat): string { "\"" + Decimal(version) + "\"" }

  lemma {:induction false} DecimalReads(n: nat)
    ensures Decimal(n) != "" && AllDigits(Decimal(n)) && DigitsValue(Decimal(n)) == n
  {
    if n < 10 {
      DigitReads(n);
      assert Decimal(n)[..0] == "";
    } else {
      DecimalReads(n / 10);
      DigitReads(n % 10);
      hide Digit;
      assert Decimal(n)[..|Decimal(n)| - 1] == Decimal(n / 10);
    }
  }

  lemma DigitReads(n: nat)
    requires n < 10
    ensures IsDigit(Digit(n)) && Digit(n) as int - '0' as int == n
  {
  }

  /** A canonical decimal has no sign and no leading zero. */
  lemma {:induction false} DecimalIsCanonical(n: nat)
    requires n > 0
    ensures Decimal(n) != "" && '1' <= Decimal(n)[0] <= '9' && AllDigits(Decimal(n))
  {
    DecimalReads(n);
    hide AllDigits;
    if n >= 10 {
      DecimalIsCanonical(n / 10);
    }
  }

  lemma TagVersionIsDecimal(text: string, v: int)
    requires 1 <= v < INT64_LIMIT
    ensures TagVersion(text) == Some(v) <==> text == Decimal(v)
  {
    DecimalReads(v);
    DecimalIsCanonical(v);
  }

  // ---- A parser for the grammar ----

  function CountBlanks(s: string): (n: nat)
    ensures n <= |s| && Blanks(s[..n]) && (n < |s| ==> !IsBlank(s[n]))
  {
    if s != "" && IsBlank(s[0]) then 1 + CountBlanks(s[1..]) else 0
  }

  function CountTagChars(s: string): (n: nat)
    ensures n <= |s| && TagChars(s[..n]) && (n < |s| ==> !IsTagChar(s[n]))
  {
    if s != "" && IsTagChar(s[0]) then 1 + CountTagChars(s[1..]) else 0
  }

  lemma {:induction false} CountBlanksIs(blanks: string, rest: string)
    requires Blanks(blanks) && (rest == "" || !IsBlank(rest[0]))
    ensures CountBlanks(blanks + rest) == |blanks|
  {
    if blanks == "" {
      assert blanks + rest == rest;
    } else {
      assert (blanks + rest)[1..] == blanks[1..] + rest;
      CountBlanksIs(blanks[1..], rest);
    }
  }

  lemma {:induction false} CountTagCharsIs(tag: string, rest: string)
    requires TagChars(tag) && (rest == "" || !IsTagChar(rest[0]))
    ensures CountTagChars(tag + rest) == |tag|
  {
    if tag == "" {
      assert tag + rest == rest;
    } else {
      assert (tag + rest)[1..] == tag[1..] + rest;
      CountTagCharsIs(tag[1..], rest);
    }
  }

  /** What follows the quoted tag: its closing quote and blanks. */
  function ParseTag(before: string, weak: bool, s: string): Option<(Element, string)> {
    if s == "" || s[0] != '"' then None
    else
      var body := s[1..];
      var k := CountTagChars(body);
      if k == |body| || body[k] != '"' then None
      else
        var tail := body[k + 1..];
        var a := CountBlanks(tail);
        Some((Element(before, weak, body[..k], tail[..a]), tail[a..]))
  }

  /** One element at the front of the text, and what follows it. */
  function ParseElement(s: string): Option<(Element, string)> {
    var b := CountBlanks(s);
    var marked := s[b..];
    if "W/" <= marked then ParseTag(s[..b], true, marked[2..]) else ParseTag(s[..b], false, marked)
  }

  function ParseList(s: string): Option<seq<Element>>
    decreases |s|
  {
    var first := ParseElement(s);
    if first.None? then None
    else
      ParseShrinks(s);
      var (e, rest) := first.value;
      if rest == "" then Some([e])
      else if rest[0] != ',' then None
      else
        var others := ParseList(rest[1..]);
        if others.None? then None else Some([e] + others.value)
  }

  lemma ParseShrinks(s: string)
    ensures ParseElement(s).Some? ==> |ParseElement(s).value.1| < |s|
  {
  }

  lemma Regroup(q: string, t: string, a: string, r: string)
    ensures q + (t + (q + (a + r))) == q + t + q + (a + r)
  {
  }

  lemma RegroupElement(b: string, m: string, t: string, a: string, r: string)
    ensures b + (m + (t + (a + r))) == b + (m + (t + a)) + r
  {
  }

  /** A quoted text taken apart and put together again. */
  lemma Quoted(s: string, k: nat, a: nat)
    requires s != "" && s[0] == '"' && k < |s[1..]| && s[1..][k] == '"' && a <= |s[1..][k + 1..]|
    ensures var body := s[1..];
            var tail := body[k + 1..];
            s == "\"" + body[..k] + "\"" + (tail[..a] + tail[a..])
  {
    var body := s[1..];
    var tail := body[k + 1..];
    assert s == "\"" + body;
    assert body == body[..k] + ("\"" + tail);
    assert tail == tail[..a] + tail[a..];
    Regroup("\"", body[..k], tail[..a], tail[a..]);
  }

  lemma ParseTagSound(before: string, weak: bool, s: string)
    requires Blanks(before) && ParseTag(before, weak, s).Some?
    ensures var (e, rest) := ParseTag(before, weak, s).value;
            WellFormed(e) && e.before == before && e.weak == weak && s == Tag(e) + (e.after + rest)
                && (rest == "" || !IsBlank(rest[0]))
  {
    hide CountBlanks, CountTagChars, Blanks, TagChars, IsBlank, IsTagChar;
    var k := CountTagChars(s[1..]);
    Quoted(s, k, CountBlanks(s[1..][k + 1..]));
  }

  lemma ParseElementSound(s: string)
    requires ParseElement(s).Some?
    ensures var (e, rest) := ParseElement(s).value;
            WellFormed(e) && s == Render(e) + rest && (rest == "" || !IsBlank(rest[0]))
  {
    hide CountBlanks, Blanks, IsBlank, ParseTag, WellFormed, Tag;
    var b := CountBlanks(s);
    var marked := s[b..];
    assert s == s[..b] + marked;
    var (e, rest) := ParseElement(s).value;
    if "W/" <= marked {
      ParseTagSound(s[..b], true, marked[2..]);
      assert marked == "W/" + marked[2..];
    } else {
      ParseTagSound(s[..b], false, marked);
      assert marked == "" + marked;
    }
    RegroupElement(e.before, Mark(e), Tag(e), e.after, rest);
  }

  lemma ParseTagComplete(e: Element, rest: string)
    requires WellFormed(e) && (rest == "" || !IsBlank(rest[0]))
    ensures ParseTag(e.before, e.weak, Tag(e) + (e.after + rest)) == Some((e, rest))
  {
    hide CountBlanks, CountTagChars, Blanks, TagChars;
    var s := Tag(e) + (e.after + rest);
    var body := e.text + ("\"" + (e.after + rest));
    Regroup("\"", e.text, e.after, rest);
    assert s == "\"" + body;
    assert s[1..] == body;
    CountTagCharsIs(e.text, "\"" + (e.after + rest));
    assert body[|e.text|] == '"';
    assert body[|e.text| + 1..] == e.after + rest;
    CountBlanksIs(e.after, rest);
    assert body[..|e.text|] == e.text;
    assert (e.after + rest)[..|e.after|] == e.after && (e.after + rest)[|e.after|..] == rest;
  }

  lemma ParseElementComplete(e: Element, rest: string)
    requires WellFormed(e) && (rest == "" || !IsBlank(rest[0]))
    ensures ParseElement(Render(e) + rest) == Some((e, rest))
  {
    hide ParseTag, WellFormed, CountBlanks, Blanks, Tag;
    ParseTagComplete(e, rest);
    TagStartsQuoted(e);
    var quoted := Tag(e) + (e.after + rest);
    var marked := Mark(e) + quoted;
    RegroupElement(e.before, Mark(e), Tag(e), e.after, rest);
    assert Render(e) + rest == e.before + marked;
    assert quoted[0] == '"';
    if e.weak {
      assert marked[0] == 'W' && marked[..2] == "W/" && marked[2..] == quoted;
    } else {
      assert marked == quoted;
    }
    CountBlanksOfRendered(e, marked);
    assert (e.before + marked)[..|e.before|] == e.before && (e.before + marked)[|e.before|..] == marked;
    assert "W/" <= marked <==> e.weak;
  }

  lemma TagStartsQuoted(e: Element)
    ensures |Tag(e)| >= 2 && Tag(e)[0] == '"'
  {
  }

  lemma CountBlanksOfRendered(e: Element, marked: string)
    requires WellFormed(e) && marked != "" && !IsBlank(marked[0])
    ensures CountBlanks(e.before + marked) == |e.before|
  {
    CountBlanksIs(e.before, marked);
  }

  /** The parser accepts nothing outside the grammar ... */
  lemma {:induction false} ParseListSound(s: string)
    requires ParseList(s).Some?
    ensures WellFormedList(ParseList(s).value) && RenderList(ParseList(s).value) == s
    decreases |s|
  {
    hide WellFormed, Render, ParseElement;
    ParseElementSound(s);
    ParseShrinks(s);
    var (e, rest) := ParseElement(s).value;
    if rest == "" {
      assert Render(e) + rest == Render(e);
    } else {
      ParseListSound(rest[1..]);
      var others := ParseList(rest[1..]).value;
      assert ([e] + others)[1..] == others;
      assert rest == "," + rest[1..];
    }
  }

  /** ... and everything inside it, in only one way. */
  lemma {:induction false} ParseListComplete(es: seq<Element>)
    requires WellFormedList(es)
    ensures ParseList(RenderList(es)) == Some(es)
  {
    hide WellFormed, Render, ParseElement;
    if |es| == 1 {
      ParseElementComplete(es[0], "");
      assert Render(es[0]) + "" == Render(es[0]);
      assert es == [es[0]];
    } else {
      var rest := "," + RenderList(es[1..]);
      ParseElementComplete(es[0], rest);
      ParseListComplete(es[1..]);
      assert rest[1..] == RenderList(es[1..]);
      assert es == [es[0]] + es[1..];
    }
  }

  // ---- The scanner ----

  /** What the strong tags of a list name. */
  function NamedVersions(es: seq<Element>): seq<int> {
    if es == [] then []
    else
      var n := |es| - 1;
      NamedVersions(es[..n]) + (if !es[n].weak && TagVersion(es[n].text).Some? then [TagVersion(es[n].text).value]
          else [])
  }

  lemma VersionsAppend(es: seq<Element>, e: Element)
    ensures NamedVersions(es + [e])
         == NamedVersions(es) + (if !e.weak && TagVersion(e.text).Some? then [TagVersion(e.text).value] else [])
  {
    assert (es + [e])[..|es|] == es;
  }

  predicate NamesVersion(e: Element, v: nat) { !e.weak && Tag(e) == VersionETag(v) }

  lemma TagsAreEqualByText(a: string, b: string)
    ensures "\"" + a + "\"" == "\"" + b + "\"" <==> a == b
  {
    var x, y := "\"" + a + "\"", "\"" + b + "\"";
    assert x[1..|x| - 1] == a && y[1..|y| - 1] == b;
  }

  lemma NamesByVersion(e: Element, v: int)
    requires 1 <= v < INT64_LIMIT
    ensures NamesVersion(e, v) <==> !e.weak && TagVersion(e.text) == Some(v)
  {
    hide TagVersion, Decimal;
    TagVersionIsDecimal(e.text, v);
    TagsAreEqualByText(e.text, Decimal(v));
  }

  lemma {:induction false} VersionsMember(es: seq<Element>, v: int)
    requires 1 <= v < INT64_LIMIT
    ensures v in NamedVersions(es) <==> exists i :: 0 <= i < |es| && NamesVersion(es[i], v)
  {
    hide TagVersion, Decimal, NamesVersion;
    if es == [] {
    } else {
      var n := |es| - 1;
      VersionsMember(es[..n], v);
      NamesByVersion(es[n], v);
      NamedInFront(es, n, v);
    }
  }

  lemma NamedInFront(es: seq<Element>, n: nat, v: nat)
    requires n + 1 == |es|
    ensures (exists i :: 0 <= i < |es| && NamesVersion(es[i], v)) <==>
              NamesVersion(es[n], v) || exists i :: 0 <= i < n && NamesVersion(es[..n][i], v)
  {
    hide NamesVersion;
    if i :| 0 <= i < n && NamesVersion(es[..n][i], v) {
      assert NamesVersion(es[i], v);
    }
    if i :| 0 <= i < n && NamesVersion(es[i], v) {
      assert NamesVersion(es[..n][i], v);
    }
  }

  datatype Parsed = Missing | Malformed | Condition(pre: VersionPrecondition)

  /** What a header value without its outer white space means. */
  function Understood(raw: string): Parsed {
    if raw == "" then Missing
    else if raw == "*" then Condition(VersionPrecondition(true, []))
    else if ParseList(raw).None? then Malformed
    else
      var versions := NamedVersions(ParseList(raw).value);
      Condition(VersionPrecondition(false, if versions == [] then [0] else versions))
  }

  method SkipBlanks(raw: string, offset: nat) returns (end: nat)
    requires offset <= |raw|
    ensures offset <= end <= |raw| && end == offset + CountBlanks(raw[offset..])
  {
    end := offset;
    while end < |raw| && IsBlank(raw[end])
      invariant offset <= end <= |raw|
      invariant offset + CountBlanks(raw[offset..]) == end + CountBlanks(raw[end..])
    {
      assert raw[end..][1..] == raw[end + 1..];
      end := end + 1;
    }
  }

  /** The characters of a tag up to its closing quote. */
  method ScanTagChars(raw: string, first: nat) returns (ok: bool, end: nat)
    requires first <= |raw|
    ensures ok <==> var k := CountTagChars(raw[first..]); first + k < |raw| && raw[first + k] == '"'
    ensures ok ==> end == first + CountTagChars(raw[first..])
  {
    end := first;
    while end < |raw| && raw[end] != '"'
      invariant first <= end <= |raw|
      invariant first + CountTagChars(raw[first..]) == end + CountTagChars(raw[end..])
    {
      if !IsTagChar(raw[end]) {
        return false, end;
      }
      assert raw[end..][1..] == raw[end + 1..];
      end := end + 1;
    }
    ok := end < |raw|;
  }

  lemma Offsets(raw: string, first: nat, end: nat)
    requires first <= end < |raw|
    ensures raw[first..][..end - first] == raw[first..end] && raw[first..][end - first] == raw[end]
    ensures raw[first..][end - first + 1..] == raw[end + 1..]
  {
  }

  /** A quoted tag and the blanks after it. */
  method ScanTag(raw: string, at: nat, ghost before: string, ghost weak: bool)
      returns (ok: bool, text: string, end: nat)
    requires at <= |raw|
    ensures ok <==> ParseTag(before, weak, raw[at..]).Some?
    ensures ok ==> at < end <= |raw| && raw[end..] == ParseTag(before, weak, raw[at..]).value.1
    ensures ok ==> text == ParseTag(before, weak, raw[at..]).value.0.text
  {
    hide CountTagChars, CountBlanks, Blanks, TagChars, IsBlank, IsTagChar;
    text, end := "", at;
    if at >= |raw| || raw[at] != '"' {
      return false, text, end;
    }
    var first := at + 1;
    assert raw[at..][1..] == raw[first..];
    ok, end := ScanTagChars(raw, first);
    if !ok {
      return;
    }
    text := raw[first..end];
    var close := end + 1;
    Offsets(raw, first, end);
    end := SkipBlanks(raw, close);
    assert raw[close..][end - close..] == raw[end..];
  }

  /** One element at an offset; `end` is where the next element's comma, or the end, is. */
  method ScanElement(raw: string, start: nat) returns (ok: bool, weak: bool, text: string, end: nat)
    requires start <= |raw|
    ensures ok <==> ParseElement(raw[start..]).Some?
    ensures ok ==> start < end <= |raw| && raw[end..] == ParseElement(raw[start..]).value.1
    ensures ok ==> weak == ParseElement(raw[start..]).value.0.weak && text == ParseElement(raw[start..]).value.0.text
  {
    hide CountBlanks, ParseTag;
    var at := SkipBlanks(raw, start);
    ghost var before := raw[start..][..at - start];
    assert raw[start..][at - start..] == raw[at..];
    weak := "W/" <= raw[at..];
    if weak {
      assert raw[at..][2..] == raw[at + 2..];
      at := at + 2;
    }
    ok, text, end := ScanTag(raw, at, before, weak);
    TagKeepsMark(before, weak, raw[at..]);
  }

  lemma TagKeepsMark(before: string, weak: bool, s: string)
    ensures ParseTag(before, weak, s).Some? ==> ParseTag(before, weak, s).value.0.weak == weak
  {
    hide CountBlanks, CountTagChars;
  }

  /** One step of the list parser. */
  lemma ParseListStep(s: string)
    ensures ParseElement(s).None? ==> ParseList(s).None?
    ensures ParseElement(s).Some? ==>
              var (e, rest) := ParseElement(s).value;
              && (rest == "" ==> ParseList(s) == Some([e]))
              && (rest != "" && rest[0] != ',' ==> ParseList(s).None?)
              && (rest != "" && rest[0] == ',' ==>
                    && (ParseList(s).Some? <==> ParseList(rest[1..]).Some?)
                    && (ParseList(s).Some? ==> ParseList(s).value == [e] + ParseList(rest[1..]).value))
  {
    hide ParseElement;
  }

  /** versionPrecondition on a header value without its outer white space. */
  method Scan(raw: string) returns (r: Parsed)
    ensures r == Understood(raw)
  {
    hide ParseElement, TagVersion, ParseList;
    if raw == "" {
      return Missing;
    }
    if raw == "*" {
      return Condition(VersionPrecondition(true, []));
    }
    var versions: seq<int> := [];
    var offset := 0;
    ghost var seen: seq<Element> := [];
    assert raw[0..] == raw;
    while offset < |raw|
      invariant 0 <= offset <= |raw|
      invariant versions == NamedVersions(seen)
      invariant ParseList(raw).Some? <==> ParseList(raw[offset..]).Some?
      invariant ParseList(raw).Some? ==> ParseList(raw).value == seen + ParseList(raw[offset..]).value
      invariant offset < |raw|
    {
      ParseListStep(raw[offset..]);
      var ok, weak, text, end := ScanElement(raw, offset);
      if !ok {
        return Malformed;
      }
      ghost var e := ParseElement(raw[offset..]).value.0;
      VersionsAppend(seen, e);
      seen := seen + [e];
      if !weak {
        var version := TagVersion(text);
        if version.Some? {
          versions := versions + [version.value];
        }
      }
      offset := end;
      if offset == |raw| {
        break;
      }
      if raw[offset] != ',' {
        return Malformed;
      }
      assert raw[offset..][1..] == raw[offset + 1..];
      offset := offset + 1;
      if offset == |raw| {
        ParseListStep("");
        NothingIsNoElement();
        assert raw[offset..] == "";
        return Malformed;
      }
    }
    if |versions| == 0 {
      versions := [0];
    }
    return Condition(VersionPrecondition(false, versions));
  }

  lemma NothingIsNoElement()
    ensures ParseElement("").None?
  {
  }

  function JoinValues(values: seq<string>): string {
    if values == [] then "" else if |values| == 1 then values[0] else values[0] + "," + JoinValues(values[1..])
  }

  /** A header value in the grammar of the service: a star, or a list of entity tags. */
  ghost predicate InGrammar(raw: string) {
    raw == "*" || exists es :: WellFormedList(es) && RenderList(es) == raw
  }

  /** Strong comparison: the value is a star, or a list with a strong tag equal to the version's. */
  ghost predicate StronglyMatches(raw: string, v: nat) {
    raw == "*" || exists es, i :: WellFormedList(es) && RenderList(es) == raw && 0 <= i < |es| && NamesVersion(es[i], v)
  }

  /** A value outside the grammar is malformed, and the condition a value inside it gives matches a version
      exactly by strong comparison. */
  lemma UnderstoodExactly(raw: string)
    ensures Understood(raw).Missing? <==> raw == ""
    ensures Understood(raw).Condition? <==> InGrammar(raw)
    ensures forall v :: Understood(raw).Condition? && 1 <= v < INT64_LIMIT ==>
              (Understood(raw).pre.Matches(v) <==> StronglyMatches(raw, v))
  {
    hide ParseList, NamedVersions, RenderList, WellFormedList;
    GrammarIsParser(raw);
    forall v | Understood(raw).Condition? && 1 <= v < INT64_LIMIT
      ensures Understood(raw).pre.Matches(v) <==> StronglyMatches(raw, v)
    {
      if raw != "*" {
        MatchIsMembership(raw, v);
      }
    }
  }

  /** The whole of versionPrecondition: no value is required of the caller; a value outside the grammar is
      malformed; and the condition a value inside it gives matches a version exactly by strong comparison. */
  method ReadIfMatch(values: seq<string>) returns (r: Parsed)
    ensures var raw := Trim(JoinValues(values));
            && r == Understood(raw)
            && (r.Missing? <==> raw == "")
            && (r.Condition? <==> InGrammar(raw))
            && forall v :: r.Condition? && 1 <= v <= 9223372036854775807 ==>
                 (r.pre.Matches(v) <==> StronglyMatches(raw, v))
  {
    hide Trim, JoinValues, Understood;
    var raw := Trim(JoinValues(values));
    r := Scan(raw);
    UnderstoodExactly(raw);
  }

  lemma GrammarIsParser(raw: string)
    ensures raw == "" ==> !InGrammar(raw)
    ensures raw != "*" ==> (InGrammar(raw) <==> ParseList(raw).Some?)
  {
    hide WellFormed, Render, ParseElement;
    if ParseList(raw).Some? {
      ParseListSound(raw);
    }
    if es :| WellFormedList(es) && RenderList(es) == raw {
      ParseListComplete(es);
    }
    NothingIsNoElement();
  }

  lemma MatchIsMembership(raw: string, v: int)
    requires raw != "*" && ParseList(raw).Some? && 1 <= v < INT64_LIMIT
    ensures v in NamedVersions(ParseList(raw).value) <==> StronglyMatches(raw, v)
  {
    hide WellFormed, Render, ParseElement, NamesVersion, NamedVersions, ParseList;
    var parsed := ParseList(raw).value;
    ParseListSound(raw);
    VersionsMember(parsed, v);
    if es, i :| WellFormedList(es) && RenderList(es) == raw && 0 <= i < |es| && NamesVersion(es[i], v) {
      ParseListComplete(es);
    }
  }

  /** Weak tags, and tags that are signed, zero-padded or not a number, never match any version. */
  lemma NeverMatching(e: Element, v: nat)
    requires v > 0
    requires e.weak || e.text == "" || !('1' <= e.text[0] <= '9') || !AllDigits(e.text)
    ensures !NamesVersion(e, v)
  {
    DecimalIsCanonical(v);
    TagsAreEqualByText(e.text, Decimal(v));
  }

  /** A version's own tag, sent back as it was received, names that version and no other. */
  lemma OwnTag(v: int)
    requires 1 <= v < INT64_LIMIT
    ensures Understood(VersionETag(v)) == Condition(VersionPrecondition(false, [v]))
  {
    var e := Element("", false, Decimal(v), "");
    DecimalIsCanonical(v);
    TagVersionIsDecimal(Decimal(v), v);
    DigitsAreTagChars(Decimal(v));
    hide Decimal, TagVersion, AllDigits, IsTagChar, ParseElement;
    assert "" + Tag(e) == Tag(e) && Tag(e) + "" == Tag(e);
    assert RenderList([e]) == VersionETag(v);
    ParseListComplete([e]);
    assert [e][..0] == [];
    assert NamedVersions([e]) == [v];
  }

  lemma DigitsAreTagChars(s: string)
    requires AllDigits(s)
    ensures TagChars(s)
  {
  }

  // ---- The characters of the grammar, by number ----

  /** What may stand in a tag: code points 33, 35 to 126, and 128 upwards (section 8.8.3 of RFC 9110). */
  lemma TagCharactersAre(c: char)
    ensures InGrammar("\"" + [c] + "\"") <==> c as int == 33 || 35 <= c as int <= 126 || c as int >= 128
  {
    var raw := "\"" + [c] + "\"";
    assert IsTagChar(c) <==> c as int == 33 || 35 <= c as int <= 126 || c as int >= 128;
    GrammarIsParser(raw);
    hide InGrammar;
    if IsTagChar(c) {
      var e := Element("", false, [c], "");
      assert WellFormed(e) && Render(e) == raw;
      ParseListComplete([e]);
    } else {
      BadTag(raw);
      ParseListStep(raw);
    }
  }

  lemma BadTag(raw: string)
    requires |raw| == 3 && raw[0] == '"' && !IsTagChar(raw[1]) && raw[2] == '"'
    ensures ParseElement(raw).None? || (ParseElement(raw).value.1 != "" && ParseElement(raw).value.1[0] != ',')
  {
    assert CountBlanks(raw) == 0 && raw[0..] == raw;
    var body := raw[1..];
    assert body[0] == raw[1] && CountTagChars(body) == 0;
    if body[0] == '"' {
      var tail := body[1..];
      assert tail == "\"" && CountBlanks(tail) == 0 && tail[0..] == tail;
    }
  }

  /** What may stand before a tag: nothing, blanks (32) and tabs (9). */
  lemma BlanksAre(c: char)
    ensures InGrammar([c] + "\"1\"") <==> c as int == 32 || c as int == 9
  {
    var raw := [c] + "\"1\"";
    GrammarIsParser(raw);
    hide InGrammar;
    if IsBlank(c) {
      var e := Element([c], false, "1", "");
      assert WellFormed(e) && Render(e) == raw;
      ParseListComplete([e]);
    } else {
      NoTag(raw);
      ParseListStep(raw);
    }
  }

  lemma NoTag(raw: string)
    requires |raw| == 4 && !IsBlank(raw[0]) && raw[1] == '"' && raw[2] == '1' && raw[3] == '"'
    ensures ParseElement(raw).None? || (ParseElement(raw).value.1 != "" && ParseElement(raw).value.1[0] != ',')
  {
    assert CountBlanks(raw) == 0 && raw[0..] == raw;
    if raw[0] == '"' {
      var body := raw[1..];
      assert body[0] == '"' && CountTagChars(body) == 0;
      var tail := body[1..];
      assert tail[0] == '1' && CountBlanks(tail) == 0 && tail[0..] == tail;
    }
  }

  // ---- Several header lines ----

  function Flatten(lists: seq<seq<Element>>): seq<Element> {
    if lists == [] then [] else lists[0] + Flatten(lists[1..])
  }

  function Lines(lists: seq<seq<Element>>): seq<string>
    requires forall i :: 0 <= i < |lists| ==> lists[i] != []
  {
    seq(|lists|, i requires 0 <= i < |lists| => RenderList(lists[i]))
  }

  lemma {:induction false} RenderJoins(a: seq<Element>, b: seq<Element>)
    requires a != [] && b != []
    ensures RenderList(a + b) == RenderList(a) + ("," + RenderList(b))
  {
    hide Render;
    assert (a + b)[0] == a[0];
    if |a| == 1 {
      assert (a + b)[1..] == b;
    } else {
      assert (a + b)[1..] == a[1..] + b;
      RenderJoins(a[1..], b);
      Regrouped(Render(a[0]), RenderList(a[1..]), "," + RenderList(b));
    }
  }

  lemma Regrouped(x: string, y: string, z: string)
    ensures x + ("," + (y + z)) == x + ("," + y) + z
  {
  }

  /** Several If-Match lines count as one list of all their tags, in order. */
  lemma {:induction false} LinesAreOneList(lists: seq<seq<Element>>)
    requires lists != [] && forall i :: 0 <= i < |lists| ==> lists[i] != [] && WellFormedList(lists[i])
    ensures WellFormedList(Flatten(lists)) && JoinValues(Lines(lists)) == RenderList(Flatten(lists))
  {
    hide WellFormed, RenderList;
    var lines := Lines(lists);
    if |lists| == 1 {
      assert Flatten(lists[1..]) == [] && Flatten(lists) == lists[0] + [];
      assert lists[0] + [] == lists[0];
    } else {
      LinesAreOneList(lists[1..]);
      assert lines[1..] == Lines(lists[1..]);
      RenderJoins(lists[0], Flatten(lists[1..]));
      assert lines[0] + "," + JoinValues(lines[1..]) == lines[0] + ("," + JoinValues(lines[1..]));
    }
  }
}
