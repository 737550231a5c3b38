/** The few text rules the store depends on: identifier syntax, trimming and byte length
    (validID in internal/store/store.go, validJustification in internal/store/mutations.go). */
module Text {

  predicate IsIdChar(c: char, first: bool) {
    'a' <= c <= 'z' || 'A' <= c <= 'Z' || '0' <= c <= '9' || (!first && c in "._:@+-")
  }

  predicate ValidId(v: string) {
    1 <= |v| <= 200 && forall i :: 0 <= i < |v| ==> IsIdChar(v[i], i == 0)
  }

  /** White space as Go's unicode.IsSpace defines it. */
  predicate IsSpace(c: char) {
    || '\t' <= c <= '\r' || c == ' ' || c == '\U{85}' || c == '\U{A0}' || c == '\U{1680}'
    || '\U{2000}' <= c <= '\U{200A}' || c == '\U{2028}' || c == '\U{2029}' || c == '\U{202F}'
    || c == '\U{205F}' || c == '\U{3000}'
  }

  function TrimLeft(s: string): (r: string)
    ensures |r| <= |s| && r == s[|s| - |r|..]
    ensures r == "" || !IsSpace(r[0])
  {
    if s != "" && IsSpace(s[0]) then TrimLeft(s[1..]) else s
  }

  function TrimRight(s: string): (r: string)
    ensures |r| <= |s| && r == s[..|r|]
    ensures r == "" || !IsSpace(r[|r| - 1])
  {
    if s != "" && IsSpace(s[|s| - 1]) then TrimRight(s[..|s| - 1]) else s
  }

  /** Trimming leaves nothing to trim at either end, and so trimming twice is trimming once. */
  function Trim(s: string): (r: string)
    ensures r == "" || (!IsSpace(r[0]) && !IsSpace(r[|r| - 1]))
  {
    TrimRight(TrimLeft(s))
  }

  lemma TrimIdempotent(s: string)
    ensures Trim(Trim(s)) == Trim(s)
  {
    var r := Trim(s);
    if r != "" {
      assert TrimLeft(r) == r;
      assert TrimRight(r) == r;
    }
  }

  /** Bytes of the UTF-8 encoding, which is what Go's len counts. */
  function Utf8Length(s: string): nat {
    if s == "" then 0
    else
      var c := s[|s| - 1];
      Utf8Length(s[..|s| - 1])
      + (if c < '\U{80}' then 1 else if c < '\U{800}' then 2 else if c < '\U{10000}' then 3 else 4)
  }

  /** A limit checked in bytes is also respected in characters, which is what the schema counts. */
  lemma {:induction false} CharactersWithinBytes(s: string)
    ensures |s| <= Utf8Length(s)
  {
    if s == "" {
    } else {
      CharactersWithinBytes(s[..|s| - 1]);
    }
  }

  /** SQL's length of a text: the characters before its first U+0000. */
  function SqlLength(s: string): nat {
    if s == "" || s[0] == '\0' then 0 else 1 + SqlLength(s[1..])
  }

  lemma {:induction false} SqlLengthWithin(s: string)
    ensures SqlLength(s) <= |s|
    ensures (forall i :: 0 <= i < |s| ==> s[i] != '\0') ==> SqlLength(s) == |s|
  {
    if s == "" {
    } else {
      SqlLengthWithin(s[1..]);
    }
  }

  /** The length check of the lock_key column. */
  predicate StorableKey(key: string) {
    1 <= SqlLength(key) <= 512
  }

  /** Of the keys that pass the service's own test, the column refuses exactly those that begin with U+0000. */
  lemma StorableExactly(key: string)
    requires key != "" && Utf8Length(key) <= 512
    ensures StorableKey(key) <==> key[0] != '\0'
  {
    SqlLengthWithin(key);
    CharactersWithinBytes(key);
    hide Utf8Length;
  }

  lemma IdLength(v: string)
    requires ValidId(v)
    ensures 1 <= SqlLength(v) <= 200
  {
    SqlLengthWithin(v);
  }

  predicate ValidJustification(s: string) {
    Trim(s) != "" && Utf8Length(Trim(s)) <= 4096
  }

  // ---- What these functions mean, by code point ----

  /** The white space of Unicode as Go knows it, by number. */
  lemma SpacesAre(c: char)
    ensures IsSpace(c) <==>
              c as int in {9, 10, 11, 12, 13, 32, 0x85, 0xA0, 0x1680, 0x2028, 0x2029, 0x202F, 0x205F, 0x3000}
              || 0x2000 <= c as int <= 0x200A
  {
  }

  predicate Blank(s: string) { forall i :: 0 <= i < |s| ==> IsSpace(s[i]) }

  /** Trimming takes away all white space at both ends and nothing else. */
  lemma TrimExactly(left: string, middle: string, right: string)
    requires Blank(left) && Blank(right)
    requires middle == "" || (!IsSpace(middle[0]) && !IsSpace(middle[|middle| - 1]))
    ensures Trim(left + middle + right) == middle
  {
    hide IsSpace;
    var s := left + middle + right;
    if middle == "" {
      assert s == left + right;
      TrimLeftBlank(left + right, "");
      assert left + right + "" == s;
    } else {
      assert s == left + (middle + right) && (middle + right)[0] == middle[0];
      TrimLeftBlank(left, middle + right);
      TrimRightBlank(middle, right);
    }
  }

  lemma {:induction false} TrimLeftBlank(left: string, rest: string)
    requires Blank(left) && (rest == "" || !IsSpace(rest[0]))
    ensures TrimLeft(left + rest) == rest
  {
    if left == "" {
      assert left + rest == rest;
    } else {
      assert (left + rest)[1..] == left[1..] + rest;
      TrimLeftBlank(left[1..], rest);
    }
  }

  lemma {:induction false} TrimRightBlank(rest: string, right: string)
    requires Blank(right) && (rest == "" || !IsSpace(rest[|rest| - 1]))
    ensures TrimRight(rest + right) == rest
  {
    if right == "" {
      assert rest + right == rest;
    } else {
      var n := |right| - 1;
      assert (rest + right)[..|rest + right| - 1] == rest + right[..n];
      TrimRightBlank(rest, right[..n]);
    }
  }

  /** Every text has such ends. */
  lemma TrimSplits(s: string) returns (left: string, right: string)
    ensures Blank(left) && Blank(right) && s == left + Trim(s) + right
  {
    hide IsSpace, Blank, TrimLeft, TrimRight;
    var l := TrimLeft(s);
    var m := TrimRight(l);
    left, right := s[..|s| - |l|], l[|m|..];
    TrimmedLeft(s);
    TrimmedRight(l);
    assert s == left + l;
    assert l == m + right;
    assert left + m + right == left + (m + right);
  }

  lemma {:induction false} TrimmedLeft(s: string)
    ensures Blank(s[..|s| - |TrimLeft(s)|])
  {
    if s != "" && IsSpace(s[0]) {
      TrimmedLeft(s[1..]);
      var n := |s| - |TrimLeft(s)|;
      assert s[..n] == [s[0]] + s[1..][..n - 1];
    }
  }

  lemma {:induction false} TrimmedRight(s: string)
    ensures Blank(s[|TrimRight(s)|..])
  {
    if s != "" && IsSpace(s[|s| - 1]) {
      var front := s[..|s| - 1];
      TrimmedRight(front);
      assert s[|TrimRight(s)|..] == front[|TrimRight(front)|..] + [s[|s| - 1]];
    }
  }

  /** The length in bytes: 1 to 4 for each code point, added up. */
  lemma {:induction false} Utf8Adds(a: string, b: string)
    ensures Utf8Length(a + b) == Utf8Length(a) + Utf8Length(b)
  {
    if b == "" {
      assert a + b == a;
    } else {
      var n := |b| - 1;
      assert (a + b)[..|a + b| - 1] == a + b[..n];
      Utf8Adds(a, b[..n]);
    }
  }

  lemma Utf8Of(c: char)
    ensures Utf8Length([c])
         == if c as int < 128 then 1 else if c as int < 2048 then 2 else if c as int < 65536 then 3 else 4
  {
    assert [c][..0] == "";
  }

  /** SQL's length is the place of the first U+0000, or the number of characters if there is none. */
  lemma {:induction false} SqlLengthIsFirstNul(s: string)
    ensures SqlLength(s) <= |s| && (SqlLength(s) < |s| ==> s[SqlLength(s)] == '\0')
    ensures forall i :: 0 <= i < SqlLength(s) ==> s[i] != '\0'
  {
    if s == "" || s[0] == '\0' {
    } else {
      SqlLengthIsFirstNul(s[1..]);
      assert forall i :: 1 <= i < |s| ==> s[i] == s[1..][i - 1];
    }
  }
}
