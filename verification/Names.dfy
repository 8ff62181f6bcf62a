/** Identifier case conversion (format.go:525-585): the two conversions between a protobuf field
    name and its lower camel-case form, and the field lookup that relies on them. */
module Names {

  const UPPER_TO_LOWER := 32  // 'a' - 'A'

  predicate IsLower(c: char) { 'a' <= c <= 'z' }

  predicate IsUpper(c: char) { 'A' <= c <= 'Z' }

  function ToUpper(c: char): char
    requires IsLower(c)
  {
    (c as int - UPPER_TO_LOWER) as char
  }

  function ToLower(c: char): char
    requires IsUpper(c)
  {
    (c as int + UPPER_TO_LOWER) as char
  }

  /** What one character contributes to the camel-case form, given what came just before it. */
  function CamelChar(afterUnderscore: bool, c: char): string {
    if c == '_' then ""
    else if afterUnderscore && IsLower(c) then [ToUpper(c)]
    else [c]
  }

  predicate EndsInUnderscore(s: string) { s != "" && s[|s| - 1] == '_' }

  /** The camel-case form, defined on prefixes as the loop builds it. */
  function Camel(s: string): string {
    if s == "" then ""
    else var init := s[..|s| - 1]; Camel(init) + CamelChar(EndsInUnderscore(init), s[|s| - 1])
  }

  function SnakeChar(c: char): string {
    if IsUpper(c) then ['_', ToLower(c)] else [c]
  }

  function Snake(s: string): string {
    if s == "" then "" else Snake(s[..|s| - 1]) + SnakeChar(s[|s| - 1])
  }

  method CamelCase(str: string) returns (buf: string)
    ensures buf == Camel(str)
  {
    buf := "";
    var wasUnderscore := false;
    for i := 0 to |str|
      invariant buf == Camel(str[..i])
      invariant wasUnderscore == EndsInUnderscore(str[..i])
    {
      assert str[..i + 1][..i] == str[..i];
      var c := str[i];
      if c != '_' {
        if wasUnderscore && IsLower(c) {
          c := ToUpper(c);
        }
        buf := buf + [c];
      }
      wasUnderscore := str[i] == '_';
    }
    assert str[..|str|] == str;
  }

  method SnakeCase(str: string) returns (buf: string)
    ensures buf == Snake(str)
  {
    buf := "";
    for i := 0 to |str|
      invariant buf == Snake(str[..i])
    {
      assert str[..i + 1][..i] == str[..i];
      var c := str[i];
      if IsUpper(c) {
        buf := buf + ['_'];
        c := ToLower(c);
      }
      buf := buf + [c];
    }
    assert str[..|str|] == str;
  }

  predicate UnderscoreFree(s: string) { '_' !in s }

  /** The names snake-casing can produce: no upper case, every underscore directly before a lower-case letter. */
  predicate IsSnakeName(s: string) {
    && (forall i :: 0 <= i < |s| ==> !IsUpper(s[i]))
    && (forall i, j :: 0 <= i && j == i + 1 < |s| && s[i] == '_' ==> IsLower(s[j]))
    && !EndsInUnderscore(s)
  }

  // ----- the two forms, character by character

  /** The camel-case form keeps every character that is no underscore, in order: the one at i comes after the kept ones
      before it, in upper case if it is a lower-case letter right after an underscore, else as it is. */
  lemma {:induction false} CamelAt(s: string, i: nat)
    requires i < |s| && s[i] != '_'
    ensures |Camel(s)| == |s| - multiset(s)['_']
    ensures var at := i - multiset(s[..i])['_'];
            && 0 <= at < |Camel(s)|
            && Camel(s)[at]
              == if i > 0 && s[i - 1] == '_' && 'a' <= s[i] <= 'z' then s[i] - 'a' + 'A' else s[i]
  {
    hide Camel;
    var init := s[..|s| - 1];
    assert s == init + [s[|s| - 1]];
    CamelSize(s);
    if i == |s| - 1 {
      assert s[..i] == init;
      CamelLast(s);
    } else {
      CamelAt(init, i);
      assert init[..i] == s[..i];
      CamelGrows(s);
    }
  }

  lemma CamelLast(s: string)
    requires s != "" && s[|s| - 1] != '_'
    ensures var c, n := s[|s| - 1], |s| - 1;
            && |Camel(s)| > 0
            && Camel(s)[|Camel(s)| - 1] == if n > 0 && s[n - 1] == '_' && 'a' <= c <= 'z' then c - 'a' + 'A' else c
  {
  }

  lemma CamelGrows(s: string)
    requires s != ""
    ensures Camel(s[..|s| - 1]) <= Camel(s)
  {
  }

  lemma {:induction false} CamelSize(s: string)
    ensures |Camel(s)| == |s| - multiset(s)['_']
  {
    if s != "" {
      assert s == s[..|s| - 1] + [s[|s| - 1]];
      CamelSize(s[..|s| - 1]);
    }
  }

  /** The number of upper-case letters. */
  function Capitals(s: string): nat {
    if s == "" then 0 else Capitals(s[..|s| - 1]) + if 'A' <= s[|s| - 1] <= 'Z' then 1 else 0
  }

  /** The snake-case form keeps every character, in order, but puts an upper-case letter in lower case and an underscore
      before it. */
  lemma {:induction false} SnakeAt(s: string, i: nat)
    requires i < |s|
    ensures |Snake(s)| == |s| + Capitals(s)
    ensures var at := i + Capitals(s[..i]);
            if 'A' <= s[i] <= 'Z' then at + 1 < |Snake(s)| && Snake(s)[at..at + 2] == ['_', s[i] - 'A' + 'a']
            else at < |Snake(s)| && Snake(s)[at] == s[i]
  {
    hide Snake, Capitals;
    var init := s[..|s| - 1];
    SnakeSize(s);
    SnakeSize(init);
    SnakeLast(s);
    if i == |s| - 1 {
      assert s[..i] == init;
    } else {
      SnakeAt(init, i);
      assert init[..i] == s[..i];
    }
  }

  lemma SnakeLast(s: string)
    requires s != ""
    ensures var c, before := s[|s| - 1], Snake(s[..|s| - 1]);
            Snake(s) == before + if 'A' <= c <= 'Z' then ['_', c - 'A' + 'a'] else [c]
  {
    hide SnakeChar;
    SnakedChar(s[|s| - 1]);
  }

  lemma SnakedChar(c: char)
    ensures SnakeChar(c) == if 'A' <= c <= 'Z' then ['_', c - 'A' + 'a'] else [c]
  {
    if IsUpper(c) {
      assert ToLower(c) == c - 'A' + 'a';
    }
  }

  lemma {:induction false} SnakeSize(s: string)
    ensures |Snake(s)| == |s| + Capitals(s)
  {
    if s != "" {
      SnakeSize(s[..|s| - 1]);
    }
  }

  // ----- round trips

  lemma {:induction false} CamelHasNoUnderscore(s: string)
    ensures UnderscoreFree(Camel(s))
  {
    if s != "" {
      CamelHasNoUnderscore(s[..|s| - 1]);
    }
  }

  /** A name without underscores is its own camel-case form. */
  lemma {:induction false} CamelOfUnderscoreFree(s: string)
    requires UnderscoreFree(s)
    ensures Camel(s) == s
  {
    if s != "" {
      var init := s[..|s| - 1];
      CamelOfUnderscoreFree(init);
      assert s == init + [s[|s| - 1]] && s[|s| - 1] in s;
      var u := Camel(init);
      assert Camel(s) == u + CamelChar(EndsInUnderscore(init), s[|s| - 1]);
    }
  }

  /** Camel-casing a text that grows by one snake-cased character. */
  lemma CamelAppend(s: string, c: char)
    ensures Camel(s + [c]) == Camel(s) + CamelChar(EndsInUnderscore(s), c)
  {
    assert (s + [c])[..|s|] == s;
  }

  /** Camel-casing undoes the snake-casing of one more character. */
  lemma CamelUndoesSnakeChar(s: string, c: char)
    requires c != '_' && !EndsInUnderscore(s)
    ensures Camel(s + SnakeChar(c)) == Camel(s) + [c]
  {
    if IsUpper(c) {
      assert s + SnakeChar(c) == s + ['_'] + [ToLower(c)];
      CamelAppend(s, '_');
      CamelAppend(s + ['_'], ToLower(c));
    } else {
      CamelAppend(s, c);
    }
  }

  lemma {:induction false} CamelOfSnake(t: string)
    requires UnderscoreFree(t)
    ensures Camel(Snake(t)) == t
    ensures !EndsInUnderscore(Snake(t))
  {
    if t != "" {
      var init, c := t[..|t| - 1], t[|t| - 1];
      assert t == init + [c];
      CamelOfSnake(init);
      var u := Snake(init);
      assert Snake(t) == u + SnakeChar(c);
      CamelUndoesSnakeChar(u, c);
      assert Camel(u) == init;
    }
  }

  lemma SnakeAppend(s: string, c: char)
    ensures Snake(s + [c]) == Snake(s) + SnakeChar(c)
  {
    assert (s + [c])[..|s|] == s;
  }

  /** Snake-casing leaves a name without upper-case letters as it is. */
  lemma {:induction false} SnakeOfLower(s: string)
    requires forall i :: 0 <= i < |s| ==> !IsUpper(s[i])
    ensures Snake(s) == s
  {
    if s != "" {
      SnakeOfLower(s[..|s| - 1]);
    }
  }

  /** Snake(s) is always well spaced: an underscore it introduces is followed by a lower-case letter. */
  lemma {:induction false} SnakeShape(s: string)
    requires UnderscoreFree(s)
    ensures IsSnakeName(Snake(s))
  {
    if s != "" {
      SnakeShape(s[..|s| - 1]);
    }
  }

  /** Text with a trailing underscore dropped: the part of a prefix that camel-casing has fully consumed. */
  function Settled(s: string): string {
    if EndsInUnderscore(s) then s[..|s| - 1] else s
  }

  /** Every underscore except a final one is followed by a lower-case letter. */
  predicate IsSnakePrefix(s: string) {
    && (forall i :: 0 <= i < |s| ==> !IsUpper(s[i]))
    && (forall i, j :: 0 <= i && j == i + 1 < |s| && s[i] == '_' ==> IsLower(s[j]))
  }

  /** Snake-casing undoes the camel-casing of one more character. */
  lemma SnakeUndoesCamelChar(s: string, after: bool, c: char)
    requires c != '_' && !IsUpper(c) && (after ==> IsLower(c))
    ensures Snake(s + CamelChar(after, c)) == Snake(s) + (if after then ['_', c] else [c])
  {
    SnakeAppend(s, if after then ToUpper(c) else c);
  }

  lemma {:induction false} SnakeOfCamelPrefix(s: string)
    requires IsSnakePrefix(s)
    ensures Snake(Camel(s)) == Settled(s)
  {
    if s != "" {
      var init, c := s[..|s| - 1], s[|s| - 1];
      assert s == init + [c];
      SnakeOfCamelPrefix(init);
      var u := Camel(init);
      assert Camel(s) == u + CamelChar(EndsInUnderscore(init), c);
      SnakeOfCamelStep(init, c, u);
    }
  }

  lemma SnakeOfCamelStep(init: string, c: char, u: string)
    requires IsSnakePrefix(init + [c]) && Snake(u) == Settled(init)
    ensures Snake(u + CamelChar(EndsInUnderscore(init), c)) == Settled(init + [c])
  {
    var s, after := init + [c], EndsInUnderscore(init);
    assert s[|s| - 1] == c;
    if after {
      assert s[|s| - 2] == '_' && IsLower(c);
    }
    if c == '_' {
      assert u + "" == u;
    } else {
      SnakeUndoesCamelChar(u, after, c);
      assert s == Settled(init) + (if after then ['_', c] else [c]);
    }
  }

  /** Converting to camel case and back returns the name exactly when it is a proper snake-case name. */
  lemma SnakeOfCamel(s: string)
    ensures Snake(Camel(s)) == s <==> IsSnakeName(s)
  {
    if IsSnakeName(s) {
      SnakeOfCamelPrefix(s);
    }
    if Snake(Camel(s)) == s {
      CamelHasNoUnderscore(s);
      SnakeShape(Camel(s));
    }
  }

  // ----- field lookup

  /** fields.ByName: the index of the field with this declared name. */
  function ByName(names: seq<string>, name: string): (r: int)
    ensures r >= 0 ==> r < |names| && names[r] == name
    ensures r < 0 ==> name !in names
  {
    if names == [] then -1
    else if names[0] == name then 0
    else var r := ByName(names[1..], name); if r < 0 then -1 else r + 1
  }

  /** The plain linear scan the fast lookup stands for: first field whose camel-case name is the given one. */
  function Scan(names: seq<string>, name: string): (r: int)
    ensures r >= 0 ==> r < |names| && Camel(names[r]) == name && forall j :: 0 <= j < r ==> Camel(names[j]) != name
    ensures r < 0 ==> forall j :: 0 <= j < |names| ==> Camel(names[j]) != name
  {
    if names == [] then -1
    else if Camel(names[0]) == name then 0
    else var r := Scan(names[1..], name); if r < 0 then -1 else r + 1
  }

  /** What the lookup answers: the declared name first, the scan only as a fallback. */
  function Lookup(names: seq<string>, name: string): (r: int)
    ensures r < |names|
  {
    var quick := ByName(names, Snake(name));
    if quick >= 0 then quick else Scan(names, name)
  }

  method FieldWithCamelCaseName(names: seq<string>, name: string) returns (r: int)
    ensures r == Lookup(names, name)
  {
    hide Camel, Snake;
    var expected := SnakeCase(name);
    r := ByName(names, expected);
    if r >= 0 {
      return;
    }
    for i := 0 to |names|
      invariant forall j :: 0 <= j < i ==> Camel(names[j]) != name
    {
      var camel := CamelCase(names[i]);
      if camel == name {
        assert Scan(names, name) == i;
        return i;
      }
    }
    assert Scan(names, name) < 0;
    r := -1;
  }

  predicate UniqueCamelNames(names: seq<string>) {
    forall i, j :: 0 <= i < j < |names| ==> Camel(names[i]) != Camel(names[j])
  }

  /** For underscore-free names the shortcut is invisible: it misses exactly when the scan misses, what it finds
      has the wanted camel-case name, and it is the scan's own answer when camel-case names are unique. A field declared
      under the name's snake form goes first. */
  lemma LookupAgreesWithScan(names: seq<string>, name: string)
    requires UnderscoreFree(name)
    ensures Lookup(names, name) < 0 <==> Scan(names, name) < 0
    ensures Lookup(names, name) >= 0 ==> Camel(names[Lookup(names, name)]) == name
    ensures UniqueCamelNames(names) ==> Lookup(names, name) == Scan(names, name)
    ensures Snake(name) in names ==> names[Lookup(names, name)] == Snake(name)
  {
    CamelOfSnake(name);
  }

  /** A name with an underscore is found only under exactly its own snake form, never by the scan. */
  lemma LookupWithUnderscore(names: seq<string>, name: string)
    requires !UnderscoreFree(name)
    ensures Lookup(names, name) >= 0 <==> Snake(name) in names
    ensures Lookup(names, name) >= 0 ==> names[Lookup(names, name)] == Snake(name)
  {
    var s := Scan(names, name);
    if s >= 0 {
      CamelHasNoUnderscore(names[s]);
    }
  }
}
