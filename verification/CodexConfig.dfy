/** The line edits of Codex's config file (connected_tools.rs). */
module CodexConfig {
  import opened Wrappers
  import opened Text

  const PROVIDER_KEY := "rootmode"
  const HEADER := "[model_providers." + PROVIDER_KEY + "]"
  const MODEL := "model"
  const PROVIDER := "model_provider"
  const NAME := "name"
  const BASE_URL := "base_url"
  const WIRE_API := "wire_api"
  const RESPONSES := "responses"
  const ENV_KEY := "env_key"
  const CODEX_ENV_VAR := "ROOTMODE_GATEWAY_TOKEN"

  // ---------------------------------------------------------------- one line

  predicate IsBlank(line: string) { Trim(line) == "" }

  predicate IsTable(line: string) { TrimStart(line) != "" && TrimStart(line)[0] == '[' }

  predicate IsHeader(line: string) { Trim(line) == HEADER }

  /** The line begins by naming `key` and then a space. */
  predicate Sets(line: string, key: string) { Opens(TrimStart(line), key + " ") }

  function Escaped(value: string): string {
    if value == "" then ""
    else (if value[0] == '\\' then "\\\\" else if value[0] == '"' then "\\\"" else [value[0]]) + Escaped(value[1..])
  }

  function TomlString(value: string): string { "\"" + Escaped(value) + "\"" }

  function Assignment(key: string, value: string): string { key + " = " + TomlString(value) }

  // ---------------------------------------------------------------- the edits

  function FirstTableIndex(lines: seq<string>): (n: nat)
    ensures n <= |lines|
  {
    if lines == [] || IsTable(lines[0]) then 0 else 1 + FirstTableIndex(lines[1..])
  }

  /** Where `key` is first set before any table; the first table's place if it is not. */
  function FirstSetting(lines: seq<string>, key: string): (n: nat)
    ensures n <= FirstTableIndex(lines)
  {
    if lines == [] || IsTable(lines[0]) || Sets(lines[0], key) then 0 else 1 + FirstSetting(lines[1..], key)
  }

  /** The file with the line that sets `key` before any table replaced by `a`, or `a` put there. */
  function WithSetting(lines: seq<string>, key: string, a: string): seq<string> {
    if lines == [] || IsTable(lines[0]) then [a] + lines
    else if Sets(lines[0], key) then [a] + lines[1..]
    else [lines[0]] + WithSetting(lines[1..], key, a)
  }

  function WithoutSetting(lines: seq<string>, key: string): seq<string> {
    if lines == [] || IsTable(lines[0]) then lines
    else if Sets(lines[0], key) then lines[1..]
    else [lines[0]] + WithoutSetting(lines[1..], key)
  }

  /** The line that sets `key`, if any does. */
  function TopLevel(lines: seq<string>, key: string): Option<string> {
    if lines == [] || IsTable(lines[0]) then None
    else if Sets(lines[0], key) then Some(lines[0])
    else TopLevel(lines[1..], key)
  }

  lemma {:induction false} ByPosition(lines: seq<string>, key: string, a: string)
    ensures var limit, i := FirstTableIndex(lines), FirstSetting(lines, key);
            && WithSetting(lines, key, a) == (if i < limit then lines[i := a] else lines[..limit] + [a] + lines[limit..])
            && WithoutSetting(lines, key) == (if i < limit then lines[..i] + lines[i + 1..] else lines)
  {
    if lines == [] || IsTable(lines[0]) || Sets(lines[0], key) {
      PlacedFirst(lines, a);
    } else {
      var x, rest := lines[0], lines[1..];
      assert lines == [x] + rest;
      Unfold(x, rest, key, a);
      ByPosition(rest, key, a);
      PlacedLater(lines, FirstSetting(rest, key), FirstTableIndex(rest), a);
    }
  }

  lemma PlacedFirst(lines: seq<string>, a: string)
    ensures lines[..0] + [a] + lines[0..] == [a] + lines
    ensures lines != [] ==> lines[0 := a] == [a] + lines[1..] && lines[..0] + lines[1..] == lines[1..]
  {
  }

  lemma PlacedLater(lines: seq<string>, i: nat, limit: nat, a: string)
    requires lines != [] && i <= limit < |lines|
    ensures var x, rest := [lines[0]], lines[1..];
            && lines == x + rest
            && lines[..limit + 1] + [a] + lines[limit + 1..] == x + (rest[..limit] + [a] + rest[limit..])
            && (i < limit ==> lines[i + 1 := a] == x + rest[i := a] && lines[..i + 1] + lines[i + 2..] == x + (rest[..i] + rest[i + 1..]))
  {
  }

  function SetTopLevel(lines: seq<string>, key: string, assignment: string): (r: seq<string>)
    ensures r == WithSetting(lines, key, assignment)
  {
    ByPosition(lines, key, assignment);
    var limit, i := FirstTableIndex(lines), FirstSetting(lines, key);
    if i < limit then lines[i := assignment] else lines[..limit] + [assignment] + lines[limit..]
  }

  function RemoveTopLevel(lines: seq<string>, key: string): (r: seq<string>)
    ensures r == WithoutSetting(lines, key)
  {
    ByPosition(lines, key, "");
    var limit, i := FirstTableIndex(lines), FirstSetting(lines, key);
    if i < limit then lines[..i] + lines[i + 1..] else lines
  }

  /** What is left once a table's body is skipped: from the next table on. */
  function FromNextTable(lines: seq<string>): seq<string> {
    if lines == [] || IsTable(lines[0]) then lines else FromNextTable(lines[1..])
  }

  function BeforeOwn(lines: seq<string>): seq<string> {
    if lines == [] || IsHeader(lines[0]) then [] else [lines[0]] + BeforeOwn(lines[1..])
  }

  /** From the first own table on. */
  function FromOwn(lines: seq<string>): seq<string> {
    if lines == [] || IsHeader(lines[0]) then lines else FromOwn(lines[1..])
  }

  predicate HasOwn(lines: seq<string>) { FromOwn(lines) != [] }

  lemma {:induction false} OwnSplit(lines: seq<string>)
    ensures lines == BeforeOwn(lines) + FromOwn(lines)
  {
    if lines != [] && !IsHeader(lines[0]) {
      OwnSplit(lines[1..]);
      SplitLater(lines, BeforeOwn(lines[1..]), FromOwn(lines[1..]));
    } else {
      assert [] + lines == lines;
    }
  }

  lemma SplitLater<T>(l: seq<T>, before: seq<T>, from: seq<T>)
    requires l != [] && l[1..] == before + from
    ensures l == [l[0]] + before + from
  {
  }

  /** The file without its first own table. */
  function WithoutOwn(lines: seq<string>): seq<string> {
    BeforeOwn(lines) + if HasOwn(lines) then FromNextTable(FromOwn(lines)[1..]) else []
  }

  function OwnIndex(lines: seq<string>): (n: nat)
    ensures n == |BeforeOwn(lines)|
  {
    if lines == [] || IsHeader(lines[0]) then 0 else 1 + OwnIndex(lines[1..])
  }

  method RemoveProviderTable(lines: seq<string>) returns (r: seq<string>)
    ensures r == WithoutOwn(lines)
  {
    var start := OwnIndex(lines);
    OwnSplit(lines);
    assert lines[start..] == FromOwn(lines) && lines[..start] == BeforeOwn(lines);
    if start == |lines| {
      return lines;
    }
    var end := start + 1;
    assert lines[end..] == lines[start..][1..];
    while end < |lines| && !IsTable(lines[end])
      invariant start < end <= |lines|
      invariant FromNextTable(lines[end..]) == FromNextTable(FromOwn(lines)[1..])
    {
      assert lines[end..][1..] == lines[end + 1..];
      end := end + 1;
    }
    return lines[..start] + lines[end..];
  }

  function NoTrailingBlanks(lines: seq<string>): (r: seq<string>)
    ensures r <= lines && (r != [] ==> !IsBlank(r[|r| - 1]))
  {
    if lines != [] && IsBlank(lines[|lines| - 1]) then NoTrailingBlanks(lines[..|lines| - 1]) else lines
  }

  function OwnTable(baseUrl: string): seq<string> { [HEADER] + OwnBody(baseUrl) }

  function OwnBody(baseUrl: string): seq<string> { Assignments(OwnEntries(baseUrl)) }

  function OwnEntries(baseUrl: string): seq<(string, string)> {
    [(NAME, PROVIDER_KEY), (BASE_URL, baseUrl + "/v1"), (WIRE_API, RESPONSES), (ENV_KEY, CODEX_ENV_VAR)]
  }

  function Assignments(entries: seq<(string, string)>): (r: seq<string>)
    ensures |r| == |entries|
  {
    if entries == [] then [] else [Assignment(entries[0].0, entries[0].1)] + Assignments(entries[1..])
  }

  /** Everything a connect keeps: the file without the own table, both keys set, no trailing blanks. */
  function Kept(lines: seq<string>, model: string): seq<string> {
    var l1 := WithSetting(WithoutOwn(lines), PROVIDER, Assignment(PROVIDER, PROVIDER_KEY));
    NoTrailingBlanks(WithSetting(l1, MODEL, Assignment(MODEL, model)))
  }

  function Connected(lines: seq<string>, baseUrl: string, model: string): seq<string> {
    Kept(lines, model) + ([""] + OwnTable(baseUrl))
  }

  method ConnectCodex(original: seq<string>, baseUrl: string, model: string) returns (lines: seq<string>)
    ensures lines == Connected(original, baseUrl, model)
  {
    lines := RemoveProviderTable(original);
    lines := SetTopLevel(lines, PROVIDER, Assignment(PROVIDER, PROVIDER_KEY));
    lines := SetTopLevel(lines, MODEL, Assignment(MODEL, model));
    lines := PopBlanks(lines);
    lines := lines + [""];
    lines := PushAll(lines, OwnTable(baseUrl));
  }

  method PopBlanks(lines: seq<string>) returns (r: seq<string>)
    ensures r == NoTrailingBlanks(lines)
  {
    r := lines;
    while r != [] && IsBlank(r[|r| - 1])
      invariant NoTrailingBlanks(r) == NoTrailingBlanks(lines)
    {
      r := r[..|r| - 1];
    }
  }

  method PushAll(lines: seq<string>, more: seq<string>) returns (r: seq<string>)
    ensures r == lines + more
  {
    r := lines;
    for i := 0 to |more|
      invariant r == lines + more[..i]
    {
      r := r + [more[i]];
    }
  }

  function Disconnected(lines: seq<string>): seq<string> { WithoutSetting(WithoutOwn(lines), PROVIDER) }

  method DisconnectCodex(original: seq<string>) returns (lines: seq<string>)
    ensures lines == Disconnected(original)
  {
    lines := RemoveProviderTable(original);
    lines := RemoveTopLevel(lines, PROVIDER);
  }

  // ---------------------------------------------------------------- what the written lines are

  predicate GoodKey(key: string) { key != "" && !IsSpace(key[0]) && key[0] != '[' }

  /** A line that names a key is no table and not blank, and names no other of these keys. */
  lemma AssignmentIsPlain(key: string, value: string)
    requires GoodKey(key)
    ensures TrimStart(Assignment(key, value)) == Assignment(key, value)
    ensures !IsTable(Assignment(key, value)) && !IsBlank(Assignment(key, value)) && !IsHeader(Assignment(key, value))
    ensures Sets(Assignment(key, value), key)
  {
    var line := Assignment(key, value);
    assert line[0] == key[0];
    OpensMeans(line, key + " ");
    assert line[..|key| + 1] == key + " ";
    HeaderIsTable(line);
    assert line[|line| - 1] == '"';
  }

  lemma HeaderIsTable(line: string)
    ensures IsHeader(line) ==> IsTable(line)
  {
    assert HEADER[0] == '[';
  }

  /** No line sets both keys. */
  lemma OneKeyALine(line: string)
    ensures !(Sets(line, MODEL) && Sets(line, PROVIDER))
  {
    var s := TrimStart(line);
    OpensMeans(s, MODEL + " ");
    OpensMeans(s, PROVIDER + " ");
    assert (MODEL + " ")[5] == ' ' && (PROVIDER + " ")[5] == '_';
    if |s| >= 15 {
      assert s[..6][5] == s[5] == s[..15][5];
    }
  }

  /** A blank line is no table and sets nothing. */
  lemma BlankIsIdle(line: string, key: string)
    requires IsBlank(line)
    ensures !IsTable(line) && !Sets(line, key) && !IsHeader(line)
  {
    TrimStartStops(line);
    TrimEndKeeps(TrimStart(line));
    HeaderIsTable(line);
    assert (key + " ") != "";
  }

  lemma TrimStartStops(s: string)
    ensures TrimStart(s) != "" ==> !IsSpace(TrimStart(s)[0])
  {
  }

  lemma TrimEndKeeps(s: string)
    ensures s != "" && !IsSpace(s[0]) ==> TrimEnd(s) != ""
  {
  }

  // ---------------------------------------------------------------- setting and removing

  lemma Unfold(x: string, rest: seq<string>, key: string, a: string)
    ensures WithSetting([x] + rest, key, a) ==
              if IsTable(x) then [a, x] + rest else if Sets(x, key) then [a] + rest else [x] + WithSetting(rest, key, a)
    ensures WithoutSetting([x] + rest, key) ==
              if IsTable(x) then [x] + rest else if Sets(x, key) then rest else [x] + WithoutSetting(rest, key)
    ensures TopLevel([x] + rest, key) ==
              if IsTable(x) then None else if Sets(x, key) then Some(x) else TopLevel(rest, key)
  {
    var l := [x] + rest;
    assert l[1..] == rest;
  }

  /** Two keys no line sets both of. */
  ghost predicate Apart(key: string, other: string) {
    forall line: string :: !(Sets(line, key) && Sets(line, other))
  }

  predicate PlainFor(a: string, key: string) { Sets(a, key) && !IsTable(a) }

  lemma {:induction false} SetThenTop(l: seq<string>, key: string, a: string)
    requires PlainFor(a, key)
    ensures TopLevel(WithSetting(l, key, a), key) == Some(a)
    ensures WithoutSetting(WithSetting(l, key, a), key) == WithoutSetting(l, key)
  {
    if l == [] {
      Unfold(a, [], key, a);
      assert [a] + [] == [a] == WithSetting(l, key, a);
    } else {
      var x, rest := l[0], l[1..];
      assert l == [x] + rest;
      SetThenTop(rest, key, a);
      Unfold(x, rest, key, a);
      Unfold(x, WithSetting(rest, key, a), key, a);
      Unfold(a, [x] + rest, key, a);
      Unfold(a, rest, key, a);
      assert [a, x] + rest == [a] + ([x] + rest);
    }
  }

  lemma {:induction false} SetAgain(l: seq<string>, key: string, a: string)
    requires TopLevel(l, key) == Some(a)
    ensures WithSetting(l, key, a) == l
  {
    if !Sets(l[0], key) {
      SetAgain(l[1..], key, a);
    }
    assert l == [l[0]] + l[1..];
  }

  /** Setting or removing one key leaves what sets the other. */
  lemma {:induction false} OtherKeyStays(l: seq<string>, key: string, a: string, other: string)
    requires PlainFor(a, key) && Apart(key, other)
    ensures TopLevel(WithSetting(l, key, a), other) == TopLevel(l, other)
    ensures TopLevel(WithoutSetting(l, key), other) == TopLevel(l, other)
  {
    if l == [] {
      Unfold(a, [], other, a);
      assert [a] + [] == [a] == WithSetting(l, key, a);
    } else {
      var x, rest := l[0], l[1..];
      assert l == [x] + rest;
      OtherKeyStays(rest, key, a, other);
      Unfold(x, rest, key, a);
      Unfold(x, rest, other, a);
      Unfold(x, WithSetting(rest, key, a), other, a);
      Unfold(x, WithoutSetting(rest, key), other, a);
      Unfold(a, [x] + rest, other, a);
      Unfold(a, rest, other, a);
      assert [a, x] + rest == [a] + ([x] + rest);
    }
  }

  lemma {:induction false} RemovesCommute(l: seq<string>, key: string, other: string)
    requires Apart(key, other)
    ensures WithoutSetting(WithoutSetting(l, key), other) == WithoutSetting(WithoutSetting(l, other), key)
  {
    if l != [] {
      var x, rest := l[0], l[1..];
      assert l == [x] + rest;
      RemovesCommute(rest, key, other);
      Unfold(x, rest, key, x);
      Unfold(x, rest, other, x);
      Unfold(x, WithoutSetting(rest, key), other, x);
      Unfold(x, WithoutSetting(rest, other), key, x);
    }
  }

  /** A blank line at the end changes nothing above it. */
  lemma {:induction false} BlankAtEnd(l: seq<string>, blank: string, key: string)
    requires IsBlank(blank)
    ensures TopLevel(l + [blank], key) == TopLevel(l, key)
    ensures WithoutSetting(l + [blank], key) == WithoutSetting(l, key) + [blank]
  {
    BlankIsIdle(blank, key);
    if l == [] {
      assert l + [blank] == [blank] + [];
      Unfold(blank, [], key, blank);
    } else {
      var x, rest := l[0], l[1..];
      assert l == [x] + rest && l + [blank] == [x] + (rest + [blank]);
      BlankAtEnd(rest, blank, key);
      Unfold(x, rest, key, blank);
      Unfold(x, rest + [blank], key, blank);
    }
  }

  lemma {:induction false} TopLevelOfPrefix(a: seq<string>, b: seq<string>, key: string)
    requires TopLevel(a, key).Some?
    ensures TopLevel(a + b, key) == TopLevel(a, key)
  {
    var x, rest := a[0], a[1..];
    assert a == [x] + rest && a + b == [x] + (rest + b);
    Unfold(x, rest, key, x);
    Unfold(x, rest + b, key, x);
    if !Sets(x, key) {
      TopLevelOfPrefix(rest, b, key);
    }
  }

  // ---------------------------------------------------------------- connecting twice

  lemma {:induction false} SkipOver(a: seq<string>, b: seq<string>)
    ensures FromNextTable(a + b) == if FromNextTable(a) == [] then FromNextTable(b) else FromNextTable(a) + b
  {
    if a == [] {
      assert a + b == b;
    } else if !IsTable(a[0]) {
      assert (a + b)[1..] == a[1..] + b;
      SkipOver(a[1..], b);
    }
  }

  lemma Prepend<T>(a: seq<T>, b: seq<T>)
    requires a != []
    ensures (a + b)[0] == a[0] && (a + b)[1..] == a[1..] + b && a == [a[0]] + a[1..]
    ensures forall x: seq<T> :: [a[0]] + (a[1..] + x) == a + x
  {
  }

  /** The first own table of lines put one after another. */
  lemma {:induction false} OwnOver(a: seq<string>, b: seq<string>)
    ensures BeforeOwn(a + b) == if HasOwn(a) then BeforeOwn(a) else a + BeforeOwn(b)
    ensures FromOwn(a + b) == if HasOwn(a) then FromOwn(a) + b else FromOwn(b)
  {
    if a == [] {
      assert a + b == b;
    } else {
      Prepend(a, b);
      OwnOver(a[1..], b);
    }
  }

  /** Removing an own table leaves a key that was set. */
  lemma OwnTableSetsNothing(l: seq<string>, key: string)
    requires TopLevel(l, key).Some?
    ensures TopLevel(WithoutOwn(l), key) == TopLevel(l, key)
  {
    SetBeforeOwn(l, key);
    TopLevelOfPrefix(BeforeOwn(l), if HasOwn(l) then FromNextTable(FromOwn(l)[1..]) else [], key);
  }

  lemma {:induction false} SetBeforeOwn(l: seq<string>, key: string)
    requires TopLevel(l, key).Some?
    ensures TopLevel(BeforeOwn(l), key) == TopLevel(l, key)
  {
    HeaderIsTable(l[0]);
    Unfold(l[0], BeforeOwn(l[1..]), key, "");
    if !Sets(l[0], key) {
      SetBeforeOwn(l[1..], key);
    }
  }

  /** A written table: its header, then lines that are no tables, the last not blank. */
  predicate GoodTable(table: seq<string>) {
    && |table| > 1 && IsHeader(table[0]) && FromNextTable(table[1..]) == [] && !IsBlank(table[|table| - 1])
  }

  /** Copies of the table, one blank line apart. */
  predicate Copies(x: seq<string>, table: seq<string>) {
    || x == table
    || (|x| > |table| + 1 && x[|x| - |table| - 1..] == [""] + table && Copies(x[..|x| - |table| - 1], table))
  }

  lemma NextTableOf(table: seq<string>)
    requires GoodTable(table)
    ensures FromNextTable([""] + table) == table && BeforeOwn([""] + table) == [""] && FromOwn([""] + table) == table
  {
    HeaderIsTable(table[0]);
    EmptyLineIsBlank();
    BlankIsIdle("", MODEL);
    assert ([""] + table)[1..] == table;
  }

  lemma EmptyLineIsBlank()
    ensures IsBlank("")
  {
  }

  /** Taking out the first own table and writing it again gives the same lines only for copies of it. */
  lemma {:induction false} OnlyCopiesStay(x: seq<string>, table: seq<string>)
    requires GoodTable(table) && x != []
    ensures FromNextTable(x[1..] + ([""] + table)) == x <==> Copies(x, table)
    decreases |x|
  {
    var b := [""] + table;
    SkipOver(x[1..], b);
    NextTableOf(table);
    var n := |x| - |b|;
    if n > 0 && x[n..] == b {
      var y := x[..n];
      TailedHasTable(x, y, table);
      OnlyCopiesStay(y, table);
      SameHead(FromNextTable(x[1..]), y, b);
    } else if FromNextTable(x[1..]) != [] {
      HeadAndTail(FromNextTable(x[1..]), b);
    }
  }

  lemma TailedHasTable(x: seq<string>, y: seq<string>, table: seq<string>)
    requires GoodTable(table) && y != [] && |x| == |y| + |table| + 1
    requires x[..|y|] == y && x[|y|..] == [""] + table
    ensures x == y + ([""] + table) && FromNextTable(x[1..]) == FromNextTable(y[1..] + ([""] + table)) != []
    ensures x != table
  {
    var b := [""] + table;
    NextTableOf(table);
    assert x == y + b;
    Prepend(y, b);
    SkipOver(y[1..], b);
  }

  lemma HeadAndTail(z: seq<string>, b: seq<string>)
    ensures (z + b)[|z|..] == b
  {
  }

  lemma SameHead(a: seq<string>, b: seq<string>, x: seq<string>)
    ensures a + x == b + x <==> a == b
  {
    assert (a + x)[..|a|] == a && (b + x)[..|b|] == b;
  }

  /** A second connect of lines that already end in the table. */
  lemma SecondRemoval(k: seq<string>, table: seq<string>)
    requires GoodTable(table)
    ensures var out := k + ([""] + table);
            WithoutOwn(out) == if HasOwn(k) then BeforeOwn(k) + FromNextTable(FromOwn(k)[1..] + ([""] + table)) else k + [""]
  {
    NextTableOf(table);
    RemovalOver(k, [""] + table);
    if !HasOwn(k) {
      TableEnds(table);
      Joined(k + [""], [], []);
    }
  }

  lemma TableEnds(table: seq<string>)
    requires GoodTable(table)
    ensures table != [] && FromNextTable(table[1..]) == []
  {
  }

  /** Where the first own table is, in lines put one after another. */
  lemma RemovalOver(a: seq<string>, b: seq<string>)
    ensures HasOwn(a) ==> WithoutOwn(a + b) == BeforeOwn(a) + FromNextTable(FromOwn(a)[1..] + b)
    ensures !HasOwn(a) && HasOwn(b) ==> WithoutOwn(a + b) == a + BeforeOwn(b) + FromNextTable(FromOwn(b)[1..])
  {
    OwnOver(a, b);
    if HasOwn(a) { Prepend(FromOwn(a), b); }
  }

  /** Settled lines: both keys set as a connect sets them, no trailing blanks. */
  predicate Settled(k: seq<string>, provider: string, model: string) {
    && TopLevel(k, PROVIDER) == Some(provider) && TopLevel(k, MODEL) == Some(model)
    && k != [] && !IsBlank(k[|k| - 1])
  }

  function Rework(lines: seq<string>, provider: string, model: string): seq<string> {
    NoTrailingBlanks(WithSetting(WithSetting(WithoutOwn(lines), PROVIDER, provider), MODEL, model))
  }

  /** Reworking settled lines with the table after them gives them back exactly when no own table is
      among them, or everything from the first one on is copies of the table. */
  lemma ReworkTwice(k: seq<string>, table: seq<string>, provider: string, model: string)
    requires GoodTable(table) && Settled(k, provider, model)
    ensures Rework(k + ([""] + table), provider, model) == k <==> !HasOwn(k) || Copies(FromOwn(k), table)
  {
    var b := [""] + table;
    var out := k + b;
    SecondRemoval(k, table);
    SettingsStay(out, k, b, provider, model);
    var r := WithoutOwn(out);
    if HasOwn(k) {
      var own := FromOwn(k);
      OnlyCopiesStay(own, table);
      OwnSplit(k);
      SkipOver(own[1..], b);
      NextTableOf(table);
      EndsWithTable(BeforeOwn(k), FromNextTable(own[1..]), table, FromNextTable(own[1..] + b));
      SameTail(BeforeOwn(k), FromNextTable(own[1..] + b), own);
    } else {
      EmptyLineIsBlank();
      assert (k + [""])[..|k|] == k;
    }
  }

  lemma SameTail(a: seq<string>, x: seq<string>, y: seq<string>)
    ensures a + x == a + y <==> x == y
  {
    assert (a + x)[|a|..] == x && (a + y)[|a|..] == y;
  }

  lemma EndsWithTable(a: seq<string>, z: seq<string>, table: seq<string>, x: seq<string>)
    requires GoodTable(table) && (x == table || x == z + ([""] + table))
    ensures NoTrailingBlanks(a + x) == a + x
  {
    assert (a + x)[|a + x| - 1] == table[|table| - 1];
  }

  lemma SettingsStay(out: seq<string>, k: seq<string>, b: seq<string>, provider: string, model: string)
    requires Settled(k, provider, model) && out == k + b
    ensures Rework(out, provider, model) == NoTrailingBlanks(WithoutOwn(out))
  {
    TopLevelOfPrefix(k, b, PROVIDER);
    TopLevelOfPrefix(k, b, MODEL);
    OwnTableSetsNothing(out, PROVIDER);
    OwnTableSetsNothing(out, MODEL);
    SetAgain(WithoutOwn(out), PROVIDER, provider);
    SetAgain(WithoutOwn(out), MODEL, model);
  }

  // ---------------------------------------------------------------- the whole edit

  lemma {:induction false} NoTables(l: seq<string>)
    requires forall x | x in l :: !IsTable(x)
    ensures FromNextTable(l) == []
  {
    if l != [] {
      NoTables(l[1..]);
    }
  }

  predicate IsPlain(line: string) { !IsTable(line) && !IsBlank(line) }

  lemma PlainAssignment(key: string, value: string)
    requires GoodKey(key)
    ensures IsPlain(Assignment(key, value))
  {
    AssignmentIsPlain(key, value);
  }

  lemma {:induction false} AssignmentsArePlain(entries: seq<(string, string)>)
    requires forall e | e in entries :: GoodKey(e.0)
    ensures forall line | line in Assignments(entries) :: IsPlain(line)
  {
    if entries != [] {
      PlainAssignment(entries[0].0, entries[0].1);
      AssignmentsArePlain(entries[1..]);
    }
  }

  lemma OwnKeysAreGood(baseUrl: string)
    ensures forall e | e in OwnEntries(baseUrl) :: GoodKey(e.0)
  {
  }

  lemma OwnTableIsGood(baseUrl: string)
    ensures GoodTable(OwnTable(baseUrl)) && forall line | line in OwnTable(baseUrl) :: !IsBlank(line)
  {
    OwnKeysAreGood(baseUrl);
    HeaderIsItself();
    HeaderIsTable(HEADER);
    BlankIsIdleNot(HEADER);
    TableOf(HEADER, OwnEntries(baseUrl));
  }

  lemma TableOf(header: string, entries: seq<(string, string)>)
    requires IsHeader(header) && !IsBlank(header) && entries != [] && forall e | e in entries :: GoodKey(e.0)
    ensures var table := [header] + Assignments(entries); GoodTable(table) && forall line | line in table :: !IsBlank(line)
  {
    var body := Assignments(entries);
    AssignmentsArePlain(entries);
    NoTables(body);
    assert body[|body| - 1] in body;
    assert ([header] + body)[1..] == body;
  }

  lemma HeaderIsItself()
    ensures IsHeader(HEADER) && '\n' !in HEADER && HEADER[|HEADER| - 1] == ']'
  {
    assert HEADER[0] == '[' && HEADER[|HEADER| - 1] == ']';
    assert TrimStart(HEADER) == HEADER && TrimEnd(HEADER) == HEADER;
  }

  lemma {:induction false} TrimmingKeepsTop(l: seq<string>, key: string)
    ensures TopLevel(NoTrailingBlanks(l), key) == TopLevel(l, key)
  {
    if l != [] && IsBlank(l[|l| - 1]) {
      var n := |l| - 1;
      assert l == l[..n] + [l[n]];
      TrimmingKeepsTop(l[..n], key);
      BlankAtEnd(l[..n], l[n], key);
    }
  }

  lemma KeysAreApart()
    ensures Apart(MODEL, PROVIDER) && Apart(PROVIDER, MODEL)
  {
    forall line: string ensures !(Sets(line, MODEL) && Sets(line, PROVIDER)) {
      OneKeyALine(line);
    }
  }

  lemma KeptIsSettled(lines: seq<string>, model: string)
    ensures Settled(Kept(lines, model), Assignment(PROVIDER, PROVIDER_KEY), Assignment(MODEL, model))
  {
    var pl, ml, rest := Assignment(PROVIDER, PROVIDER_KEY), Assignment(MODEL, model), WithoutOwn(lines);
    AssignmentIsPlain(PROVIDER, PROVIDER_KEY);
    AssignmentIsPlain(MODEL, model);
    KeysAreApart();
    var l1 := WithSetting(rest, PROVIDER, pl);
    SetThenTop(rest, PROVIDER, pl);
    SetThenTop(l1, MODEL, ml);
    OtherKeyStays(l1, MODEL, ml, PROVIDER);
    TrimmingKeepsTop(WithSetting(l1, MODEL, ml), PROVIDER);
    TrimmingKeepsTop(WithSetting(l1, MODEL, ml), MODEL);
  }

  /** A connect is idempotent exactly when no second own table is among the lines it keeps, or
      everything from that table on is copies of the table it writes. */
  lemma ConnectTwice(lines: seq<string>, baseUrl: string, model: string)
    ensures var once := Connected(lines, baseUrl, model); var kept := Kept(lines, model);
            Connected(once, baseUrl, model) == once <==> !HasOwn(kept) || Copies(FromOwn(kept), OwnTable(baseUrl))
  {
    var table, kept := OwnTable(baseUrl), Kept(lines, model);
    OwnTableIsGood(baseUrl);
    KeptIsSettled(lines, model);
    ReworkTwice(kept, table, Assignment(PROVIDER, PROVIDER_KEY), Assignment(MODEL, model));
    SameHead(Kept(kept + ([""] + table), model), kept, [""] + table);
  }

  lemma {:induction false} SettingAddsNoTable(l: seq<string>, key: string, a: string)
    requires !IsHeader(a)
    ensures HasOwn(WithSetting(l, key, a)) == HasOwn(l)
  {
    if l != [] {
      HeaderIsTable(l[0]);
      SettingAddsNoTable(l[1..], key, a);
      assert forall x: string, y: seq<string> :: ([x] + y)[1..] == y;
    } else {
      assert ([a] + l)[1..] == [];
    }
  }

  lemma {:induction false} TrimmingKeepsOwn(l: seq<string>)
    ensures HasOwn(NoTrailingBlanks(l)) == HasOwn(l)
  {
    if l != [] && IsBlank(l[|l| - 1]) {
      var n := |l| - 1;
      assert l == l[..n] + [l[n]];
      BlankIsIdle(l[n], MODEL);
      OwnOver(l[..n], [l[n]]);
      TrimmingKeepsOwn(l[..n]);
    }
  }

  /** So one own table, or none, is enough. */
  lemma ConnectTwiceWithOneTable(lines: seq<string>, baseUrl: string, model: string)
    requires !HasOwn(WithoutOwn(lines))
    ensures !HasOwn(Kept(lines, model))
    ensures Connected(Connected(lines, baseUrl, model), baseUrl, model) == Connected(lines, baseUrl, model)
  {
    KeptHasOwn(lines, model);
    ConnectTwice(lines, baseUrl, model);
  }

  /** With two, it need not be: the second run takes out the other one. */
  lemma TwoTablesAreNotEnough(baseUrl: string, model: string)
    ensures var once := Connected([HEADER, HEADER], baseUrl, model); Connected(once, baseUrl, model) != once
  {
    var pl, ml := Assignment(PROVIDER, PROVIDER_KEY), Assignment(MODEL, model);
    AssignmentIsPlain(PROVIDER, PROVIDER_KEY);
    AssignmentIsPlain(MODEL, model);
    HeaderIsItself();
    OneKeyALine(pl);
    TwoHeaders(HEADER, pl, ml);
    ConnectTwice([HEADER, HEADER], baseUrl, model);
  }

  lemma TwoHeaders(h: string, pl: string, ml: string)
    requires IsHeader(h) && PlainFor(pl, PROVIDER) && !Sets(pl, MODEL) && !IsHeader(pl) && !IsHeader(ml)
    ensures HasOwn(Rework([h, h], pl, ml)) && FromOwn(Rework([h, h], pl, ml)) == [h]
  {
    HeaderIsTable(h);
    BlankIsIdleNot(h);
    assert [h, h][1..] == [h] && [] + [h] == [h];
    assert WithoutOwn([h, h]) == [h];
    assert WithSetting([h], PROVIDER, pl) == [pl] + [h];
    Unfold(pl, [h], MODEL, ml);
    assert WithSetting([h], MODEL, ml) == [ml] + [h];
    LastStays([pl] + [ml], h);
    assert [pl] + ([ml] + [h]) == ([pl] + [ml]) + [h];
    FromOwnStep(pl, [ml] + [h]);
    FromOwnStep(ml, [h]);
  }

  lemma LastStays(l: seq<string>, x: string)
    requires !IsBlank(x)
    ensures NoTrailingBlanks(l + [x]) == l + [x]
  {
  }

  lemma FromOwnStep(x: string, rest: seq<string>)
    requires !IsHeader(x)
    ensures FromOwn([x] + rest) == FromOwn(rest)
  {
    assert ([x] + rest)[1..] == rest;
  }

  lemma BlankIsIdleNot(line: string)
    requires IsTable(line)
    ensures !IsBlank(line)
  {
    if IsBlank(line) {
      BlankIsIdle(line, MODEL);
    }
  }

  // ---------------------------------------------------------------- what is preserved

  function NonBlank(lines: seq<string>): seq<string> {
    if lines == [] then []
    else NonBlank(lines[..|lines| - 1]) + if IsBlank(lines[|lines| - 1]) then [] else [lines[|lines| - 1]]
  }

  /** The lines that belong to the user: not blank, and not the ones that set the two keys. */
  function Foreign(lines: seq<string>): seq<string> {
    NonBlank(WithoutSetting(WithoutSetting(lines, PROVIDER), MODEL))
  }

  lemma {:induction false} TrimmingKeepsForeign(l: seq<string>)
    ensures Foreign(NoTrailingBlanks(l)) == Foreign(l)
  {
    if l != [] && IsBlank(l[|l| - 1]) {
      var n := |l| - 1;
      assert l == l[..n] + [l[n]];
      TrimmingKeepsForeign(l[..n]);
      BlankEndIsNotForeign(l[..n], l[n]);
    }
  }

  lemma BlankEndIsNotForeign(l: seq<string>, blank: string)
    requires IsBlank(blank)
    ensures Foreign(l + [blank]) == Foreign(l)
  {
    BlankAtEnd(l, blank, PROVIDER);
    BlankAtEnd(WithoutSetting(l, PROVIDER), blank, MODEL);
    var rest := WithoutSetting(WithoutSetting(l, PROVIDER), MODEL);
    assert (rest + [blank])[..|rest|] == rest;
  }

  /** Outside its own table and the two keys, a connect keeps every non-blank line, in order, and it
      takes out one table at most: what it keeps and writes is all there is. */
  lemma ConnectKeepsForeignLines(lines: seq<string>, model: string)
    ensures Foreign(Kept(lines, model)) == Foreign(WithoutOwn(lines))
    ensures TopLevel(Kept(lines, model), PROVIDER) == Some(Assignment(PROVIDER, PROVIDER_KEY))
    ensures TopLevel(Kept(lines, model), MODEL) == Some(Assignment(MODEL, model))
  {
    var pl, ml, rest := Assignment(PROVIDER, PROVIDER_KEY), Assignment(MODEL, model), WithoutOwn(lines);
    KeptIsSettled(lines, model);
    TrimmingKeepsForeign(WithSetting(WithSetting(rest, PROVIDER, pl), MODEL, ml));
    SettingKeepsForeign(rest, model);
  }

  /** A disconnect after a connect leaves the model key that was set, and of the rest: what the connect
      kept, when the file had one own table at most; else the second own table goes, for the first was
      already gone, and the one the connect wrote stays. */
  lemma DisconnectAfterConnect(lines: seq<string>, baseUrl: string, model: string)
    ensures var after, rest := Disconnected(Connected(lines, baseUrl, model)), WithoutOwn(lines);
            && TopLevel(after, MODEL) == Some(Assignment(MODEL, model))
            && NonBlank(WithoutSetting(after, MODEL)) == Foreign(WithoutOwn(rest)) + if HasOwn(rest) then OwnTable(baseUrl) else []
  {
    var k, table := Kept(lines, model), OwnTable(baseUrl);
    OwnTableIsGood(baseUrl);
    KeptIsSettled(lines, model);
    KeptHasOwn(lines, model);
    var tail := LeftAfterRemoval(k, table);
    OwnTableSetsNothing(k, PROVIDER);
    OwnTableSetsNothing(k, MODEL);
    ProviderLineIsPlain();
    RemoveFromSettled(WithoutOwn(k), tail, Assignment(PROVIDER, PROVIDER_KEY));
  }

  /** What a second removal leaves: the kept lines without their own table, then the written one if they
      had any, and a blank line perhaps. */
  lemma LeftAfterRemoval(k: seq<string>, table: seq<string>) returns (tail: seq<string>)
    requires GoodTable(table) && forall line | line in table :: !IsBlank(line)
    ensures WithoutOwn(k + ([""] + table)) == WithoutOwn(k) + tail && NonBlank(tail) == if HasOwn(k) then table else []
  {
    SecondRemoval(k, table);
    NextTableOf(table);
    EmptyLineIsBlank();
    NothingBlank(table);
    NonBlankOver([""], table);
    assert NonBlank([""]) == [];
    if HasOwn(k) {
      var next := FromNextTable(FromOwn(k)[1..]);
      SkipOver(FromOwn(k)[1..], [""] + table);
      tail := if next == [] then table else [""] + table;
      Joined(BeforeOwn(k), next, tail);
    } else {
      OwnSplit(k);
      tail := [""];
      Joined(k, [], [""]);
    }
  }

  lemma Joined<T>(a: seq<T>, b: seq<T>, c: seq<T>)
    ensures a + (b + c) == a + b + c && a + [] == a && [] + c == c
  {
  }

  lemma {:induction false} NothingBlank(l: seq<string>)
    requires forall line | line in l :: !IsBlank(line)
    ensures NonBlank(l) == l
  {
    if l != [] {
      NothingBlank(l[..|l| - 1]);
      assert l == l[..|l| - 1] + [l[|l| - 1]];
    }
  }

  lemma {:induction false} NonBlankOver(a: seq<string>, b: seq<string>)
    ensures NonBlank(a + b) == NonBlank(a) + NonBlank(b)
  {
    if b == [] {
      Joined(a, [], []);
      Joined(NonBlank(a), [], []);
    } else {
      var init, last := b[..|b| - 1], b[|b| - 1];
      NonBlankOver(a, init);
      Initial(a, b);
      Joined(NonBlank(a), NonBlank(init), if IsBlank(last) then [] else [last]);
    }
  }

  lemma Initial<T>(a: seq<T>, b: seq<T>)
    requires b != []
    ensures a + b != [] && (a + b)[..|a + b| - 1] == a + b[..|b| - 1] && (a + b)[|a + b| - 1] == b[|b| - 1]
  {
  }

  lemma ProviderLineIsPlain()
    ensures PlainFor(Assignment(PROVIDER, PROVIDER_KEY), PROVIDER)
  {
    AssignmentIsPlain(PROVIDER, PROVIDER_KEY);
  }

  /** Removing both keys from lines that set them touches nothing after them. */
  lemma RemoveFromSettled(l: seq<string>, tail: seq<string>, pl: string)
    requires PlainFor(pl, PROVIDER) && TopLevel(l, PROVIDER).Some? && TopLevel(l, MODEL).Some?
    ensures var after := WithoutSetting(l + tail, PROVIDER);
            NonBlank(WithoutSetting(after, MODEL)) == Foreign(l) + NonBlank(tail) && TopLevel(after, MODEL) == TopLevel(l, MODEL)
  {
    KeysAreApart();
    OtherKeyStays(l, PROVIDER, pl, MODEL);
    RemovedFromPrefix(l, tail, PROVIDER);
    RemovedFromPrefix(WithoutSetting(l, PROVIDER), tail, MODEL);
    NonBlankOver(WithoutSetting(WithoutSetting(l, PROVIDER), MODEL), tail);
    TopLevelOfPrefix(WithoutSetting(l, PROVIDER), tail, MODEL);
  }

  lemma {:induction false} RemovedFromPrefix(a: seq<string>, b: seq<string>, key: string)
    requires TopLevel(a, key).Some?
    ensures WithoutSetting(a + b, key) == WithoutSetting(a, key) + b
  {
    var x, rest := a[0], a[1..];
    Prepend(a, b);
    Joined([x], rest, b);
    Unfold(x, rest, key, x);
    Unfold(x, rest + b, key, x);
    if !Sets(x, key) {
      RemovedFromPrefix(rest, b, key);
      Joined([x], WithoutSetting(rest, key), b);
    }
  }

  lemma OwnStep(x: string, rest: seq<string>)
    ensures WithoutOwn([x] + rest) == if IsHeader(x) then FromNextTable(rest) else [x] + WithoutOwn(rest)
  {
    var l := [x] + rest;
    assert l[1..] == rest;
    if IsHeader(x) {
      assert BeforeOwn(l) == [] && FromOwn(l) == l;
    } else {
      assert BeforeOwn(l) == [x] + BeforeOwn(rest) && FromOwn(l) == FromOwn(rest);
      Joined([x], BeforeOwn(rest), if HasOwn(rest) then FromNextTable(FromOwn(rest)[1..]) else []);
    }
  }

  /** Setting a key and taking the own table out can be done in either order. */
  lemma {:induction false} SettingLeavesOwn(l: seq<string>, key: string, a: string)
    requires !IsTable(a)
    ensures WithoutOwn(WithSetting(l, key, a)) == WithSetting(WithoutOwn(l), key, a)
  {
    HeaderIsTable(a);
    if l == [] || IsTable(l[0]) {
      OwnStep(a, l);
      TablesStayFirst(l);
    } else {
      assert l == [l[0]] + l[1..];
      SettingLeavesOwn(l[1..], key, a);
      SettingLeavesOwnStep(l[0], l[1..], key, a);
    }
  }

  lemma SettingLeavesOwnStep(x: string, rest: seq<string>, key: string, a: string)
    requires !IsTable(x) && !IsHeader(a) && WithoutOwn(WithSetting(rest, key, a)) == WithSetting(WithoutOwn(rest), key, a)
    ensures WithoutOwn(WithSetting([x] + rest, key, a)) == WithSetting(WithoutOwn([x] + rest), key, a)
  {
    HeaderIsTable(x);
    Unfold(x, rest, key, a);
    Unfold(x, WithoutOwn(rest), key, a);
    OwnStep(x, rest);
    OwnStep(a, rest);
    OwnStep(x, WithSetting(rest, key, a));
  }

  lemma TablesStayFirst(l: seq<string>)
    requires l == [] || IsTable(l[0])
    ensures WithoutOwn(l) == [] || IsTable(WithoutOwn(l)[0])
  {
    if l != [] {
      assert l == [l[0]] + l[1..];
      OwnStep(l[0], l[1..]);
      NextIsTable(l[1..]);
    }
  }

  lemma {:induction false} NextIsTable(l: seq<string>)
    ensures FromNextTable(l) != [] ==> IsTable(FromNextTable(l)[0])
  {
    if l != [] && !IsTable(l[0]) { NextIsTable(l[1..]); }
  }

  lemma {:induction false} TrimmingLeavesOwn(l: seq<string>)
    ensures Foreign(WithoutOwn(NoTrailingBlanks(l))) == Foreign(WithoutOwn(l))
  {
    if l != [] && IsBlank(l[|l| - 1]) {
      var n := |l| - 1;
      assert l == l[..n] + [l[n]];
      TrimmingLeavesOwn(l[..n]);
      BlankAfterOwn(l[..n], l[n]);
    }
  }

  lemma BlankAfterOwn(l: seq<string>, blank: string)
    requires IsBlank(blank)
    ensures Foreign(WithoutOwn(l + [blank])) == Foreign(WithoutOwn(l))
  {
    BlankIsIdle(blank, MODEL);
    OwnOver(l, [blank]);
    BlankEndIsNotForeign(WithoutOwn(l), blank);
    if HasOwn(l) {
      var own := FromOwn(l)[1..];
      assert (FromOwn(l) + [blank])[1..] == own + [blank];
      SkipOver(own, [blank]);
      Joined(BeforeOwn(l), FromNextTable(own), [blank]);
    } else {
      assert [blank][1..] == [] && BeforeOwn([blank]) == [blank];
      OwnSplit(l);
      Joined(l, [], []);
      Joined(l, [blank], []);
    }
  }

  lemma SettingKeepsForeign(l: seq<string>, model: string)
    ensures Foreign(WithSetting(WithSetting(l, PROVIDER, Assignment(PROVIDER, PROVIDER_KEY)), MODEL, Assignment(MODEL, model))) == Foreign(l)
  {
    var pl, ml := Assignment(PROVIDER, PROVIDER_KEY), Assignment(MODEL, model);
    AssignmentIsPlain(PROVIDER, PROVIDER_KEY);
    AssignmentIsPlain(MODEL, model);
    KeysAreApart();
    var l1 := WithSetting(l, PROVIDER, pl);
    SetThenTop(l, PROVIDER, pl);
    SetThenTop(l1, MODEL, ml);
    RemovesCommute(WithSetting(l1, MODEL, ml), PROVIDER, MODEL);
    RemovesCommute(l1, PROVIDER, MODEL);
  }

  /** The kept lines have an own table exactly when the file had a second one. */
  lemma KeptHasOwn(lines: seq<string>, model: string)
    ensures HasOwn(Kept(lines, model)) == HasOwn(WithoutOwn(lines))
    ensures Foreign(WithoutOwn(Kept(lines, model))) == Foreign(WithoutOwn(WithoutOwn(lines)))
  {
    var pl, ml, rest := Assignment(PROVIDER, PROVIDER_KEY), Assignment(MODEL, model), WithoutOwn(lines);
    AssignmentIsPlain(PROVIDER, PROVIDER_KEY);
    AssignmentIsPlain(MODEL, model);
    var l1 := WithSetting(rest, PROVIDER, pl);
    SettingAddsNoTable(rest, PROVIDER, pl);
    SettingAddsNoTable(l1, MODEL, ml);
    TrimmingKeepsOwn(WithSetting(l1, MODEL, ml));
    SettingLeavesOwn(rest, PROVIDER, pl);
    SettingLeavesOwn(l1, MODEL, ml);
    TrimmingLeavesOwn(WithSetting(l1, MODEL, ml));
    SettingKeepsForeign(WithoutOwn(rest), model);
  }

  // ---------------------------------------------------------------- what is said

  /** The text between the quotes of a basic string of TOML, for the two escapes written here. */
  function Unescaped(s: string): Option<string> {
    if s == "" then Some("")
    else if s[0] == '"' then None
    else if s[0] == '\\' then
      (if |s| < 2 || (s[1] != '\\' && s[1] != '"') || Unescaped(s[2..]).None? then None else Some([s[1]] + Unescaped(s[2..]).value))
    else if Unescaped(s[1..]).None? then None else Some([s[0]] + Unescaped(s[1..]).value)
  }

  function ReadToml(s: string): Option<string> {
    if |s| >= 2 && s[0] == '"' && s[|s| - 1] == '"' then Unescaped(s[1..|s| - 1]) else None
  }

  /** The line gives `key` this text: the key, an equals sign between spaces, a basic string. */
  predicate Gives(line: string, key: string, value: string) {
    key + " = " <= line && ReadToml(line[|key| + 3..]) == Some(value)
  }

  lemma {:induction false} EscapeReadsBack(value: string)
    ensures Unescaped(Escaped(value)) == Some(value)
  {
    if value != "" {
      EscapeReadsBack(value[1..]);
      OneCharReadsBack(value[0], Escaped(value[1..]), value[1..]);
      assert value == [value[0]] + value[1..];
    }
  }

  lemma OneCharReadsBack(c: char, rest: string, value: string)
    requires Unescaped(rest) == Some(value)
    ensures Unescaped((if c == '\\' then "\\\\" else if c == '"' then "\\\"" else [c]) + rest) == Some([c] + value)
  {
    assert ("\\\\" + rest)[2..] == rest && ("\\\"" + rest)[2..] == rest && ([c] + rest)[1..] == rest;
  }

  lemma AssignmentGives(key: string, value: string)
    ensures Gives(Assignment(key, value), key, value)
  {
    var quoted := TomlString(value);
    EscapeReadsBack(value);
    Quoted(Escaped(value));
    After(key, " = ", quoted);
  }

  lemma Quoted(s: string)
    ensures var q := "\"" + s + "\""; |q| >= 2 && q[0] == '"' && q[|q| - 1] == '"' && q[1..|q| - 1] == s
  {}

  lemma After(key: string, eq: string, rest: string)
    ensures key + eq <= key + eq + rest && (key + eq + rest)[|key| + |eq|..] == rest
  {}

  /** The table a connect writes, line by line. */
  predicate IsOurTable(table: seq<string>, baseUrl: string) {
    && |table| == 5 && table[0] == "[model_providers.rootmode]"
    && Gives(table[1], "name", "rootmode") && Gives(table[2], "base_url", baseUrl + "/v1")
    && Gives(table[3], "wire_api", "responses") && Gives(table[4], "env_key", "ROOTMODE_GATEWAY_TOKEN")
  }

  lemma OwnTableIsOurs(baseUrl: string)
    ensures IsOurTable(OwnTable(baseUrl), baseUrl)
  {
    var table, entries := OwnTable(baseUrl), OwnEntries(baseUrl);
    TableGives(HEADER, entries);
    HeaderSays();
    assert |entries| == 4 && Gives(table[3], entries[2].0, entries[2].1) && Gives(table[4], entries[3].0, entries[3].1);
  }

  lemma HeaderSays()
    ensures HEADER == "[model_providers.rootmode]"
  {}

  lemma TableGives(header: string, entries: seq<(string, string)>)
    ensures var table := [header] + Assignments(entries);
            && |table| == 1 + |entries| && table[0] == header
            && forall i | 1 <= i < |table| :: Gives(table[i], entries[i - 1].0, entries[i - 1].1)
  {
    EntriesGive(entries);
    var table := [header] + Assignments(entries);
    assert forall i | 1 <= i < |table| :: table[i] == Assignments(entries)[i - 1];
  }

  lemma {:induction false} EntriesGive(entries: seq<(string, string)>)
    ensures forall i | 0 <= i < |entries| :: Gives(Assignments(entries)[i], entries[i].0, entries[i].1)
  {
    if entries != [] {
      AssignmentGives(entries[0].0, entries[0].1);
      EntriesGive(entries[1..]);
      assert forall i | 1 <= i < |entries| :: entries[i] == entries[1..][i - 1];
    }
  }

  /** A connect leaves Codex with the gateway as its provider, the model it was given, and a table that says
      where the gateway is and where its key is found, at the end of the file. */
  lemma ConnectSays(lines: seq<string>, baseUrl: string, model: string)
    ensures var after := Connected(lines, baseUrl, model); var n := |after| - 5;
            && n >= 1 && IsOurTable(after[n..], baseUrl) && after[n - 1] == ""
            && TopLevel(after, "model").Some? && Gives(TopLevel(after, "model").value, "model", model)
            && TopLevel(after, "model_provider").Some? && Gives(TopLevel(after, "model_provider").value, "model_provider", "rootmode")
  {
    var k, table := Kept(lines, model), OwnTable(baseUrl);
    OwnTableIsOurs(baseUrl);
    KeptIsSettled(lines, model);
    TopLevelOfPrefix(k, [""] + table, PROVIDER);
    TopLevelOfPrefix(k, [""] + table, MODEL);
    AssignmentGives(PROVIDER, PROVIDER_KEY);
    AssignmentGives(MODEL, model);
    TableAtEnd(k, table);
  }

  lemma TableAtEnd(k: seq<string>, table: seq<string>)
    ensures var all := k + ([""] + table); var n := |all| - |table|; n >= 1 && all[n..] == table && all[n - 1] == ""
  {}

  // ---------------------------------------------------------------- what is left behind

  /** The line sets `key` as TOML reads it: the key, blanks or none, an equals sign. The edits look for
      the key and a space. */
  predicate Assigns(line: string, key: string) {
    var s := TrimStart(line);
    Opens(s, key) && key <= s && TrimStart(s[|key|..]) != "" && TrimStart(s[|key|..])[0] == '='
  }

  /** How many lines before any table set `key`. */
  function Settings(lines: seq<string>, key: string): nat {
    if lines == [] || IsTable(lines[0]) then 0
    else (if Assigns(lines[0], key) then 1 else 0) + Settings(lines[1..], key)
  }

  function OwnTables(lines: seq<string>): nat {
    if lines == [] then 0 else (if IsHeader(lines[0]) then 1 else 0) + OwnTables(lines[1..])
  }

  lemma CountOn(x: string, rest: seq<string>, key: string)
    ensures Settings([x] + rest, key) == if IsTable(x) then 0 else (if Assigns(x, key) then 1 else 0) + Settings(rest, key)
    ensures OwnTables([x] + rest) == (if IsHeader(x) then 1 else 0) + OwnTables(rest)
  {
    assert ([x] + rest)[1..] == rest;
  }

  /** The line the edits recognise is one of the settings, if it is one at all. */
  lemma {:induction false} OneSettingLess(l: seq<string>, key: string)
    ensures Settings(WithoutSetting(l, key), key) + (if TopLevel(l, key).Some? && Assigns(TopLevel(l, key).value, key) then 1 else 0)
            == Settings(l, key)
    ensures OwnTables(WithoutSetting(l, key)) == OwnTables(l)
  {
    if l != [] && !IsTable(l[0]) {
      HeaderIsTable(l[0]);
      OneSettingLess(l[1..], key);
      CountOn(l[0], WithoutSetting(l[1..], key), key);
    }
  }

  lemma {:induction false} OneSettingMore(l: seq<string>, key: string, a: string)
    requires PlainFor(a, key) && Assigns(a, key)
    ensures Settings(WithSetting(l, key, a), key) == 1 + Settings(WithoutSetting(l, key), key)
  {
    CountOn(a, l, key);
    if l != [] {
      CountOn(a, l[1..], key);
      OneSettingMore(l[1..], key, a);
      CountOn(l[0], WithSetting(l[1..], key, a), key);
      CountOn(l[0], WithoutSetting(l[1..], key), key);
    }
  }

  /** No line the edits take for `key` sets `other`. */
  ghost predicate Disjoint(key: string, other: string) {
    forall line: string :: !(Sets(line, key) && Assigns(line, other))
  }

  lemma {:induction false} OtherKeyCounts(l: seq<string>, key: string, a: string, other: string)
    requires PlainFor(a, key) && Disjoint(key, other) && Apart(key, other)
    ensures Settings(WithSetting(l, key, a), other) == Settings(l, other)
    ensures Settings(WithoutSetting(WithSetting(l, key, a), other), other) == Settings(WithoutSetting(l, other), other)
  {
    OneSettingLess(WithSetting(l, key, a), other);
    OneSettingLess(l, other);
    OtherKeyStays(l, key, a, other);
    OtherKeyCount(l, key, a, other);
  }

  lemma {:induction false} OtherKeyCount(l: seq<string>, key: string, a: string, other: string)
    requires PlainFor(a, key) && Disjoint(key, other)
    ensures Settings(WithSetting(l, key, a), other) == Settings(l, other)
  {
    CountOn(a, l, other);
    if l != [] {
      CountOn(a, l[1..], other);
      OtherKeyCount(l[1..], key, a, other);
      CountOn(l[0], WithSetting(l[1..], key, a), other);
    }
  }

  lemma {:induction false} TrimmingKeepsSettings(l: seq<string>, key: string)
    requires key != ""
    ensures Settings(NoTrailingBlanks(l), key) == Settings(l, key)
  {
    if l != [] && IsBlank(l[|l| - 1]) {
      var n := |l| - 1;
      assert l == l[..n] + [l[n]];
      TrimmingKeepsSettings(l[..n], key);
      BlankCountsNothing(l[..n], l[n], key);
    }
  }

  lemma {:induction false} BlankCountsNothing(l: seq<string>, blank: string, key: string)
    requires IsBlank(blank) && key != ""
    ensures Settings(l + [blank], key) == Settings(l, key)
  {
    BlankIsIdle(blank, key);
    TrimStartStops(blank);
    TrimEndKeeps(TrimStart(blank));
    if l == [] {
      assert l + [blank] == [blank] + [];
      CountOn(blank, [], key);
    } else {
      assert l + [blank] == [l[0]] + (l[1..] + [blank]);
      BlankCountsNothing(l[1..], blank, key);
      CountOn(l[0], l[1..] + [blank], key);
    }
  }

  lemma KeysAreDisjoint()
    ensures Disjoint(MODEL, PROVIDER) && Disjoint(PROVIDER, MODEL)
  {
    forall line: string
      ensures !(Sets(line, MODEL) && Assigns(line, PROVIDER)) && !(Sets(line, PROVIDER) && Assigns(line, MODEL))
    {
      UnderscoreOrSpace(TrimStart(line));
    }
  }

  /** What stands after `model` tells the two keys apart. */
  lemma UnderscoreOrSpace(s: string)
    ensures Opens(s, MODEL + " ") ==> |s| > 5 && s[5] == ' '
    ensures Opens(s, PROVIDER + " ") || Opens(s, PROVIDER) ==> |s| > 5 && s[5] == '_'
    ensures |s| > 5 && s[5] == '_' ==> TrimStart(s[5..]) == s[5..]
  {
    OpensMeans(s, MODEL + " ");
    OpensMeans(s, PROVIDER + " ");
    OpensMeans(s, PROVIDER);
    assert (MODEL + " ")[5] == ' ' && (PROVIDER + " ")[5] == '_' && PROVIDER[5] == '_';
    if |s| >= 6 && Opens(s, MODEL + " ") { assert s[..6][5] == s[5]; }
    if |s| >= 15 && Opens(s, PROVIDER + " ") { assert s[..15][5] == s[5]; }
    if |s| >= 14 && Opens(s, PROVIDER) { assert s[..14][5] == s[5]; }
  }

  lemma AssignmentAssigns(key: string, value: string)
    requires GoodKey(key)
    ensures Assigns(Assignment(key, value), key)
  {
    AssignmentIsPlain(key, value);
    var line := Assignment(key, value);
    OpensMeans(line, key);
    assert line[..|key|] == key && line[|key|..] == " = " + TomlString(value);
    assert TrimStart(line[|key|..]) == line[|key|..][1..];
  }

  /** A connect leaves each key set once more than the lines it does not take for a setting of it do: one
      setting remains exactly when none of those sets it. */
  lemma SettingsAfterConnect(lines: seq<string>, model: string)
    ensures var rest := WithoutOwn(lines);
            && Settings(Kept(lines, model), PROVIDER) == 1 + Settings(WithoutSetting(rest, PROVIDER), PROVIDER)
            && Settings(Kept(lines, model), MODEL) == 1 + Settings(WithoutSetting(rest, MODEL), MODEL)
  {
    var pl, ml, rest := Assignment(PROVIDER, PROVIDER_KEY), Assignment(MODEL, model), WithoutOwn(lines);
    AssignmentIsPlain(PROVIDER, PROVIDER_KEY);
    AssignmentIsPlain(MODEL, model);
    AssignmentAssigns(PROVIDER, PROVIDER_KEY);
    AssignmentAssigns(MODEL, model);
    KeysAreApart();
    KeysAreDisjoint();
    var l1 := WithSetting(rest, PROVIDER, pl);
    OneSettingMore(rest, PROVIDER, pl);
    OneSettingMore(l1, MODEL, ml);
    OtherKeyCounts(l1, MODEL, ml, PROVIDER);
    OtherKeyCounts(rest, PROVIDER, pl, MODEL);
    TrimmingKeepsSettings(WithSetting(l1, MODEL, ml), PROVIDER);
    TrimmingKeepsSettings(WithSetting(l1, MODEL, ml), MODEL);
  }

  lemma {:induction false} CountsOver(a: seq<string>, b: seq<string>, key: string)
    requires b == [] || IsTable(b[0])
    ensures Settings(a + b, key) == Settings(a, key)
  {
    if a == [] {
      assert a + b == b;
    } else {
      Prepend(a, b);
      CountsOver(a[1..], b, key);
    }
  }

  lemma {:induction false} TablesOver(a: seq<string>, b: seq<string>)
    ensures OwnTables(a + b) == OwnTables(a) + OwnTables(b)
  {
    if a == [] {
      assert a + b == b;
    } else {
      Prepend(a, b);
      TablesOver(a[1..], b);
    }
  }

  lemma {:induction false} SkippedHoldsNone(l: seq<string>)
    ensures OwnTables(FromNextTable(l)) == OwnTables(l)
    ensures FromNextTable(l) == [] || IsTable(FromNextTable(l)[0])
  {
    if l != [] && !IsTable(l[0]) {
      HeaderIsTable(l[0]);
      SkippedHoldsNone(l[1..]);
    }
  }

  lemma {:induction false} BeforeHoldsNone(l: seq<string>)
    ensures OwnTables(BeforeOwn(l)) == 0 && (FromOwn(l) == [] || IsHeader(FromOwn(l)[0]))
  {
    if l != [] && !IsHeader(l[0]) {
      BeforeHoldsNone(l[1..]);
      CountOn(l[0], BeforeOwn(l[1..]), MODEL);
    }
  }

  /** Taking out an own table takes one, and no top-level setting. */
  lemma OneTableLess(l: seq<string>, key: string)
    ensures OwnTables(WithoutOwn(l)) == if OwnTables(l) == 0 then 0 else OwnTables(l) - 1
    ensures Settings(WithoutOwn(l), key) == Settings(l, key)
  {
    var own := FromOwn(l);
    var after := if HasOwn(l) then FromNextTable(own[1..]) else [];
    OwnSplit(l);
    BeforeHoldsNone(l);
    TablesOver(BeforeOwn(l), own);
    TablesOver(BeforeOwn(l), after);
    if own != [] {
      HeaderIsTable(own[0]);
      SkippedHoldsNone(own[1..]);
    }
    CountsOver(BeforeOwn(l), own, key);
    CountsOver(BeforeOwn(l), after, key);
  }

  /** After a disconnect no own table is left exactly when there was one at most, and the provider is set
      nowhere exactly when it was not, or once and in the form the edit looks for. */
  lemma GoneAfterDisconnect(lines: seq<string>)
    ensures OwnTables(Disconnected(lines)) == 0 <==> OwnTables(lines) <= 1
    ensures Settings(Disconnected(lines), PROVIDER) == 0 <==>
              var first := TopLevel(WithoutOwn(lines), PROVIDER);
              Settings(lines, PROVIDER) == if first.Some? && Assigns(first.value, PROVIDER) then 1 else 0
  {
    OneTableLess(lines, PROVIDER);
    OneSettingLess(WithoutOwn(lines), PROVIDER);
  }

  /** A setting without the space is not recognised: a connect then leaves two of one key. */
  lemma TwoSettingsOfOneKey(model: string)
    ensures Settings(Kept([MODEL + "="], model), MODEL) == 2
  {
    Unspaced(MODEL + "=");
    OneLineFile(MODEL + "=");
    SettingsAfterConnect([MODEL + "="], model);
  }

  lemma OneLineFile(line: string)
    requires !IsTable(line) && !IsHeader(line) && !Sets(line, MODEL) && Assigns(line, MODEL)
    ensures Settings(WithoutSetting(WithoutOwn([line]), MODEL), MODEL) == 1
  {
    assert [line][1..] == [] && [line] + [] == [line];
    assert BeforeOwn([line]) == [line] && FromOwn([line]) == [];
    assert WithoutOwn([line]) == [line];
    assert WithoutSetting([line], MODEL) == [line] + WithoutSetting([], MODEL) == [line];
    CountOn(line, [], MODEL);
  }

  lemma Unspaced(line: string)
    requires line == MODEL + "="
    ensures !IsTable(line) && !IsHeader(line) && !Sets(line, MODEL) && Assigns(line, MODEL)
  {
    assert TrimStart(line) == line && line[5] == '=';
    OpensMeans(line, MODEL);
    UnderscoreOrSpace(line);
    HeaderIsTable(line);
    assert line[..5] == MODEL && line[5..] == "=";
  }

  // ---------------------------------------------------------------- the file

  predicate EndsInReturn(line: string) { line != "" && line[|line| - 1] == '\r' }

  /** A line that a file written line by line gives back as it is. */
  predicate Clean(line: string) { '\n' !in line && !EndsInReturn(line) }

  /** The lines of a text, without their line ends, as `str::lines` gives them. */
  function LinesOf(text: string): seq<string>
    decreases |text|
  {
    if text == "" then [] else
    match Find(text, "\n")
    case None => [text]
    case Some(i) =>
      var line := text[..i];
      [if EndsInReturn(line) then line[..i - 1] else line] + LinesOf(text[i + 1..])
  }

  /** A line ends in a newline, and a return right before it, but one only, is taken off too. */
  lemma LineEnds(line: string, rest: string)
    requires '\n' !in line
    ensures var returned := line != "" && line[|line| - 1] == '\r';
            LinesOf(line + ("\n" + rest)) == [if returned then line[..|line| - 1] else line] + LinesOf(rest)
  {
    FindLineEnd(line, rest);
    var all := line + ("\n" + rest);
    assert all[..|line|] == line && all[|line| + 1..] == rest;
  }

  function Join(lines: seq<string>): string {
    if lines == [] then "" else if |lines| == 1 then lines[0] else lines[0] + "\n" + Join(lines[1..])
  }

  function TextOf(lines: seq<string>): string { Join(lines) + "\n" }

  lemma FindLineEnd(line: string, rest: string)
    requires '\n' !in line
    ensures Find(line + ("\n" + rest), "\n") == Some(|line|)
  {
    var s := line + ("\n" + rest);
    AtMeans(s, "\n", |line|);
    assert s[|line|..|line| + 1] == "\n";
    forall k: nat | k < |line| ensures !At(s, "\n", k) {
      AtMeans(s, "\n", k);
      assert s[k..k + 1][0] == line[k];
      assert line[k] in line;
    }
    FindsFirst(s, "\n", |line|);
  }

  lemma TextOfFirst(lines: seq<string>)
    requires lines != []
    ensures TextOf(lines) == lines[0] + ("\n" + if |lines| == 1 then "" else TextOf(lines[1..]))
  {
  }

  lemma CleanLineEnds(line: string, rest: string)
    requires Clean(line)
    ensures LinesOf(line + ("\n" + rest)) == [line] + LinesOf(rest)
  {
    LineEnds(line, rest);
  }

  /** Writing clean lines and reading them back gives the same lines. */
  lemma {:induction false} LinesRoundTrip(lines: seq<string>)
    requires lines != [] && AllClean(lines)
    ensures LinesOf(TextOf(lines)) == lines
  {
    var rest := if |lines| == 1 then "" else TextOf(lines[1..]);
    TextOfFirst(lines);
    CleanLineEnds(lines[0], rest);
    if |lines| == 1 {
      assert lines == [lines[0]];
    } else {
      LinesRoundTrip(lines[1..]);
      assert lines == [lines[0]] + lines[1..];
    }
  }

  ghost predicate AllClean(lines: seq<string>) { forall line | line in lines :: Clean(line) }

  function ConnectText(text: string, baseUrl: string, model: string): string {
    TextOf(Connected(LinesOf(text), baseUrl, model))
  }

  lemma {:induction false} EscapedHasNoNewline(value: string)
    requires '\n' !in value
    ensures '\n' !in Escaped(value)
  {
    if value != "" {
      EscapedHasNoNewline(value[1..]);
    }
  }

  lemma AssignmentIsClean(key: string, value: string)
    requires '\n' !in key && '\n' !in value
    ensures Clean(Assignment(key, value))
  {
    EscapedHasNoNewline(value);
    var line := Assignment(key, value);
    assert line[|line| - 1] == '"';
  }

  lemma {:induction false} AssignmentsAreClean(entries: seq<(string, string)>)
    requires forall e | e in entries :: '\n' !in e.0 && '\n' !in e.1
    ensures AllClean(Assignments(entries))
  {
    if entries != [] {
      AssignmentIsClean(entries[0].0, entries[0].1);
      AssignmentsAreClean(entries[1..]);
    }
  }

  lemma {:induction false} SettingStaysClean(l: seq<string>, key: string, a: string)
    requires AllClean(l) && Clean(a)
    ensures AllClean(WithSetting(l, key, a))
  {
    if l != [] && !IsTable(l[0]) && !Sets(l[0], key) {
      SettingStaysClean(l[1..], key, a);
    }
  }

  lemma {:induction false} SkippingStaysClean(l: seq<string>)
    requires AllClean(l)
    ensures AllClean(FromNextTable(l))
  {
    if l != [] && !IsTable(l[0]) {
      SkippingStaysClean(l[1..]);
    }
  }

  lemma WithoutOwnStaysClean(l: seq<string>)
    requires AllClean(l)
    ensures AllClean(WithoutOwn(l))
  {
    OwnSplit(l);
    var own := FromOwn(l);
    assert forall x | x in own :: x in BeforeOwn(l) + own;
    assert forall x | x in BeforeOwn(l) :: x in BeforeOwn(l) + own;
    if own != [] {
      SkippingStaysClean(own[1..]);
    }
  }

  lemma KeptIsClean(lines: seq<string>, model: string)
    requires AllClean(lines) && '\n' !in model
    ensures AllClean(Kept(lines, model))
  {
    KeysHaveNoNewline();
    var rest := WithoutOwn(lines);
    var pl, ml := Assignment(PROVIDER, PROVIDER_KEY), Assignment(MODEL, model);
    AssignmentIsClean(PROVIDER, PROVIDER_KEY);
    AssignmentIsClean(MODEL, model);
    WithoutOwnStaysClean(lines);
    SettingStaysClean(rest, PROVIDER, pl);
    SettingStaysClean(WithSetting(rest, PROVIDER, pl), MODEL, ml);
  }

  lemma OwnTableIsClean(baseUrl: string)
    requires '\n' !in baseUrl
    ensures AllClean(OwnBody(baseUrl)) && Clean(HEADER) && Clean("")
  {
    KeysHaveNoNewline();
    HeaderIsItself();
    AssignmentsAreClean(OwnEntries(baseUrl));
  }

  lemma ConnectedIsClean(lines: seq<string>, baseUrl: string, model: string)
    requires AllClean(lines) && '\n' !in baseUrl && '\n' !in model
    ensures AllClean(Connected(lines, baseUrl, model))
  {
    KeptIsClean(lines, model);
    OwnTableIsClean(baseUrl);
    AllCleanTogether(Kept(lines, model), HEADER, OwnBody(baseUrl));
  }

  lemma AllCleanTogether(kept: seq<string>, header: string, body: seq<string>)
    requires AllClean(kept) && AllClean(body) && Clean(header) && Clean("")
    ensures AllClean(kept + ([""] + ([header] + body)))
  {
  }

  lemma KeysHaveNoNewline()
    ensures '\n' !in PROVIDER && '\n' !in MODEL && '\n' !in PROVIDER_KEY && '\n' !in NAME && '\n' !in BASE_URL
    ensures '\n' !in WIRE_API && '\n' !in RESPONSES && '\n' !in ENV_KEY && '\n' !in CODEX_ENV_VAR && '\n' !in "/v1"
  {
  }

  /** So the whole file, too, is the same after a second connect under exactly the condition on its
      lines, when its lines end in no stray carriage return and the values hold no newline. */
  lemma ConnectTextTwice(text: string, baseUrl: string, model: string)
    requires AllClean(LinesOf(text)) && '\n' !in baseUrl && '\n' !in model
    ensures var once := ConnectText(text, baseUrl, model); var kept := Kept(LinesOf(text), model);
            ConnectText(once, baseUrl, model) == once <==> !HasOwn(kept) || Copies(FromOwn(kept), OwnTable(baseUrl))
  {
    var lines := LinesOf(text);
    var once := Connected(lines, baseUrl, model);
    ConnectTwice(lines, baseUrl, model);
    ConnectedIsClean(lines, baseUrl, model);
    LinesRoundTrip(once);
    ConnectedIsClean(once, baseUrl, model);
    LinesRoundTrip(Connected(once, baseUrl, model));
  }
}
