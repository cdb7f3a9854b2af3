/** The `KEY=VALUE` block of an instance's environment: the parser, the printer of the edit form,
    and which environments survive a round trip through the form. */
module EnvBlock {
  import opened Wrappers
  import opened Text

  type Env = map<string, string>

  datatype EnvError = ExpectedKeyValue(line: nat) | InvalidName(line: nat, name: string)

  // ------------------------------------------------------------------------------------
  // Characters and lines
  // ------------------------------------------------------------------------------------

  /** Unicode `White_Space`. */
  predicate IsWhite(c: char) {
    var n := c as int;
    || 0x9 <= n <= 0xD || n == 0x20 || n == 0x85 || n == 0xA0 || n == 0x1680
    || 0x2000 <= n <= 0x200A || n == 0x2028 || n == 0x2029 || n == 0x202F || n == 0x205F || n == 0x3000
  }

  predicate IsAlpha(c: char) {
    'A' <= c <= 'Z' || 'a' <= c <= 'z'
  }

  predicate IsNameChar(c: char) {
    IsAlpha(c) || '0' <= c <= '9' || c == '_'
  }

  predicate ValidName(key: string) {
    && key != "" && (IsAlpha(key[0]) || key[0] == '_')
    && forall i :: 0 <= i < |key| ==> IsNameChar(key[i])
  }

  function TrimStart(s: string): (r: string)
    ensures r == "" || !IsWhite(r[0])
    ensures |r| <= |s| && r == s[|s| - |r|..]
  {
    if s != "" && IsWhite(s[0]) then TrimStart(s[1..]) else s
  }

  function TrimEnd(s: string): (r: string)
    ensures r == "" || !IsWhite(r[|r| - 1])
    ensures |r| <= |s| && r == s[..|r|]
  {
    if s != "" && IsWhite(s[|s| - 1]) then TrimEnd(s[..|s| - 1]) else s
  }

  function Trim(s: string): string {
    TrimEnd(TrimStart(s))
  }

  predicate Trimmed(s: string) {
    s == "" || (!IsWhite(s[0]) && !IsWhite(s[|s| - 1]))
  }

  lemma TrimTrims(s: string)
    ensures Trimmed(Trim(s))
    ensures forall c :: c in Trim(s) ==> c in s
  {
  }

  lemma TrimmedStays(s: string)
    requires Trimmed(s)
    ensures Trim(s) == s
  {
  }

  function StripCr(line: string): string {
    if line != "" && line[|line| - 1] == '\r' then line[..|line| - 1] else line
  }

  /** Rust's `lines()`: a final newline starts no further line, and `\r\n` ends one. */
  function Lines(text: string): seq<string>
    decreases |text|
  {
    if text == "" then []
    else match Find(text, "\n")
      case None => [text]
      case Some(i) => [StripCr(text[..i])] + Lines(text[i + 1..])
  }

  lemma {:induction false} LinesHaveNoNewline(text: string)
    ensures forall l :: l in Lines(text) ==> '\n' !in l
    decreases |text|
  {
    if text != "" {
      NoneWithout(text, '\n');
      var i := Find(text, "\n");
      if i.Some? {
        FreePrefix(text, "\n", i.value);
        NoneWithout(text[..i.value], '\n');
        LinesHaveNoNewline(text[i.value + 1..]);
      }
    }
  }

  // ------------------------------------------------------------------------------------
  // The parser
  // ------------------------------------------------------------------------------------

  datatype Line = Blank | NoEquals | BadName(name: string) | Binding(key: string, value: string)

  function ReadLine(raw: string): Line {
    var line := Trim(raw);
    if line == "" || line[0] == '#' then Blank
    else match SplitOnce(line, "=")
      case None => NoEquals
      case Some((key, value)) => if ValidName(Trim(key)) then Binding(Trim(key), Trim(value)) else BadName(Trim(key))
  }

  function ReadLines(lines: seq<string>): (r: seq<Line>)
    ensures |r| == |lines| && forall i :: 0 <= i < |r| ==> r[i] == ReadLine(lines[i])
  {
    seq(|lines|, i requires 0 <= i < |lines| => ReadLine(lines[i]))
  }

  /** One more line, the `n`-th, after those that gave `before`. */
  function ReadOn(before: Result<Env, EnvError>, n: nat, line: Line): Result<Env, EnvError> {
    if before.Err? then before
    else match line
      case Blank => before
      case NoEquals => Err(ExpectedKeyValue(n))
      case BadName(name) => Err(InvalidName(n, name))
      case Binding(key, value) => Ok(before.value[key := value])
  }

  function ReadAll(lines: seq<Line>): Result<Env, EnvError> {
    if lines == [] then Ok(map[]) else ReadOn(ReadAll(lines[..|lines| - 1]), |lines|, lines[|lines| - 1])
  }

  function Parsed(text: string): Result<Env, EnvError> {
    ReadAll(ReadLines(Lines(text)))
  }

  predicate ValidNameTo(key: string, j: nat) {
    forall i :: 0 <= i < j <= |key| ==> if i == 0 then IsAlpha(key[0]) || key[0] == '_' else IsNameChar(key[i])
  }

  method ValidateName(key: string) returns (valid: bool)
    ensures valid <==> ValidName(key)
  {
    valid := key != "";
    var j := 0;
    while j < |key|
      invariant 0 <= j <= |key|
      invariant valid <==> key != "" && ValidNameTo(key, j)
    {
      valid := valid && if j == 0 then IsAlpha(key[j]) || key[j] == '_' else IsNameChar(key[j]);
      j := j + 1;
    }
  }

  method ParseEnv(text: string) returns (r: Result<Env, EnvError>)
    ensures r == Parsed(text)
  {
    hide Lines, Trim, SplitOnce, ValidName;
    var env: Env := map[];
    var lines := Lines(text);
    ghost var read := ReadLines(lines);
    var i := 0;
    while i < |lines|
      invariant 0 <= i <= |lines|
      invariant ReadAll(read[..i]) == Ok(env)
    {
      ReadAllSnoc(read, i);
      var line := Trim(lines[i]);
      if line == "" || line[0] == '#' {
        assert read[i] == Blank;
        i := i + 1;
        continue;
      }
      var split := SplitOnce(line, "=");
      if split.None? {
        assert read[i] == NoEquals;
        ErrorStays(read, i + 1);
        return Err(ExpectedKeyValue(i + 1));
      }
      var key := Trim(split.value.0);
      var valid := ValidateName(key);
      if !valid {
        assert read[i] == BadName(key);
        ErrorStays(read, i + 1);
        return Err(InvalidName(i + 1, key));
      }
      env := env[key := Trim(split.value.1)];
      i := i + 1;
    }
    assert read[..i] == read;
    return Ok(env);
  }

  lemma ReadAllSnoc(lines: seq<Line>, n: nat)
    requires n < |lines|
    ensures ReadAll(lines[..n + 1]) == ReadOn(ReadAll(lines[..n]), n + 1, lines[n])
  {
    assert lines[..n + 1][..n] == lines[..n];
  }

  lemma {:induction false} ErrorStays(lines: seq<Line>, n: nat)
    requires n <= |lines| && ReadAll(lines[..n]).Err?
    ensures ReadAll(lines) == ReadAll(lines[..n])
    decreases |lines|
  {
    if n < |lines| {
      assert lines[..|lines| - 1][..n] == lines[..n];
      ErrorStays(lines[..|lines| - 1], n);
    } else {
      assert lines[..n] == lines;
    }
  }

  predicate Wrong(line: Line) {
    line.NoEquals? || line.BadName?
  }

  /** Parsing fails at the first wrong line, with that line's number. */
  lemma {:induction false} FirstWrongLine(lines: seq<Line>)
    ensures match ReadAll(lines)
            case Ok(_) => forall i :: 0 <= i < |lines| ==> !Wrong(lines[i])
            case Err(e) =>
              && 1 <= e.line <= |lines|
              && (forall i :: 0 <= i < e.line - 1 ==> !Wrong(lines[i]))
              && lines[e.line - 1] == if e.ExpectedKeyValue? then NoEquals else BadName(e.name)
  {
    if lines != [] {
      var init := lines[..|lines| - 1];
      FirstWrongLine(init);
      assert forall i :: 0 <= i < |init| ==> init[i] == lines[i];
    }
  }

  predicate Binds(line: Line, key: string) {
    line.Binding? && line.key == key
  }

  /** No line after the `i`-th binds `key`, and the `i`-th does. */
  predicate LastBinds(lines: seq<Line>, i: nat, key: string) {
    && i < |lines| && Binds(lines[i], key)
    && forall j :: i < j < |lines| ==> !Binds(lines[j], key)
  }

  /** Otherwise a name has the value of the last line that binds it, and no other name has one. */
  lemma {:induction false} LastBindingWins(lines: seq<Line>, key: string)
    requires ReadAll(lines).Ok?
    ensures key in ReadAll(lines).value <==> exists i: nat :: LastBinds(lines, i, key)
    ensures forall i: nat :: LastBinds(lines, i, key) ==> key in ReadAll(lines).value && ReadAll(lines).value[key] == lines[i].value
  {
    if lines != [] {
      var n := |lines| - 1;
      var init := lines[..n];
      LastBindingWins(init, key);
      if Binds(lines[n], key) {
        assert LastBinds(lines, n, key);
        assert forall i: nat :: LastBinds(lines, i, key) ==> i == n;
      } else {
        assert forall i: nat :: LastBinds(lines, i, key) <==> LastBinds(init, i, key);
      }
    }
  }

  // ------------------------------------------------------------------------------------
  // What a line and a block look like
  // ------------------------------------------------------------------------------------

  predicate White(s: string) {
    forall i :: 0 <= i < |s| ==> IsWhite(s[i])
  }

  lemma {:induction false} TrimStartSkips(w: string, s: string)
    requires White(w)
    ensures TrimStart(w + s) == TrimStart(s)
  {
    if w == "" {
      assert w + s == s;
    } else {
      assert (w + s)[1..] == w[1..] + s;
      TrimStartSkips(w[1..], s);
    }
  }

  lemma {:induction false} TrimEndSkips(s: string, w: string)
    requires White(w)
    ensures TrimEnd(s + w) == TrimEnd(s)
  {
    if w == "" {
      assert s + w == s;
    } else {
      var n := |w| - 1;
      assert (s + w)[..|s| + n] == s + w[..n];
      TrimEndSkips(s, w[..n]);
    }
  }

  /** Trimming takes away exactly the surrounding white space. */
  lemma TrimOfPadded(before: string, s: string, after: string)
    requires White(before) && White(after) && Trimmed(s)
    ensures Trim(before + s + after) == s
  {
    assert before + s + after == before + (s + after);
    TrimStartSkips(before, s + after);
    if s == "" {
      assert s + after == after + "" && TrimStart("") == "";
      TrimStartSkips(after, "");
    } else {
      assert TrimStart(s + after) == s + after;
      TrimEndSkips(s, after);
    }
  }

  /** Blank lines and comments are skipped, however they are indented. */
  lemma BlanksAndComments(before: string, s: string, after: string)
    requires White(before) && White(after) && Trimmed(s)
    ensures ReadLine(before + s + after) == Blank <==> s == "" || s[0] == '#'
    ensures ReadLine(before + s + after) == NoEquals <==> s != "" && s[0] != '#' && '=' !in s
  {
    hide Trim, ValidName, SplitOnce;
    TrimOfPadded(before, s, after);
    SplitsIff(s, '=');
  }

  /** A line as it is written, with white space around the name and around the value. */
  function Written(w0: string, key: string, w1: string, w2: string, value: string, w3: string): string {
    (w0 + key + w1) + "=" + (w2 + value + w3)
  }

  /** A line binds the name before its first `=` to the value after it, both trimmed, and is wrong
      exactly if that is no name. */
  lemma BindingLine(w0: string, key: string, w1: string, w2: string, value: string, w3: string)
    requires White(w0) && White(w1) && White(w2) && White(w3) && Trimmed(key) && Trimmed(value)
    requires '=' !in key && (key == "" || key[0] != '#')
    ensures ReadLine(Written(w0, key, w1, w2, value, w3)) == if ValidName(key) then Binding(key, value) else BadName(key)
  {
    LineCore(w0, key, w1, w2, value, w3);
    KeyPartIsKey(key, w1);
    ValuePartIsValue(w2, value);
    hide *;
    LineSplits(Written(w0, key, w1, w2, value, w3), KeyPart(key, w1), ValuePart(w2, value));
  }

  function KeyPart(key: string, w1: string): string {
    if key == "" then "" else key + w1
  }

  function ValuePart(w2: string, value: string): string {
    if value == "" then "" else w2 + value
  }

  lemma KeyPartIsKey(key: string, w1: string)
    requires White(w1) && Trimmed(key) && '=' !in key && (key == "" || key[0] != '#')
    ensures Trim(KeyPart(key, w1)) == key && '=' !in KeyPart(key, w1)
    ensures KeyPart(key, w1) == "" || KeyPart(key, w1)[0] != '#'
  {
    TrimOfPadded("", key, w1);
    assert "" + key + w1 == key + w1 && Trim("") == "";
    assert !IsWhite('=');
  }

  lemma ValuePartIsValue(w2: string, value: string)
    requires White(w2) && Trimmed(value)
    ensures Trim(ValuePart(w2, value)) == value
  {
    TrimOfPadded(w2, value, "");
    assert w2 + value + "" == w2 + value && Trim("") == "";
  }

  lemma LineSplits(raw: string, k: string, v: string)
    requires Trim(raw) == k + "=" + v && '=' !in k && (k == "" || k[0] != '#')
    ensures ReadLine(raw) == if ValidName(Trim(k)) then Binding(Trim(k), Trim(v)) else BadName(Trim(k))
  {
    hide Trim, ValidName, SplitOnce;
    SplitAtChar(k, '=', v);
    assert k + "=" + v == k + ['='] + v;
  }

  lemma LineCore(w0: string, key: string, w1: string, w2: string, value: string, w3: string)
    requires White(w0) && White(w1) && White(w2) && White(w3) && Trimmed(key) && Trimmed(value)
    ensures Trim(Written(w0, key, w1, w2, value, w3)) == KeyPart(key, w1) + "=" + ValuePart(w2, value)
  {
    var before := if key == "" then w0 + w1 else w0;
    var after := if value == "" then w2 + w3 else w3;
    assert w0 + key + w1 == before + KeyPart(key, w1);
    assert w2 + value + w3 == ValuePart(w2, value) + after;
    CoreIsTrimmed(key, w1, w2, value);
    assert White(before) && White(after);
    assert Written(w0, key, w1, w2, value, w3) == (before + KeyPart(key, w1)) + "=" + (ValuePart(w2, value) + after);
    hide *;
    Middle(before, KeyPart(key, w1), ValuePart(w2, value), after);
    TrimOfPadded(before, KeyPart(key, w1) + "=" + ValuePart(w2, value), after);
  }

  lemma Middle(before: string, k: string, v: string, after: string)
    ensures (before + k) + "=" + (v + after) == before + (k + "=" + v) + after
  {
  }

  lemma CoreIsTrimmed(key: string, w1: string, w2: string, value: string)
    requires Trimmed(key) && Trimmed(value)
    ensures Trimmed(KeyPart(key, w1) + "=" + ValuePart(w2, value))
  {
    var core := KeyPart(key, w1) + "=" + ValuePart(w2, value);
    assert !IsWhite('=');
    assert core[0] == (if key == "" then '=' else key[0]);
    assert core[|core| - 1] == (if value == "" then '=' else value[|value| - 1]);
    hide IsWhite;
  }

  /** The names: a letter or an underscore, and then letters, digits and underscores. */
  lemma ValidNamesGrow(key: string, c: char)
    ensures !ValidName("")
    ensures ValidName([c]) <==> 'A' <= c <= 'Z' || 'a' <= c <= 'z' || c == '_'
    ensures key != "" ==>
              (ValidName(key + [c]) <==> ValidName(key) && ('A' <= c <= 'Z' || 'a' <= c <= 'z' || '0' <= c <= '9' || c == '_'))
  {
    var longer := key + [c];
    if key != "" && ValidName(longer) {
      assert forall i :: 0 <= i < |key| ==> key[i] == longer[i];
      assert IsNameChar(longer[|key|]);
    }
  }

  /** A block is taken line by line; a line ends in a newline, with or without a carriage return. */
  lemma LineEndings(line: string, rest: string)
    requires '\n' !in line
    ensures Lines(line + "\r\n" + rest) == [line] + Lines(rest)
    ensures line == "" || line[|line| - 1] != '\r' ==> Lines(line + "\n" + rest) == [line] + Lines(rest)
    ensures Lines(line) == if line == "" then [] else [line]
  {
    hide Lines, StripCr;
    LineEnds(line, rest);
    LineEnds(line + "\r", rest);
    CrIsStripped(line);
    NoNewline(line);
    assert line + "\r\n" + rest == line + "\r" + "\n" + rest;
  }

  lemma CrIsStripped(line: string)
    ensures StripCr(line + "\r") == line
    ensures line == "" || line[|line| - 1] != '\r' ==> StripCr(line) == line
  {
  }

  lemma NoNewline(line: string)
    requires '\n' !in line
    ensures Lines(line) == if line == "" then [] else [line]
  {
    NoneWithout(line, '\n');
  }

  lemma LineEnds(line: string, rest: string)
    requires '\n' !in line
    ensures Lines(line + "\n" + rest) == [StripCr(line)] + Lines(rest)
  {
    SplitAtChar(line, '\n', rest);
    var text := line + "\n" + rest;
    var i := Find(text, "\n").value;
    assert text[..i] == line && text[i + 1..] == rest;
  }

  // ------------------------------------------------------------------------------------
  // The printer
  // ------------------------------------------------------------------------------------

  /** The keys of the map, each once, in some order; the source's ordered map has one. */
  ghost predicate Enumerates(keys: seq<string>, env: Env) {
    && (forall k :: k in keys <==> k in env)
    && (forall i, j :: 0 <= i < j < |keys| ==> keys[i] != keys[j])
  }

  function Joined(lines: seq<string>): string {
    if lines == [] then "" else if lines[1..] == [] then lines[0] else lines[0] + "\n" + Joined(lines[1..])
  }

  function Printed(env: Env, keys: seq<string>): (r: seq<string>)
    requires forall k :: k in keys ==> k in env
    ensures |r| == |keys| && forall i :: 0 <= i < |r| ==> r[i] == keys[i] + "=" + env[keys[i]]
  {
    seq(|keys|, i requires 0 <= i < |keys| => keys[i] + "=" + env[keys[i]])
  }

  function RenderEnv(env: Env, keys: seq<string>): string
    requires forall k :: k in keys ==> k in env
  {
    Joined(Printed(env, keys))
  }

  /** One binding more is one line more. */
  lemma {:induction false} RenderSnoc(env: Env, keys: seq<string>, k: string)
    requires k in env && forall k' :: k' in keys ==> k' in env
    ensures RenderEnv(env, []) == ""
    ensures RenderEnv(env, keys + [k]) == (if keys == [] then "" else RenderEnv(env, keys) + "\n") + k + "=" + env[k]
  {
    assert Printed(env, keys + [k]) == Printed(env, keys) + [k + "=" + env[k]];
    JoinedSnoc(Printed(env, keys), k + "=" + env[k]);
    assert Printed(env, []) == [];
    hide Joined, Printed;
    var n := if keys == [] then "" else Joined(Printed(env, keys)) + "\n";
    assert n + (k + "=" + env[k]) == n + k + "=" + env[k];
  }

  lemma {:induction false} JoinedSnoc(lines: seq<string>, l: string)
    ensures Joined(lines + [l]) == (if lines == [] then "" else Joined(lines) + "\n") + l
  {
    if lines != [] {
      assert (lines + [l])[1..] == lines[1..] + [l];
      JoinedSnoc(lines[1..], l);
      if lines[1..] != [] {
        JoinAssoc(lines[0], Joined(lines[1..]), l);
      }
    }
  }

  lemma JoinAssoc(a: string, b: string, c: string)
    ensures a + "\n" + (b + "\n" + c) == a + "\n" + b + "\n" + c
  {
  }

  // ------------------------------------------------------------------------------------
  // Round trips
  // ------------------------------------------------------------------------------------

  predicate WholeLine(l: string) {
    l != "" && '\n' !in l && l[|l| - 1] != '\r'
  }

  lemma LinesUnfold(line: string, rest: string)
    requires WholeLine(line)
    ensures Lines(line) == [line]
    ensures Lines(line + "\n" + rest) == [line] + Lines(rest)
  {
    NoneWithout(line, '\n');
    SplitAtChar(line, '\n', rest);
    var text := line + "\n" + rest;
    var i := Find(text, "\n").value;
    assert text[..i] == line && text[i + 1..] == rest;
  }

  lemma {:induction false} JoinedLinesComeApart(lines: seq<string>)
    requires forall l :: l in lines ==> WholeLine(l)
    ensures Lines(Joined(lines)) == lines
  {
    hide Lines, WholeLine;
    if lines == [] {
      NoLines();
    } else {
      assert lines[0] in lines;
      LinesUnfold(lines[0], Joined(lines[1..]));
      JoinedLinesComeApart(lines[1..]);
    }
  }

  lemma NoLines()
    ensures Lines("") == []
  {
  }

  /** What the form can hold: valid names, values without surrounding white space or newlines. */
  predicate Holdable(env: Env) {
    forall k :: k in env ==> HoldableAt(k, env[k])
  }

  predicate HoldableAt(key: string, value: string) {
    ValidName(key) && Trimmed(value) && '\n' !in value
  }

  lemma NamesAreSolid(key: string)
    requires ValidName(key)
    ensures Trimmed(key) && key[0] != '#' && '\n' !in key && '=' !in key
  {
    assert IsNameChar(key[|key| - 1]);
  }

  lemma PrintedLineIsWhole(key: string, value: string)
    requires HoldableAt(key, value)
    ensures WholeLine(key + "=" + value) && Trimmed(key + "=" + value) && (key + "=" + value)[0] == key[0]
  {
    NamesAreSolid(key);
    var line := key + "=" + value;
    assert line[|line| - 1] == if value == "" then '=' else value[|value| - 1];
    assert !IsWhite('=') && IsWhite('\r');
  }

  lemma PrintedLineIsRead(key: string, value: string)
    requires HoldableAt(key, value)
    ensures ReadLine(key + "=" + value) == Binding(key, value)
  {
    hide Trim, WholeLine, Trimmed, SplitOnce, ValidName;
    var line := key + "=" + value;
    NamesAreSolid(key);
    PrintedLineIsWhole(key, value);
    TrimmedStays(line);
    TrimmedStays(key);
    TrimmedStays(value);
    SplitAtChar(key, '=', value);
    assert line == key + ['='] + value;
  }

  lemma {:induction false} BindingsAreRead(env: Env, keys: seq<string>, lines: seq<Line>)
    requires forall k :: k in keys ==> k in env
    requires forall i, j :: 0 <= i < j < |keys| ==> keys[i] != keys[j]
    requires |lines| == |keys| && forall i :: 0 <= i < |keys| ==> lines[i] == Binding(keys[i], env[keys[i]])
    ensures ReadAll(lines) == Ok(map k | k in keys :: env[k])
  {
    if keys != [] {
      var n := |keys| - 1;
      var init := keys[..n];
      BindingsAreRead(env, init, lines[..n]);
      assert forall k :: k in keys <==> k in init || k == keys[n];
      assert (map k | k in keys :: env[k]) == (map k | k in init :: env[k])[keys[n] := env[keys[n]]];
    }
  }

  lemma {:induction false} ReadAllIsHoldable(lines: seq<Line>)
    requires forall l :: l in lines && l.Binding? ==> HoldableAt(l.key, l.value)
    ensures ReadAll(lines).Ok? ==> Holdable(ReadAll(lines).value)
  {
    hide HoldableAt;
    if lines != [] {
      ReadAllIsHoldable(lines[..|lines| - 1]);
      assert lines[|lines| - 1] in lines;
    }
  }

  lemma BindingIsHoldable(raw: string)
    requires '\n' !in raw && ReadLine(raw).Binding?
    ensures HoldableAt(ReadLine(raw).key, ReadLine(raw).value)
  {
    TrimTrims(raw);
    var split := SplitOnce(Trim(raw), "=");
    TrimTrims(split.value.1);
    assert forall c :: c in split.value.1 ==> c in Trim(raw);
    hide Trim, SplitOnce, ValidName, Trimmed;
  }

  lemma ParsedIsHoldable(text: string)
    ensures Parsed(text).Ok? ==> Holdable(Parsed(text).value)
  {
    hide ReadLine, Lines, HoldableAt, Holdable;
    var lines := ReadLines(Lines(text));
    LinesHaveNoNewline(text);
    forall l | l in lines && l.Binding?
      ensures HoldableAt(l.key, l.value)
    {
      var i :| 0 <= i < |lines| && lines[i] == l;
      BindingIsHoldable(Lines(text)[i]);
    }
    ReadAllIsHoldable(lines);
  }

  lemma HoldableIsReadBack(env: Env, keys: seq<string>)
    requires Enumerates(keys, env) && Holdable(env)
    ensures Parsed(RenderEnv(env, keys)) == Ok(env)
  {
    hide ReadLine, Lines, WholeLine, HoldableAt, ReadAll;
    var printed := Printed(env, keys);
    forall i | 0 <= i < |keys|
      ensures WholeLine(printed[i]) && ReadLine(printed[i]) == Binding(keys[i], env[keys[i]])
    {
      assert keys[i] in keys;
      PrintedLineIsWhole(keys[i], env[keys[i]]);
      PrintedLineIsRead(keys[i], env[keys[i]]);
    }
    JoinedLinesComeApart(printed);
    BindingsAreRead(env, keys, ReadLines(printed));
    assert (map k | k in keys :: env[k]) == env;
  }

  /** An environment comes back from the edit form as it went in exactly when the form can hold it. */
  lemma RoundTripIffHoldable(env: Env, keys: seq<string>)
    requires Enumerates(keys, env)
    ensures Parsed(RenderEnv(env, keys)) == Ok(env) <==> Holdable(env)
  {
    hide Parsed, RenderEnv, Holdable;
    ParsedIsHoldable(RenderEnv(env, keys));
    if Holdable(env) {
      HoldableIsReadBack(env, keys);
    }
  }

  /** Whatever the parser returns, printing it and parsing again returns the same. */
  lemma ParsedRoundTrips(text: string, keys: seq<string>)
    requires Parsed(text).Ok? && Enumerates(keys, Parsed(text).value)
    ensures Parsed(RenderEnv(Parsed(text).value, keys)) == Parsed(text)
  {
    hide Parsed, RenderEnv, Holdable;
    ParsedIsHoldable(text);
    RoundTripIffHoldable(Parsed(text).value, keys);
  }
}
