/** `${VAR}` references in command lines: the expander, and the scanner that reports which stored
    secrets a command line would expose. */
module Template {
  import opened Wrappers
  import opened Text

  type Vars = map<string, string>

  datatype Piece = Lit(text: string) | Ref(name: string)

  // ------------------------------------------------------------------------------------
  // The grammar
  // ------------------------------------------------------------------------------------

  /** The first `${NAME}` of a text, with what stands before and after it. */
  datatype Reference = Reference(before: string, name: string, after: string)

  predicate Unopened(text: string) {
    Find(text, "${").None?
  }

  function NextRef(s: string): (r: Option<Reference>)
    ensures r.Some? ==> |r.value.after| < |s|
  {
    match Find(s, "${")
    case None => None
    case Some(p) =>
      match Find(s[p + 2..], "}")
      case None => None
      case Some(end) => Some(Reference(s[..p], s[p + 2..][..end], s[p + 2..][end + 1..]))
  }

  function Written(r: Reference): string {
    r.before + "${" + r.name + "}" + r.after
  }

  predicate Clean(r: Reference) {
    Unopened(r.before) && '}' !in r.name
  }

  lemma NextRefIsClean(s: string)
    requires NextRef(s).Some?
    ensures Clean(NextRef(s).value) && Written(NextRef(s).value) == s
  {
    var p := Find(s, "${").value;
    var after := s[p + 2..];
    var end := Find(after, "}").value;
    FreePrefix(s, "${", p);
    FreePrefix(after, "}", end);
    NoneWithout(after[..end], '}');
    CutAt(s, "${", p);
    CutAt(after, "}", end);
    hide Find;
    Assoc(s[..p] + "${", after[..end], "}", after[end + 1..]);
  }

  /** A `${` that starts before another one also ends before it. */
  lemma OpensBefore(before: string, rest: string, j: nat)
    requires j < |before|
    ensures Occurs(before + "${" + rest, "${", j) <==> Occurs(before, "${", j)
  {
    var s := before + "${" + rest;
    assert s[j..j + 2] == [s[j], s[j + 1]];
    if j + 2 <= |before| {
      assert before[j..j + 2] == s[j..j + 2];
    } else {
      assert s[j + 1] == '$';
    }
  }

  lemma FindsOpen(before: string, rest: string)
    requires Unopened(before)
    ensures Find(before + "${" + rest, "${") == Some(|before|)
  {
    var s := before + "${" + rest;
    assert s[|before|..|before| + 2] == "${";
    forall j: nat | j < |before|
      ensures !Occurs(s, "${", j)
    {
      OpensBefore(before, rest, j);
    }
    FirstIsFind(s, "${", |before|);
  }

  lemma FindsClose(name: string, after: string)
    requires '}' !in name
    ensures var rest := name + "}" + after;
      Find(rest, "}") == Some(|name|) && rest[..|name|] == name && rest[|name| + 1..] == after
  {
    var rest := name + "}" + after;
    SplitAtChar(name, '}', after);
    assert Find(rest, "}").Some? && rest[..Find(rest, "}").value] == name;
  }

  lemma CleanIsNextRef(r: Reference)
    requires Clean(r)
    ensures NextRef(Written(r)) == Some(r)
  {
    hide Find;
    var rest := r.name + "}" + r.after;
    var s := r.before + "${" + rest;
    assert Written(r) == s by {
      Assoc(r.before + "${", r.name, "}", r.after);
    }
    FindsOpen(r.before, rest);
    FindsClose(r.name, r.after);
    assert s[..|r.before|] == r.before && s[|r.before| + 2..] == rest;
  }

  /** A command-line token as literals and references. An unterminated `${` is a literal. */
  function Parse(s: string): (ps: seq<Piece>)
    decreases |s|
  {
    match NextRef(s)
    case None => [Lit(s)]
    case Some(r) => [Lit(r.before), Ref(r.name)] + Parse(r.after)
  }

  function Literal(p: Piece): string {
    match p
    case Lit(text) => text
    case Ref(name) => "${" + name + "}"
  }

  function Unparse(ps: seq<Piece>): string {
    if ps == [] then "" else Literal(ps[0]) + Unparse(ps[1..])
  }

  /** Literals alternate with references and end the list; no literal could be read as a
      reference and no reference could have ended earlier. */
  predicate Normal(ps: seq<Piece>) {
    if |ps| == 1 then ps[0].Lit? && NextRef(ps[0].text).None?
    else |ps| >= 3 && ps[0].Lit? && Unopened(ps[0].text) && ps[1].Ref? && '}' !in ps[1].name && Normal(ps[2..])
  }

  lemma UnparseTwo(text: string, name: string, rest: seq<Piece>)
    ensures Unparse([Lit(text), Ref(name)] + rest) == Written(Reference(text, name, Unparse(rest)))
  {
    UnparseTail(text, name, rest);
    hide Unparse;
    var tail := Unparse(rest);
    assert text + ("${" + name + "}" + tail) == text + "${" + name + "}" + tail;
  }

  lemma UnparseTail(text: string, name: string, rest: seq<Piece>)
    ensures Unparse([Lit(text), Ref(name)] + rest) == text + ("${" + name + "}" + Unparse(rest))
  {
    var ps := [Lit(text), Ref(name)] + rest;
    assert ps[1..] == [Ref(name)] + rest && ps[1..][1..] == rest;
  }

  /** Parsing loses nothing, and finds a reference wherever there is one to be found. */
  lemma {:induction false} ParseIsFaithful(s: string)
    ensures Normal(Parse(s))
    ensures Unparse(Parse(s)) == s
    decreases |s|
  {
    hide NextRef, Unopened;
    match NextRef(s)
    case None =>
      assert Parse(s)[1..] == [];
    case Some(r) =>
      NextRefIsClean(s);
      ParseIsFaithful(r.after);
      UnparseTwo(r.before, r.name, Parse(r.after));
      assert Parse(s)[2..] == Parse(r.after);
  }

  /** The grammar is unambiguous: a normal list of pieces is read back as itself. */
  lemma {:induction false} PiecesAreRecovered(ps: seq<Piece>)
    requires Normal(ps)
    ensures Parse(Unparse(ps)) == ps
    decreases |ps|
  {
    hide NextRef, Unopened;
    if |ps| == 1 {
      assert ps == [Lit(ps[0].text)] && ps[1..] == [];
      assert Unparse(ps) == ps[0].text;
    } else {
      var r := Reference(ps[0].text, ps[1].name, Unparse(ps[2..]));
      assert ps == [Lit(r.before), Ref(r.name)] + ps[2..];
      UnparseTwo(r.before, r.name, ps[2..]);
      CleanIsNextRef(r);
      PiecesAreRecovered(ps[2..]);
    }
  }

  // ------------------------------------------------------------------------------------
  // The expander
  // ------------------------------------------------------------------------------------

  /** A reference to an unknown variable stays as written. */
  function Value(p: Piece, vars: Vars): string {
    if p.Ref? && p.name in vars then vars[p.name] else Literal(p)
  }

  function Filled(ps: seq<Piece>, vars: Vars): string {
    if ps == [] then "" else Value(ps[0], vars) + Filled(ps[1..], vars)
  }

  function Expanded(s: string, vars: Vars): string {
    Filled(Parse(s), vars)
  }

  lemma FilledOne(text: string, vars: Vars)
    ensures Filled([Lit(text)], vars) == text
  {
  }

  lemma FilledTwo(text: string, name: string, rest: seq<Piece>, vars: Vars)
    ensures Filled([Lit(text), Ref(name)] + rest, vars) == text + Value(Ref(name), vars) + Filled(rest, vars)
  {
    var ps := [Lit(text), Ref(name)] + rest;
    assert ps[1..][1..] == rest;
  }

  lemma ExpandedUnfolds(s: string, vars: Vars)
    ensures NextRef(s).None? ==> Expanded(s, vars) == s
    ensures NextRef(s).Some? ==>
              var r := NextRef(s).value;
              Expanded(s, vars) == r.before + Value(Ref(r.name), vars) + Expanded(r.after, vars)
  {
    hide NextRef;
    match NextRef(s)
    case None =>
      FilledOne(s, vars);
    case Some(r) =>
      FilledTwo(r.before, r.name, Parse(r.after), vars);
  }

  method ExpandVars(input: string, vars: Vars) returns (out: string)
    ensures out == Expanded(input, vars)
  {
    hide Expanded, Find;
    out := "";
    var rest := input;
    var open := Find(rest, "${");
    while open.Some?
      invariant open == Find(rest, "${")
      invariant out + Expanded(rest, vars) == Expanded(input, vars)
      decreases |rest|
    {
      ExpandedUnfolds(rest, vars);
      ghost var was := out;
      ghost var before := rest[..open.value];
      out := out + rest[..open.value];
      var after := rest[open.value + 2..];
      var close := Find(after, "}");
      match close {
        case Some(end) =>
          var name := after[..end];
          assert NextRef(rest) == Some(Reference(before, name, after[end + 1..]));
          Assoc(was, before, Value(Ref(name), vars), Expanded(after[end + 1..], vars));
          if name in vars {
            out := out + vars[name];
          } else {
            out := out + ("${" + name + "}");
          }
          assert out == was + before + Value(Ref(name), vars);
          rest := after[end + 1..];
        case None =>
          assert NextRef(rest) == None;
          UnterminatedIsLiteral(after, vars);
          CutAt(rest, "${", open.value);
          Assoc(was, before, "${", after);
          out := out + "${";
          rest := after;
      }
      open := Find(rest, "${");
    }
    assert NextRef(rest) == None;
    ExpandedUnfolds(rest, vars);
    out := out + rest;
  }

  lemma UnterminatedIsLiteral(s: string, vars: Vars)
    requires Find(s, "}").None?
    ensures Expanded(s, vars) == s
  {
    ExpandedUnfolds(s, vars);
    NoneWithout(s, '}');
    var open := Find(s, "${");
    if open.Some? {
      NoneWithout(s[open.value + 2..], '}');
    }
  }

  // ------------------------------------------------------------------------------------
  // What an expansion depends on
  // ------------------------------------------------------------------------------------

  function Names(ps: seq<Piece>): seq<string> {
    if ps == [] then [] else (if ps[0].Ref? then [ps[0].name] else []) + Names(ps[1..])
  }

  /** The names the expander looks up, in order. */
  function Refs(s: string): seq<string> {
    Names(Parse(s))
  }

  lemma NamesTwo(text: string, name: string, rest: seq<Piece>)
    ensures Names([Lit(text), Ref(name)] + rest) == [name] + Names(rest)
  {
    var ps := [Lit(text), Ref(name)] + rest;
    assert ps[1..][1..] == rest;
  }

  lemma RefsUnfold(s: string)
    ensures NextRef(s).None? ==> Refs(s) == []
    ensures NextRef(s).Some? ==> Refs(s) == [NextRef(s).value.name] + Refs(NextRef(s).value.after)
  {
    hide NextRef;
    match NextRef(s)
    case None =>
      assert Names([Lit(s)]) == [];
    case Some(r) =>
      NamesTwo(r.before, r.name, Parse(r.after));
  }

  predicate SameAt(vars: Vars, vars': Vars, name: string) {
    (name in vars <==> name in vars') && (name in vars ==> vars[name] == vars'[name])
  }

  lemma {:induction false} FilledDependsOnNames(ps: seq<Piece>, vars: Vars, vars': Vars)
    requires forall n :: n in Names(ps) ==> SameAt(vars, vars', n)
    ensures Filled(ps, vars) == Filled(ps, vars')
  {
    if ps != [] {
      if ps[0].Ref? {
        assert Names(ps)[0] == ps[0].name;
        assert SameAt(vars, vars', ps[0].name);
      }
      assert Value(ps[0], vars) == Value(ps[0], vars');
      assert forall n :: n in Names(ps[1..]) ==> n in Names(ps);
      FilledDependsOnNames(ps[1..], vars, vars');
    }
  }

  lemma {:induction false} FilledWithNothing(ps: seq<Piece>)
    ensures Filled(ps, map[]) == Unparse(ps)
  {
    if ps != [] {
      FilledWithNothing(ps[1..]);
    }
  }

  /** Expansion changes nothing when it knows none of the names, and in particular when there
      are no variables. */
  lemma ExpansionWithoutVariables(s: string, vars: Vars)
    requires forall n :: n in Refs(s) ==> n !in vars
    ensures Expanded(s, vars) == s
  {
    FilledDependsOnNames(Parse(s), vars, map[]);
    FilledWithNothing(Parse(s));
    ParseIsFaithful(s);
  }

  function Uses(ps: seq<Piece>, name: string): nat {
    if ps == [] then 0 else (if ps[0] == Ref(name) then 1 else 0) + Uses(ps[1..], name)
  }

  lemma {:induction false} NamedIsUsed(ps: seq<Piece>, name: string)
    ensures name in Names(ps) <==> Uses(ps, name) > 0
  {
    if ps != [] {
      NamedIsUsed(ps[1..], name);
      assert name in Names(ps) <==> (ps[0] == Ref(name) || name in Names(ps[1..]));
    }
  }

  /** Each use of a variable contributes its value's length. */
  lemma {:induction false} LengthCountsUses(ps: seq<Piece>, vars: Vars, name: string, v: string, v': string)
    ensures |Filled(ps, vars[name := v])| - |Filled(ps, vars[name := v'])| == Uses(ps, name) * (|v| - |v'|)
  {
    if ps != [] {
      LengthCountsUses(ps[1..], vars, name, v, v');
      var here, d := if ps[0] == Ref(name) then 1 else 0, |v| - |v'|;
      assert |Value(ps[0], vars[name := v])| - |Value(ps[0], vars[name := v'])| == here * d;
      OneMore(here, Uses(ps[1..], name), d);
    }
  }

  /** Values of one length fill the same positions, so different ones can be told apart. */
  lemma {:induction false} FilledTellsApart(ps: seq<Piece>, vars: Vars, name: string, v: string, v': string)
    requires |v| == |v'| && v != v'
    ensures |Filled(ps, vars[name := v])| == |Filled(ps, vars[name := v'])|
    ensures Uses(ps, name) > 0 ==> Filled(ps, vars[name := v]) != Filled(ps, vars[name := v'])
  {
    if ps != [] {
      var a, a' := Value(ps[0], vars[name := v]), Value(ps[0], vars[name := v']);
      var r, r' := Filled(ps[1..], vars[name := v]), Filled(ps[1..], vars[name := v']);
      FilledTellsApart(ps[1..], vars, name, v, v');
      assert |a| == |a'| && (ps[0] == Ref(name) ==> a != a');
      hide Filled, Value;
      assert (a + r)[..|a|] == a && (a' + r')[..|a'|] == a';
      assert (a + r)[|a|..] == r && (a' + r')[|a'|..] == r';
    }
  }

  lemma OneMore(a: nat, b: nat, d: int)
    ensures (a + b) * d == a * d + b * d
  {
  }

  // ------------------------------------------------------------------------------------
  // One reference at a time
  // ------------------------------------------------------------------------------------

  predicate OpensAt(s: string, i: nat) {
    i + 1 < |s| && s[i] == '$' && s[i + 1] == '{'
  }

  lemma OccursIsOpens(s: string, i: nat)
    ensures Occurs(s, "${", i) <==> OpensAt(s, i)
  {
    if i + 2 <= |s| {
      assert s[i..i + 2] == [s[i], s[i + 1]];
    }
  }

  /** The first reference of a text is replaced by its variable's value, or stays as written if there
      is no such variable; what stands before it is copied, and what follows is expanded in turn.
      The name is looked up, and nothing is looked up in what stands before it. */
  lemma ReferenceIsReplaced(before: string, name: string, after: string, vars: Vars)
    requires (forall i :: !OpensAt(before, i)) && '}' !in name
    ensures var s := before + "${" + name + "}" + after;
      && Expanded(s, vars) == before + (if name in vars then vars[name] else "${" + name + "}") + Expanded(after, vars)
      && Refs(s) == [name] + Refs(after)
  {
    forall i: nat
      ensures !Occurs(before, "${", i)
    {
      OccursIsOpens(before, i);
    }
    var r := Reference(before, name, after);
    CleanIsNextRef(r);
    ExpandedUnfolds(Written(r), vars);
    RefsUnfold(Written(r));
    hide NextRef, Expanded, Refs, Find;
  }

  /** A text in which nothing that opens is closed is copied, and nothing is looked up in it. */
  lemma PlainIsCopied(s: string, vars: Vars)
    requires forall i :: OpensAt(s, i) ==> '}' !in s[i + 2..]
    ensures Expanded(s, vars) == s && Refs(s) == []
  {
    var open := Find(s, "${");
    if open.Some? {
      OccursIsOpens(s, open.value);
      NoneWithout(s[open.value + 2..], '}');
    }
    assert NextRef(s).None?;
    ExpandedUnfolds(s, vars);
    RefsUnfold(s);
  }

  // ------------------------------------------------------------------------------------
  // The scanner
  // ------------------------------------------------------------------------------------

  function Tokens(command: Option<string>, args: seq<string>): seq<string> {
    (if command.Some? then [command.value] else []) + args
  }

  function AllRefs(tokens: seq<string>): seq<string> {
    if tokens == [] then [] else AllRefs(tokens[..|tokens| - 1]) + Refs(tokens[|tokens| - 1])
  }

  /** `name` joins the report unless it is no secret or already there. */
  function Noted(found: seq<string>, name: string, secrets: set<string>): seq<string> {
    if name in secrets && name !in found then found + [name] else found
  }

  function NotedAll(found: seq<string>, names: seq<string>, secrets: set<string>): seq<string>
    decreases |names|
  {
    if names == [] then found else NotedAll(Noted(found, names[0], secrets), names[1..], secrets)
  }

  lemma {:induction false} NotedConcat(found: seq<string>, a: seq<string>, b: seq<string>, secrets: set<string>)
    ensures NotedAll(found, a + b, secrets) == NotedAll(NotedAll(found, a, secrets), b, secrets)
    decreases |a|
  {
    if a == [] {
      assert a + b == b;
    } else {
      NotedConcat(Noted(found, a[0], secrets), a[1..], b, secrets);
      assert (a + b)[0] == a[0] && (a + b)[1..] == a[1..] + b;
    }
  }

  lemma NotedNothing(secrets: set<string>)
    ensures NotedAll([], [], secrets) == []
  {
  }

  method Scan(text: string, secrets: set<string>, already: seq<string>) returns (found: seq<string>)
    ensures found == NotedAll(already, Refs(text), secrets)
  {
    hide Refs, Find;
    found := already;
    var rest := text;
    var open := Find(rest, "${");
    while open.Some?
      invariant open == Find(rest, "${")
      invariant NotedAll(found, Refs(rest), secrets) == NotedAll(already, Refs(text), secrets)
      decreases |rest|
    {
      RefsUnfold(rest);
      var after := rest[open.value + 2..];
      var close := Find(after, "}");
      match close {
        case Some(end) =>
          var name := after[..end];
          assert Refs(rest)[1..] == Refs(after[end + 1..]);
          if name in secrets && name !in found {
            found := found + [name];
          }
          rest := after[end + 1..];
        case None =>
          return;
      }
      open := Find(rest, "${");
    }
    RefsUnfold(rest);
  }

  function Report(command: Option<string>, args: seq<string>, secretNames: seq<string>): seq<string> {
    NotedAll([], AllRefs(Tokens(command, args)), Elements(secretNames))
  }

  lemma AllRefsOfNone()
    ensures AllRefs([]) == []
  {
  }

  lemma AllRefsSnoc(tokens: seq<string>, t: string)
    ensures AllRefs(tokens + [t]) == AllRefs(tokens) + Refs(t)
  {
    hide Refs;
    assert (tokens + [t])[..|tokens|] == tokens;
  }

  lemma ReportStart(command: Option<string>, secrets: set<string>)
    ensures NotedAll([], AllRefs(Tokens(command, [])), secrets)
         == if command.Some? then NotedAll([], Refs(command.value), secrets) else []
  {
    hide Refs, NotedAll, AllRefs;
    NotedNothing(secrets);
    AllRefsOfNone();
    if command.Some? {
      assert Tokens(command, []) == [] + [command.value];
      AllRefsSnoc([], command.value);
      NotedConcat([], AllRefs([]), Refs(command.value), secrets);
    } else {
      assert Tokens(command, []) == [];
    }
  }

  lemma ReportStep(command: Option<string>, args: seq<string>, i: nat, secrets: set<string>)
    requires i < |args|
    ensures NotedAll([], AllRefs(Tokens(command, args[..i + 1])), secrets)
         == NotedAll(NotedAll([], AllRefs(Tokens(command, args[..i])), secrets), Refs(args[i]), secrets)
  {
    hide Refs, NotedAll, AllRefs;
    var before := Tokens(command, args[..i]);
    assert Tokens(command, args[..i + 1]) == before + [args[i]];
    AllRefsSnoc(before, args[i]);
    NotedConcat([], AllRefs(before), Refs(args[i]), secrets);
  }

  method SecretRefsInArgv(command: Option<string>, args: seq<string>, secretNames: seq<string>) returns (found: seq<string>)
    ensures found == Report(command, args, secretNames)
  {
    hide Refs, NotedAll, AllRefs, Tokens;
    var secrets := set n | n in secretNames;
    assert secrets == Elements(secretNames);
    found := [];
    if command.Some? {
      found := Scan(command.value, secrets, found);
    }
    ReportStart(command, secrets);
    assert args[..0] == [];
    var i := 0;
    while i < |args|
      invariant 0 <= i <= |args|
      invariant found == NotedAll([], AllRefs(Tokens(command, args[..i])), secrets)
    {
      found := Scan(args[i], secrets, found);
      ReportStep(command, args, i, secrets);
      i := i + 1;
    }
    assert args[..i] == args;
  }

  // ------------------------------------------------------------------------------------
  // The scanner agrees with the expander
  // ------------------------------------------------------------------------------------

  /** `a` occurs before any `b` does. */
  ghost predicate Precedes(names: seq<string>, a: string, b: string) {
    exists p :: 0 <= p < |names| && names[p] == a && b !in names[..p + 1]
  }

  lemma PrecedesExtends(names: seq<string>, x: string, a: string, b: string)
    requires Precedes(names, a, b)
    ensures Precedes(names + [x], a, b)
  {
    var p :| 0 <= p < |names| && names[p] == a && b !in names[..p + 1];
    assert (names + [x])[p] == a && (names + [x])[..p + 1] == names[..p + 1];
  }

  lemma LastPrecedesNothingNew(names: seq<string>, a: string, x: string)
    requires a in names && x !in names
    ensures Precedes(names + [x], a, x)
  {
    var p :| 0 <= p < |names| && names[p] == a;
    assert (names + [x])[p] == a && (names + [x])[..p + 1] == names[..p + 1];
  }

  /** The report holds each secret that is looked up, once, in order of first occurrence. */
  lemma {:induction false} NotedIsFirstOccurrences(names: seq<string>, secrets: set<string>)
    ensures var found := NotedAll([], names, secrets);
      && (forall n :: n in found <==> n in secrets && n in names)
      && (forall i, j :: 0 <= i < j < |found| ==> found[i] != found[j] && Precedes(names, found[i], found[j]))
    decreases |names|
  {
    if names != [] {
      var init, x := names[..|names| - 1], names[|names| - 1];
      var before, found := NotedAll([], init, secrets), NotedAll([], names, secrets);
      assert names == init + [x];
      NotedConcat([], init, [x], secrets);
      assert [x][1..] == [];
      assert found == Noted(before, x, secrets);
      NotedIsFirstOccurrences(init, secrets);
      hide NotedAll, Precedes;
      forall i, j | 0 <= i < j < |found|
        ensures found[i] != found[j] && Precedes(names, found[i], found[j])
      {
        if j < |before| {
          PrecedesExtends(init, x, before[i], before[j]);
        } else {
          LastPrecedesNothingNew(init, before[i], x);
        }
      }
    }
  }

  lemma {:induction false} AllRefsCollects(tokens: seq<string>, n: string)
    ensures n in AllRefs(tokens) <==> exists t :: t in tokens && n in Refs(t)
  {
    hide Refs;
    if tokens != [] {
      var init, last := tokens[..|tokens| - 1], tokens[|tokens| - 1];
      AllRefsCollects(init, n);
      assert tokens == init + [last];
    }
  }

  /** What the scanner reports is what a command line exposes: a stored secret is reported exactly
      when giving it another value changes some expanded token. */
  lemma ReportedIffExposed(command: Option<string>, args: seq<string>, secretNames: seq<string>,
                           name: string, vars: Vars, v: string, v': string)
    requires name in secretNames && v != v'
    ensures name in Report(command, args, secretNames) <==>
      exists t :: (command == Some(t) || t in args) && Expanded(t, vars[name := v]) != Expanded(t, vars[name := v'])
  {
    var tokens := Tokens(command, args);
    assert forall t :: t in tokens <==> command == Some(t) || t in args;
    NotedIsFirstOccurrences(AllRefs(tokens), Elements(secretNames));
    AllRefsCollects(tokens, name);
    hide NotedAll, AllRefs, Parse, Tokens;
    forall t | t in tokens
      ensures name in Refs(t) <==> Expanded(t, vars[name := v]) != Expanded(t, vars[name := v'])
    {
      LookedUpIffMatters(t, name, vars, v, v');
    }
  }

  lemma LookedUpIffMatters(s: string, name: string, vars: Vars, v: string, v': string)
    requires v != v'
    ensures name in Refs(s) <==> Expanded(s, vars[name := v]) != Expanded(s, vars[name := v'])
  {
    NamedIsUsed(Parse(s), name);
    if name !in Refs(s) {
      FilledDependsOnNames(Parse(s), vars[name := v], vars[name := v']);
    } else if |v| == |v'| {
      FilledTellsApart(Parse(s), vars, name, v, v');
    } else {
      LengthCountsUses(Parse(s), vars, name, v, v');
      NonZero(Uses(Parse(s), name), |v| - |v'|);
    }
  }

  lemma NonZero(a: int, b: int)
    requires a != 0 && b != 0
    ensures a * b != 0
  {
  }

  /** The unreported secrets may all change, appear or vanish together: the argv stays the same. */
  lemma UnreportedSecretsStayHidden(command: Option<string>, args: seq<string>, secretNames: seq<string>, vars: Vars, vars': Vars)
    requires forall n :: (n in secretNames && n !in Report(command, args, secretNames)) || SameAt(vars, vars', n)
    ensures forall t :: command == Some(t) || t in args ==> Expanded(t, vars) == Expanded(t, vars')
  {
    var tokens := Tokens(command, args);
    assert forall t :: command == Some(t) || t in args ==> t in tokens;
    NotedIsFirstOccurrences(AllRefs(tokens), Elements(secretNames));
    forall t | t in tokens
      ensures Expanded(t, vars) == Expanded(t, vars')
    {
      forall n | n in Refs(t)
        ensures n !in secretNames || n in Report(command, args, secretNames)
      {
        AllRefsCollects(tokens, n);
      }
      FilledDependsOnNames(Parse(t), vars, vars');
    }
  }

  lemma {:induction false} AllRefsConcat(a: seq<string>, b: seq<string>)
    ensures AllRefs(a + b) == AllRefs(a) + AllRefs(b)
    decreases |b|
  {
    hide Refs;
    if b == [] {
      assert a + b == a;
    } else {
      var init, last := b[..|b| - 1], b[|b| - 1];
      AllRefsConcat(a, init);
      assert b == init + [last] && a + b == a + init + [last];
      AllRefsSnoc(a + init, last);
      AllRefsSnoc(init, last);
    }
  }

  lemma {:induction false} NotedGrows(found: seq<string>, names: seq<string>, secrets: set<string>)
    ensures found <= NotedAll(found, names, secrets)
    decreases |names|
  {
    if names != [] {
      NotedGrows(Noted(found, names[0], secrets), names[1..], secrets);
    }
  }

  /** The report is in reading order, the command first: it names nothing twice, a longer command
      line adds names only at its end, and the command counts as the first argument would. */
  lemma ReportInOrder(command: Option<string>, args: seq<string>, more: seq<string>, secretNames: seq<string>)
    ensures var found := Report(command, args, secretNames);
      && (forall i, j :: 0 <= i < j < |found| ==> found[i] != found[j])
      && found <= Report(command, args + more, secretNames)
      && (command.Some? ==> found == Report(None, [command.value] + args, secretNames))
  {
    var secrets, tokens := Elements(secretNames), Tokens(command, args);
    assert Tokens(command, args + more) == tokens + more;
    assert Tokens(None, tokens) == tokens;
    AllRefsConcat(tokens, more);
    NotedIsFirstOccurrences(AllRefs(tokens), secrets);
    NotedConcat([], AllRefs(tokens), AllRefs(more), secrets);
    NotedGrows(NotedAll([], AllRefs(tokens), secrets), AllRefs(more), secrets);
    hide NotedAll, AllRefs, Elements;
  }

  /** Within one text likewise: a referenced secret is reported before what follows it. */
  lemma ReportWithinText(before: string, name: string, after: string, secretNames: seq<string>)
    requires (forall i :: !OpensAt(before, i)) && '}' !in name && name in secretNames
    ensures [name] <= Report(Some(before + "${" + name + "}" + after), [], secretNames)
  {
    var s, secrets := before + "${" + name + "}" + after, Elements(secretNames);
    ReferenceIsReplaced(before, name, after, map[]);
    ReportStart(Some(s), secrets);
    assert Noted([], name, secrets) == [name];
    NotedGrows([name], Refs(after), secrets);
    assert ([name] + Refs(after))[1..] == Refs(after);
    hide Refs, AllRefs, Elements;
  }
}
