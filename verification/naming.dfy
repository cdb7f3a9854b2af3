/** Names that carry their route: `<namespace>__<tool>` for tools and prompts,
    `hub://<namespace>/<uri>` for resources, and which namespaces a route survives. */
module Naming {
  import opened Wrappers
  import opened Text

  const RESERVED_NAMESPACE: string := "hub"
  const MAX_NAMESPACE_BYTES: nat := 32

  // ------------------------------------------------------------------------------------
  // Namespaces
  // ------------------------------------------------------------------------------------

  datatype NamespaceError = BadLength | Reserved | BadCharacter

  function Utf8Bytes(c: char): nat {
    if c as int < 0x80 then 1 else if c as int < 0x800 then 2 else if c as int < 0x10000 then 3 else 4
  }

  function ByteLength(s: string): nat {
    if s == "" then 0 else Utf8Bytes(s[0]) + ByteLength(s[1..])
  }

  predicate IsNamespaceChar(c: char) {
    'a' <= c <= 'z' || '0' <= c <= '9' || c == '_'
  }

  function ValidateNamespace(ns: string): (r: Result<(), NamespaceError>)
    ensures r.Ok? ==> ns != "" && ns != RESERVED_NAMESPACE && '/' !in ns
  {
    if ns == "" || ByteLength(ns) > MAX_NAMESPACE_BYTES then Err(BadLength)
    else if ns == RESERVED_NAMESPACE then Err(Reserved)
    else if forall i :: 0 <= i < |ns| ==> IsNamespaceChar(ns[i]) then Ok(())
    else Err(BadCharacter)
  }

  lemma {:induction false} NamespaceBytes(ns: string)
    ensures ByteLength(ns) >= |ns|
    ensures (forall i :: 0 <= i < |ns| ==> IsNamespaceChar(ns[i])) ==> ByteLength(ns) == |ns|
  {
    if ns != "" {
      NamespaceBytes(ns[1..]);
      assert (forall i :: 0 <= i < |ns| ==> IsNamespaceChar(ns[i])) ==> IsNamespaceChar(ns[0]) && Utf8Bytes(ns[0]) == 1;
    }
  }

  /** Exactly the valid namespaces: one to 32 lowercase letters, digits and underscores, and not the
      reserved one. Bytes and characters are the same thing on that alphabet. */
  lemma ValidNamespaces(ns: string)
    ensures ValidateNamespace(ns).Ok? <==>
            && 1 <= |ns| <= 32 && ns != "hub"
            && forall i :: 0 <= i < |ns| ==> 'a' <= ns[i] <= 'z' || '0' <= ns[i] <= '9' || ns[i] == '_'
    ensures ValidateNamespace(ns) == Err(Reserved) <==> ns == "hub"
  {
    NamespaceBytes(ns);
  }

  // ------------------------------------------------------------------------------------
  // Tools and prompts
  // ------------------------------------------------------------------------------------

  function Join(ns: string, name: string): string {
    ns + "__" + name
  }

  predicate IsManagementTool(name: string) {
    "hub__" <= name
  }

  /** The first `__` of any name in this namespace is the separator. */
  predicate Splittable(ns: string) {
    Find(ns, "__").None? && (ns == "" || ns[|ns| - 1] != '_')
  }

  lemma OccursPair(s: string, i: nat)
    ensures Occurs(s, "__", i) <==> i + 1 < |s| && s[i] == '_' && s[i + 1] == '_'
  {
    if i + 1 < |s| {
      assert s[i..i + 2] == [s[i], s[i + 1]];
    }
  }

  /** Splitting a name at its first `__` recovers the namespace and the tool exactly when the
      namespace has no `__` and does not end in `_`, whatever the tool is called. */
  lemma SplitInvertsJoin(ns: string, name: string)
    ensures SplitOnce(Join(ns, name), "__") == Some((ns, name)) <==> Splittable(ns)
  {
    var full := Join(ns, name);
    OccursPair(full, |ns|);
    if Splittable(ns) {
      forall j: nat | j < |ns|
        ensures !Occurs(full, "__", j)
      {
        OccursPair(full, j);
        OccursPair(ns, j);
      }
      FirstIsFind(full, "__", |ns|);
    } else if Find(ns, "__").Some? {
      OccursPair(ns, Find(ns, "__").value);
      OccursPair(full, Find(ns, "__").value);
    } else {
      OccursPair(full, |ns| - 1);
    }
  }

  lemma JoinIsInjective(ns: string, name: string, ns': string, name': string)
    requires Splittable(ns) && Splittable(ns') && Join(ns, name) == Join(ns', name')
    ensures ns == ns' && name == name'
  {
    SplitInvertsJoin(ns, name);
    SplitInvertsJoin(ns', name');
  }

  /** A backend's tool looks like a management tool exactly in these namespaces, of which validation
      rejects only the first for that reason. */
  lemma ManagementShadows(ns: string, name: string)
    ensures IsManagementTool(Join(ns, name)) <==> ns == RESERVED_NAMESPACE || ns == "hub_" || "hub__" <= ns
  {
    var full := Join(ns, name);
    if IsManagementTool(full) {
      assert full[0] == 'h' && full[1] == 'u' && full[2] == 'b';
      assert |ns| >= 3;
      if |ns| >= 5 {
        assert ns[..5] == full[..5];
      } else if |ns| == 3 {
        assert ns == full[..3] == "hub";
      } else {
        assert ns == full[..4] == "hub_";
      }
    }
  }

  lemma SplittableIsNoManagement(ns: string, name: string)
    requires Splittable(ns)
    ensures IsManagementTool(Join(ns, name)) <==> ns == RESERVED_NAMESPACE
  {
    ManagementShadows(ns, name);
    OccursPair(ns, 3);
  }

  /** Validation lets namespaces through that no route survives: one ending in `_`, one with `__`
      inside, and one whose tools are taken for management tools. */
  lemma ValidButUnroutable(name: string)
    ensures ValidateNamespace("a_").Ok? && !Splittable("a_")
    ensures ValidateNamespace("a__b").Ok? && !Splittable("a__b")
    ensures ValidateNamespace("hub_").Ok? && IsManagementTool(Join("hub_", name))
  {
    ValidNamespaces("a_");
    ValidNamespaces("a__b");
    ValidNamespaces("hub_");
    OccursPair("a__b", 1);
    ManagementShadows("hub_", name);
  }

  // ------------------------------------------------------------------------------------
  // Resources
  // ------------------------------------------------------------------------------------

  const SCHEME: string := "hub://"

  function WrapUri(ns: string, uri: string): string {
    SCHEME + ns + "/" + uri
  }

  function UnwrapUri(wrapped: string): Option<(string, string)> {
    if SCHEME <= wrapped then SplitOnce(wrapped[|SCHEME|..], "/") else None
  }

  /** A wrapped URI unwraps to what was wrapped exactly when the namespace has no `/`. */
  lemma UnwrapInvertsWrap(ns: string, uri: string)
    ensures UnwrapUri(WrapUri(ns, uri)) == Some((ns, uri)) <==> '/' !in ns
  {
    assert WrapUri(ns, uri)[|SCHEME|..] == ns + ['/'] + uri;
    SplitAtChar(ns, '/', uri);
  }

  /** Only wrapped URIs unwrap. */
  lemma WrapInvertsUnwrap(wrapped: string)
    requires UnwrapUri(wrapped).Some?
    ensures WrapUri(UnwrapUri(wrapped).value.0, UnwrapUri(wrapped).value.1) == wrapped
  {
    var rest := wrapped[|SCHEME|..];
    var (ns, uri) := UnwrapUri(wrapped).value;
    assert rest == ns + "/" + uri;
    assert wrapped == SCHEME + rest;
    hide SplitOnce;
    Assoc(SCHEME, ns, "/", uri);
  }
}
