/** Fan-out and fan-in on a connector group's endpoint: listing the tools of the backends a caller
    may see, and finding the backend a tool call or a resource read is for. */
module Routing {
  import opened Wrappers
  import opened Text
  import opened Naming

  type InstanceId = string

  /** `tools` is what listing the backend's tools returns, if it returns. */
  datatype Backend = Backend(instanceId: InstanceId, namespace: string, tools: Option<seq<string>>)

  datatype RouteError = ManagementElsewhere | NotNamespaced | NoSuchServer

  /** Who is asking: the group's members, and the instances the credential is denied. */
  datatype Caller = Caller(members: set<InstanceId>, denied: set<InstanceId>)

  predicate Sees(caller: Caller, b: Backend) {
    b.instanceId in caller.members && b.instanceId !in caller.denied
  }

  // ------------------------------------------------------------------------------------
  // Listing
  // ------------------------------------------------------------------------------------

  function Prefixed(ns: string, tools: seq<string>): (r: seq<string>)
    ensures |r| == |tools| && forall i :: 0 <= i < |r| ==> r[i] == Join(ns, tools[i])
  {
    seq(|tools|, i requires 0 <= i < |tools| => Join(ns, tools[i]))
  }

  function ToolsOf(b: Backend, caller: Caller): seq<string> {
    if Sees(caller, b) && b.tools.Some? then Prefixed(b.namespace, b.tools.value) else []
  }

  function Listing(backends: seq<Backend>, caller: Caller): seq<string> {
    if backends == [] then []
    else Listing(backends[..|backends| - 1], caller) + ToolsOf(backends[|backends| - 1], caller)
  }

  method GroupBackends(backends: seq<Backend>, members: set<InstanceId>) returns (group: seq<Backend>)
    ensures group == InGroup(backends, members)
  {
    group := [];
    for i := 0 to |backends|
      invariant group == InGroup(backends[..i], members)
    {
      assert backends[..i + 1][..i] == backends[..i];
      if backends[i].instanceId in members {
        group := group + [backends[i]];
      }
    }
    assert backends[..|backends|] == backends;
  }

  function InGroup(backends: seq<Backend>, members: set<InstanceId>): seq<Backend> {
    if backends == [] then []
    else
      var last := backends[|backends| - 1];
      InGroup(backends[..|backends| - 1], members) + if last.instanceId in members then [last] else []
  }

  /** One backend after the other, in backend order; one that fails to answer is skipped. */
  method ListTools(backends: seq<Backend>, caller: Caller) returns (tools: seq<string>)
    ensures tools == Listing(backends, caller)
  {
    hide Listing, InGroup, Prefixed;
    var group := GroupBackends(backends, caller.members);
    tools := [];
    ListingOfNone(caller);
    assert group[..0] == [];
    for i := 0 to |group|
      invariant tools == Listing(group[..i], caller)
    {
      assert group[..i + 1] == group[..i] + [group[i]];
      ListingSnoc(group[..i], group[i], caller);
      if group[i].instanceId !in caller.denied {
        match group[i].tools {
          case Some(own) =>
            GroupHasMembers(backends, caller.members, group[i]);
            tools := tools + Prefixed(group[i].namespace, own);
          case None =>
        }
      }
    }
    assert group[..|group|] == group;
    GroupListsTheSame(backends, caller);
  }

  lemma {:induction false} GroupHasMembers(backends: seq<Backend>, members: set<InstanceId>, b: Backend)
    ensures b in InGroup(backends, members) <==> b in backends && b.instanceId in members
  {
    if backends != [] {
      var init, last := backends[..|backends| - 1], backends[|backends| - 1];
      GroupHasMembers(init, members, b);
      assert backends == init + [last];
    }
  }

  lemma ListingOfNone(caller: Caller)
    ensures Listing([], caller) == []
  {
  }

  lemma ListingSnoc(backends: seq<Backend>, b: Backend, caller: Caller)
    ensures Listing(backends + [b], caller) == Listing(backends, caller) + ToolsOf(b, caller)
  {
    assert (backends + [b])[..|backends|] == backends;
  }

  lemma {:induction false} GroupListsTheSame(backends: seq<Backend>, caller: Caller)
    ensures Listing(InGroup(backends, caller.members), caller) == Listing(backends, caller)
  {
    hide ToolsOf;
    if backends != [] {
      var init, last := backends[..|backends| - 1], backends[|backends| - 1];
      GroupListsTheSame(init, caller);
      if last.instanceId in caller.members {
        ListingSnoc(InGroup(init, caller.members), last, caller);
      } else {
        OutsidersListNothing(last, caller);
        assert InGroup(backends, caller.members) == InGroup(init, caller.members);
      }
    }
  }

  lemma OutsidersListNothing(b: Backend, caller: Caller)
    requires b.instanceId !in caller.members
    ensures ToolsOf(b, caller) == []
  {
  }

  lemma {:induction false} ListingConcat(a: seq<Backend>, b: seq<Backend>, caller: Caller)
    ensures Listing(a + b, caller) == Listing(a, caller) + Listing(b, caller)
    decreases |b|
  {
    hide ToolsOf;
    if b == [] {
      assert a + b == a;
    } else {
      var init, last := b[..|b| - 1], b[|b| - 1];
      ListingConcat(a, init, caller);
      assert b == init + [last] && a + b == a + init + [last];
      ListingSnoc(a + init, last, caller);
      ListingSnoc(init, last, caller);
    }
  }

  /** The listing keeps the order of the backends and each backend's own: it is the listing of the
      first backends followed by that of the others, and of one backend it holds every tool in its
      place, provided the backend is in the group, not denied, and answered. */
  lemma ListingInOrder(before: seq<Backend>, b: Backend, after: seq<Backend>, caller: Caller)
    ensures Listing(before + [b] + after, caller) == Listing(before, caller) + Listing([b], caller) + Listing(after, caller)
    ensures if b.instanceId in caller.members && b.instanceId !in caller.denied && b.tools.Some? then
              && |Listing([b], caller)| == |b.tools.value|
              && forall i :: 0 <= i < |b.tools.value| ==> Listing([b], caller)[i] == b.namespace + "__" + b.tools.value[i]
            else Listing([b], caller) == []
  {
    ListingConcat(before + [b], after, caller);
    ListingConcat(before, [b], caller);
    ListingSnoc([], b, caller);
    assert [] + [b] == [b];
    hide Listing;
  }

  predicate Offers(b: Backend, name: string) {
    b.tools.Some? && exists i :: 0 <= i < |b.tools.value| && name == b.namespace + "__" + b.tools.value[i]
  }

  /** Exactly the names under which a backend of the group that the credential is not denied, and
      that answered, offers a tool. */
  lemma {:induction false} ListedIffOffered(name: string, backends: seq<Backend>, caller: Caller)
    ensures name in Listing(backends, caller) <==>
            exists b :: b in backends && b.instanceId in caller.members && b.instanceId !in caller.denied && Offers(b, name)
  {
    if backends != [] {
      var init, last := backends[..|backends| - 1], backends[|backends| - 1];
      ListedIffOffered(name, init, caller);
      assert backends == init + [last] + [];
      ListingInOrder(init, last, [], caller);
      OfferedIfListed(name, last, caller);
      ListingOfNone(caller);
      hide Listing, Offers, ToolsOf;
    }
  }

  lemma OfferedIfListed(name: string, b: Backend, caller: Caller)
    ensures name in Listing([b], caller) <==>
            b.instanceId in caller.members && b.instanceId !in caller.denied && Offers(b, name)
  {
    ListingInOrder([], b, [], caller);
    hide Listing;
  }

  // ------------------------------------------------------------------------------------
  // Finding the backend
  // ------------------------------------------------------------------------------------

  /** The first backend of that namespace that the caller sees. */
  function Seen(backends: seq<Backend>, caller: Caller, ns: string): Option<Backend> {
    if backends == [] then None
    else if Sees(caller, backends[0]) && backends[0].namespace == ns then Some(backends[0])
    else Seen(backends[1..], caller, ns)
  }

  /** Where a prompt name leads. */
  function Named(name: string, backends: seq<Backend>, caller: Caller): Result<(Backend, string), RouteError> {
    match SplitOnce(name, "__")
    case None => Err(NotNamespaced)
    case Some((ns, original)) =>
      match Seen(backends, caller, ns)
      case None => Err(NoSuchServer)
      case Some(b) => Ok((b, original))
  }

  /** Where a tool name leads: management tools are not served here. */
  function Routed(name: string, backends: seq<Backend>, caller: Caller): Result<(Backend, string), RouteError> {
    if IsManagementTool(name) then Err(ManagementElsewhere) else Named(name, backends, caller)
  }

  method FindBackend(backends: seq<Backend>, caller: Caller, ns: string) returns (found: Option<Backend>)
    ensures found == Seen(backends, caller, ns)
  {
    for i := 0 to |backends|
      invariant Seen(backends, caller, ns) == Seen(backends[i..], caller, ns)
    {
      if backends[i].instanceId in caller.members && backends[i].namespace == ns && backends[i].instanceId !in caller.denied {
        return Some(backends[i]);
      }
    }
    return None;
  }

  method RouteName(name: string, backends: seq<Backend>, caller: Caller) returns (r: Result<(Backend, string), RouteError>)
    ensures r == Named(name, backends, caller)
    ensures r.Ok? ==>
              r.value.0 in backends && Sees(caller, r.value.0) && name == Join(r.value.0.namespace, r.value.1)
  {
    hide Seen;
    var split := SplitOnce(name, "__");
    if split.None? {
      return Err(NotNamespaced);
    }
    var backend := FindBackend(backends, caller, split.value.0);
    SeenIsSeen(backends, caller, split.value.0);
    if backend.None? {
      return Err(NoSuchServer);
    }
    return Ok((backend.value, split.value.1));
  }

  method CallTool(name: string, backends: seq<Backend>, caller: Caller) returns (r: Result<(Backend, string), RouteError>)
    ensures r == Routed(name, backends, caller)
    ensures r.Ok? ==>
              && r.value.0 in backends && Sees(caller, r.value.0)
              && name == Join(r.value.0.namespace, r.value.1) && !IsManagementTool(name)
  {
    if IsManagementTool(name) {
      return Err(ManagementElsewhere);
    }
    r := RouteName(name, backends, caller);
  }

  lemma {:induction false} SeenIsSeen(backends: seq<Backend>, caller: Caller, ns: string)
    ensures match Seen(backends, caller, ns)
            case Some(b) => b in backends && Sees(caller, b) && b.namespace == ns
            case None => forall b :: b in backends && Sees(caller, b) ==> b.namespace != ns
  {
    if backends != [] {
      SeenIsSeen(backends[1..], caller, ns);
    }
  }

  /** No two backends the caller sees share a namespace, as the instance table requires. */
  predicate DistinctNamespaces(backends: seq<Backend>, caller: Caller) {
    forall b, b' :: b in backends && b' in backends && Sees(caller, b) && Sees(caller, b') && b.namespace == b'.namespace ==> b == b'
  }

  /** A prompt called under its namespaced name reaches its backend exactly when the namespace can
      be split off. */
  lemma NameFindsBackend(b: Backend, original: string, backends: seq<Backend>, caller: Caller)
    requires b in backends && Sees(caller, b) && DistinctNamespaces(backends, caller)
    ensures Named(Join(b.namespace, original), backends, caller) == Ok((b, original)) <==> Splittable(b.namespace)
  {
    hide Splittable, SplitOnce;
    SplitInvertsJoin(b.namespace, original);
    var split := SplitOnce(Join(b.namespace, original), "__");
    if split.Some? {
      SeenIsSeen(backends, caller, split.value.0);
    }
  }

  /** Every tool a backend offers is listed, and calling it under its listed name reaches that
      backend and that tool exactly when the namespace can be split off and is not the reserved one. */
  lemma ListedToolIsCallable(b: Backend, tool: string, backends: seq<Backend>, caller: Caller)
    requires b in backends && Sees(caller, b) && b.tools.Some? && tool in b.tools.value
    requires DistinctNamespaces(backends, caller)
    ensures Join(b.namespace, tool) in Listing(backends, caller)
    ensures Routed(Join(b.namespace, tool), backends, caller) == Ok((b, tool)) <==>
            Splittable(b.namespace) && b.namespace != RESERVED_NAMESPACE
  {
    var name := Join(b.namespace, tool);
    var i :| 0 <= i < |b.tools.value| && b.tools.value[i] == tool;
    assert Offers(b, name);
    ListedIffOffered(name, backends, caller);
    NameFindsBackend(b, tool, backends, caller);
    hide Splittable, SplitOnce, Listing, Named;
    if Splittable(b.namespace) {
      SplittableIsNoManagement(b.namespace, tool);
    }
  }

  /** `b` is the first of the group's backends of that namespace that the credential is not denied. */
  predicate IsFirst(b: Backend, backends: seq<Backend>, caller: Caller, ns: string) {
    exists i :: 0 <= i < |backends| && backends[i] == b && Serves(b, caller, ns) && NoneBefore(i, backends, caller, ns)
  }

  predicate Serves(b: Backend, caller: Caller, ns: string) {
    b.instanceId in caller.members && b.instanceId !in caller.denied && b.namespace == ns
  }

  predicate NoneBefore(i: nat, backends: seq<Backend>, caller: Caller, ns: string)
    requires i <= |backends|
  {
    forall j :: 0 <= j < i ==> !Serves(backends[j], caller, ns)
  }

  predicate NoneServes(backends: seq<Backend>, caller: Caller, ns: string) {
    forall b :: b in backends ==> !Serves(b, caller, ns)
  }

  lemma {:induction false} SeenIsFirst(backends: seq<Backend>, caller: Caller, ns: string)
    ensures Seen(backends, caller, ns).None? <==> NoneServes(backends, caller, ns)
    ensures forall b :: Seen(backends, caller, ns) == Some(b) <==> IsFirst(b, backends, caller, ns)
  {
    SeenIsSeen(backends, caller, ns);
    var seen := Seen(backends, caller, ns);
    if seen.Some? {
      var i := SeenAt(backends, caller, ns);
      assert IsFirst(seen.value, backends, caller, ns);
      forall b | IsFirst(b, backends, caller, ns)
        ensures b == seen.value
      {
        var j :| 0 <= j < |backends| && backends[j] == b && Serves(b, caller, ns) && NoneBefore(j, backends, caller, ns);
        assert !(i < j) && !(j < i);
      }
    }
  }

  lemma {:induction false} SeenAt(backends: seq<Backend>, caller: Caller, ns: string) returns (i: nat)
    requires Seen(backends, caller, ns).Some?
    ensures i < |backends| && Seen(backends, caller, ns) == Some(backends[i])
    ensures Serves(backends[i], caller, ns) && NoneBefore(i, backends, caller, ns)
  {
    if Serves(backends[0], caller, ns) {
      i := 0;
    } else {
      var rest := SeenAt(backends[1..], caller, ns);
      i := rest + 1;
      assert forall j :: 0 < j < i ==> backends[j] == backends[1..][j - 1];
    }
  }

  predicate PairAt(name: string, i: nat) {
    i + 1 < |name| && name[i] == '_' && name[i + 1] == '_'
  }

  /** What stands before the first `__` is the namespace, and the backend is the first visible one. */
  predicate LeadsTo(name: string, b: Backend, original: string, backends: seq<Backend>, caller: Caller) {
    && name == b.namespace + "__" + original
    && (forall i: nat :: i < |b.namespace| ==> !PairAt(name, i))
    && IsFirst(b, backends, caller, b.namespace)
  }

  /** Where a tool name leads, case by case: management names are refused before anything else, then
      names without a `__`, then those of no visible backend's namespace; any other name leads to the
      first visible backend of what stands before its first `__`. */
  lemma CallOutcome(name: string, backends: seq<Backend>, caller: Caller)
    ensures var r := Routed(name, backends, caller);
      && (r == Err(ManagementElsewhere) <==> "hub__" <= name)
      && (r == Err(NotNamespaced) <==> !("hub__" <= name) && forall i: nat :: !PairAt(name, i))
      && (forall b: Backend, tool: string :: r == Ok((b, tool)) <==>
            !("hub__" <= name) && LeadsTo(name, b, tool, backends, caller))
      && (r == Err(NoSuchServer) <==>
            && !("hub__" <= name)
            && exists i: nat :: PairAt(name, i) && (forall j: nat :: j < i ==> !PairAt(name, j)) && NoneServes(backends, caller, name[..i]))
  {
    NameOutcome(name, backends, caller);
    hide Named, LeadsTo, NoneServes;
  }

  /** The same for prompts, among whose names none is reserved. */
  lemma NameOutcome(name: string, backends: seq<Backend>, caller: Caller)
    ensures var r := Named(name, backends, caller);
      && r != Err(ManagementElsewhere)
      && (r == Err(NotNamespaced) <==> forall i: nat :: !PairAt(name, i))
      && (forall b: Backend, original: string :: r == Ok((b, original)) <==> LeadsTo(name, b, original, backends, caller))
      && (r == Err(NoSuchServer) <==>
            exists i: nat :: PairAt(name, i) && (forall j: nat :: j < i ==> !PairAt(name, j)) && NoneServes(backends, caller, name[..i]))
  {
    forall i: nat
      ensures Occurs(name, "__", i) <==> PairAt(name, i)
    {
      OccursPair(name, i);
    }
    var split := SplitOnce(name, "__");
    if split.Some? {
      SeenIsFirst(backends, caller, split.value.0);
      assert PairAt(name, |split.value.0|) && name[..|split.value.0|] == split.value.0;
      hide Seen, SplitOnce, Occurs, IsFirst, NoneServes;
    }
    hide Named, IsFirst, NoneServes, PairAt;
    forall b: Backend, original: string
      ensures Named(name, backends, caller) == Ok((b, original)) <==> LeadsTo(name, b, original, backends, caller)
    {
      NameLeadsTo(name, b, original, backends, caller);
    }
  }

  lemma NameLeadsTo(name: string, b: Backend, original: string, backends: seq<Backend>, caller: Caller)
    ensures Named(name, backends, caller) == Ok((b, original)) <==> LeadsTo(name, b, original, backends, caller)
  {
    SplitIsFirstPair(name, b.namespace, original);
    var split := SplitOnce(name, "__");
    hide SplitOnce, Seen, PairAt;
    SeenIsFirst(backends, caller, b.namespace);
    if split.Some? {
      SeenIsFirst(backends, caller, split.value.0);
    }
    hide IsFirst, NoneServes;
  }

  /** A name splits at its first pair of underscores. */
  lemma SplitIsFirstPair(name: string, ns: string, original: string)
    ensures SplitOnce(name, "__") == Some((ns, original)) <==>
            name == ns + "__" + original && forall i: nat :: i < |ns| ==> !PairAt(name, i)
  {
    forall i: nat
      ensures Occurs(name, "__", i) <==> PairAt(name, i)
    {
      OccursPair(name, i);
    }
    hide PairAt, Find;
    if name == ns + "__" + original && forall i: nat :: i < |ns| ==> !PairAt(name, i) {
      assert name[|ns|..|ns| + 2] == "__";
      FirstIsFind(name, "__", |ns|);
    }
  }

  /** A call never reaches a backend outside the group or one the credential is denied, and always
      carries on the rest of the name it was made under. */
  lemma RouteStaysInside(name: string, backends: seq<Backend>, caller: Caller)
    requires Routed(name, backends, caller).Ok?
    ensures var (b, original) := Routed(name, backends, caller).value;
      b in backends && Sees(caller, b) && name == Join(b.namespace, original) && !IsManagementTool(name)
  {
    SeenIsSeen(backends, caller, SplitOnce(name, "__").value.0);
  }

  // ------------------------------------------------------------------------------------
  // Resources
  // ------------------------------------------------------------------------------------

  function RoutedUri(uri: string, backends: seq<Backend>, caller: Caller): Result<(Backend, string), RouteError> {
    match UnwrapUri(uri)
    case None => Err(NotNamespaced)
    case Some((ns, original)) =>
      match Seen(backends, caller, ns)
      case None => Err(NoSuchServer)
      case Some(b) => Ok((b, original))
  }

  /** Where a resource URI leads, case by case. */
  lemma ReadOutcome(uri: string, backends: seq<Backend>, caller: Caller)
    ensures var r := RoutedUri(uri, backends, caller);
      && r != Err(ManagementElsewhere)
      && (r == Err(NotNamespaced) <==> !("hub://" <= uri && '/' in uri[6..]))
      && (forall b: Backend, original: string :: r == Ok((b, original)) <==>
            && uri == "hub://" + b.namespace + "/" + original && '/' !in b.namespace
            && IsFirst(b, backends, caller, b.namespace))
  {
    if SCHEME <= uri {
      NoneWithout(uri[6..], '/');
    }
    hide RoutedUri;
    forall b: Backend, original: string
      ensures RoutedUri(uri, backends, caller) == Ok((b, original)) <==>
              && uri == "hub://" + b.namespace + "/" + original && '/' !in b.namespace
              && IsFirst(b, backends, caller, b.namespace)
    {
      UriLeadsTo(uri, b, original, backends, caller);
    }
    ReadFails(uri, backends, caller);
  }

  lemma ReadFails(uri: string, backends: seq<Backend>, caller: Caller)
    ensures RoutedUri(uri, backends, caller) != Err(ManagementElsewhere)
    ensures RoutedUri(uri, backends, caller) == Err(NotNamespaced) <==> UnwrapUri(uri).None?
  {
    hide UnwrapUri;
  }

  lemma UriLeadsTo(uri: string, b: Backend, original: string, backends: seq<Backend>, caller: Caller)
    ensures RoutedUri(uri, backends, caller) == Ok((b, original)) <==>
            && uri == "hub://" + b.namespace + "/" + original && '/' !in b.namespace
            && IsFirst(b, backends, caller, b.namespace)
  {
    hide UnwrapUri, IsFirst, NoneServes, Seen;
    UnwrapsTo(uri, b.namespace, original);
    var unwrapped := UnwrapUri(uri);
    if unwrapped.Some? {
      SeenIsSeen(backends, caller, unwrapped.value.0);
      SeenIsFirst(backends, caller, unwrapped.value.0);
    }
    SeenIsFirst(backends, caller, b.namespace);
  }

  lemma UnwrapsTo(uri: string, ns: string, original: string)
    ensures UnwrapUri(uri) == Some((ns, original)) <==> uri == "hub://" + ns + "/" + original && '/' !in ns
  {
    UnwrapInvertsWrap(ns, original);
    if UnwrapUri(uri).Some? {
      WrapInvertsUnwrap(uri);
    }
    hide UnwrapUri;
  }

  /** What a read returns; a kind of content without a URI passes through. */
  datatype Content = TextContent(uri: string, text: string) | BlobContent(uri: string, blob: string) | OtherContent

  function Rewrapped(c: Content, ns: string): Content {
    if c.OtherContent? then c else c.(uri := WrapUri(ns, c.uri))
  }

  method RewrapContents(contents: array<Content>, ns: string)
    modifies contents
    ensures forall i :: 0 <= i < contents.Length ==> contents[i] == Rewrapped(old(contents[i]), ns)
    ensures forall i :: 0 <= i < contents.Length ==>
              match old(contents[i])
              case TextContent(uri, text) => contents[i] == TextContent("hub://" + ns + "/" + uri, text)
              case BlobContent(uri, blob) => contents[i] == BlobContent("hub://" + ns + "/" + uri, blob)
              case OtherContent => contents[i] == OtherContent
  {
    for i := 0 to contents.Length
      invariant forall j :: 0 <= j < i ==> contents[j] == Rewrapped(old(contents[j]), ns)
      invariant forall j :: i <= j < contents.Length ==> contents[j] == old(contents[j])
    {
      match contents[i]
      case TextContent(uri, text) => contents[i] := TextContent(WrapUri(ns, uri), text);
      case BlobContent(uri, blob) => contents[i] := BlobContent(WrapUri(ns, uri), blob);
      case OtherContent =>
    }
  }

  /** A URI found in what a backend returned reads back from that same backend under the URI the
      backend knows, exactly when the backend's namespace has no `/`. */
  lemma ReturnedUriIsReadable(b: Backend, c: Content, backends: seq<Backend>, caller: Caller)
    requires b in backends && Sees(caller, b) && !c.OtherContent?
    requires DistinctNamespaces(backends, caller)
    ensures RoutedUri(Rewrapped(c, b.namespace).uri, backends, caller) == Ok((b, c.uri)) <==> '/' !in b.namespace
  {
    UnwrapInvertsWrap(b.namespace, c.uri);
    var unwrapped := UnwrapUri(WrapUri(b.namespace, c.uri));
    if unwrapped.Some? {
      SeenIsSeen(backends, caller, unwrapped.value.0);
    }
    hide UnwrapUri, WrapUri;
  }
}
