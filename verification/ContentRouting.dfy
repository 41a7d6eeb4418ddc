/**
 * Which plugins a content request goes to, in which order, and how their answers become one result.
 * The plugins' answers in one request are a function of the plugin and the cursor it was sent.
 */
module ContentRouting {
  import opened Collections
  import opened Sorting
  import opened ContentDedup
  import Cursor = ContentCursor

  type SourceCursor = Cursor.SourceCursor

  datatype ContentMethod = SearchMethod | DiscoverMethod | CategoriesMethod | OtherMethod

  datatype RouteKind = SearchRoute | DiscoverRoute

  datatype Candidate = Candidate(
    plugin: Text,
    platform: Text,
    priority: int,
    isDefault: bool,
    searchEnabled: bool,
    discoverEnabled: bool,
    capabilities: set<ContentMethod>)

  datatype Filters = Filters(platform: Option<Text>, plugin: Option<Text>)

  // ---- Selecting and ordering candidates ----

  predicate Participates(c: Candidate, requested: ContentMethod, route: RouteKind, filters: Filters) {
    && (if route.SearchRoute? then c.searchEnabled else c.discoverEnabled)
    && requested in c.capabilities
    && (filters.platform.None? || c.platform == filters.platform.value)
    && (filters.plugin.None? || c.plugin == filters.plugin.value)
  }

  function Participating(requested: ContentMethod, route: RouteKind, filters: Filters): (keep: Candidate -> bool) {
    c => Participates(c, requested, route, filters)
  }

  /** Platform ascending, the default plugin first, then priority, then plugin id. */
  predicate RankLeq(a: Candidate, b: Candidate) {
    if a.platform != b.platform then LexLeq(a.platform, b.platform)
    else if a.isDefault != b.isDefault then a.isDefault
    else if a.priority != b.priority then a.priority < b.priority
    else LexLeq(a.plugin, b.plugin)
  }

  lemma RankOrder(a: Candidate, b: Candidate)
    ensures RankLeq(a, b) || RankLeq(b, a)
    ensures RankLeq(a, b) && RankLeq(b, a) ==> a.platform == b.platform && a.plugin == b.plugin
  {
    LexTotal(a.platform, b.platform);
    LexTotal(a.plugin, b.plugin);
  }

  lemma RankTransitive(a: Candidate, b: Candidate, c: Candidate)
    requires RankLeq(a, b) && RankLeq(b, c)
    ensures RankLeq(a, c)
  {
    if a.platform != b.platform && b.platform != c.platform {
      LexTransitive(a.platform, b.platform, c.platform);
      LexTotal(a.platform, b.platform);
    } else if a.platform == b.platform == c.platform && a.isDefault == b.isDefault == c.isDefault
              && a.priority == b.priority == c.priority {
      LexTransitive(a.plugin, b.plugin, c.plugin);
    }
  }

  lemma RankIsTotalPreorder()
    ensures TotalPreorder(RankLeq)
  {
    forall a: Candidate, b: Candidate ensures RankLeq(a, b) || RankLeq(b, a) { RankOrder(a, b); }
    forall a: Candidate, b: Candidate, c: Candidate | RankLeq(a, b) && RankLeq(b, c) ensures RankLeq(a, c) {
      RankTransitive(a, b, c);
    }
  }

  function Select(candidates: seq<Candidate>, requested: ContentMethod, route: RouteKind, filters: Filters)
    : (r: seq<Candidate>)
  {
    Sort(RankLeq, Filter(candidates, Participating(requested, route, filters)))
  }

  /** The store lists a plugin at most once per platform. */
  ghost predicate OncePerPlatform(candidates: seq<Candidate>) {
    forall a, b :: a in candidates && b in candidates && a.platform == b.platform && a.plugin == b.plugin ==> a == b
  }

  lemma {:induction false} FilterMultiplicity<T(!new)>(s: seq<T>, keep: T -> bool, x: T)
    ensures multiset(Filter(s, keep))[x] == if keep(x) then multiset(s)[x] else 0
  {
    if s != [] {
      FilterMultiplicity(s[1..], keep, x);
      assert s == [s[0]] + s[1..];
    }
  }

  /** The selection does not depend on the order in which the store lists the candidates. */
  lemma SelectOrderIrrelevant(a: seq<Candidate>, b: seq<Candidate>, requested: ContentMethod, route: RouteKind, filters: Filters)
    requires multiset(a) == multiset(b) && OncePerPlatform(a)
    ensures Select(a, requested, route, filters) == Select(b, requested, route, filters)
  {
    var keep := Participating(requested, route, filters);
    var x, y := Filter(a, keep), Filter(b, keep);
    forall c ensures multiset(x)[c] == multiset(y)[c] {
      FilterMultiplicity(a, keep, c);
      FilterMultiplicity(b, keep, c);
    }
    RankIsTotalPreorder();
    SortSorted(RankLeq, x);
    SortSorted(RankLeq, y);
    SameElements(x, Sort(RankLeq, x));
    forall p, q | p in x && q in x && RankLeq(p, q) && RankLeq(q, p) ensures p == q { RankOrder(p, q); }
    SortedUnique(RankLeq, Sort(RankLeq, x), Sort(RankLeq, y));
  }

  // ---- Grouping by platform ----

  function OnPlatform(platform: Text): (keep: Candidate -> bool) {
    (c: Candidate) => c.platform == platform
  }

  /** The groups are the platforms that occur, ascending, each with its candidates in the given order. */
  ghost predicate IsGrouping(candidates: seq<Candidate>, groups: seq<seq<Candidate>>) {
    && (forall g: seq<Candidate> :: g in groups ==> g != [] && g == Filter(candidates, OnPlatform(g[0].platform)))
    && (forall i, j :: 0 <= i < j < |groups| ==>
          groups[i] != [] && groups[j] != [] && Cursor.Before(groups[i][0].platform, groups[j][0].platform))
    && (forall c :: c in candidates ==> exists g :: g in groups && c in g)
  }

  /** An ordered map from platform to candidates: ascending keys and their values. */
  ghost predicate Ordered(keys: seq<Text>, values: map<Text, seq<Candidate>>) {
    && (forall k :: k in keys <==> k in values)
    && (forall i, j :: 0 <= i < j < |keys| ==> Cursor.Before(keys[i], keys[j]))
  }

  /** Put a new key where it belongs among ascending keys. */
  method InsertKey(keys: seq<Text>, key: Text) returns (r: seq<Text>)
    requires forall i, j :: 0 <= i < j < |keys| ==> Cursor.Before(keys[i], keys[j])
    requires key !in keys
    ensures forall i, j :: 0 <= i < j < |r| ==> Cursor.Before(r[i], r[j])
    ensures forall k :: k in r <==> k in keys || k == key
  {
    var at := 0;
    while at < |keys| && LexLeq(keys[at], key)
      invariant 0 <= at <= |keys|
      invariant forall i :: 0 <= i < at ==> Cursor.Before(keys[i], key)
    {
      at := at + 1;
    }
    forall i | at <= i < |keys| ensures Cursor.Before(key, keys[i]) {
      LexTotal(keys[at], key);
      if at < i { Cursor.BeforeTransitive(key, keys[at], keys[i]); }
    }
    r := keys[..at] + [key] + keys[at..];
  }

  ghost predicate Grouped(candidates: seq<Candidate>, values: map<Text, seq<Candidate>>) {
    && (forall k :: k in values ==> values[k] != [] && values[k] == Filter(candidates, OnPlatform(k)))
    && (forall c :: c in candidates ==> c.platform in values)
  }

  function Pushed(values: map<Text, seq<Candidate>>, c: Candidate): (r: map<Text, seq<Candidate>>) {
    values[c.platform := (if c.platform in values then values[c.platform] else []) + [c]]
  }

  lemma GroupedSnoc(candidates: seq<Candidate>, c: Candidate, values: map<Text, seq<Candidate>>)
    requires Grouped(candidates, values)
    ensures Grouped(candidates + [c], Pushed(values, c))
  {
    var grown := Pushed(values, c);
    forall k | k in grown ensures grown[k] != [] && grown[k] == Filter(candidates + [c], OnPlatform(k)) {
      FilterAppend(candidates, [c], OnPlatform(k));
      if k !in values { FilterNone(candidates, OnPlatform(k)); }
      assert Filter([c], OnPlatform(k)) == if k == c.platform then [c] else [];
    }
  }

  /** Append to the entry of the candidate's platform, creating it where it belongs. */
  method Push(keys: seq<Text>, values: map<Text, seq<Candidate>>, c: Candidate)
    returns (newKeys: seq<Text>, newValues: map<Text, seq<Candidate>>)
    requires Ordered(keys, values)
    ensures Ordered(newKeys, newValues) && newValues == Pushed(values, c)
  {
    newKeys, newValues := keys, values;
    if c.platform !in values {
      newKeys := InsertKey(keys, c.platform);
      newValues := newValues[c.platform := []];
    }
    newValues := newValues[c.platform := newValues[c.platform] + [c]];
  }

  method GroupCandidates(candidates: seq<Candidate>) returns (groups: seq<seq<Candidate>>)
    ensures IsGrouping(candidates, groups)
  {
    var keys: seq<Text> := [];
    var values: map<Text, seq<Candidate>> := map[];
    for i := 0 to |candidates|
      invariant Ordered(keys, values)
      invariant Grouped(candidates[..i], values)
    {
      assert candidates[..i + 1] == candidates[..i] + [candidates[i]];
      GroupedSnoc(candidates[..i], candidates[i], values);
      keys, values := Push(keys, values, candidates[i]);
    }
    assert candidates[..|candidates|] == candidates;
    groups := [];
    for i := 0 to |keys|
      invariant |groups| == i
      invariant forall j :: 0 <= j < i ==> groups[j] == values[keys[j]]
    {
      groups := groups + [values[keys[i]]];
    }
    GroupingFromMap(candidates, keys, values, groups);
  }

  lemma GroupingFromMap(candidates: seq<Candidate>, keys: seq<Text>, values: map<Text, seq<Candidate>>, groups: seq<seq<Candidate>>)
    requires Ordered(keys, values) && Grouped(candidates, values)
    requires |groups| == |keys| && forall j :: 0 <= j < |keys| ==> groups[j] == values[keys[j]]
    ensures IsGrouping(candidates, groups)
  {
    forall j | 0 <= j < |keys| ensures groups[j] != [] && groups[j][0].platform == keys[j] {
      assert keys[j] in values;
      assert groups[j][0] in groups[j];
    }
    forall c | c in candidates ensures exists g :: g in groups && c in g {
      assert c.platform in keys;
      var j :| 0 <= j < |keys| && keys[j] == c.platform;
      assert groups[j] in groups;
    }
  }

  lemma GroupsAgree(candidates: seq<Candidate>, x: seq<seq<Candidate>>, y: seq<seq<Candidate>>, g: seq<Candidate>)
    requires IsGrouping(candidates, x) && IsGrouping(candidates, y) && g in x
    ensures g in y
  {
    assert g[0] in g;
    var h: seq<Candidate> :| h in y && g[0] in h;
    assert h == Filter(candidates, OnPlatform(h[0].platform));
    assert h == g;
  }

  predicate GroupLeq(a: seq<Candidate>, b: seq<Candidate>) {
    a == [] || (b != [] && LexLeq(a[0].platform, b[0].platform))
  }

  lemma GroupingSorted(candidates: seq<Candidate>, groups: seq<seq<Candidate>>)
    requires IsGrouping(candidates, groups)
    ensures SortedBy(GroupLeq, groups) && Distinct(groups) && NoTies(GroupLeq, groups)
  {
    forall a: seq<Candidate>, b: seq<Candidate> | a in groups && b in groups && GroupLeq(a, b) && GroupLeq(b, a) ensures a == b {
      LexTotal(a[0].platform, b[0].platform);
    }
  }

  /** The description leaves nothing open: there is one grouping of a candidate list. */
  lemma GroupingUnique(candidates: seq<Candidate>, x: seq<seq<Candidate>>, y: seq<seq<Candidate>>)
    requires IsGrouping(candidates, x) && IsGrouping(candidates, y)
    ensures x == y
  {
    GroupingSorted(candidates, x);
    GroupingSorted(candidates, y);
    forall g ensures g in x <==> g in y {
      if g in x { GroupsAgree(candidates, x, y, g); }
      if g in y { GroupsAgree(candidates, y, x, g); }
    }
    DistinctSameMultiset(x, y);
    SortedUnique(GroupLeq, x, y);
  }

  // ---- One platform: first success, falling back over retryable failures ----

  datatype ErrorCode =
    | PluginUnavailable
    | PluginTimeout
    | ResourceTemporarilyUnavailable
    | LoginPending
    | RateLimited
    | PluginResponseInvalid
    | OtherError(code: nat)

  predicate Retryable(code: ErrorCode) {
    code in {PluginUnavailable, PluginTimeout, ResourceTemporarilyUnavailable, LoginPending, RateLimited}
  }

  /** A plugin's answer: content that is otherwise well formed or not, or an error. */
  datatype Answer<T> = Answered(items: seq<T>, next: Option<Text>, wellFormed: bool) | Refused(code: ErrorCode)

  type Invoker<!T> = (Candidate, Option<Text>) -> Answer<T>

  datatype Reply<T> = Success(items: seq<T>, next: Option<Text>) | Failed(code: ErrorCode)

  predicate ValidNext(next: Option<Text>) {
    next.None? || (0 < |next.value| <= Cursor.MAX_SOURCE_CURSOR && 0 !in next.value)
  }

  function Interpret<T>(answer: Answer<T>): (r: Reply<T>)
    ensures r.Success? ==> ValidNext(r.next)
  {
    match answer
    case Refused(code) => Failed(code)
    case Answered(items, next, wellFormed) =>
      if wellFormed && ValidNext(next) then Success(items, next) else Failed(PluginResponseInvalid)
  }

  datatype Failure = Failure(source: Source, code: ErrorCode)

  datatype PlatformResult<T> = PlatformResult(items: seq<Sourced<T>>, failures: seq<Failure>, next: Option<SourceCursor>)

  function SourceOf(c: Candidate): (s: Source) {
    Source(c.plugin, c.platform)
  }

  function WithSource<T>(items: seq<T>, source: Source): (r: seq<Sourced<T>>)
    ensures |r| == |items| && forall i :: 0 <= i < |items| ==> r[i] == Sourced(items[i], source)
  {
    seq(|items|, i requires 0 <= i < |items| => Sourced(items[i], source))
  }

  /** No further candidate is asked after this reply. */
  predicate Stops<T>(reply: Reply<T>, allowFallback: bool) {
    reply.Success? || !allowFallback || !Retryable(reply.code)
  }

  /** The first candidate after whose reply nobody else is asked, or the number of candidates. */
  function StopAt<T>(invoke: Invoker<T>, candidates: seq<Candidate>, cursor: Option<Text>, allowFallback: bool): (n: nat)
    ensures n <= |candidates|
    ensures n < |candidates| ==> Stops(Interpret(invoke(candidates[n], cursor)), allowFallback)
    ensures forall i :: 0 <= i < n ==> !Stops(Interpret(invoke(candidates[i], cursor)), allowFallback)
  {
    if candidates == [] || Stops(Interpret(invoke(candidates[0], cursor)), allowFallback) then 0
    else
      var n := StopAt(invoke, candidates[1..], cursor, allowFallback);
      assert forall i :: 1 <= i < n + 1 ==> candidates[i] == candidates[1..][i - 1];
      n + 1
  }

  /** The failures among the replies of `asked`, in order. */
  function FailuresOf<T>(invoke: Invoker<T>, asked: seq<Candidate>, cursor: Option<Text>): (r: seq<Failure>) {
    if asked == [] then []
    else
      var last := |asked| - 1;
      var reply := Interpret(invoke(asked[last], cursor));
      FailuresOf(invoke, asked[..last], cursor)
      + if reply.Failed? then [Failure(SourceOf(asked[last]), reply.code)] else []
  }

  function PlatformOutcome<T>(invoke: Invoker<T>, candidates: seq<Candidate>, cursor: Option<Text>, allowFallback: bool)
    : (r: PlatformResult<T>)
  {
    var n := StopAt(invoke, candidates, cursor, allowFallback);
    if n == |candidates| then PlatformResult([], FailuresOf(invoke, candidates, cursor), None)
    else
      var c, failures := candidates[n], FailuresOf(invoke, candidates[..n + 1], cursor);
      match Interpret(invoke(c, cursor))
      case Failed(_) => PlatformResult([], failures, None)
      case Success(items, next) =>
        PlatformResult(WithSource(items, SourceOf(c)), failures,
                       if next.None? then None else Some(Cursor.SourceCursor(c.platform, c.plugin, next.value)))
  }

  lemma StopsHere<T>(invoke: Invoker<T>, candidates: seq<Candidate>, cursor: Option<Text>, allowFallback: bool, i: nat)
    requires i <= |candidates|
    requires forall j :: 0 <= j < i ==> !Stops(Interpret(invoke(candidates[j], cursor)), allowFallback)
    requires i < |candidates| ==> Stops(Interpret(invoke(candidates[i], cursor)), allowFallback)
    ensures StopAt(invoke, candidates, cursor, allowFallback) == i
  {
  }

  method RunPlatform<T>(invoke: Invoker<T>, candidates: seq<Candidate>, cursor: Option<Text>, allowFallback: bool)
    returns (r: PlatformResult<T>)
    ensures r == PlatformOutcome(invoke, candidates, cursor, allowFallback)
  {
    var items: seq<Sourced<T>> := [];
    var failures: seq<Failure> := [];
    var next: Option<SourceCursor> := None;
    for i := 0 to |candidates|
      invariant items == [] && next == None
      invariant failures == FailuresOf(invoke, candidates[..i], cursor)
      invariant forall j :: 0 <= j < i ==> !Stops(Interpret(invoke(candidates[j], cursor)), allowFallback)
    {
      var c := candidates[i];
      assert candidates[..i + 1][..i] == candidates[..i];
      match Interpret(invoke(c, cursor)) {
        case Success(found, pluginNext) =>
          items := items + WithSource(found, SourceOf(c));
          if pluginNext.Some? {
            next := Some(Cursor.SourceCursor(c.platform, c.plugin, pluginNext.value));
          }
          StopsHere(invoke, candidates, cursor, allowFallback, i);
          return PlatformResult(items, failures, next);
        case Failed(code) =>
          failures := failures + [Failure(SourceOf(c), code)];
          if !allowFallback || !Retryable(code) {
            StopsHere(invoke, candidates, cursor, allowFallback, i);
            return PlatformResult(items, failures, next);
          }
      }
    }
    assert candidates[..|candidates|] == candidates;
    StopsHere(invoke, candidates, cursor, allowFallback, |candidates|);
    return PlatformResult(items, failures, next);
  }

  /** Before the stop every candidate failed retryably, so exactly they and the stopping one can be listed as failures. */
  lemma {:induction false} FailuresListAllBefore<T>(invoke: Invoker<T>, candidates: seq<Candidate>, cursor: Option<Text>, n: nat)
    requires n <= StopAt(invoke, candidates, cursor, true)
    ensures |FailuresOf(invoke, candidates[..n], cursor)| == n
    ensures forall i :: 0 <= i < n ==>
              && FailuresOf(invoke, candidates[..n], cursor)[i].source == SourceOf(candidates[i])
              && Retryable(FailuresOf(invoke, candidates[..n], cursor)[i].code)
  {
    if n > 0 {
      FailuresListAllBefore(invoke, candidates, cursor, n - 1);
      assert candidates[..n][..n - 1] == candidates[..n - 1];
      assert !Stops(Interpret(invoke(candidates[n - 1], cursor)), true);
    }
  }
}
