/**
 * Content requests over several platforms at once. The platform calls run concurrently and complete in any
 * order (`schedule`); the result is that of asking the platforms one after the other.
 */
module ContentAggregation {
  import opened Collections
  import opened Sorting
  import opened ContentDedup
  import opened ContentRouting
  import Cursor = ContentCursor

  /** A request's fingerprint, as `ContentCursor.Fingerprint` makes it from a digest. */
  type Fingerprints = Cursor.Binding -> Text
  type Parser = Text -> Option<Cursor.Envelope>

  // ---- Preparing the platform groups ----

  datatype Group = Group(candidates: seq<Candidate>, cursor: Option<Text>)

  predicate Matches(c: Candidate, s: SourceCursor) {
    c.platform == s.platform && c.plugin == s.plugin
  }

  /** The first candidate that a cursor's source names. */
  function Find(selected: seq<Candidate>, s: SourceCursor): (r: Option<Candidate>)
    ensures r.Some? ==> r.value in selected && Matches(r.value, s)
    ensures r.None? ==> forall c :: c in selected ==> !Matches(c, s)
  {
    if selected == [] then None
    else if Matches(selected[0], s) then Some(selected[0])
    else Find(selected[1..], s)
  }

  ghost function CandidateLists(groups: seq<Group>): (r: seq<seq<Candidate>>)
    ensures |r| == |groups| && forall i :: 0 <= i < |groups| ==> r[i] == groups[i].candidates
  {
    seq(|groups|, i requires 0 <= i < |groups| => groups[i].candidates)
  }

  /** A first page: every platform, without a cursor. */
  ghost predicate Starts(selected: seq<Candidate>, groups: seq<Group>) {
    IsGrouping(selected, CandidateLists(groups)) && forall g :: g in groups ==> g.cursor == None
  }

  /** A further page: for each source of the cursor its one plugin, with its own cursor. */
  ghost predicate Continues(selected: seq<Candidate>, sources: seq<SourceCursor>, groups: seq<Group>) {
    && |groups| == |sources|
    && forall i :: 0 <= i < |sources| ==>
         && Find(selected, sources[i]).Some?
         && groups[i] == Group([Find(selected, sources[i]).value], Some(sources[i].cursor))
  }

  ghost predicate AllFound(selected: seq<Candidate>, sources: seq<SourceCursor>) {
    forall s :: s in sources ==> Find(selected, s).Some?
  }

  datatype Prepared = Prepared(groups: seq<Group>, allowFallback: bool)

  ghost predicate PreparedAs(selected: seq<Candidate>, cursor: Option<Text>, b: Cursor.Binding, fingerprint: Fingerprints, parse: Parser,
                             r: Result<Prepared, Cursor.CursorError>) {
    match cursor
    case None => r.Ok? && Starts(selected, r.value.groups) && r.value.allowFallback == b.plugin.None?
    case Some(text) =>
      match Cursor.Decode(fingerprint, parse, text, b)
      case Err(e) => r == Err(e)
      case Ok(sources) =>
        if AllFound(selected, sources)
        then r.Ok? && Continues(selected, sources, r.value.groups) && !r.value.allowFallback
        else r == Err(Cursor.BindingMismatch)
  }

  method StartGroups(selected: seq<Candidate>) returns (groups: seq<Group>)
    ensures Starts(selected, groups)
  {
    var lists := GroupCandidates(selected);
    groups := seq(|lists|, i requires 0 <= i < |lists| => Group(lists[i], None));
    assert CandidateLists(groups) == lists;
  }

  method ContinueGroups(selected: seq<Candidate>, sources: seq<SourceCursor>) returns (groups: Option<seq<Group>>)
    ensures groups.Some? <==> AllFound(selected, sources)
    ensures groups.Some? ==> Continues(selected, sources, groups.value)
  {
    var pushed: seq<Group> := [];
    for i := 0 to |sources|
      invariant Continues(selected, sources[..i], pushed)
    {
      var found := Find(selected, sources[i]);
      if found.None? {
        assert sources[i] in sources;
        return None;
      }
      pushed := pushed + [Group([found.value], Some(sources[i].cursor))];
    }
    assert sources[..|sources|] == sources;
    return Some(pushed);
  }

  method PrepareGroups(selected: seq<Candidate>, cursor: Option<Text>, b: Cursor.Binding, fingerprint: Fingerprints, parse: Parser)
    returns (r: Result<Prepared, Cursor.CursorError>)
    ensures PreparedAs(selected, cursor, b, fingerprint, parse, r)
  {
    if cursor.None? {
      var groups := StartGroups(selected);
      return Ok(Prepared(groups, b.plugin.None?));
    }
    var decoded := Cursor.Decode(fingerprint, parse, cursor.value, b);
    if decoded.Err? {
      return Err(decoded.error);
    }
    var groups := ContinueGroups(selected, decoded.value);
    return if groups.None? then Err(Cursor.BindingMismatch) else Ok(Prepared(groups.value, false));
  }

  /** What is prepared is determined by the request. */
  lemma PreparedUnique(selected: seq<Candidate>, cursor: Option<Text>, b: Cursor.Binding, fingerprint: Fingerprints, parse: Parser,
                       x: Result<Prepared, Cursor.CursorError>, y: Result<Prepared, Cursor.CursorError>)
    requires PreparedAs(selected, cursor, b, fingerprint, parse, x) && PreparedAs(selected, cursor, b, fingerprint, parse, y)
    ensures x == y
  {
    if cursor.None? {
      var g, h := x.value.groups, y.value.groups;
      GroupingUnique(selected, CandidateLists(g), CandidateLists(h));
      assert |g| == |CandidateLists(g)| == |h|;
      forall i | 0 <= i < |g| ensures g[i] == h[i] {
        assert CandidateLists(g)[i] == CandidateLists(h)[i];
        assert g[i] in g && h[i] in h;
      }
      assert g == h;
    } else if x.Ok? && y.Ok? {
      assert x.value.groups == y.value.groups;
    }
  }

  // ---- Collecting concurrent completions ----

  datatype Aggregate<T> = Aggregate(items: seq<Sourced<T>>, failures: seq<Failure>, next: seq<SourceCursor>)

  function NextList(next: Option<SourceCursor>): (r: seq<SourceCursor>) {
    if next.None? then [] else [next.value]
  }

  /** The platforms' results one after the other. */
  function Combine<T>(results: seq<PlatformResult<T>>): (a: Aggregate<T>) {
    if results == [] then Aggregate([], [], [])
    else
      var last := |results| - 1;
      var a, r := Combine(results[..last]), results[last];
      Aggregate(a.items + r.items, a.failures + r.failures, a.next + NextList(r.next))
  }

  /** Every platform asked on its own. */
  function Outcomes<T>(invoke: Invoker<T>, prepared: Prepared): (r: seq<PlatformResult<T>>)
    ensures |r| == |prepared.groups|
  {
    var groups := prepared.groups;
    seq(|groups|, i requires 0 <= i < |groups| =>
      PlatformOutcome(invoke, groups[i].candidates, groups[i].cursor, prepared.allowFallback))
  }

  function Range(n: nat): (r: seq<nat>)
    ensures |r| == n && forall i :: 0 <= i < n ==> r[i] == i
  {
    seq(n, i => i)
  }

  /** Every one of the `n` calls completes, once, in some order. */
  ghost predicate Completes(schedule: seq<nat>, n: nat) {
    multiset(schedule) == multiset(Range(n))
  }

  datatype Completion<T> = Completion(index: nat, result: PlatformResult<T>)

  predicate ByIndex<T>(a: Completion<T>, b: Completion<T>) {
    a.index <= b.index
  }

  function Indexed<T>(results: seq<PlatformResult<T>>): (r: seq<Completion<T>>)
    ensures |r| == |results| && forall i :: 0 <= i < |results| ==> r[i] == Completion(i, results[i])
  {
    seq(|results|, i requires 0 <= i < |results| => Completion(i, results[i]))
  }

  /** What completed `k`-th is the result of platform `schedule[k]`. */
  ghost predicate CompletedBy<T>(results: seq<PlatformResult<T>>, schedule: seq<nat>, completions: seq<Completion<T>>) {
    && |completions| == |schedule|
    && forall k :: 0 <= k < |schedule| ==> schedule[k] < |results| && completions[k] == Completion(schedule[k], results[schedule[k]])
  }

  lemma ScheduleFacts(schedule: seq<nat>, n: nat)
    requires Completes(schedule, n)
    ensures Distinct(schedule)
    ensures forall k :: k in schedule <==> 0 <= k < n
  {
    DistinctPermutation(Range(n), schedule);
    SameElements(Range(n), schedule);
    forall k ensures k in schedule <==> 0 <= k < n {
      if 0 <= k < n { assert Range(n)[k] == k; }
    }
  }

  lemma CompletionsComplete<T>(results: seq<PlatformResult<T>>, schedule: seq<nat>, completions: seq<Completion<T>>)
    requires Completes(schedule, |results|) && CompletedBy(results, schedule, completions)
    ensures multiset(completions) == multiset(Indexed(results))
  {
    ScheduleFacts(schedule, |results|);
    var all := Indexed(results);
    forall x ensures x in completions <==> x in all {
      if x in completions {
        var k :| 0 <= k < |completions| && completions[k] == x;
        assert all[schedule[k]] == x;
      }
      if x in all {
        var i :| 0 <= i < |all| && all[i] == x;
        assert i in schedule;
        var k :| 0 <= k < |schedule| && schedule[k] == i;
        assert completions[k] == x;
      }
    }
    DistinctSameMultiset(completions, all);
  }

  lemma ByIndexIsTotalPreorder<T(!new)>()
    ensures TotalPreorder<Completion<T>>(ByIndex)
  {
  }

  /** Sorting by index undoes every completion order. */
  lemma CompletionOrderIrrelevant<T(!new)>(results: seq<PlatformResult<T>>, schedule: seq<nat>, completions: seq<Completion<T>>)
    requires Completes(schedule, |results|) && CompletedBy(results, schedule, completions)
    ensures Sort(ByIndex, completions) == Indexed(results)
  {
    CompletionsComplete(results, schedule, completions);
    ByIndexIsTotalPreorder<T>();
    SortSorted(ByIndex, completions);
    SortedUnique(ByIndex, Indexed(results), Sort(ByIndex, completions));
  }

  /** Run the platforms, collect them as they complete, put them back in order and join them. */
  method RunAll<T(!new)>(invoke: Invoker<T>, prepared: Prepared, schedule: seq<nat>) returns (a: Aggregate<T>)
    requires Completes(schedule, |prepared.groups|)
    ensures a == Combine(Outcomes(invoke, prepared))
  {
    ghost var results := Outcomes(invoke, prepared);
    ScheduleFacts(schedule, |results|);
    var completions: seq<Completion<T>> := [];
    for k := 0 to |schedule|
      invariant CompletedBy(results, schedule[..k], completions)
    {
      assert schedule[k] in schedule;
      var group := prepared.groups[schedule[k]];
      var result := RunPlatform(invoke, group.candidates, group.cursor, prepared.allowFallback);
      completions := completions + [Completion(schedule[k], result)];
    }
    assert schedule[..|schedule|] == schedule;
    CompletionOrderIrrelevant(results, schedule, completions);
    var sorted := Sort(ByIndex, completions);
    a := Join(sorted, results);
  }

  method Join<T>(sorted: seq<Completion<T>>, ghost results: seq<PlatformResult<T>>) returns (a: Aggregate<T>)
    requires sorted == Indexed(results)
    ensures a == Combine(results)
  {
    var items: seq<Sourced<T>> := [];
    var failures: seq<Failure> := [];
    var next: seq<SourceCursor> := [];
    for i := 0 to |sorted|
      invariant Aggregate(items, failures, next) == Combine(results[..i])
    {
      assert results[..i + 1][..i] == results[..i];
      var r := sorted[i].result;
      items := items + r.items;
      failures := failures + r.failures;
      if r.next.Some? {
        next := next + [r.next.value];
      }
    }
    assert results[..|results|] == results;
    return Aggregate(items, failures, next);
  }

  // ---- The three requests ----

  datatype Page<T> = Page(items: seq<T>, next: Option<Text>, failures: seq<Failure>, hadCandidates: bool)

  function SourcedItemKey(s: Sourced<Item>): (key: Option<Key>) {
    ItemKey(s.item)
  }

  ghost function SearchPage(invoke: Invoker<Item>, prepared: Prepared, fingerprint: Fingerprints, b: Cursor.Binding)
    : (r: Result<Page<Sourced<Item>>, Cursor.CursorError>)
  {
    var a := Combine(Outcomes(invoke, prepared));
    match Cursor.Encode(fingerprint, b, a.next)
    case Err(e) => Err(e)
    case Ok(next) => Ok(Page(Firsts(SourcedItemKey, a.items), next, a.failures, prepared.groups != []))
  }

  function SearchBinding(query: Text, filters: Filters): (b: Cursor.Binding) {
    Cursor.Binding(Cursor.Search, Some(query), filters.platform, filters.plugin)
  }

  method Search(candidates: seq<Candidate>, query: Text, filters: Filters, cursor: Option<Text>, invoke: Invoker<Item>,
                fingerprint: Fingerprints, parse: Parser, schedule: nat -> seq<nat>)
    returns (r: Result<Page<Sourced<Item>>, Cursor.CursorError>)
    requires forall n :: Completes(schedule(n), n)
    ensures var b := SearchBinding(query, filters);
            exists p :: PreparedAs(Select(candidates, SearchMethod, SearchRoute, filters), cursor, b, fingerprint, parse, p)
                        && r == if p.Err? then Err(p.error) else SearchPage(invoke, p.value, fingerprint, b)
  {
    var b := SearchBinding(query, filters);
    var selected := Select(candidates, SearchMethod, SearchRoute, filters);
    var outcome := PrepareGroups(selected, cursor, b, fingerprint, parse);
    if outcome.Err? {
      return Err(outcome.error);
    }
    var a := RunAll(invoke, outcome.value, schedule(|outcome.value.groups|));
    var next := Cursor.Encode(fingerprint, b, a.next);
    if next.Err? {
      return Err(next.error);
    }
    var items := DeduplicateItems(SourcedItemKey, a.items);
    return Ok(Page(items, next.value, a.failures, outcome.value.groups != []));
  }

  ghost function ThinnedAll(sections: Sections): (r: Sections)
    ensures |r| == |sections| && forall k :: 0 <= k < |sections| ==> r[k] == Thinned(sections, k)
  {
    seq(|sections|, k requires 0 <= k < |sections| => Thinned(sections, k))
  }

  method ThinSections(items: Sections) returns (r: Sections)
    ensures r == ThinnedAll(items)
  {
    var sections := new Sourced<Section>[|items|](i requires 0 <= i < |items| => items[i]);
    assert sections[..] == items;
    DeduplicateSections(sections);
    return sections[..];
  }

  ghost function DiscoverPage(invoke: Invoker<Section>, prepared: Prepared, fingerprint: Fingerprints, b: Cursor.Binding)
    : (r: Result<Page<Sourced<Section>>, Cursor.CursorError>)
    ensures r.Ok? ==> AllItems(r.value.items) == Firsts(ItemKey, AllItems(Combine(Outcomes(invoke, prepared)).items))
  {
    var a := Combine(Outcomes(invoke, prepared));
    match Cursor.Encode(fingerprint, b, a.next)
    case Err(e) => Err(e)
    case Ok(next) =>
      assert ThinnedAll(a.items)[..|a.items|] == ThinnedAll(a.items) && a.items[..|a.items|] == a.items;
      SectionsFlatten(a.items, ThinnedAll(a.items), |a.items|);
      Ok(Page(ThinnedAll(a.items), next, a.failures, prepared.groups != []))
  }

  function DiscoverBinding(filters: Filters): (b: Cursor.Binding) {
    Cursor.Binding(Cursor.Discover, None, filters.platform, filters.plugin)
  }

  method Discover(candidates: seq<Candidate>, filters: Filters, cursor: Option<Text>, invoke: Invoker<Section>,
                  fingerprint: Fingerprints, parse: Parser, schedule: nat -> seq<nat>)
    returns (r: Result<Page<Sourced<Section>>, Cursor.CursorError>)
    requires forall n :: Completes(schedule(n), n)
    ensures var b := DiscoverBinding(filters);
            exists p :: PreparedAs(Select(candidates, DiscoverMethod, DiscoverRoute, filters), cursor, b, fingerprint, parse, p)
                        && r == if p.Err? then Err(p.error) else DiscoverPage(invoke, p.value, fingerprint, b)
  {
    var b := DiscoverBinding(filters);
    var selected := Select(candidates, DiscoverMethod, DiscoverRoute, filters);
    var outcome := PrepareGroups(selected, cursor, b, fingerprint, parse);
    if outcome.Err? {
      return Err(outcome.error);
    }
    var a := RunAll(invoke, outcome.value, schedule(|outcome.value.groups|));
    var next := Cursor.Encode(fingerprint, b, a.next);
    if next.Err? {
      return Err(next.error);
    }
    var sections := ThinSections(a.items);
    return Ok(Page(sections, next.value, a.failures, outcome.value.groups != []));
  }

  datatype CategoryItem = CategoryItem(id: Text, canonicalId: Option<Text>)

  function CategoryKey(s: Sourced<CategoryItem>): (key: Option<Text>) {
    if s.item.canonicalId.None? || s.item.canonicalId.value == [] then None else s.item.canonicalId
  }

  ghost function CategoriesPage(invoke: Invoker<CategoryItem>, prepared: Prepared): (r: Page<Sourced<CategoryItem>>) {
    var a := Combine(Outcomes(invoke, prepared));
    Page(Firsts(CategoryKey, a.items), None, a.failures, prepared.groups != [])
  }

  method Categories(candidates: seq<Candidate>, filters: Filters, invoke: Invoker<CategoryItem>, schedule: nat -> seq<nat>)
    returns (r: Page<Sourced<CategoryItem>>)
    requires forall n :: Completes(schedule(n), n)
    ensures exists groups :: Starts(Select(candidates, CategoriesMethod, DiscoverRoute, filters), groups)
                             && r == CategoriesPage(invoke, Prepared(groups, filters.plugin.None?))
  {
    var groups := StartGroups(Select(candidates, CategoriesMethod, DiscoverRoute, filters));
    var a := RunAll(invoke, Prepared(groups, filters.plugin.None?), schedule(|groups|));
    var items := DeduplicateItems(CategoryKey, a.items);
    return Page(items, None, a.failures, groups != []);
  }
}
