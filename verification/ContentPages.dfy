/**
 * Paging: a run of requests, each sent with the cursor the one before it returned. Between pages the stored
 * candidates and the plugins' behaviour may change freely.
 */
module ContentPages {
  import opened Collections
  import opened ContentDedup
  import opened ContentRouting
  import opened ContentAggregation
  import Cursor = ContentCursor

  /** The (platform, plugin) pairs of a source list. */
  function Pairs(sources: seq<SourceCursor>): (r: seq<(Text, Text)>)
    ensures |r| == |sources| && forall i :: 0 <= i < |sources| ==> r[i] == (sources[i].platform, sources[i].plugin)
  {
    seq(|sources|, i requires 0 <= i < |sources| => (sources[i].platform, sources[i].plugin))
  }

  lemma PairsSnoc(sources: seq<SourceCursor>, s: SourceCursor)
    ensures Pairs(sources + [s]) == Pairs(sources) + [(s.platform, s.plugin)]
  {
  }

  // ---- What each platform contributes, if anything ----

  /** The values that are there, in order. */
  function Collect<X>(options: seq<Option<X>>): (r: seq<X>) {
    if options == [] then []
    else
      var last := |options| - 1;
      if options[last].None? then Collect(options[..last]) else Collect(options[..last]) + [options[last].value]
  }

  /** Where `a` has a value, `b` has the same. */
  ghost predicate Within<X>(a: seq<Option<X>>, b: seq<Option<X>>) {
    |a| == |b| && forall i :: 0 <= i < |a| ==> a[i].Some? ==> b[i] == a[i]
  }

  lemma {:induction false} CollectWithin<X>(a: seq<Option<X>>, b: seq<Option<X>>)
    requires Within(a, b)
    ensures IsSubsequence(Collect(a), Collect(b))
    decreases |a|
  {
    if a != [] {
      var last := |a| - 1;
      CollectWithin(a[..last], b[..last]);
      if b[last].Some? {
        SubsequenceSnoc(Collect(a[..last]), Collect(b[..last]), b[last].value);
      }
    }
  }

  /** The source with which platform result `r` continues. */
  function NextPair<T>(r: PlatformResult<T>): (pair: Option<(Text, Text)>) {
    if r.next.None? then None else Some((r.next.value.platform, r.next.value.plugin))
  }

  function NextPairs<T>(results: seq<PlatformResult<T>>): (r: seq<Option<(Text, Text)>>)
    ensures |r| == |results| && forall i :: 0 <= i < |results| ==> r[i] == NextPair(results[i])
  {
    seq(|results|, i requires 0 <= i < |results| => NextPair(results[i]))
  }

  lemma {:induction false} NextCollected<T>(results: seq<PlatformResult<T>>)
    ensures Pairs(Combine(results).next) == Collect(NextPairs(results))
    decreases |results|
  {
    if results != [] {
      var last := |results| - 1;
      NextCollected(results[..last]);
      assert NextPairs(results)[..last] == NextPairs(results[..last]);
      var before := Combine(results[..last]).next;
      if results[last].next.Some? {
        PairsSnoc(before, results[last].next.value);
      } else {
        assert Combine(results).next == before;
      }
    }
  }

  /** The plugin of a group that answered: the first success, after retryable failures only. */
  ghost function AnswerOf<T>(invoke: Invoker<T>, g: Group, allowFallback: bool): (pair: Option<(Text, Text)>) {
    var n := StopAt(invoke, g.candidates, g.cursor, allowFallback);
    if n < |g.candidates| && Interpret(invoke(g.candidates[n], g.cursor)).Success?
    then Some((g.candidates[n].platform, g.candidates[n].plugin)) else None
  }

  ghost function AnswersAt<T>(invoke: Invoker<T>, p: Prepared): (r: seq<Option<(Text, Text)>>)
    ensures |r| == |p.groups| && forall i :: 0 <= i < |p.groups| ==> r[i] == AnswerOf(invoke, p.groups[i], p.allowFallback)
  {
    seq(|p.groups|, i requires 0 <= i < |p.groups| => AnswerOf(invoke, p.groups[i], p.allowFallback))
  }

  /** The (platform, plugin) pairs whose items a page shows, platform by platform. */
  ghost function Answers<T>(invoke: Invoker<T>, p: Prepared): (r: seq<(Text, Text)>) {
    Collect(AnswersAt(invoke, p))
  }

  /** A page passes on a cursor only for plugins that answered on it, whichever candidate of the platform that was. */
  lemma PassedOnAnswered<T>(invoke: Invoker<T>, p: Prepared)
    ensures IsSubsequence(Pairs(Combine(Outcomes(invoke, p)).next), Answers(invoke, p))
  {
    NextCollected(Outcomes(invoke, p));
    CollectWithin(NextPairs(Outcomes(invoke, p)), AnswersAt(invoke, p));
  }

  ghost predicate Usable<T>(r: PlatformResult<T>) {
    r.next.Some? ==> ValidNext(Some(r.next.value.cursor))
  }

  lemma OutcomesUsable<T>(invoke: Invoker<T>, p: Prepared)
    ensures forall r :: r in Outcomes(invoke, p) ==> Usable(r)
  {
  }

  lemma {:induction false} CombineUsable<T>(results: seq<PlatformResult<T>>)
    requires forall r :: r in results ==> Usable(r)
    ensures forall s :: s in Combine(results).next ==> ValidNext(Some(s.cursor))
    decreases |results|
  {
    if results != [] {
      var last := |results| - 1;
      CombineUsable(results[..last]);
      assert results[last] in results;
    }
  }

  /** Every cursor passed on is usable. */
  lemma NextCursorsUsable<T>(invoke: Invoker<T>, p: Prepared)
    ensures forall s :: s in Combine(Outcomes(invoke, p)).next ==> ValidNext(Some(s.cursor))
  {
    OutcomesUsable(invoke, p);
    CombineUsable(Outcomes(invoke, p));
  }

  // ---- A continued page ----

  /** On a continued page each platform asks one plugin, the one its source names, and nobody else can answer. */
  lemma ContinuedGroup<T>(invoke: Invoker<T>, selected: seq<Candidate>, sources: seq<SourceCursor>, p: Prepared, i: nat)
    requires Continues(selected, sources, p.groups) && i < |sources|
    ensures |p.groups[i].candidates| == 1 && Matches(p.groups[i].candidates[0], sources[i])
    ensures AnswersAt(invoke, p)[i].Some? ==> AnswersAt(invoke, p)[i].value == (sources[i].platform, sources[i].plugin)
  {
    assert Find(selected, sources[i]).Some?;
  }

  function Somes<X>(s: seq<X>): (r: seq<Option<X>>)
    ensures |r| == |s| && forall i :: 0 <= i < |s| ==> r[i] == Some(s[i])
  {
    seq(|s|, i requires 0 <= i < |s| => Some(s[i]))
  }

  lemma {:induction false} CollectSomes<X>(s: seq<X>)
    ensures Collect(Somes(s)) == s
    decreases |s|
  {
    if s != [] {
      var last := |s| - 1;
      CollectSomes(s[..last]);
      assert Somes(s)[..last] == Somes(s[..last]);
      assert s == s[..last] + [s[last]];
    }
  }

  lemma AnswersAmongSources<T>(invoke: Invoker<T>, selected: seq<Candidate>, sources: seq<SourceCursor>, p: Prepared)
    requires Continues(selected, sources, p.groups)
    ensures IsSubsequence(Answers(invoke, p), Pairs(sources))
  {
    var named := Somes(Pairs(sources));
    forall i | 0 <= i < |sources| && AnswersAt(invoke, p)[i].Some? ensures named[i] == AnswersAt(invoke, p)[i] {
      ContinuedGroup(invoke, selected, sources, p, i);
    }
    CollectWithin(AnswersAt(invoke, p), named);
    CollectSomes(Pairs(sources));
  }

  /** Validity of the platforms in a list of pairs. */
  ghost predicate GoodPairs(pairs: seq<(Text, Text)>) {
    && (forall i :: 0 <= i < |pairs| ==> Cursor.ValidPlatform(pairs[i].0))
    && (forall i, j :: 0 <= i < j < |pairs| ==> Cursor.Before(pairs[i].0, pairs[j].0))
  }

  lemma {:induction false} SubsequenceMembers<T>(s: seq<T>, t: seq<T>)
    requires IsSubsequence(s, t)
    ensures |s| <= |t| && forall x :: x in s ==> x in t
    decreases |t|
  {
    if s != [] {
      if s[0] == t[0] && IsSubsequence(s[1..], t[1..]) {
        SubsequenceMembers(s[1..], t[1..]);
        assert s == [s[0]] + s[1..];
      } else {
        SubsequenceMembers(s, t[1..]);
      }
    }
  }

  lemma {:induction false} SubsequenceOfGood(s: seq<(Text, Text)>, t: seq<(Text, Text)>)
    requires GoodPairs(t) && IsSubsequence(s, t)
    ensures GoodPairs(s)
    decreases |t|
  {
    if s != [] {
      if s[0] == t[0] && IsSubsequence(s[1..], t[1..]) {
        SubsequenceOfGood(s[1..], t[1..]);
        SubsequenceMembers(s[1..], t[1..]);
        assert s == [s[0]] + s[1..];
        forall j | 0 < j < |s| ensures Cursor.Before(s[0].0, s[j].0) {
          assert s[j] in s[1..];
        }
      } else {
        SubsequenceOfGood(s, t[1..]);
      }
    }
  }

  /** The sources that a continued page passes on are valid, so encoding them can fail only by total size. */
  lemma ContinuedPage<T>(invoke: Invoker<T>, selected: seq<Candidate>, sources: seq<SourceCursor>, p: Prepared)
    requires Cursor.ValidSources(sources) && Continues(selected, sources, p.groups)
    ensures Cursor.ValidSources(Combine(Outcomes(invoke, p)).next)
  {
    var results := Outcomes(invoke, p);
    var next := Combine(results).next;
    PassedOnAnswered(invoke, p);
    AnswersAmongSources(invoke, selected, sources, p);
    SubsequenceTransitive(Pairs(next), Answers(invoke, p), Pairs(sources));
    NextCursorsUsable(invoke, p);
    ValidSourcesPairs(sources);
    SubsequenceOfGood(Pairs(next), Pairs(sources));
    SubsequenceMembers(Pairs(next), Pairs(sources));
    ValidFromPairs(next);
  }

  lemma ValidSourcesPairs(sources: seq<SourceCursor>)
    requires Cursor.ValidSources(sources)
    ensures GoodPairs(Pairs(sources)) && |Pairs(sources)| <= Cursor.MAX_SOURCES
  {
    forall i | 0 <= i < |sources| ensures Cursor.ValidPlatform(Pairs(sources)[i].0) {
      assert Cursor.ValidSource(sources[i]);
    }
  }

  lemma ValidFromPairs(next: seq<SourceCursor>)
    requires GoodPairs(Pairs(next)) && |next| <= Cursor.MAX_SOURCES
    requires forall s :: s in next ==> ValidNext(Some(s.cursor))
    ensures Cursor.ValidSources(next)
  {
    forall i | 0 <= i < |next| ensures Cursor.ValidSource(next[i]) {
      assert next[i] in next && Cursor.ValidPlatform(Pairs(next)[i].0);
    }
    forall i, j | 0 <= i < j < |next| ensures Cursor.Before(next[i].platform, next[j].platform) {
      assert Cursor.Before(Pairs(next)[i].0, Pairs(next)[j].0);
    }
  }

  // ---- The first page ----

  lemma OnePlatform(selected: seq<Candidate>, groups: seq<Group>, i: nat)
    requires Starts(selected, groups) && i < |groups|
    ensures groups[i].candidates != []
    ensures forall c :: c in groups[i].candidates ==> c.platform == groups[i].candidates[0].platform
  {
    assert CandidateLists(groups)[i] in CandidateLists(groups);
    var platform := groups[i].candidates[0].platform;
    forall c | c in groups[i].candidates ensures c.platform == platform {
      assert c in Filter(selected, OnPlatform(platform));
    }
  }

  lemma OutcomeSource<T>(invoke: Invoker<T>, g: Group, allowFallback: bool)
    ensures var r := PlatformOutcome(invoke, g.candidates, g.cursor, allowFallback);
            r.next.Some? ==> Usable(r) && exists c :: c in g.candidates && c.platform == r.next.value.platform
  {
    var n := StopAt(invoke, g.candidates, g.cursor, allowFallback);
    if n < |g.candidates| { assert g.candidates[n] in g.candidates; }
  }

  /** A platform result that continues, continues its group's platform. */
  lemma FirstOutcome<T>(invoke: Invoker<T>, selected: seq<Candidate>, p: Prepared, i: nat)
    requires Starts(selected, p.groups) && i < |p.groups|
    ensures p.groups[i].candidates != []
    ensures Outcomes(invoke, p)[i].next.Some? ==>
              && Outcomes(invoke, p)[i].next.value.platform == p.groups[i].candidates[0].platform
              && ValidNext(Some(Outcomes(invoke, p)[i].next.value.cursor))
  {
    OnePlatform(selected, p.groups, i);
    OutcomeSource(invoke, p.groups[i], p.allowFallback);
  }

  /** One of the first `n` groups is for `platform`. */
  ghost predicate Hosted(p: Prepared, n: nat, platform: Text) {
    exists i :: 0 <= i < n && i < |p.groups| && p.groups[i].candidates != [] && p.groups[i].candidates[0].platform == platform
  }

  ghost predicate FromFirst(p: Prepared, n: nat, next: seq<SourceCursor>) {
    && |next| <= n
    && Cursor.AscendingPlatforms(next)
    && forall s :: s in next ==> ValidNext(Some(s.cursor)) && Hosted(p, n, s.platform)
  }

  lemma HostedBefore(selected: seq<Candidate>, p: Prepared, n: nat, platform: Text)
    requires Starts(selected, p.groups) && n < |p.groups| && p.groups[n].candidates != [] && Hosted(p, n, platform)
    ensures Cursor.Before(platform, p.groups[n].candidates[0].platform)
    ensures Hosted(p, n + 1, platform)
  {
    var i :| 0 <= i < n && p.groups[i].candidates != [] && p.groups[i].candidates[0].platform == platform;
    assert CandidateLists(p.groups)[i] == p.groups[i].candidates;
    assert CandidateLists(p.groups)[n] == p.groups[n].candidates;
  }

  lemma {:induction false} FirstPageAscends<T>(invoke: Invoker<T>, selected: seq<Candidate>, p: Prepared, n: nat)
    requires Starts(selected, p.groups) && n <= |p.groups|
    ensures FromFirst(p, n, Combine(Outcomes(invoke, p)[..n]).next)
  {
    if n > 0 {
      var results := Outcomes(invoke, p);
      FirstPageAscends(invoke, selected, p, n - 1);
      FirstOutcome(invoke, selected, p, n - 1);
      assert results[..n][..n - 1] == results[..n - 1];
      var before := Combine(results[..n - 1]).next;
      FromFirstGrows(selected, p, n - 1, before, results[n - 1].next);
      assert Combine(results[..n]).next == before + NextList(results[n - 1].next);
    }
  }

  lemma FromFirstGrows(selected: seq<Candidate>, p: Prepared, n: nat, before: seq<SourceCursor>, last: Option<SourceCursor>)
    requires Starts(selected, p.groups) && n < |p.groups| && p.groups[n].candidates != [] && FromFirst(p, n, before)
    requires last.Some? ==> last.value.platform == p.groups[n].candidates[0].platform && ValidNext(Some(last.value.cursor))
    ensures FromFirst(p, n + 1, before + NextList(last))
  {
    forall s | s in before
      ensures Cursor.Before(s.platform, p.groups[n].candidates[0].platform) && Hosted(p, n + 1, s.platform)
    {
      HostedBefore(selected, p, n, s.platform);
    }
    var next := before + NextList(last);
    forall i, j | 0 <= i < j < |next| ensures Cursor.Before(next[i].platform, next[j].platform) {
      if j == |before| { assert before[i] in before; }
    }
  }

  /** A first page can fail to encode its cursor only for the platforms' number or names, or the total size. */
  lemma FirstPageEncodes<T>(invoke: Invoker<T>, selected: seq<Candidate>, p: Prepared, b: Cursor.Binding, fingerprint: Fingerprints)
    requires Starts(selected, p.groups)
    requires |p.groups| <= Cursor.MAX_SOURCES && forall c :: c in selected ==> Cursor.ValidPlatform(c.platform)
    ensures Cursor.ValidSources(Combine(Outcomes(invoke, p)).next)
    ensures Cursor.Encode(fingerprint, b, Combine(Outcomes(invoke, p)).next).Ok?
         || Cursor.Encode(fingerprint, b, Combine(Outcomes(invoke, p)).next) == Err(Cursor.DecodedTooLarge)
  {
    var next := Combine(Outcomes(invoke, p)).next;
    assert Outcomes(invoke, p)[..|p.groups|] == Outcomes(invoke, p);
    FirstPageAscends(invoke, selected, p, |p.groups|);
    forall k | 0 <= k < |next| ensures Cursor.ValidSource(next[k]) {
      assert next[k] in next;
      assert Hosted(p, |p.groups|, next[k].platform);
      var i :| 0 <= i < |p.groups| && p.groups[i].candidates != [] && p.groups[i].candidates[0].platform == next[k].platform;
      assert CandidateLists(p.groups)[i] in CandidateLists(p.groups);
      assert p.groups[i].candidates[0] in p.groups[i].candidates;
    }
    if next != [] { Cursor.EncodeValid(fingerprint, b, next); }
  }

  // ---- Runs of pages ----

  /** A request: what the store selected, how the plugins answered, and the cursor it was sent with, if any. */
  datatype Turn<!T> = Turn(selected: seq<Candidate>, invoke: Invoker<T>, cursor: Option<Text>)

  /** The turn gets past preparation, to `p`. */
  ghost predicate Asks<T>(t: Turn<T>, b: Cursor.Binding, fingerprint: Fingerprints, parse: Parser, p: Prepared) {
    PreparedAs(t.selected, t.cursor, b, fingerprint, parse, Ok(p))
  }

  ghost function Passes<T>(t: Turn<T>, p: Prepared): (next: seq<SourceCursor>) {
    Combine(Outcomes(t.invoke, p)).next
  }

  ghost function AnsweredOn<T>(t: Turn<T>, p: Prepared): (pairs: seq<(Text, Text)>) {
    Answers(t.invoke, p)
  }

  /** The turn returns `cursor`, and the JSON reader reads back what was written into it. */
  ghost predicate Hands<T>(t: Turn<T>, b: Cursor.Binding, fingerprint: Fingerprints, parse: Parser, p: Prepared, cursor: Option<Text>) {
    && Passes(t, p) != []
    && Cursor.Encode(fingerprint, b, Passes(t, p)) == Ok(cursor)
    && Cursor.ReadsBack(parse, fingerprint(b), Passes(t, p))
  }

  ghost predicate TurnAt<T>(turns: seq<Turn<T>>, prepared: seq<Prepared>,
                            b: Cursor.Binding, fingerprint: Fingerprints, parse: Parser, i: nat)
    requires i < |turns| == |prepared|
  {
    && Asks(turns[i], b, fingerprint, parse, prepared[i])
    && (i + 1 < |turns| ==> Hands(turns[i], b, fingerprint, parse, prepared[i], turns[i + 1].cursor))
  }

  /** Each turn is sent the cursor that the turn before it returned; the first may have none. */
  ghost predicate IsPaging<T>(turns: seq<Turn<T>>, prepared: seq<Prepared>,
                              b: Cursor.Binding, fingerprint: Fingerprints, parse: Parser) {
    && |turns| == |prepared|
    && forall i :: 0 <= i < |turns| ==> TurnAt(turns, prepared, b, fingerprint, parse, i)
  }

  /** The plugins asked in `p` are those of `sources`, one per group, with the cursors given there and no fallback. */
  ghost predicate AsksOnly(p: Prepared, sources: seq<SourceCursor>) {
    && !p.allowFallback
    && |p.groups| == |sources|
    && forall i :: 0 <= i < |sources| ==>
         && |p.groups[i].candidates| == 1 && Matches(p.groups[i].candidates[0], sources[i])
         && p.groups[i].cursor == Some(sources[i].cursor)
  }

  /**
   * A turn that was sent a cursor asks exactly the plugins it names; what it passes on is valid, and encoding that
   * fails if and only if its JSON is over the limit.
   */
  lemma TurnFacts<T>(t: Turn<T>, b: Cursor.Binding, fingerprint: Fingerprints, parse: Parser, sources: seq<SourceCursor>, p: Prepared)
    requires Asks(t, b, fingerprint, parse, p)
    requires t.cursor.Some? && Cursor.Decode(fingerprint, parse, t.cursor.value, b) == Ok(sources)
    ensures Cursor.ValidSources(sources) && AsksOnly(p, sources)
    ensures IsSubsequence(AnsweredOn(t, p), Pairs(sources))
    ensures Cursor.Encode(fingerprint, b, Passes(t, p)).Err? ==> Cursor.Encode(fingerprint, b, Passes(t, p)).error == Cursor.DecodedTooLarge
    ensures Cursor.Encode(fingerprint, b, Passes(t, p)).Err? <==>
              (Passes(t, p) != [] && |Cursor.Serialize(fingerprint(b), Passes(t, p))| > Cursor.MAX_DECODED)
  {
    Cursor.DecodedValid(fingerprint, parse, t.cursor.value, b);
    AnswersAmongSources(t.invoke, t.selected, sources, p);
    forall i | 0 <= i < |sources| ensures |p.groups[i].candidates| == 1 && Matches(p.groups[i].candidates[0], sources[i]) {
      ContinuedGroup(t.invoke, t.selected, sources, p, i);
    }
    ContinuedPage(t.invoke, t.selected, sources, p);
    if Passes(t, p) != [] {
      Cursor.EncodeValid(fingerprint, b, Passes(t, p));
    }
  }

  /** The next turn decodes exactly the sources this one passed on. */
  lemma HandedOver<T>(t: Turn<T>, b: Cursor.Binding, fingerprint: Fingerprints, parse: Parser, p: Prepared, cursor: Option<Text>)
    requires Hands(t, b, fingerprint, parse, p, cursor)
    ensures cursor.Some? && Cursor.Decode(fingerprint, parse, cursor.value, b) == Ok(Passes(t, p))
  {
    Cursor.DecodeEncode(fingerprint, parse, b, Passes(t, p));
  }

  /** From any page to the next, the first one included: only plugins that answered are asked again, in the same order. */
  lemma NextPage<T>(turns: seq<Turn<T>>, prepared: seq<Prepared>, b: Cursor.Binding, fingerprint: Fingerprints, parse: Parser, j: nat)
    requires IsPaging(turns, prepared, b, fingerprint, parse) && j + 1 < |turns|
    ensures AsksOnly(prepared[j + 1], Passes(turns[j], prepared[j]))
    ensures IsSubsequence(Pairs(Passes(turns[j], prepared[j])), AnsweredOn(turns[j], prepared[j]))
    ensures IsSubsequence(AnsweredOn(turns[j + 1], prepared[j + 1]), AnsweredOn(turns[j], prepared[j]))
  {
    assert TurnAt(turns, prepared, b, fingerprint, parse, j);
    assert TurnAt(turns, prepared, b, fingerprint, parse, j + 1);
    var sources := Passes(turns[j], prepared[j]);
    HandedOver(turns[j], b, fingerprint, parse, prepared[j], turns[j + 1].cursor);
    TurnFacts(turns[j + 1], b, fingerprint, parse, sources, prepared[j + 1]);
    PassedOnAnswered(turns[j].invoke, prepared[j]);
    SubsequenceTransitive(AnsweredOn(turns[j + 1], prepared[j + 1]), Pairs(sources), AnsweredOn(turns[j], prepared[j]));
  }

  /** Page by page, the pairs that answered. */
  ghost function AnswerLists<T>(turns: seq<Turn<T>>, prepared: seq<Prepared>): (lists: seq<seq<(Text, Text)>>)
    requires |turns| == |prepared|
    ensures |lists| == |turns| && forall k :: 0 <= k < |turns| ==> lists[k] == AnsweredOn(turns[k], prepared[k])
  {
    seq(|turns|, k requires 0 <= k < |turns| => AnsweredOn(turns[k], prepared[k]))
  }

  ghost predicate NarrowsAt<T>(lists: seq<seq<T>>, k: int)
    requires 0 < k < |lists|
  {
    IsSubsequence(lists[k], lists[k - 1])
  }

  /** Each list is an order-preserving part of the one before it. */
  ghost predicate Narrowing<T>(lists: seq<seq<T>>) {
    forall k :: 0 < k < |lists| ==> NarrowsAt(lists, k)
  }

  lemma {:induction false} ChainNarrows<T>(lists: seq<seq<T>>, i: nat, j: nat)
    requires i <= j < |lists| && Narrowing(lists)
    ensures IsSubsequence(lists[j], lists[i])
    decreases j
  {
    if i == j {
      SubsequenceReflexive(lists[i]);
    } else {
      ChainNarrows(lists, i, j - 1);
      assert NarrowsAt(lists, j);
      SubsequenceTransitive(lists[j], lists[j - 1], lists[i]);
    }
  }

  lemma AnswersNarrow<T>(turns: seq<Turn<T>>, prepared: seq<Prepared>, b: Cursor.Binding, fingerprint: Fingerprints, parse: Parser)
    requires IsPaging(turns, prepared, b, fingerprint, parse)
    ensures Narrowing(AnswerLists(turns, prepared))
  {
    forall k | 0 < k < |turns| ensures NarrowsAt(AnswerLists(turns, prepared), k) {
      NextPage(turns, prepared, b, fingerprint, parse, k - 1);
    }
  }

  lemma AnswersNarrowDown<T>(turns: seq<Turn<T>>, prepared: seq<Prepared>,
                             b: Cursor.Binding, fingerprint: Fingerprints, parse: Parser, i: nat, j: nat)
    requires IsPaging(turns, prepared, b, fingerprint, parse) && i <= j < |turns|
    ensures IsSubsequence(AnswerLists(turns, prepared)[j], AnswerLists(turns, prepared)[i])
  {
    AnswersNarrow(turns, prepared, b, fingerprint, parse);
    ChainNarrows(AnswerLists(turns, prepared), i, j);
  }

  /** What is asked after page `j` answered on it. */
  lemma AskedNext<T>(turns: seq<Turn<T>>, prepared: seq<Prepared>,
                     b: Cursor.Binding, fingerprint: Fingerprints, parse: Parser, j: nat)
    requires IsPaging(turns, prepared, b, fingerprint, parse) && j + 1 < |turns|
    ensures AsksOnly(prepared[j + 1], Passes(turns[j], prepared[j]))
    ensures IsSubsequence(Pairs(Passes(turns[j], prepared[j])), AnswerLists(turns, prepared)[j])
  {
    NextPage(turns, prepared, b, fingerprint, parse, j);
  }

  /**
   * Over a whole run from the first page on, the pairs asked on a later page are an order-preserving part of the pairs
   * that answered on every earlier page, and so are the pairs that answer on it.
   */
  lemma PagingNarrows<T>(turns: seq<Turn<T>>, prepared: seq<Prepared>,
                         b: Cursor.Binding, fingerprint: Fingerprints, parse: Parser, i: nat, j: nat)
    requires IsPaging(turns, prepared, b, fingerprint, parse)
    requires i <= j && j + 1 < |turns|
    ensures AsksOnly(prepared[j + 1], Passes(turns[j], prepared[j]))
    ensures IsSubsequence(Pairs(Passes(turns[j], prepared[j])), AnswerLists(turns, prepared)[i])
    ensures IsSubsequence(AnswerLists(turns, prepared)[j + 1], AnswerLists(turns, prepared)[i])
  {
    AskedNext(turns, prepared, b, fingerprint, parse, j);
    AnswersNarrowDown(turns, prepared, b, fingerprint, parse, i, j);
    AnswersNarrowDown(turns, prepared, b, fingerprint, parse, i, j + 1);
    SubsequenceTransitive(Pairs(Passes(turns[j], prepared[j])), AnswerLists(turns, prepared)[j], AnswerLists(turns, prepared)[i]);
  }
}
