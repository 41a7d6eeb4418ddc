/** Removal of content that several sources report: the first occurrence of a key stays, items without a key all stay. */
module ContentDedup {
  import opened Collections

  type Text = seq<Byte>

  datatype ResourceType = Album | Track | Category

  datatype Item = Item(id: Text, resourceType: ResourceType, canonicalId: Option<Text>)

  /** Where content came from. */
  datatype Source = Source(plugin: Text, platform: Text)

  datatype Sourced<T> = Sourced(item: T, source: Source)

  datatype Key = Key(kind: nat, canonicalId: Text)

  function ResourceTypeKey(t: ResourceType): (n: nat) {
    match t
    case Album => 0
    case Track => 1
    case Category => 2
  }

  function ItemKey(item: Item): (key: Option<Key>) {
    if item.canonicalId.None? || item.canonicalId.value == [] then None
    else Some(Key(ResourceTypeKey(item.resourceType), item.canonicalId.value))
  }

  // ---- What stays, stated by position ----

  /** No earlier item has the key of item `i`. */
  ghost predicate IsFirst<T, K>(key: T -> Option<K>, items: seq<T>, i: nat)
    requires i < |items|
  {
    key(items[i]).None? || forall j :: 0 <= j < i ==> key(items[j]) != key(items[i])
  }

  /** The items of `items` that stay when `before` came ahead of them. */
  ghost function FirstsAfter<T, K>(key: T -> Option<K>, before: seq<T>, items: seq<T>): (r: seq<T>)
    decreases |items|
  {
    if items == [] then []
    else
      var last := |items| - 1;
      FirstsAfter(key, before, items[..last])
      + if IsFirst(key, before + items, |before| + last) then [items[last]] else []
  }

  ghost function Firsts<T, K>(key: T -> Option<K>, items: seq<T>): (r: seq<T>) {
    FirstsAfter(key, [], items)
  }

  lemma {:induction false} FirstsAppend<T, K>(key: T -> Option<K>, before: seq<T>, x: seq<T>, y: seq<T>)
    ensures FirstsAfter(key, before, x + y) == FirstsAfter(key, before, x) + FirstsAfter(key, before + x, y)
    decreases |y|
  {
    if y == [] {
      assert x + y == x;
    } else {
      var last := |y| - 1;
      FirstsAppend(key, before, x, y[..last]);
      assert (x + y)[..|x + y| - 1] == x + y[..last];
      assert before + (x + y) == before + x + y;
    }
  }

  ghost predicate Keyed<T, K>(key: T -> Option<K>, s: seq<T>, k: K) {
    exists i :: 0 <= i < |s| && key(s[i]) == Some(k)
  }

  lemma KeyedSnoc<T, K>(key: T -> Option<K>, s: seq<T>, x: T, k: K)
    ensures Keyed(key, s + [x], k) <==> Keyed(key, s, k) || key(x) == Some(k)
  {
    if Keyed(key, s, k) {
      var i :| 0 <= i < |s| && key(s[i]) == Some(k);
      assert key((s + [x])[i]) == Some(k);
    }
    if key(x) == Some(k) {
      assert key((s + [x])[|s|]) == Some(k);
    }
  }

  /** No key is left twice. */
  ghost predicate NoKeyTwice<T, K>(key: T -> Option<K>, s: seq<T>) {
    forall i, j :: 0 <= i < j < |s| && key(s[i]).Some? ==> key(s[i]) != key(s[j])
  }

  lemma {:induction false} FirstsKeys<T, K(!new)>(key: T -> Option<K>, items: seq<T>)
    ensures forall k :: Keyed(key, Firsts(key, items), k) <==> Keyed(key, items, k)
    ensures NoKeyTwice(key, Firsts(key, items))
    decreases |items|
  {
    if items != [] {
      var last := |items| - 1;
      var init, x := items[..last], items[last];
      assert items == init + [x];
      FirstsKeys(key, init);
      forall k ensures Keyed(key, Firsts(key, items), k) <==> Keyed(key, items, k) {
        KeyedSnoc(key, init, x, k);
        KeyedSnoc(key, Firsts(key, init), x, k);
        StaysIffNew(key, init, x);
      }
      StaysIffNew(key, init, x);
      NoKeyTwiceSnoc(key, init, x);
    }
  }

  ghost predicate StaysBehind<T, K>(key: T -> Option<K>, init: seq<T>, x: T) {
    key(x).None? || !Keyed(key, init, key(x).value)
  }

  lemma StaysIffNew<T, K>(key: T -> Option<K>, init: seq<T>, x: T)
    ensures Firsts(key, init + [x]) == if StaysBehind(key, init, x) then Firsts(key, init) + [x] else Firsts(key, init)
  {
    var items := init + [x];
    assert items[..|items| - 1] == init && [] + items == items;
  }

  lemma NoKeyTwiceSnoc<T, K(!new)>(key: T -> Option<K>, init: seq<T>, x: T)
    requires forall k :: Keyed(key, Firsts(key, init), k) <==> Keyed(key, init, k)
    requires NoKeyTwice(key, Firsts(key, init))
    ensures NoKeyTwice(key, Firsts(key, init + [x]))
  {
    StaysIffNew(key, init, x);
    var s, t := Firsts(key, init), Firsts(key, init + [x]);
    forall i, j | 0 <= i < j < |t| && key(t[i]).Some? ensures key(t[i]) != key(t[j]) {
      if j == |s| {
        assert Keyed(key, s, key(s[i]).value);
      }
    }
  }

  /** What stays keeps its order, keeps every unkeyed item and every key, and has no key twice. */
  lemma {:induction false} FirstsSubsequence<T, K>(key: T -> Option<K>, items: seq<T>)
    ensures IsSubsequence(Firsts(key, items), items)
    decreases |items|
  {
    if items != [] {
      var last := |items| - 1;
      assert items == items[..last] + [items[last]];
      FirstsSubsequence(key, items[..last]);
      StaysIffNew(key, items[..last], items[last]);
      SubsequenceSnoc(Firsts(key, items[..last]), items[..last], items[last]);
    }
  }

  lemma {:induction false} SubsequenceSnoc<T>(s: seq<T>, t: seq<T>, x: T)
    requires IsSubsequence(s, t)
    ensures IsSubsequence(s, t + [x]) && IsSubsequence(s + [x], t + [x])
    decreases |t|
  {
    if s == [] {
      SuffixIsSubsequence(t, [x]);
      assert s + [x] == [x];
    } else {
      assert (t + [x])[1..] == t[1..] + [x] && (s + [x])[1..] == s[1..] + [x];
      if s[0] == t[0] && IsSubsequence(s[1..], t[1..]) {
        SubsequenceSnoc(s[1..], t[1..], x);
      } else {
        SubsequenceSnoc(s, t[1..], x);
      }
    }
  }

  lemma {:induction false} SuffixIsSubsequence<T>(t: seq<T>, s: seq<T>)
    ensures IsSubsequence(s, t + s)
    decreases |t|
  {
    if t == [] {
      assert t + s == s;
      SubsequenceReflexive(s);
    } else {
      SuffixIsSubsequence(t[1..], s);
      assert t + s == [t[0]] + (t[1..] + s);
      SubsequenceSkip(s, t[0], t[1..] + s);
    }
  }

  // ---- The loops ----

  ghost function KeysOf<T, K>(key: T -> Option<K>, items: seq<T>): (r: set<K>) {
    set i | 0 <= i < |items| && key(items[i]).Some? :: key(items[i]).value
  }

  lemma KeysSnoc<T, K>(key: T -> Option<K>, items: seq<T>, x: T)
    ensures KeysOf(key, items + [x]) == KeysOf(key, items) + if key(x).Some? then {key(x).value} else {}
  {
    var all := items + [x];
    forall k | k in KeysOf(key, items) ensures k in KeysOf(key, all) {
      var i :| 0 <= i < |items| && key(items[i]).Some? && key(items[i]).value == k;
      assert all[i] == items[i];
    }
    if key(x).Some? { assert all[|items|] == x; }
  }

  lemma FirstsSnoc<T, K>(key: T -> Option<K>, before: seq<T>, init: seq<T>, x: T)
    ensures FirstsAfter(key, before, init + [x])
         == if key(x).None? || key(x).value !in KeysOf(key, before + init)
            then FirstsAfter(key, before, init) + [x] else FirstsAfter(key, before, init)
  {
    var items, ahead := init + [x], before + init;
    assert items[..|init|] == init && before + items == ahead + [x];
    if key(x).Some? && key(x).value !in KeysOf(key, ahead) {
      forall j | 0 <= j < |ahead| ensures key((ahead + [x])[j]) != key(x) {
        assert key(ahead[j]).Some? ==> key(ahead[j]).value in KeysOf(key, ahead);
      }
    } else if key(x).Some? {
      var j :| 0 <= j < |ahead| && key(ahead[j]).Some? && key(ahead[j]).value == key(x).value;
      assert (ahead + [x])[j] == ahead[j];
    }
  }

  /** One pass over a list with the keys seen so far, as the retaining filter makes it. */
  method Retain<T, K(==)>(key: T -> Option<K>, items: seq<T>, seen: set<K>, ghost before: seq<T>)
    returns (kept: seq<T>, seenAfter: set<K>)
    requires seen == KeysOf(key, before)
    ensures kept == FirstsAfter(key, before, items)
    ensures seenAfter == KeysOf(key, before + items)
  {
    kept, seenAfter := [], seen;
    assert before + items[..0] == before;
    for i := 0 to |items|
      invariant kept == FirstsAfter(key, before, items[..i])
      invariant seenAfter == KeysOf(key, before + items[..i])
    {
      var item := items[i];
      ghost var ahead := before + items[..i];
      assert items[..i + 1][..i] == items[..i] && before + items[..i + 1] == ahead + [item];
      assert items[..i + 1] == items[..i] + [item];
      KeysSnoc(key, ahead, item);
      FirstsSnoc(key, before, items[..i], item);
      var k := key(item);
      if k.None? {
        kept := kept + [item];
      } else {
        if k.value !in seenAfter {
          kept := kept + [item];
        }
        seenAfter := seenAfter + {k.value};
      }
    }
    assert items[..|items|] == items;
  }

  method DeduplicateItems<T, K(==)>(key: T -> Option<K>, items: seq<T>) returns (kept: seq<T>)
    ensures kept == Firsts(key, items)
  {
    var seen;
    kept, seen := Retain(key, items, {}, []);
  }

  // ---- Sections ----

  datatype Section = Section(title: Text, items: seq<Item>)

  type Sections = seq<Sourced<Section>>

  ghost function AllItems(sections: Sections): (r: seq<Item>) {
    if sections == [] then []
    else AllItems(sections[..|sections| - 1]) + sections[|sections| - 1].item.items
  }

  /** Section `k` after removal: its own first occurrences, given all sections ahead of it. */
  ghost function Thinned(sections: Sections, k: nat): (r: Sourced<Section>)
    requires k < |sections|
  {
    var section := sections[k].item;
    sections[k].(item := section.(items := FirstsAfter(ItemKey, AllItems(sections[..k]), section.items)))
  }

  /** In place, with one set of seen keys across all sections; titles, sources and empty sections stay. */
  method DeduplicateSections(sections: array<Sourced<Section>>)
    modifies sections
    ensures forall k :: 0 <= k < sections.Length ==> sections[k] == Thinned(old(sections[..]), k)
    ensures AllItems(sections[..]) == Firsts(ItemKey, AllItems(old(sections[..])))
  {
    ghost var was := sections[..];
    var seen: set<Key> := {};
    for i := 0 to sections.Length
      invariant forall k :: 0 <= k < i ==> sections[k] == Thinned(was, k)
      invariant forall k :: i <= k < sections.Length ==> sections[k] == was[k]
      invariant seen == KeysOf(ItemKey, AllItems(was[..i]))
    {
      var kept;
      assert was[..i + 1][..i] == was[..i];
      kept, seen := Retain(ItemKey, sections[i].item.items, seen, AllItems(was[..i]));
      sections[i] := sections[i].(item := sections[i].item.(items := kept));
    }
    assert was[..|was|] == was;
    SectionsFlatten(was, sections[..], |was|);
    assert sections[..][..|was|] == sections[..];
  }

  /** Thinning section by section is removal on the items of all sections in a row. */
  lemma {:induction false} SectionsFlatten(was: Sections, now: Sections, n: nat)
    requires n <= |was| == |now|
    requires forall k :: 0 <= k < |was| ==> now[k] == Thinned(was, k)
    ensures AllItems(now[..n]) == Firsts(ItemKey, AllItems(was[..n]))
  {
    if n > 0 {
      SectionsFlatten(was, now, n - 1);
      assert was[..n][..n - 1] == was[..n - 1] && now[..n][..n - 1] == now[..n - 1];
      FirstsAppend(ItemKey, [], AllItems(was[..n - 1]), was[n - 1].item.items);
      assert [] + AllItems(was[..n - 1]) == AllItems(was[..n - 1]);
    }
  }
}
