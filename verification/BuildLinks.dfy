/**
 * Following the symbolic links of an accepted listing the way a file system does: a component that is itself
 * a listed link is replaced by its target, read from the directory that link is in.
 */
module BuildLinks {
  import opened Collections
  import opened BuildOutput

  type Links = map<Path, Path>

  function LinksOf(entries: seq<Entry>): (links: Links) {
    if entries == [] then map[]
    else
      var last := |entries| - 1;
      var links, e := LinksOf(entries[..last]), entries[last];
      if e.kind.Symlink? then links[e.path := e.kind.target] else links
  }

  /** How far a path leads before it meets a link: to its end, above the root, or to `link` with `rest` still to go. */
  datatype Walked = Arrived(path: Path) | AboveRoot | AtLink(link: Path, rest: Path)

  function Walk(links: Links, at: Path, target: Path): (w: Walked)
    ensures w.AtLink? ==> w.link in links
    decreases |target|
  {
    if target == [] then Arrived(at)
    else match target[0]
      case Normal(_) =>
        if at + [target[0]] in links then AtLink(at + [target[0]], target[1..]) else Walk(links, at + [target[0]], target[1..])
      case CurDir => Walk(links, at, target[1..])
      case ParentDir => if at == [] then AboveRoot else Walk(links, at[..|at| - 1], target[1..])
      case RootDir => AboveRoot
      case Prefix(_) => AboveRoot
  }

  datatype Followed = Ended(path: Path) | LeftRoot | TooManyLinks

  /** Follow a path through at most `limit` links. */
  function Follow(links: Links, at: Path, target: Path, limit: nat): (f: Followed)
    decreases limit
  {
    match Walk(links, at, target)
    case Arrived(path) => Ended(path)
    case AboveRoot => LeftRoot
    case AtLink(link, rest) =>
      if limit == 0 then TooManyLinks else Follow(links, ParentOf(link), links[link] + rest, limit - 1)
  }

  /** The walk meets no link but, possibly, at its very end. */
  predicate Direct(w: Walked) {
    w.Arrived? || (w.AtLink? && w.rest == [])
  }

  /** No listed link is in a directory that is a link, and no target runs through a link. */
  ghost predicate NoDetours(links: Links) {
    forall l :: l in links ==> Walk(links, [], l) == AtLink(l, []) && Direct(Walk(links, ParentOf(l), links[l]))
  }

  ghost predicate AllInside(links: Links) {
    forall l :: l in links ==> StaysInside(l, links[l])
  }

  /** Up to the first link, walking is resolving name by name. */
  lemma {:induction false} WalkResolves(links: Links, at: Path, target: Path)
    ensures var w := Walk(links, at, target);
            match w {
            case Arrived(path) => Resolve(at, target) == Some(path)
            case AboveRoot => Resolve(at, target) == None
            case AtLink(link, rest) => Resolve(at, target) == Resolve(link, rest)
            }
    decreases |target|
  {
    if target != [] {
      match target[0] {
        case Normal(_) => WalkResolves(links, at + [target[0]], target[1..]);
        case CurDir => WalkResolves(links, at, target[1..]);
        case ParentDir => if at != [] { WalkResolves(links, at[..|at| - 1], target[1..]); }
        case RootDir =>
        case Prefix(_) =>
      }
    }
  }

  /** From a link whose target runs through no other, every further link ends strictly below the root, or never ends. */
  lemma {:induction false} FollowStaysInside(links: Links, l: Path, limit: nat)
    requires AllInside(links) && NoDetours(links) && l in links
    ensures var f := Follow(links, ParentOf(l), links[l], limit); f.TooManyLinks? || (f.Ended? && f.path != [])
    decreases limit
  {
    var w := Walk(links, ParentOf(l), links[l]);
    assert Direct(w) && StaysInside(l, links[l]);
    WalkResolves(links, ParentOf(l), links[l]);
    if w.AtLink? && limit > 0 {
      assert links[w.link] + w.rest == links[w.link];
      FollowStaysInside(links, w.link, limit - 1);
    }
  }

  lemma {:induction false} LinksAccepted(entries: seq<Entry>)
    requires AllAllowed(entries)
    ensures AllInside(LinksOf(entries))
    decreases |entries|
  {
    if entries != [] {
      var last := |entries| - 1;
      assert entries[last] in entries && EntryAllowed(entries[last]);
      assert forall e :: e in entries[..last] ==> e in entries;
      LinksAccepted(entries[..last]);
    }
  }

  /**
   * In an accepted listing without detours, opening a link by its path never leads above the root: it ends
   * strictly below it, or runs into a circle of links.
   */
  lemma AcceptedLinksStayInside(entries: seq<Entry>, l: Path, limit: nat)
    requires Acceptable(entries) && NoDetours(LinksOf(entries)) && l in LinksOf(entries)
    ensures var f := Follow(LinksOf(entries), [], l, limit); f.TooManyLinks? || (f.Ended? && f.path != [])
  {
    var links := LinksOf(entries);
    LinksAccepted(entries);
    if limit > 0 {
      assert links[l] + [] == links[l];
      FollowStaysInside(links, l, limit - 1);
    }
  }
}
