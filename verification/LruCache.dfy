/** The file cache: a doubly linked list with a map over it (`LRUCache`), and the manager
in front of it that also keeps permanent entries (`FileCacheMan`). */
module LruCache {
  import opened Optional
  import opened OrderedMap

  /** A loaded file: path and contents. */
  type File = Entry<string>

  /** What reading a path from disk gives: `None` when the file is not valid. */
  type Loader = string -> Option<string>

  // ----- The recency sequence -----

  /** Position of a path, or the length when it is absent. */
  function IndexOf(es: seq<File>, path: string): (i: nat)
    ensures i <= |es| && (i < |es| ==> es[i].key == path)
  {
    if es == [] || es[0].key == path then 0 else 1 + IndexOf(es[1..], path)
  }

  /** It is the first position. */
  lemma {:induction false} IndexOfFirst(es: seq<File>, path: string, j: nat)
    requires j < |es| && es[j].key == path
    ensures IndexOf(es, path) <= j
  {
    if es[0].key != path {
      IndexOfFirst(es[1..], path, j - 1);
    }
  }

  lemma Absent(es: seq<File>, path: string)
    requires IndexOf(es, path) == |es|
    ensures forall j | 0 <= j < |es| :: es[j].key != path
  {
    forall j | 0 <= j < |es| ensures es[j].key != path {
      if es[j].key == path {
        IndexOfFirst(es, path, j);
      }
    }
  }

  function ToFront<T>(s: seq<T>, i: nat): seq<T>
    requires i < |s|
  {
    [s[i]] + s[..i] + s[i + 1..]
  }

  lemma SplitFront<T>(s: seq<T>, k: nat)
    requires k < |s|
    ensures ToFront(s, k) == [s[k]] + (s[..k] + s[k + 1..]) && |ToFront(s, k)| == |s|
  {
  }

  lemma SameMembers<T>(s: seq<T>, k: nat)
    requires k < |s|
    ensures forall x :: x in ToFront(s, k) <==> x in s
  {
    forall x ensures x in ToFront(s, k) <==> x in s {
      assert s == s[..k] + [s[k]] + s[k + 1..];
    }
  }

  /** What one access answers: the stored file, else what loading gives. */
  function Found(es: seq<File>, path: string, load: Loader): Option<File> {
    var i := IndexOf(es, path);
    if i < |es| then Some(es[i])
    else match load(path) case None => None case Some(data) => Some(Entry(path, data))
  }

  /** What a miss leaves of the list. */
  function Kept<T>(s: seq<T>, del: bool): seq<T> {
    if del && s != [] then s[..|s| - 1] else s
  }

  /** What one access leaves: a hit moves to the front; a miss loads the file, evicting the
      last entry when the cache is full; a failed load changes nothing. Evicting from an empty
      list dereferences its null tail, which is undefined: `None`. */
  function Access(es: seq<File>, max: int, path: string, load: Loader): Option<seq<File>> {
    var i := IndexOf(es, path);
    if i < |es| then Some(ToFront(es, i))
    else
      match load(path)
      case None => Some(es)
      case Some(data) =>
        if |es| < max then Some([Entry(path, data)] + es)
        else if es == [] then None
        else Some([Entry(path, data)] + es[..|es| - 1])
  }

  /** An access is undefined exactly when it would load into a cache that is empty and may hold
      nothing. */
  lemma AccessUndefined(es: seq<File>, max: int, path: string, load: Loader)
    ensures Access(es, max, path, load) == None <==> max < 1 && es == [] && load(path).Some?
  {
    if es == [] {
      assert IndexOf(es, path) == 0;
    }
  }

  /** A defined access, case by case. */
  lemma AccessParts(es: seq<File>, max: int, path: string, load: Loader)
    requires Access(es, max, path, load).Some?
    ensures var k := IndexOf(es, path);
            if k < |es| then Access(es, max, path, load) == Some(ToFront(es, k)) && Found(es, path, load) == Some(es[k])
            else match load(path)
                 case None => Access(es, max, path, load) == Some(es) && Found(es, path, load) == None
                 case Some(data) =>
                   var e := Entry(path, data);
                   && Access(es, max, path, load) == Some([e] + Kept(es, |es| >= max))
                   && Found(es, path, load) == Some(e) && (|es| >= max ==> es != [])
  {
    hide ToFront;
  }

  lemma KeptMembers<T>(s: seq<T>, del: bool)
    ensures forall x | x in Kept(s, del) :: x in s
  {
  }

  ghost predicate DistinctPaths(es: seq<File>) {
    forall i, j | 0 <= i < j < |es| :: es[i].key != es[j].key
  }

  function After(ns: seq<Node>, i: nat): Node?
    requires i < |ns|
  {
    if i + 1 < |ns| then ns[i + 1] else null
  }

  function Before(ns: seq<Node>, i: nat): Node?
    requires i < |ns|
  {
    if i > 0 then ns[i - 1] else null
  }

  ghost predicate Distinct(ns: seq<Node>) {
    forall i, j | 0 <= i < j < |ns| :: ns[i] != ns[j]
  }

  /** A node is listed at one place only. */
  lemma OnlyAt(ns: seq<Node>, k: nat)
    requires Distinct(ns) && k < |ns|
    ensures forall j | 0 <= j < |ns| && j != k :: ns[j] != ns[k]
  {
  }

  lemma DistinctCut(ns: seq<Node>, k: nat)
    requires Distinct(ns) && k < |ns|
    ensures Distinct(ns[..k] + ns[k + 1..])
    ensures ns[k] !in ns[..k] + ns[k + 1..]
  {
  }

  lemma AlreadyInFront(ns: seq<Node>, k: nat)
    requires Distinct(ns) && k < |ns|
    ensures ns[k] == ns[0] ==> k == 0 && ToFront(ns, k) == ns
  {
  }

  lemma DistinctFront(ns: seq<Node>, n: Node)
    requires Distinct(ns) && n !in ns
    ensures Distinct([n] + ns)
  {
  }

  /** The neighbours in a list with its k-th node taken out. */
  lemma CutNeighbours(ns: seq<Node>, k: nat, i: nat)
    requires k < |ns| && i + 1 < |ns|
    ensures var cut, j := ns[..k] + ns[k + 1..], if i < k then i else i + 1;
            && cut[i] == ns[j]
            && After(cut, i) == (if j + 1 == k then After(ns, k) else After(ns, j))
            && Before(cut, i) == (if j == k + 1 then Before(ns, k) else Before(ns, j))
  {
  }

  /** Both links of the i-th node lead to its neighbours. */
  ghost predicate LinkedAt(ns: seq<Node>, i: nat)
    requires i < |ns|
    reads ns[i]
  {
    ns[i].next == After(ns, i) && ns[i].pre == Before(ns, i)
  }

  /** The cache lists the nodes of a doubly linked list, most recently used first. */
  class Node {
    var next: Node?
    var pre: Node?
    const file: File

    constructor (file: File)
      ensures this.file == file && next == null && pre == null
    {
      this.file := file;
      next, pre := null, null;
    }
  }

  /** The map holds exactly the listed nodes, each under its path. */
  ghost predicate Indexed(index: map<string, Node>, ns: seq<Node>) {
    && (forall i | 0 <= i < |ns| :: ns[i].file.key in index && index[ns[i].file.key] == ns[i])
    && (forall p | p in index :: index[p] in ns && index[p].file.key == p)
  }

  /** The recency sequence a list of nodes stands for. */
  function Files(ns: seq<Node>): (es: seq<File>)
    ensures |es| == |ns|
  {
    seq(|ns|, i requires 0 <= i < |ns| => ns[i].file)
  }

  lemma PathsDistinct(index: map<string, Node>, ns: seq<Node>)
    requires Indexed(index, ns) && Distinct(ns)
    ensures DistinctPaths(Files(ns))
  {
  }

  lemma IndexedFront(index: map<string, Node>, ns: seq<Node>, k: nat)
    requires Indexed(index, ns) && k < |ns|
    ensures Indexed(index, ToFront(ns, k))
  {
    SameMembers(ns, k);
    forall i | 0 <= i < |ns|
      ensures ToFront(ns, k)[i].file.key in index && index[ToFront(ns, k)[i].file.key] == ToFront(ns, k)[i]
    {
      assert ToFront(ns, k)[i] in ns;
    }
  }

  lemma IndexedDrop(index: map<string, Node>, ns: seq<Node>)
    requires Indexed(index, ns) && Distinct(ns) && ns != []
    ensures Indexed(index - {ns[|ns| - 1].file.key}, ns[..|ns| - 1])
  {
    var last := |ns| - 1;
    PathsDistinct(index, ns);
    assert forall i | 0 <= i < last :: Files(ns)[i].key != Files(ns)[last].key;
  }

  lemma IndexedAdd(index: map<string, Node>, ns: seq<Node>, n: Node)
    requires Indexed(index, ns) && n.file.key !in index
    ensures Indexed(index[n.file.key := n], [n] + ns)
    ensures n !in ns
  {
  }

  /** Looking a path up in the map finds the node the recency sequence holds. */
  lemma IndexAt(index: map<string, Node>, ns: seq<Node>, path: string)
    requires Indexed(index, ns) && Distinct(ns)
    ensures var i := IndexOf(Files(ns), path);
            && (path in index <==> i < |ns|)
            && (i < |ns| ==> index[path] == ns[i])
  {
    if path in index {
      var i :| 0 <= i < |ns| && ns[i] == index[path];
      IndexOfFirst(Files(ns), path, i);
    }
  }

  lemma FilesKept(n: Node, ns: seq<Node>, del: bool)
    ensures Files([n] + Kept(ns, del)) == [n.file] + Kept(Files(ns), del)
  {
  }

  lemma FilesFront(ns: seq<Node>, k: nat)
    requires k < |ns|
    ensures Files(ToFront(ns, k)) == ToFront(Files(ns), k)
  {
  }

  class Cache {
    var head: Node?
    var tail: Node?
    var max: int
    var count: int
    var index: map<string, Node>
    ghost var nodes: seq<Node>

    /** next and pre are mutual inverses from head to tail, and the map holds exactly the
        listed nodes under their paths. */
    ghost predicate Valid()
      reads this, nodes
    {
      && count == |nodes|
      && Linked()
      && Indexed(index, nodes)
    }

    ghost predicate Linked()
      reads this, nodes
    {
      && head == (if nodes == [] then null else nodes[0])
      && tail == (if nodes == [] then null else nodes[|nodes| - 1])
      && (forall i | 0 <= i < |nodes| :: LinkedAt(nodes, i))
      && Distinct(nodes)
    }

    ghost function Contents(): seq<File>
      reads this
    {
      Files(nodes)
    }

    constructor (max: int)
      ensures Valid() && Contents() == [] && this.max == max && nodes == []
    {
      head, tail, this.max, count, index, nodes := null, null, max, 0, map[], [];
    }

    /** Takes a node that is not the head out of the list. */
    method Unlink(node: Node, ghost k: nat)
      requires Linked() && 0 < k < |nodes| && nodes[k] == node
      modifies `tail, `nodes, nodes
      ensures Linked() && nodes == old(nodes)[..k] + old(nodes)[k + 1..]
    {
      hide Distinct;
      ghost var before := nodes;
      OnlyAt(before, k - 1);
      DistinctCut(before, k);
      assert LinkedAt(before, k) && LinkedAt(before, k - 1);
      if node != tail {
        OnlyAt(before, k + 1);
        assert LinkedAt(before, k + 1);
        node.pre.next := node.next;
        node.next.pre := node.pre;
      } else {
        OnlyAt(before, |before| - 1);
        tail := tail.pre;
        tail.next := null;
      }
      nodes := before[..k] + before[k + 1..];
      forall i | 0 <= i < |nodes| ensures LinkedAt(nodes, i) {
        CutNeighbours(before, k, i);
        assert old(LinkedAt(before, if i < k then i else i + 1));
      }
    }

    /** Puts a node that is not listed in front. */
    method LinkFront(node: Node)
      requires Linked() && node !in nodes
      modifies `head, `tail, `nodes, node, nodes
      ensures Linked() && nodes == [node] + old(nodes)
    {
      hide Distinct;
      ghost var before := nodes;
      DistinctFront(before, node);
      if before != [] {
        OnlyAt(before, 0);
      }
      node.pre := null;
      node.next := head;
      if head != null {
        head.pre := node;
      } else {
        tail := node;
      }
      head := node;
      nodes := [node] + before;
      forall i | 0 <= i < |nodes| ensures LinkedAt(nodes, i) {
        if i > 0 {
          assert old(LinkedAt(before, i - 1));
          assert nodes[i] == before[i - 1];
        }
      }
    }

    /** A hit: the node goes to the front, everything else keeps its order. */
    method MoveToHead(node: Node, ghost k: nat)
      requires Valid() && k < |nodes| && nodes[k] == node
      modifies this, nodes
      ensures Valid() && nodes == ToFront(old(nodes), k)
      ensures max == old(max) && index == old(index)
    {
      hide Distinct, Indexed, ToFront;
      ghost var before := nodes;
      AlreadyInFront(before, k);
      if node == head {
        return;
      }
      DistinctCut(before, k);
      IndexedFront(index, before, k);
      SplitFront(before, k);
      Unlink(node, k);
      LinkFront(node);
    }

    /** Takes the last node out of the list. */
    method DropTail()
      requires Linked() && nodes != []
      modifies `head, `tail, `nodes, nodes
      ensures Linked() && nodes == old(nodes)[..old(|nodes|) - 1]
    {
      hide Distinct;
      ghost var before := nodes;
      ghost var last := |nodes| - 1;
      assert LinkedAt(before, last);
      DistinctCut(before, last);
      assert before[..last] + before[last + 1..] == before[..last];
      OnlyAt(before, 0);
      if tail == head {
        tail, head := null, null;
      } else {
        OnlyAt(before, last - 1);
        tail := tail.pre;
        tail.next := null;
      }
      nodes := before[..last];
      forall i | 0 <= i < |nodes| ensures LinkedAt(nodes, i) {
        assert old(LinkedAt(before, i));
      }
    }

    /** Evicts the least recent node; the source dereferences the null tail of an empty list. */
    method DelCacheNode()
      requires Valid() && nodes != []
      modifies this, nodes
      ensures Valid() && nodes == old(nodes)[..old(|nodes|) - 1]
      ensures max == old(max) && index.Keys <= old(index.Keys)
    {
      hide Distinct, Indexed;
      IndexedDrop(index, nodes);
      index := index - {tail.file.key};
      DropTail();
      count := count - 1;
    }

    /** Lists a new node in front and in the map. */
    method Insert(node: Node)
      requires Valid() && node.file.key !in index
      modifies this, node, nodes
      ensures Valid() && nodes == [node] + old(nodes) && max == old(max)
    {
      hide Distinct, Indexed;
      IndexedAdd(index, nodes, node);
      index := index[node.file.key := node];
      LinkFront(node);
      count := count + 1;
    }

    /** Loads a file that is not cached and puts it in front, evicting first when told to. */
    method AddToHead(path: string, del: bool, load: Loader) returns (r: Option<File>)
      requires Valid() && path !in index && (del && load(path).Some? ==> nodes != [])
      modifies this, nodes
      ensures Valid() && max == old(max)
      ensures r == match load(path) case None => None case Some(data) => Some(Entry(path, data))
      ensures r.None? ==> nodes == old(nodes)
      ensures r.Some? ==> nodes != [] && fresh(nodes[0]) && nodes[0].file == r.value
      ensures r.Some? ==> nodes == [nodes[0]] + Kept(old(nodes), del)
    {
      var data := load(path);
      if data.None? {
        return None;
      }
      hide Distinct, Indexed, Linked;
      var node := new Node(Entry(path, data.value));
      if del {
        DelCacheNode();
      }
      Insert(node);
      r := Some(node.file);
    }

    /** The whole lookup, where it is defined (see `AccessUndefined`). */
    method GetFileCache(path: string, load: Loader) returns (r: Option<File>)
      requires Valid() && Access(Contents(), max, path, load).Some?
      modifies this, nodes
      ensures Valid() && max == old(max)
      ensures Some(Contents()) == Access(old(Contents()), max, path, load)
      ensures r == Found(old(Contents()), path, load)
      ensures forall n | n in nodes && n !in old(nodes) :: fresh(n)
    {
      ghost var es, before := Contents(), nodes;
      AccessParts(es, max, path, load);
      IndexAt(index, nodes, path);
      hide Linked, Distinct, Indexed, Kept, Access, Found, IndexOf, ToFront;
      if path in index {
        var node := index[path];
        ghost var k := IndexOf(es, path);
        MoveToHead(node, k);
        SameMembers(before, k);
        FilesFront(before, k);
        return Some(node.file);
      }
      hide Files;
      if count < max {
        r := AddToHead(path, false, load);
      } else {
        r := AddToHead(path, true, load);
      }
      if r.Some? {
        FilesKept(nodes[0], before, |before| >= max);
        KeptMembers(before, |before| >= max);
      }
    }

    method Clear()
      modifies this
      ensures Valid() && Contents() == [] && max == old(max) && nodes == []
    {
      index := map[];
      tail, head := null, null;
      count, nodes := 0, [];
    }

    method SetMax(size: int)
      requires Valid()
      modifies `max
      ensures Valid() && max == size
    {
      max := size;
    }

    method IsExists(path: string) returns (b: bool)
      requires Valid()
      ensures b <==> exists e | e in Contents() :: e.key == path
    {
      IndexAt(index, nodes, path);
      b := path in index;
    }
  }

  // ----- What the recency sequence guarantees -----

  /** Every cached file is what loading its path gives. */
  ghost predicate Genuine(es: seq<File>, load: Loader) {
    forall i | 0 <= i < |es| :: load(es[i].key) == Some(es[i].value)
  }

  lemma DistinctCons(e: File, es: seq<File>)
    requires DistinctPaths(es) && forall k | 0 <= k < |es| :: es[k].key != e.key
    ensures DistinctPaths([e] + es)
  {
    var r := [e] + es;
    forall i, j | 0 <= i < j < |r| ensures r[i].key != r[j].key {
      assert r[j] == es[j - 1];
    }
  }

  lemma DistinctRest(es: seq<File>, k: nat)
    requires DistinctPaths(es) && k < |es|
    ensures DistinctPaths(es[..k] + es[k + 1..])
    ensures var r := es[..k] + es[k + 1..]; forall j | 0 <= j < |r| :: r[j].key != es[k].key
  {
    var r := es[..k] + es[k + 1..];
    forall j | 0 <= j < |r| ensures r[j].key != es[k].key {
      assert r[j] == if j < k then es[j] else es[j + 1];
    }
    forall i, j | 0 <= i < j < |r| ensures r[i].key != r[j].key {
      assert r[i] == if i < k then es[i] else es[i + 1];
      assert r[j] == if j < k then es[j] else es[j + 1];
    }
  }

  lemma DistinctAccess(es: seq<File>, max: int, path: string, load: Loader)
    requires DistinctPaths(es) && Access(es, max, path, load).Some?
    ensures DistinctPaths(Access(es, max, path, load).value)
  {
    hide IndexOf;
    var i := IndexOf(es, path);
    if i == |es| {
      Absent(es, path);
      if load(path).Some? {
        DistinctCons(Entry(path, load(path).value), Kept(es, |es| >= max));
      }
    } else {
      hide DistinctPaths;
      DistinctRest(es, i);
      SplitFront(es, i);
      DistinctCons(es[i], es[..i] + es[i + 1..]);
    }
  }

  lemma GenuineAccess(es: seq<File>, max: int, path: string, load: Loader)
    requires Genuine(es, load) && Access(es, max, path, load).Some?
    ensures Genuine(Access(es, max, path, load).value, load)
  {
  }

  /** A defined access answers what loading the file would answer, and a cache whose maximum is
      not lowered never holds more than it. */
  lemma AccessAnswers(es: seq<File>, max: int, path: string, load: Loader)
    requires Genuine(es, load) && Access(es, max, path, load).Some?
    ensures 0 <= max && |es| <= max ==> |Access(es, max, path, load).value| <= max
    ensures Found(es, path, load) == match load(path) case None => None case Some(d) => Some(Entry(path, d))
  {
  }

  /** All accesses of a history, the oldest first; undefined from the first undefined one on. */
  function Replay(es: seq<File>, max: int, history: seq<string>, load: Loader): Option<seq<File>> {
    if history == [] then Some(es)
    else
      match Replay(es, max, history[..|history| - 1], load)
      case None => None
      case Some(r) => Access(r, max, history[|history| - 1], load)
  }

  function Without(es: seq<File>, path: string): seq<File> {
    var i := IndexOf(es, path);
    if i < |es| then es[..i] + es[i + 1..] else es
  }

  /** An unbounded recency list: every loadable path of the history, last used first. */
  function Recent(history: seq<string>, load: Loader): seq<File> {
    if history == [] then []
    else
      Used(Recent(history[..|history| - 1], load), history[|history| - 1], load)
  }

  /** The recency list with one more use of a path. */
  function Used(r: seq<File>, path: string, load: Loader): seq<File> {
    match load(path)
    case None => r
    case Some(data) => [Entry(path, data)] + Without(r, path)
  }

  function Top(es: seq<File>, n: int): seq<File> {
    if 0 <= n < |es| then es[..n] else es
  }

  lemma DistinctWithout(r: seq<File>, path: string)
    requires DistinctPaths(r)
    ensures DistinctPaths(Without(r, path))
    ensures forall k | 0 <= k < |Without(r, path)| :: Without(r, path)[k].key != path
  {
    hide IndexOf, DistinctPaths;
    if IndexOf(r, path) < |r| {
      DistinctRest(r, IndexOf(r, path));
    } else {
      Absent(r, path);
    }
  }

  lemma UsedKeeps(r: seq<File>, path: string, load: Loader)
    requires DistinctPaths(r) && Genuine(r, load)
    ensures DistinctPaths(Used(r, path, load)) && Genuine(Used(r, path, load), load)
  {
    if load(path).Some? {
      hide DistinctPaths, IndexOf;
      DistinctWithout(r, path);
      DistinctCons(Entry(path, load(path).value), Without(r, path));
    }
  }

  lemma IndexInTop(r: seq<File>, max: int, path: string)
    requires 1 <= max
    ensures var i, j, n := IndexOf(r, path), IndexOf(Top(r, max), path), |Top(r, max)|;
            && (j < n <==> i < n)
            && (i < n ==> i == j && Top(r, max)[i] == r[i])
  {
    var i, j := IndexOf(r, path), IndexOf(Top(r, max), path);
    if i < |Top(r, max)| {
      IndexOfFirst(Top(r, max), path, i);
    }
    if j < |Top(r, max)| {
      IndexOfFirst(r, path, j);
    }
  }

  lemma FrontOfTop<T>(r: seq<T>, m: nat, i: nat)
    requires i < m <= |r|
    ensures ToFront(r[..m], i) == ([r[i]] + (r[..i] + r[i + 1..]))[..m]
  {
  }

  /** A hit in the cache is a use near the top of the recency list. */
  lemma TopHit(r: seq<File>, max: int, path: string, load: Loader)
    requires 1 <= max && Genuine(r, load) && IndexOf(r, path) < |Top(r, max)|
    ensures ToFront(Top(r, max), IndexOf(r, path)) == Top(Used(r, path, load), max)
  {
    hide IndexOf;
    var i := IndexOf(r, path);
    assert r[i] == Entry(path, load(path).value);
    if 0 <= max < |r| {
      FrontOfTop(r, max, i);
    }
  }

  /** A miss in the cache is the first use of a path, or one after `max` others. */
  lemma TopMiss(r: seq<File>, max: int, path: string, load: Loader)
    requires 1 <= max && load(path).Some? && IndexOf(r, path) >= |Top(r, max)|
    ensures [Entry(path, load(path).value)] + Kept(Top(r, max), |Top(r, max)| >= max) == Top(Used(r, path, load), max)
  {
    var i := IndexOf(r, path);
    if i < |r| {
      assert |Top(r, max)| == max <= i;
    }
  }

  lemma AccessIsTop(r: seq<File>, max: int, path: string, load: Loader)
    requires 1 <= max && DistinctPaths(r) && Genuine(r, load)
    ensures Access(Top(r, max), max, path, load) == Some(Top(Used(r, path, load), max))
  {
    hide Top, ToFront, IndexOf, DistinctPaths, Genuine;
    IndexInTop(r, max, path);
    if IndexOf(r, path) < |Top(r, max)| {
      TopHit(r, max, path, load);
    } else if load(path).Some? {
      TopMiss(r, max, path, load);
    }
  }

  lemma EmptyStart(max: int, load: Loader)
    ensures DistinctPaths([]) && Genuine([], load) && Top([], max) == []
  {
  }

  /** The cache is the top of the unbounded recency list, whatever was accessed before: what
      it keeps is a function of the history alone, and a larger cache only holds more. */
  lemma {:induction false} CacheIsTopOfRecent(max: int, history: seq<string>, load: Loader)
    requires 1 <= max
    ensures DistinctPaths(Recent(history, load)) && Genuine(Recent(history, load), load)
    ensures Replay([], max, history, load) == Some(Top(Recent(history, load), max))
  {
    hide Access, Used, Top, DistinctPaths, Genuine;
    if history == [] {
      EmptyStart(max, load);
    } else {
      var before, path := history[..|history| - 1], history[|history| - 1];
      CacheIsTopOfRecent(max, before, load);
      AccessIsTop(Recent(before, load), max, path, load);
      UsedKeeps(Recent(before, load), path, load);
    }
  }

  /** Last position of a path in a history, -1 when it never occurs. */
  function LastUse(history: seq<string>, path: string): int {
    if history == [] then -1
    else if history[|history| - 1] == path then |history| - 1
    else LastUse(history[..|history| - 1], path)
  }

  /** The entry at i was used, and later than the one at j when it stands before it. */
  ghost predicate UsedLater(r: seq<File>, history: seq<string>, i: nat, j: nat)
    requires i < |r| && j < |r|
  {
    0 <= LastUse(history, r[i].key) && (i < j ==> LastUse(history, r[i].key) > LastUse(history, r[j].key))
  }

  ghost predicate ByLastUse(r: seq<File>, history: seq<string>) {
    forall i, j | 0 <= i < |r| && 0 <= j < |r| :: UsedLater(r, history, i, j)
  }

  lemma {:induction false} LastUseGrows(history: seq<string>, path: string, p: string)
    ensures LastUse(history + [path], p) == if p == path then |history| else LastUse(history, p)
    ensures LastUse(history, p) < |history|
  {
    assert (history + [path])[..|history|] == history;
    if history != [] {
      LastUseGrows(history[..|history| - 1], history[|history| - 1], p);
      assert history[..|history| - 1] + [history[|history| - 1]] == history;
    }
  }

  lemma LaterByLastUse(r: seq<File>, history: seq<string>, path: string)
    requires ByLastUse(r, history) && forall k | 0 <= k < |r| :: r[k].key != path
    ensures ByLastUse(r, history + [path])
  {
    hide LastUse;
    forall i, j | 0 <= i < |r| && 0 <= j < |r| ensures UsedLater(r, history + [path], i, j) {
      assert UsedLater(r, history, i, j);
      LastUseGrows(history, path, r[i].key);
      LastUseGrows(history, path, r[j].key);
    }
  }

  lemma RestByLastUse(r: seq<File>, history: seq<string>, path: string)
    requires ByLastUse(r, history)
    ensures ByLastUse(Without(r, path), history)
  {
    hide LastUse, IndexOf;
    var i, w := IndexOf(r, path), Without(r, path);
    if i < |r| {
      forall j, k | 0 <= j < |w| && 0 <= k < |w| ensures UsedLater(w, history, j, k) {
        assert UsedLater(r, history, if j < i then j else j + 1, if k < i then k else k + 1);
      }
    }
  }

  lemma ConsByLastUse(e: File, r: seq<File>, history: seq<string>)
    requires ByLastUse(r, history) && history != [] && history[|history| - 1] == e.key
    requires forall k | 0 <= k < |r| :: r[k].key != e.key
    ensures ByLastUse([e] + r, history)
  {
    var u, before := [e] + r, history[..|history| - 1];
    assert before + [e.key] == history;
    forall i, j | 0 <= i < |u| && 0 <= j < |u| ensures UsedLater(u, history, i, j) {
      if i > 0 && j > 0 {
        assert UsedLater(r, history, i - 1, j - 1);
      } else if i > 0 {
        assert UsedLater(r, history, i - 1, i - 1);
      } else if j > 0 {
        LastUseGrows(before, e.key, r[j - 1].key);
      }
    }
  }

  lemma UsedByLastUse(r: seq<File>, history: seq<string>, path: string, load: Loader)
    requires DistinctPaths(r) && Genuine(r, load) && ByLastUse(r, history)
    ensures ByLastUse(Used(r, path, load), history + [path])
  {
    if load(path).Some? {
      hide Without, LastUse, ByLastUse, DistinctPaths;
      DistinctWithout(r, path);
      RestByLastUse(r, history, path);
      LaterByLastUse(Without(r, path), history, path);
      ConsByLastUse(Entry(path, load(path).value), Without(r, path), history + [path]);
    } else {
      LaterByLastUse(r, history, path);
    }
  }

  /** The recency list holds this path. */
  ghost predicate Lists(r: seq<File>, path: string) {
    IndexOf(r, path) < |r|
  }

  lemma UsedLists(r: seq<File>, path: string, load: Loader, p: string)
    requires DistinctPaths(r)
    ensures Lists(Used(r, path, load), p) <==> Lists(r, p) || (p == path && load(path).Some?)
  {
    hide IndexOf;
    var u, w, i, k := Used(r, path, load), Without(r, path), IndexOf(r, path), IndexOf(r, p);
    if load(path).Some? {
      assert u == [Entry(path, load(path).value)] + w;
      if p == path {
        IndexOfFirst(u, p, 0);
      } else if k < |r| {
        assert w[if k < i then k else k - 1] == r[k];
        IndexOfFirst(u, p, if k < i then k + 1 else k);
      } else if IndexOf(u, p) < |u| {
        var m := IndexOf(u, p) - 1;
        assert w[m] == u[m + 1];
        IndexOfFirst(r, p, if m < i then m else m + 1);
      }
    }
  }

  /** The recency list is what its name says: exactly the loadable paths of the history,
      strictly ordered by their last use. */
  lemma {:induction false} RecentByLastUse(history: seq<string>, load: Loader)
    ensures ByLastUse(Recent(history, load), history)
    ensures forall p :: Lists(Recent(history, load), p) <==> p in history && load(p).Some?
  {
    if history != [] {
      hide Used, ByLastUse, Lists, DistinctPaths, Genuine;
      var before, path := history[..|history| - 1], history[|history| - 1];
      assert history == before + [path];
      RecentByLastUse(before, load);
      CacheIsTopOfRecent(1, before, load);
      UsedByLastUse(Recent(before, load), before, path, load);
      forall p ensures Lists(Recent(history, load), p) <==> p in history && load(p).Some? {
        UsedLists(Recent(before, load), path, load, p);
      }
    }
  }

  // ----- The manager -----

  datatype Request = Lookup(path: string) | AddPermanent(path: string, reload: bool) | Delete(path: string)

  /** Permanent files and the recency sequence behind them. */
  datatype Store = Store(permanent: map<string, string>, temp: seq<File>)

  /** One request; a lookup is as undefined as the access it makes. */
  function Serve(s: Store, max: int, q: Request, load: Loader): Option<Store> {
    match q
    case Lookup(path) =>
      if path in s.permanent then Some(s)
      else
        (match Access(s.temp, max, path, load)
         case None => None
         case Some(temp) => Some(s.(temp := temp)))
    case AddPermanent(path, reload) =>
      Some(if (path in s.permanent && !reload) || load(path).None? then s
           else s.(permanent := s.permanent[path := load(path).value]))
    case Delete(path) => Some(s.(permanent := s.permanent - {path}))
  }

  /** What a lookup gives the caller: the file, nothing, or no defined behaviour at all. */
  datatype Reply = Undefined | Gives(data: Option<string>)

  function Ask(s: Store, max: int, path: string, load: Loader): Reply {
    if path in s.permanent then Gives(Some(s.permanent[path]))
    else if Access(s.temp, max, path, load).None? then Undefined
    else
      match Found(s.temp, path, load)
      case None => Gives(None)
      case Some(f) => Gives(Some(f.value))
  }

  function ServeAll(s: Store, max: int, qs: seq<Request>, load: Loader): Option<Store> {
    if qs == [] then Some(s)
    else
      match ServeAll(s, max, qs[..|qs| - 1], load)
      case None => None
      case Some(t) => Serve(t, max, qs[|qs| - 1], load)
  }

  /** Both tiers hold what the file system holds. */
  ghost predicate Consistent(s: Store, load: Loader) {
    (forall p | p in s.permanent :: load(p) == Some(s.permanent[p])) && Genuine(s.temp, load)
  }

  lemma {:induction false} StaysConsistent(s: Store, max: int, qs: seq<Request>, load: Loader)
    requires Consistent(s, load) && ServeAll(s, max, qs, load).Some?
    ensures Consistent(ServeAll(s, max, qs, load).value, load)
  {
    if qs != [] {
      var before, q := ServeAll(s, max, qs[..|qs| - 1], load).value, qs[|qs| - 1];
      StaysConsistent(s, max, qs[..|qs| - 1], load);
      if q.Lookup? && q.path !in before.permanent {
        GenuineAccess(before.temp, max, q.path, load);
      }
    }
  }

  /** A consistent manager answers what loading the file gives, or its behaviour is undefined. */
  lemma AskConsistent(s: Store, max: int, path: string, load: Loader)
    requires Consistent(s, load)
    ensures Ask(s, max, path, load) == Gives(load(path))
         || (Ask(s, max, path, load) == Undefined && max < 1 && load(path).Some? && path !in s.permanent)
  {
    AccessUndefined(s.temp, max, path, load);
    if path !in s.permanent && Access(s.temp, max, path, load).Some? {
      AccessAnswers(s.temp, max, path, load);
    }
  }

  // ----- Which runs are defined -----

  const EMPTY_STORE := Store(map[], [])

  /** The permanent files after a run: they do not depend on the cache. */
  function Permanents(qs: seq<Request>, load: Loader): map<string, string> {
    if qs == [] then map[]
    else
      var before := Permanents(qs[..|qs| - 1], load);
      match qs[|qs| - 1]
      case Lookup(_) => before
      case AddPermanent(path, reload) =>
        if (path in before && !reload) || load(path).None? then before else before[path := load(path).value]
      case Delete(path) => before - {path}
  }

  /** The k-th request looks up a file that can be loaded and is not permanent at that moment. */
  predicate LoadsAt(qs: seq<Request>, k: nat, load: Loader)
    requires k < |qs|
  {
    qs[k].Lookup? && load(qs[k].path).Some? && qs[k].path !in Permanents(qs[..k], load)
  }

  lemma {:induction false} RunState(max: int, qs: seq<Request>, load: Loader)
    requires ServeAll(EMPTY_STORE, max, qs, load).Some?
    ensures var s := ServeAll(EMPTY_STORE, max, qs, load).value;
            && s.permanent == Permanents(qs, load)
            && (max < 1 ==> s.temp == [])
  {
    if qs != [] {
      RunState(max, qs[..|qs| - 1], load);
    }
  }

  /** Some lookup of a run from an empty manager is undefined exactly when the cache may hold
      nothing and the run looks up a loadable file that is not permanent at that moment. */
  lemma {:induction false} RunUndefined(max: int, qs: seq<Request>, load: Loader)
    ensures ServeAll(EMPTY_STORE, max, qs, load) == None <==>
              max < 1 && exists k :: 0 <= k < |qs| && LoadsAt(qs, k, load)
  {
    if qs != [] {
      var last := |qs| - 1;
      var before := qs[..last];
      RunUndefined(max, before, load);
      assert forall k | 0 <= k < last :: before[..k] == qs[..k];
      assert forall k | 0 <= k < last :: LoadsAt(before, k, load) == LoadsAt(qs, k, load);
      if ServeAll(EMPTY_STORE, max, before, load).Some? {
        RunState(max, before, load);
        var s := ServeAll(EMPTY_STORE, max, before, load).value;
        if qs[last].Lookup? {
          AccessUndefined(s.temp, max, qs[last].path, load);
        }
        assert (ServeAll(EMPTY_STORE, max, qs, load) == None) == (max < 1 && LoadsAt(qs, last, load));
      }
    }
  }

  /** A failing input: a manager made with room for nothing is asked for a file that exists. */
  lemma NoRoomFails(data: string)
    ensures ServeAll(EMPTY_STORE, 0, [Lookup("a")], path => Some(data)) == None
    ensures Ask(EMPTY_STORE, 0, "a", path => Some(data)) == Undefined
  {
    assert [Lookup("a")][..0] == [];
  }

  /** Transparency: with a fixed file system, after any run of lookups (with their evictions),
      permanent adds and deletes that is itself defined, a lookup answers exactly what loading
      the file gives if and only if the cache may hold something or need not load the file. */
  lemma Transparent(max: int, qs: seq<Request>, path: string, load: Loader)
    requires ServeAll(EMPTY_STORE, max, qs, load).Some?
    ensures Ask(ServeAll(EMPTY_STORE, max, qs, load).value, max, path, load) == Gives(load(path)) <==>
              max >= 1 || load(path).None? || path in Permanents(qs, load)
  {
    StaysConsistent(EMPTY_STORE, max, qs, load);
    RunState(max, qs, load);
    var s := ServeAll(EMPTY_STORE, max, qs, load).value;
    AskConsistent(s, max, path, load);
    AccessUndefined(s.temp, max, path, load);
  }

  /** With room for at least one file every run is defined and every lookup transparent. */
  lemma TransparentWithRoom(max: int, qs: seq<Request>, path: string, load: Loader)
    requires max >= 1
    ensures ServeAll(EMPTY_STORE, max, qs, load).Some?
    ensures Ask(ServeAll(EMPTY_STORE, max, qs, load).value, max, path, load) == Gives(load(path))
  {
    RunUndefined(max, qs, load);
    Transparent(max, qs, path, load);
  }

  /** `FileCacheMan`: permanent files first, the bounded cache behind them. */
  class FileCacheMan {
    var permanent: map<string, string>
    const temp: Cache

    ghost predicate Valid()
      reads this, temp, temp.nodes
    {
      temp.Valid()
    }

    ghost function State(): Store
      reads this, temp
    {
      Store(permanent, temp.Contents())
    }

    constructor (count: int)
      ensures Valid() && State() == Store(map[], []) && temp.max == count
      ensures fresh(temp) && temp.nodes == []
    {
      permanent := map[];
      temp := new Cache(count);
    }

    method GetFileCacheData(path: string, load: Loader) returns (r: Option<string>)
      requires Valid() && Ask(State(), temp.max, path, load) != Undefined
      modifies temp, temp.nodes
      ensures Valid() && temp.max == old(temp.max)
      ensures Some(State()) == Serve(old(State()), temp.max, Lookup(path), load)
      ensures Gives(r) == Ask(old(State()), temp.max, path, load)
      ensures forall n | n in temp.nodes && n !in old(temp.nodes) :: fresh(n)
    {
      if path in permanent {
        return Some(permanent[path]);
      }
      var t := temp.GetFileCache(path, load);
      r := if t.Some? then Some(t.value.value) else None;
    }

    method AddFileCacheData(path: string, reload: bool, load: Loader) returns (ok: bool)
      requires Valid()
      modifies `permanent
      ensures Valid() && Some(State()) == Serve(old(State()), temp.max, AddPermanent(path, reload), load)
      ensures ok <==> load(path).Some? || (path in old(permanent) && !reload)
    {
      if path in permanent && !reload {
        return true;
      }
      var data := load(path);
      if data.None? {
        return false;
      }
      permanent := permanent[path := data.value];
      ok := true;
    }

    /** Forgets a permanent file. Nobody can tell: while both tiers agree with the file system
        and the cache has room, every lookup answers what it answered before. */
    method DelFileCacheData(path: string, ghost load: Loader)
      requires Valid()
      modifies `permanent
      ensures Valid() && Some(State()) == Serve(old(State()), temp.max, Delete(path), load)
      ensures path !in permanent && State().temp == old(State()).temp
      ensures old(Consistent(State(), load)) && temp.max >= 1 ==>
                forall p :: Ask(State(), temp.max, p, load) == Ask(old(State()), temp.max, p, load)
    {
      ghost var s := State();
      permanent := permanent - {path};
      if Consistent(s, load) && temp.max >= 1 {
        forall p ensures Ask(State(), temp.max, p, load) == Ask(s, temp.max, p, load) {
          AskConsistent(s, temp.max, p, load);
          AskConsistent(State(), temp.max, p, load);
        }
      }
    }

    method IsExists(path: string) returns (b: bool)
      requires Valid()
      ensures b <==> path in permanent || exists e | e in temp.Contents() :: e.key == path
    {
      if path in permanent {
        return true;
      }
      b := temp.IsExists(path);
    }
  }
}
