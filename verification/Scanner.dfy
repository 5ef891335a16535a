/** The stale-mount scan: kubelet CSI paths, and a tree walk that never enters a mount. */
module Scanner {
  import opened Text
  import opened Paths
  import Recovery

  type StaleMount = Recovery.StaleMount

  // ---------------------------------------------------------------- CSI publish paths

  const CSI_SEGMENT := "kubernetes.io~csi"
  const MOUNT := "mount"

  datatype Parsed = Parsed(podUid: string, volume: string, ok: bool)

  const NOT_PARSED := Parsed("", "", false)

  /** Index of the last element equal to `name`, or -1. */
  function LastIndex(parts: seq<string>, name: string): (i: int)
    ensures -1 <= i < |parts|
    ensures i >= 0 ==> parts[i] == name
    ensures forall k | i < k < |parts| :: parts[k] != name
  {
    if parts == [] then -1
    else if parts[|parts| - 1] == name then |parts| - 1
    else LastIndex(parts[..|parts| - 1], name)
  }

  lemma LastIndexIs(parts: seq<string>, name: string, i: nat)
    requires i < |parts| && parts[i] == name && forall k | i < k < |parts| :: parts[k] != name
    ensures LastIndex(parts, name) == i
  {
  }

  function ParseParts(parts: seq<string>): Parsed
    requires parts != []
  {
    var p, c := LastIndex(parts, "pods"), LastIndex(parts, CSI_SEGMENT);
    if p < 0 || c < 0 || p + 1 >= |parts| || c + 1 >= |parts| || parts[|parts| - 1] != MOUNT then NOT_PARSED
    else Parsed(parts[p + 1], parts[c + 1], true)
  }

  /** What a path says about its pod and volume: the elements after the last "pods" and the last "kubernetes.io~csi". */
  function Parse(path: string): Parsed {
    ParseParts(Split(Clean(path), '/'))
  }

  method LastIndices(parts: seq<string>) returns (podsIdx: int, csiIdx: int)
    ensures podsIdx == LastIndex(parts, "pods") && csiIdx == LastIndex(parts, CSI_SEGMENT)
  {
    podsIdx, csiIdx := -1, -1;
    for i := 0 to |parts|
      invariant podsIdx == LastIndex(parts[..i], "pods") && csiIdx == LastIndex(parts[..i], CSI_SEGMENT)
    {
      assert parts[..i + 1][..i] == parts[..i];
      if parts[i] == "pods" {
        podsIdx := i;
      } else if parts[i] == CSI_SEGMENT {
        csiIdx := i;
      }
    }
    assert parts[..|parts|] == parts;
  }

  lemma RootElements()
    ensures Split("/", '/') == ["", ""]
  {
    SplitFree("", '/');
    SplitStep("", "", '/');
    assert "/" == "" + ['/'] + "";
  }

  lemma NothingEmpty(path: string, k: nat)
    requires 0 < k < |Split(Clean(path), '/')| && Split(Clean(path), '/')[k - 1] != ""
    ensures Split(Clean(path), '/')[k] != ""
  {
    RootElements();
    CleanElements(path);
  }

  /** No element is empty after one that is not. */
  predicate Dense(parts: seq<string>) {
    forall k | 0 < k < |parts| && parts[k - 1] != "" :: parts[k] != ""
  }

  lemma CleanIsDense(path: string)
    ensures Dense(Split(Clean(path), '/'))
  {
    forall k | 0 < k < |Split(Clean(path), '/')| && Split(Clean(path), '/')[k - 1] != ""
      ensures Split(Clean(path), '/')[k] != ""
    {
      NothingEmpty(path, k);
    }
  }

  method ParseElements(parts: seq<string>) returns (p: Parsed)
    requires parts != [] && Dense(parts)
    ensures p == ParseParts(parts)
  {
    var podsIdx, csiIdx := LastIndices(parts);
    if podsIdx < 0 || csiIdx < 0 || podsIdx + 1 >= |parts| || csiIdx + 1 >= |parts| {
      return NOT_PARSED;
    }
    var podUid, volume := parts[podsIdx + 1], parts[csiIdx + 1];
    if podUid == "" || volume == "" {
      return NOT_PARSED;
    }
    if parts[|parts| - 1] != MOUNT {
      return NOT_PARSED;
    }
    return Parsed(podUid, volume, true);
  }

  method ParsePublishElements(parts: seq<string>) returns (p: Parsed)
    requires parts != [] && Dense(parts)
    ensures p == ParseParts(parts)
  {
    var podsIdx, csiIdx := LastIndices(parts);
    if podsIdx < 0 || csiIdx < 0 || podsIdx + 1 >= |parts| || csiIdx + 1 >= |parts| {
      return NOT_PARSED;
    }
    if parts[|parts| - 1] != MOUNT {
      return NOT_PARSED;
    }
    return Parsed(parts[podsIdx + 1], parts[csiIdx + 1], parts[podsIdx + 1] != "" && parts[csiIdx + 1] != "");
  }

  /** ParseCSIMountPath of the operator. */
  method ParseCSIMountPath(path: string) returns (p: Parsed)
    ensures p == Parse(path)
  {
    CleanIsDense(path);
    p := ParseElements(Split(Clean(path), '/'));
  }

  /** parseCSIPublishMountPath of the driver: the same answer on every path. */
  method ParseCSIPublishMountPath(path: string) returns (p: Parsed)
    ensures p == Parse(path)
  {
    CleanIsDense(path);
    p := ParsePublishElements(Split(Clean(path), '/'));
  }

  /** The element after the last one called `marker`. */
  ghost predicate After(parts: seq<string>, marker: string, name: string) {
    exists i :: FollowsAt(parts, marker, name, i)
  }

  predicate FollowsAt(parts: seq<string>, marker: string, name: string, i: int) {
    && 0 <= i < |parts| - 1 && parts[i] == marker && parts[i + 1] == name
    && forall k | i < k < |parts| :: parts[k] != marker
  }

  lemma AfterIff(parts: seq<string>, marker: string, name: string)
    ensures After(parts, marker, name)
            <==> var i := LastIndex(parts, marker); i >= 0 && i + 1 < |parts| && parts[i + 1] == name
  {
    var i := LastIndex(parts, marker);
    forall k | FollowsAt(parts, marker, name, k) ensures k == i {
      LastIndexIs(parts, marker, k);
    }
    if i >= 0 && i + 1 < |parts| && parts[i + 1] == name {
      assert FollowsAt(parts, marker, name, i);
    }
  }

  /** They end in the element "mount", and pod and volume follow the last "pods" and the last "kubernetes.io~csi". */
  ghost predicate Tells(parts: seq<string>, uid: string, volume: string) {
    && parts != [] && parts[|parts| - 1] == "mount"
    && After(parts, "pods", uid) && After(parts, "kubernetes.io~csi", volume)
  }

  lemma PartsIff(parts: seq<string>, uid: string, volume: string)
    requires parts != []
    ensures ParseParts(parts) == Parsed(uid, volume, true) <==> Tells(parts, uid, volume)
  {
    AfterIff(parts, "pods", uid);
    AfterIff(parts, CSI_SEGMENT, volume);
  }

  /** Any path tells a pod and a volume exactly if the elements of its cleaned form do. */
  lemma ParseIff(path: string, uid: string, volume: string)
    ensures Parse(path) == Parsed(uid, volume, true) <==> Tells(Split(Clean(path), '/'), uid, volume)
  {
    PartsIff(Split(Clean(path), '/'), uid, volume);
  }

  // ---------------------------------------------------------------- kubelet's layout

  /** Directory names from the pods directory down to the publish target of a volume. */
  function VolumeRoute(uid: string, volume: string): seq<string> {
    [uid, "volumes", "kubernetes.io~csi", volume, "mount"]
  }

  predicate PlainElements(parts: seq<string>) {
    forall k | 0 <= k < |parts| :: PlainElement(parts[k])
  }

  /** A publish path names its own pod and volume, unless one of them is spelled like a directory of the layout. */
  predicate Tellable(uid: string, volume: string) {
    volume != "kubernetes.io~csi" && if volume == "pods" then uid == "mount" else uid != "pods"
  }

  /** Where the two markers of a publish path are last seen, `n` being the place of the pods directory. */
  lemma KubeletMarkers(all: seq<string>, n: nat, uid: string, volume: string)
    requires |all| == n + 6 && all[n..] == ["pods"] + VolumeRoute(uid, volume)
    ensures LastIndex(all, "pods") == if volume == "pods" then n + 4 else if uid == "pods" then n + 1 else n
    ensures LastIndex(all, CSI_SEGMENT) == if volume == CSI_SEGMENT then n + 4 else n + 3
    ensures all[n + 1] == uid && all[n + 2] == "volumes" && all[n + 3] == CSI_SEGMENT
    ensures all[n + 4] == volume && all[n + 5] == MOUNT
  {
    var tail := all[n..];
    assert all[n] == tail[0] && all[n + 1] == tail[1] && all[n + 2] == tail[2] && all[n + 3] == tail[3];
    assert all[n + 4] == tail[4] && all[n + 5] == tail[5];
    LastIndexIs(all, "pods", if volume == "pods" then n + 4 else if uid == "pods" then n + 1 else n);
    LastIndexIs(all, CSI_SEGMENT, if volume == CSI_SEGMENT then n + 4 else n + 3);
  }

  lemma ParseKubeletIff(root: seq<string>, uid: string, volume: string)
    requires PlainElements(root) && PlainElement(uid) && PlainElement(volume)
    ensures Parse("/" + Join(root + ["pods"] + VolumeRoute(uid, volume), '/')) == Parsed(uid, volume, true)
            <==> Tellable(uid, volume)
  {
    var parts := root + ["pods"] + VolumeRoute(uid, volume);
    PlainPath(parts);
    var all, n := [""] + parts, |root| + 1;
    assert all[n..] == ["pods"] + VolumeRoute(uid, volume);
    KubeletMarkers(all, n, uid, volume);
  }

  // ---------------------------------------------------------------- the walk

  datatype Node = File(name: string) | Dir(name: string, children: seq<Node>)

  /** What a scan reads besides the tree. */
  datatype Host = Host(
    provisioner: string,
    driver: string -> Option<string>,   // driverName in the vol_data.json beside a mount, if readable
    rcloneFuse: string -> bool,         // the mount table lists the path as an rclone FUSE mount
    probe: string -> Option<string>)    // the reason, if the path probes as corrupted

  /** The ownership filter. */
  predicate Eligible(host: Host, path: string) {
    || host.provisioner == ""
    || match host.driver(path)
       case Some(d) => d == host.provisioner
       case None => host.rcloneFuse(path)
  }

  /**
   * The mount is the driver's: no provisioner is asked for, kubelet's record names it, or there is no record and the
   * mount table shows an rclone mount.
   */
  predicate Owned(host: Host, path: string) {
    || host.provisioner == ""
    || host.driver(path) == Some(host.provisioner)
    || (host.driver(path).None? && host.rcloneFuse(path))
  }

  /** What the walk reports for a directory named "mount". */
  function Report(host: Host, path: string): Option<StaleMount> {
    var p := Parse(path);
    if p.ok && Eligible(host, path) && host.probe(path).Some?
    then Some(Recovery.StaleMount(p.podUid, p.volume, path, host.probe(path).value))
    else None
  }

  /** A mount is reported exactly if its path can be parsed, it is the driver's and it probes as corrupted. */
  lemma ReportIff(host: Host, path: string, e: StaleMount)
    ensures Report(host, path) == Some(e)
            <==> && Parse(path) == Parsed(e.podUid, e.volume, true) && Owned(host, path)
                 && e.path == path && host.probe(path) == Some(e.reason)
  {
  }

  function Found(host: Host, path: string, node: Node): seq<StaleMount>
    decreases node
  {
    match node
    case File(_) => []
    case Dir(name, children) =>
      if name == MOUNT then (if Report(host, path).Some? then [Report(host, path).value] else [])
      else FoundAll(host, path, children)
  }

  function FoundAll(host: Host, path: string, nodes: seq<Node>): seq<StaleMount>
    decreases nodes
  {
    if nodes == [] then []
    else Found(host, path + "/" + nodes[0].name, nodes[0]) + FoundAll(host, path, nodes[1..])
  }

  /** The callback of ScanStaleMounts for a directory named "mount". */
  method CheckMountDir(host: Host, path: string) returns (found: Option<StaleMount>)
    ensures found == Report(host, path)
  {
    var p := ParseCSIMountPath(path);
    if !p.ok {
      return None;
    }
    if host.provisioner != "" {
      var driver := host.driver(path);
      if driver.Some? && driver.value != host.provisioner {
        return None;
      }
      if driver.None? && !host.rcloneFuse(path) {
        return None;
      }
    }
    var reason := host.probe(path);
    if reason.None? {
      return None;
    }
    return Some(Recovery.StaleMount(p.podUid, p.volume, path, reason.value));
  }

  /** filepath.WalkDir with that callback; `listed` collects the directories whose entries are read. */
  method Walk(host: Host, path: string, node: Node) returns (stale: seq<StaleMount>, listed: seq<string>)
    ensures stale == Found(host, path, node) && listed == Listed(path, node)
    decreases node
  {
    if node.File? {
      return [], [];
    }
    if node.name == MOUNT {
      var found := CheckMountDir(host, path);
      return if found.Some? then [found.value] else [], [];
    }
    stale, listed := WalkEntries(host, path, node.children);
    listed := [path] + listed;
  }

  lemma NextEntry(host: Host, path: string, nodes: seq<Node>, n: nat)
    requires n < |nodes|
    ensures FoundAll(host, path, nodes[n..])
            == Found(host, path + "/" + nodes[n].name, nodes[n]) + FoundAll(host, path, nodes[n + 1..])
    ensures ListedAll(path, nodes[n..])
            == Listed(path + "/" + nodes[n].name, nodes[n]) + ListedAll(path, nodes[n + 1..])
  {
    assert nodes[n..][1..] == nodes[n + 1..];
  }

  lemma MoveOver<T>(done: seq<T>, next: seq<T>, rest: seq<T>)
    ensures done + (next + rest) == done + next + rest
  {
  }

  method WalkEntries(host: Host, path: string, nodes: seq<Node>) returns (stale: seq<StaleMount>, listed: seq<string>)
    ensures stale == FoundAll(host, path, nodes) && listed == ListedAll(path, nodes)
    decreases nodes
  {
    stale, listed := [], [];
    ghost var found, read := FoundAll(host, path, nodes), ListedAll(path, nodes);
    ghost var toFind, toRead := found, read;
    assert nodes[0..] == nodes;
    var n := 0;
    while n < |nodes|
      invariant 0 <= n <= |nodes|
      invariant toFind == FoundAll(host, path, nodes[n..]) && toRead == ListedAll(path, nodes[n..])
      invariant stale + toFind == found && listed + toRead == read
    {
      NextEntry(host, path, nodes, n);
      var more, below := Walk(host, path + "/" + nodes[n].name, nodes[n]);
      MoveOver(stale, more, FoundAll(host, path, nodes[n + 1..]));
      MoveOver(listed, below, ListedAll(path, nodes[n + 1..]));
      stale, listed, n := stale + more, listed + below, n + 1;
      toFind, toRead := FoundAll(host, path, nodes[n..]), ListedAll(path, nodes[n..]);
    }
  }

  function Listed(path: string, node: Node): seq<string>
    decreases node
  {
    if node.File? || node.name == MOUNT then [] else [path] + ListedAll(path, node.children)
  }

  function ListedAll(path: string, nodes: seq<Node>): seq<string>
    decreases nodes
  {
    if nodes == [] then [] else Listed(path + "/" + nodes[0].name, nodes[0]) + ListedAll(path, nodes[1..])
  }

  // ---------------------------------------------------------------- places in the tree

  /** Names are plain, and no directory has two entries of one name. */
  predicate GoodTree(node: Node)
    decreases node
  {
    node.Dir? ==>
      && (forall i, j | 0 <= i < j < |node.children| :: node.children[i].name != node.children[j].name)
      && (forall i | 0 <= i < |node.children| :: PlainElement(node.children[i].name) && GoodTree(node.children[i]))
  }

  /** The route of names leads from the node to a directory. */
  ghost predicate LeadsToDir(node: Node, route: seq<string>)
    decreases |route|
  {
    node.Dir?
    && (route == [] || exists c :: c in node.children && c.name == route[0] && LeadsToDir(c, route[1..]))
  }

  /** The route ends in a directory named "mount" and passes no other on its way. */
  ghost predicate MountRoute(node: Node, route: seq<string>) {
    && LeadsToDir(node, route) && route != [] && route[|route| - 1] == MOUNT
    && forall k | 0 <= k < |route| - 1 :: route[k] != MOUNT
  }

  function PathOf(path: string, route: seq<string>): string {
    if route == [] then path else path + "/" + Join(route, '/')
  }

  lemma PathOfStep(path: string, route: seq<string>)
    requires route != []
    ensures PathOf(path, route) == PathOf(path + "/" + route[0], route[1..])
  {
    if |route| > 1 {
      assert path + "/" + (route[0] + ['/'] + Join(route[1..], '/'))
          == path + "/" + route[0] + "/" + Join(route[1..], '/');
    }
  }

  /** Different routes are different paths. */
  lemma PathOfInjective(path: string, a: seq<string>, b: seq<string>)
    requires PlainElements(a) && PlainElements(b) && PathOf(path, a) == PathOf(path, b)
    ensures a == b
  {
    var x, y := PathOf(path, a), PathOf(path, b);
    if a != [] && b != [] {
      assert x[|path| + 1..] == Join(a, '/') && y[|path| + 1..] == Join(b, '/');
      SplitJoin(a, '/');
      SplitJoin(b, '/');
    }
  }

  // ---------------------------------------------------------------- what a scan returns

  /** The reported mounts below a node that is not itself named "mount". */
  ghost predicate ReportedAt(host: Host, path: string, node: Node, e: StaleMount) {
    exists route :: MountRoute(node, route) && Report(host, PathOf(path, route)) == Some(e)
  }

  lemma RouteBelow(node: Node, child: Node, route: seq<string>)
    requires node.Dir? && child in node.children && child.name != MOUNT && MountRoute(child, route)
    ensures MountRoute(node, [child.name] + route)
  {
    assert ([child.name] + route)[1..] == route;
  }

  lemma RouteFirst(node: Node, route: seq<string>) returns (child: Node)
    requires MountRoute(node, route)
    ensures node.Dir? && child in node.children && child.name == route[0]
    ensures if |route| == 1
            then child.Dir? && child.name == MOUNT
            else child.name != MOUNT && MountRoute(child, route[1..])
  {
    child :| child in node.children && child.name == route[0] && LeadsToDir(child, route[1..]);
  }

  lemma {:induction false} FoundSound(host: Host, path: string, node: Node, e: StaleMount)
    requires node.Dir? && node.name != MOUNT && e in Found(host, path, node)
    ensures ReportedAt(host, path, node, e)
    decreases node
  {
    var child := FoundIn(host, path, node.children, e);
    if child.name == MOUNT {
      MountHere(node, child);
      assert PathOf(path, [MOUNT]) == path + "/" + MOUNT;
    } else {
      FoundSound(host, path + "/" + child.name, child, e);
      ReportedBelow(host, path, node, child, e);
    }
  }

  lemma MountHere(node: Node, child: Node)
    requires node.Dir? && child in node.children && child.Dir? && child.name == MOUNT
    ensures MountRoute(node, [MOUNT])
  {
    assert LeadsToDir(child, []) && [MOUNT][1..] == [];
  }

  lemma ReportedBelow(host: Host, path: string, node: Node, child: Node, e: StaleMount)
    requires node.Dir? && child in node.children && child.name != MOUNT
    requires ReportedAt(host, path + "/" + child.name, child, e)
    ensures ReportedAt(host, path, node, e)
  {
    var below := path + "/" + child.name;
    var route :| MountRoute(child, route) && Report(host, PathOf(below, route)) == Some(e);
    RouteBelow(node, child, route);
    PathOfStep(path, [child.name] + route);
    assert ([child.name] + route)[1..] == route;
  }

  lemma {:induction false} FoundIn(host: Host, path: string, nodes: seq<Node>, e: StaleMount) returns (child: Node)
    requires e in FoundAll(host, path, nodes)
    ensures child in nodes && child.Dir? && e in Found(host, path + "/" + child.name, child)
    decreases |nodes|
  {
    if e in Found(host, path + "/" + nodes[0].name, nodes[0]) {
      child := nodes[0];
    } else {
      child := FoundIn(host, path, nodes[1..], e);
    }
  }

  lemma {:induction false} FoundComplete(host: Host, path: string, node: Node, route: seq<string>, e: StaleMount)
    requires node.name != MOUNT && MountRoute(node, route) && Report(host, PathOf(path, route)) == Some(e)
    ensures e in Found(host, path, node)
    decreases |route|
  {
    var child := RouteFirst(node, route);
    PathOfStep(path, route);
    if |route| > 1 {
      FoundComplete(host, path + "/" + child.name, child, route[1..], e);
    }
    FoundInAll(host, path, node.children, child, e);
  }

  lemma {:induction false} FoundInAll(host: Host, path: string, nodes: seq<Node>, child: Node, e: StaleMount)
    requires child in nodes && e in Found(host, path + "/" + child.name, child)
    ensures e in FoundAll(host, path, nodes)
    decreases |nodes|
  {
    if child != nodes[0] {
      FoundInAll(host, path, nodes[1..], child, e);
    }
  }

  /** The scan returns exactly the reportable mount directories that are not inside another one. */
  lemma ScanExact(host: Host, path: string, node: Node, e: StaleMount)
    requires node.Dir? && node.name != MOUNT
    ensures e in Found(host, path, node) <==> ReportedAt(host, path, node, e)
  {
    if e in Found(host, path, node) {
      FoundSound(host, path, node, e);
    }
    if ReportedAt(host, path, node, e) {
      var route :| MountRoute(node, route) && Report(host, PathOf(path, route)) == Some(e);
      FoundComplete(host, path, node, route, e);
    }
  }

  /** Every path below a node starts with the node's path and a slash, or is that path. */
  predicate Under(path: string, p: string) {
    p == path || HasPrefix(p, path + "/")
  }

  lemma UnderStep(path: string, name: string, p: string)
    requires Under(path + "/" + name, p)
    ensures HasPrefix(p, path + "/")
  {
    if p != path + "/" + name {
      assert p[..|path| + 1] == (path + "/" + name + "/")[..|path| + 1];
    }
  }

  lemma {:induction false} FoundUnder(host: Host, path: string, node: Node, e: StaleMount)
    requires e in Found(host, path, node)
    ensures Under(path, e.path)
    decreases node
  {
    if node.name != MOUNT {
      var child := FoundIn(host, path, node.children, e);
      FoundUnder(host, path + "/" + child.name, child, e);
      UnderStep(path, child.name, e.path);
    }
  }

  /** Paths under two different entries of a directory differ. */
  lemma SiblingsApart(path: string, a: string, b: string, p: string, q: string)
    requires Free(a, '/') && Free(b, '/') && a != b && Under(path + "/" + a, p) && Under(path + "/" + b, q)
    ensures p != q
  {
    if p == q {
      var x, y := p[|path| + 1..] + "/", q[|path| + 1..] + "/";
      var u := TailOf(path, a, p);
      var v := TailOf(path, b, q);
      FirstCutUnique(a, u, b, v, '/');
    }
  }

  /** What follows the entry's name in a path under it, with a slash put at the end. */
  lemma TailOf(path: string, a: string, p: string) returns (u: string)
    requires Under(path + "/" + a, p)
    ensures |path| + 1 <= |p| && p[|path| + 1..] + "/" == a + ['/'] + u
  {
    var head := path + "/" + a;
    if p == head {
      u := "";
      assert p[|path| + 1..] == a;
    } else {
      u := p[|head| + 1..] + "/";
      assert p == head + "/" + p[|head| + 1..];
      assert p[|path| + 1..] == a + "/" + p[|head| + 1..];
    }
  }

  ghost predicate PathsDistinct(found: seq<StaleMount>) {
    forall i, j | 0 <= i < j < |found| :: found[i].path != found[j].path
  }

  /** Each stale mount is reported once. */
  lemma {:induction false} ScanOnce(host: Host, path: string, node: Node)
    requires GoodTree(node)
    ensures PathsDistinct(Found(host, path, node))
    decreases node, 0
  {
    if node.Dir? && node.name != MOUNT {
      ScanOnceAll(host, path, node.children);
    }
  }

  predicate GoodNodes(nodes: seq<Node>) {
    && (forall i, j | 0 <= i < j < |nodes| :: nodes[i].name != nodes[j].name)
    && (forall i | 0 <= i < |nodes| :: PlainElement(nodes[i].name) && GoodTree(nodes[i]))
  }

  lemma {:induction false} ScanOnceAll(host: Host, path: string, nodes: seq<Node>)
    requires GoodNodes(nodes)
    ensures PathsDistinct(FoundAll(host, path, nodes))
    decreases nodes, 1
  {
    if nodes != [] {
      var first, rest := Found(host, path + "/" + nodes[0].name, nodes[0]), FoundAll(host, path, nodes[1..]);
      ScanOnce(host, path + "/" + nodes[0].name, nodes[0]);
      ScanOnceAll(host, path, nodes[1..]);
      forall i, j | 0 <= i < |first| && 0 <= j < |rest| ensures first[i].path != rest[j].path {
        FoundUnder(host, path + "/" + nodes[0].name, nodes[0], first[i]);
        var other := FoundIn(host, path, nodes[1..], rest[j]);
        FoundUnder(host, path + "/" + other.name, other, rest[j]);
        SiblingsApart(path, nodes[0].name, other.name, first[i].path, rest[j].path);
      }
    }
  }

  /** The walk reads the entries of no directory named "mount" and of nothing below one. */
  lemma {:induction false} NeverInsideMount(path: string, node: Node, p: string)
    requires p in Listed(path, node)
    ensures node.name != MOUNT
    ensures exists route :: LeadsToDir(node, route) && MOUNT !in route && PathOf(path, route) == p
    decreases node
  {
    if p == path {
      assert LeadsToDir(node, []) && PathOf(path, []) == p;
    } else {
      var child := ListedIn(path, node.children, p);
      NeverInsideMount(path + "/" + child.name, child, p);
      var route :| LeadsToDir(child, route) && MOUNT !in route && PathOf(path + "/" + child.name, route) == p;
      var longer := [child.name] + route;
      PathOfStep(path, longer);
      assert longer[1..] == route;
      assert LeadsToDir(node, longer) && MOUNT !in longer && PathOf(path, longer) == p;
    }
  }

  lemma {:induction false} ListedIn(path: string, nodes: seq<Node>, p: string) returns (child: Node)
    requires p in ListedAll(path, nodes)
    ensures child in nodes && p in Listed(path + "/" + child.name, child)
    decreases |nodes|
  {
    if p in Listed(path + "/" + nodes[0].name, nodes[0]) {
      child := nodes[0];
    } else {
      child := ListedIn(path, nodes[1..], p);
    }
  }

  /** And it reads those of every other directory. */
  lemma {:induction false} AllElseListed(path: string, node: Node, route: seq<string>)
    requires node.name != MOUNT && LeadsToDir(node, route) && MOUNT !in route
    ensures PathOf(path, route) in Listed(path, node)
    decreases |route|
  {
    if route != [] {
      var child :| child in node.children && child.name == route[0] && LeadsToDir(child, route[1..]);
      assert route[0] in route && child.name != MOUNT;
      AllElseListed(path + "/" + child.name, child, route[1..]);
      PathOfStep(path, route);
      ListedInAll(path, node.children, child, PathOf(path, route));
    }
  }

  lemma {:induction false} ListedInAll(path: string, nodes: seq<Node>, child: Node, p: string)
    requires child in nodes && p in Listed(path + "/" + child.name, child)
    ensures p in ListedAll(path, nodes)
    decreases |nodes|
  {
    if child != nodes[0] {
      ListedInAll(path, nodes[1..], child, p);
    }
  }

  // ---------------------------------------------------------------- on kubelet's tree

  function PodsDir(root: seq<string>): string {
    "/" + Join(root + ["pods"], '/')
  }

  lemma {:induction false} JoinPath(a: seq<string>, b: seq<string>)
    requires a != [] && b != []
    ensures Join(a + b, '/') == Join(a, '/') + "/" + Join(b, '/')
    decreases |a|
  {
    if |a| == 1 {
      assert (a + b)[1..] == b;
    } else {
      JoinPath(a[1..], b);
      assert (a + b)[1..] == a[1..] + b;
      assert a[0] + ['/'] + (Join(a[1..], '/') + "/" + Join(b, '/'))
          == a[0] + ['/'] + Join(a[1..], '/') + "/" + Join(b, '/');
    }
  }

  lemma KubeletPath(root: seq<string>, route: seq<string>)
    requires route != []
    ensures PathOf(PodsDir(root), route) == "/" + Join(root + ["pods"] + route, '/')
  {
    JoinPath(root + ["pods"], route);
  }

  /** The names the layout uses itself. */
  predicate Reserved(name: string) {
    name == "pods" || name == "mount"
  }

  lemma ReportedRoute(host: Host, root: seq<string>, pods: Node, route: seq<string>, e: StaleMount)
    requires PlainElements(root) && GoodTree(pods) && pods.name == "pods" && LeadsToDir(pods, route) && route != []
    requires e.path == PathOf(PodsDir(root), route)
    ensures e in Found(host, PodsDir(root), pods) <==> MountRoute(pods, route) && Report(host, e.path) == Some(e)
  {
    RoutePlain(pods, route);
    if e in Found(host, PodsDir(root), pods) {
      FoundSound(host, PodsDir(root), pods, e);
      var other :| MountRoute(pods, other) && Report(host, PathOf(PodsDir(root), other)) == Some(e);
      RoutePlain(pods, other);
      PathOfInjective(PodsDir(root), other, route);
    }
    if MountRoute(pods, route) && Report(host, e.path) == Some(e) {
      FoundComplete(host, PodsDir(root), pods, route, e);
    }
  }

  lemma VolumeMountRoute(pods: Node, uid: string, volume: string)
    requires LeadsToDir(pods, VolumeRoute(uid, volume))
    ensures MountRoute(pods, VolumeRoute(uid, volume)) <==> uid != MOUNT && volume != MOUNT
  {
    var route := VolumeRoute(uid, volume);
    assert route[0] == uid && route[1] == "volumes" && route[2] == CSI_SEGMENT && route[3] == volume
        && route[4] == MOUNT;
  }

  /**
   * The publish target of a volume is reported under its own pod and volume exactly when it is eligible and corrupted
   * and neither name is one the layout itself uses.
   */
  lemma VolumeReportedIff(
    host: Host, root: seq<string>, pods: Node, uid: string, volume: string, reason: string)
    requires PlainElements(root) && PlainElement(uid) && PlainElement(volume)
    requires GoodTree(pods) && pods.name == "pods" && LeadsToDir(pods, VolumeRoute(uid, volume))
    ensures var path := PathOf(PodsDir(root), VolumeRoute(uid, volume));
            Recovery.StaleMount(uid, volume, path, reason) in Found(host, PodsDir(root), pods)
            <==> && Owned(host, path) && host.probe(path) == Some(reason)
                 && !Reserved(uid) && !Reserved(volume) && volume != "kubernetes.io~csi"
  {
    var route := VolumeRoute(uid, volume);
    var path := PathOf(PodsDir(root), route);
    KubeletPath(root, route);
    ParseKubeletIff(root, uid, volume);
    VolumeMountRoute(pods, uid, volume);
    ReportedRoute(host, root, pods, route, Recovery.StaleMount(uid, volume, path, reason));
  }

  lemma {:induction false} RoutePlain(node: Node, route: seq<string>)
    requires GoodTree(node) && LeadsToDir(node, route)
    ensures PlainElements(route)
    decreases |route|
  {
    if route != [] {
      var c :| c in node.children && c.name == route[0] && LeadsToDir(c, route[1..]);
      RoutePlain(c, route[1..]);
    }
  }
}
