/**
 * Namespace resolver of pkg/controller/netns: classifying entries of the host
 * process tree, the per-entry step of the scan, the scan that finds the network
 * namespace of a pod, and the fixed namespace path of the node itself.
 *
 * The process tree is a value: the listing of its root (absent when the root
 * cannot be listed) and, per pid, the namespace inode if it can be read and the
 * text of the cgroup file.
 */
module Netns {
  import opened Results
  import opened Text

  /** Where the host's process tree is mounted. */
  const HostProc := "/host/proc"

  /** A 64-bit namespace inode number. */
  type Inode = x: int | 0 <= x < 0x1_0000_0000_0000_0000

  datatype DirEntry = DirEntry(name: string, isDir: bool)

  /** What the scan can read under `<root>/<pid>`. */
  datatype ProcRecord = ProcRecord(netnsInode: Option<Inode>, cgroup: string)

  datatype ProcTree = ProcTree(listing: Option<seq<DirEntry>>, procs: map<string, ProcRecord>)

  datatype NsError =
    | IOError            // the root of the process tree cannot be listed
    | NetnsUnreadable    // the namespace inode of one entry cannot be read
    | NamespaceNotFound  // no process names the pod

  /** `HostProc` joined with a clean relative path, as Go's path.Join does. */
  function JoinHostProc(rel: string): (p: string)
    requires rel != ""
    ensures HasPrefix(p, HostProc + "/") && |p| > |HostProc| + 1
  {
    HostProc + "/" + rel
  }

  /**
   * path.Join(pid, "ns", "net"): the namespace file of a process, relative to
   * the root of the process tree. path.Join drops an empty element.
   */
  function NetnsName(pid: string): (p: string)
    ensures p != "" && HasSuffix(p, "ns/net")
  {
    if pid == "" then "ns/net" else pid + "/ns/net"
  }

  /** GetNodeNSpath: the namespace of pid 1 under the host process tree. */
  function GetNodeNSpath(): (p: string)
    ensures p == "/host/proc/1/ns/net"
  {
    JoinHostProc(NetnsName("1"))
  }

  /** isNotNumber: a character outside '0'..'9'. */
  function IsNotNumber(c: char): (r: bool)
    ensures r <==> c !in "0123456789"
  {
    c < '0' || c > '9'
  }

  /** strings.IndexFunc(s, isNotNumber): the first non-digit position, or -1. */
  function IndexNotNumber(s: string): (r: int)
    ensures -1 <= r < |s|
    ensures r == -1 <==> forall i :: 0 <= i < |s| ==> !IsNotNumber(s[i])
    ensures r >= 0 ==> IsNotNumber(s[r]) && forall i :: 0 <= i < r ==> !IsNotNumber(s[i])
    decreases |s|
  {
    if s == [] then -1
    else if IsNotNumber(s[0]) then 0
    else
      var k := IndexNotNumber(s[1..]);
      assert forall i :: 1 <= i < |s| ==> s[i] == s[1..][i - 1];
      if k == -1 then -1 else k + 1
  }

  /**
   * isProcess: a directory whose name holds no non-digit character. The empty
   * name holds none, so an empty-named directory counts as a process.
   */
  function IsProcess(e: DirEntry): (r: bool)
    ensures r <==> e.isDir && forall i :: 0 <= i < |e.name| ==> '0' <= e.name[i] <= '9'
  {
    e.isDir && IndexNotNumber(e.name) == -1
  }

  /**
   * The cgroup text names the pod: the pod marker "/pod" followed by the UID,
   * ending a line, a path segment or the text. A UID parsed from a cgroup path
   * is never empty, so the empty UID names no pod.
   */
  predicate CgroupMatches(cgroup: string, uid: string) {
    var marker := "/pod" + uid;
    uid != "" &&
    (Contains(cgroup, marker + "\n") || Contains(cgroup, marker + "/") || HasSuffix(cgroup, marker))
  }

  /** The namespace inode the scan reads for `e`: only process entries are read. */
  function EntryInode(procs: map<string, ProcRecord>, e: DirEntry): Option<Inode> {
    if IsProcess(e) && e.name in procs then procs[e.name].netnsInode else None
  }

  function InodeSet(o: Option<Inode>): set<Inode> {
    if o.Some? then {o.value} else {}
  }

  /** The inodes a scan has recorded once it has handled the first `k` entries. */
  function ObservedBefore(es: seq<DirEntry>, procs: map<string, ProcRecord>, k: nat): set<Inode>
    requires k <= |es|
  {
    if k == 0 then {} else ObservedBefore(es, procs, k - 1) + InodeSet(EntryInode(procs, es[k - 1]))
  }

  /**
   * Entry `k` is where a scan for `uid` stops: a process with a readable
   * namespace inode not seen at an earlier entry, whose cgroup names the pod.
   */
  predicate Hit(es: seq<DirEntry>, procs: map<string, ProcRecord>, uid: string, k: nat)
    requires k < |es|
  {
    var e := es[k];
    IsProcess(e) && e.name in procs && procs[e.name].netnsInode.Some? &&
    procs[e.name].netnsInode.value !in ObservedBefore(es, procs, k) &&
    CgroupMatches(procs[e.name].cgroup, uid)
  }

  /** The first stopping entry at or after `from`. */
  function FirstHit(es: seq<DirEntry>, procs: map<string, ProcRecord>, uid: string, from: nat): (r: Option<nat>)
    requires from <= |es|
    ensures r.Some? ==>
              from <= r.value < |es| && Hit(es, procs, uid, r.value) &&
              forall j :: from <= j < r.value ==> !Hit(es, procs, uid, j)
    ensures r.None? ==> forall j :: from <= j < |es| ==> !Hit(es, procs, uid, j)
    decreases |es| - from
  {
    if from == |es| then None
    else if Hit(es, procs, uid, from) then Some(from)
    else FirstHit(es, procs, uid, from + 1)
  }

  /**
   * What FindNetnsForPod answers for a process tree: the namespace of the first
   * stopping entry, NamespaceNotFound when there is none, IOError when the root
   * cannot be listed.
   */
  function Resolve(tree: ProcTree, uid: string): (r: Result<string, NsError>)
    ensures tree.listing.None? ==> r == Err(IOError)
    ensures tree.listing.Some? ==>
              (r.Ok? <==> exists k :: 0 <= k < |tree.listing.value| && Hit(tree.listing.value, tree.procs, uid, k))
    ensures tree.listing.Some? && r.Err? ==> r.error == NamespaceNotFound
    ensures r.Ok? ==>
              tree.listing.Some? && r.value != "" &&
              exists k :: 0 <= k < |tree.listing.value| && Hit(tree.listing.value, tree.procs, uid, k) &&
                r.value == NetnsName(tree.listing.value[k].name) &&
                forall j :: 0 <= j < k ==> !Hit(tree.listing.value, tree.procs, uid, j)
  {
    match tree.listing
    case None => Err(IOError)
    case Some(es) =>
      match FirstHit(es, tree.procs, uid, 0)
      case Some(k) => Ok(NetnsName(es[k].name))
      case None => Err(NamespaceNotFound)
  }

  /** An entry that stops the scan, with none before it, is the first one. */
  lemma FirstHitIs(es: seq<DirEntry>, procs: map<string, ProcRecord>, uid: string, k: nat)
    requires k < |es| && Hit(es, procs, uid, k)
    requires forall j :: 0 <= j < k ==> !Hit(es, procs, uid, j)
    ensures FirstHit(es, procs, uid, 0) == Some(k)
  {
  }

  /** The inode of every readable process entry before `k` has been recorded. */
  lemma {:induction false} ObservedBeforeHas(es: seq<DirEntry>, procs: map<string, ProcRecord>, j: nat, k: nat)
    requires j < k <= |es| && EntryInode(procs, es[j]).Some?
    ensures EntryInode(procs, es[j]).value in ObservedBefore(es, procs, k)
    decreases k
  {
    if j < k - 1 {
      ObservedBeforeHas(es, procs, j, k - 1);
    }
  }

  /**
   * Processes sharing a namespace with an earlier process entry are skipped:
   * only the first of them can stop the scan.
   */
  lemma SharedNamespaceSkipped(es: seq<DirEntry>, procs: map<string, ProcRecord>, uid: string, j: nat, k: nat)
    requires j < k < |es|
    requires EntryInode(procs, es[j]).Some? && EntryInode(procs, es[j]) == EntryInode(procs, es[k])
    ensures !Hit(es, procs, uid, k)
  {
    ObservedBeforeHas(es, procs, j, k);
  }

  /**
   * What a scan has recorded after `k` entries is exactly the set of readable
   * namespace inodes of the process entries before `k`.
   */
  lemma {:induction false} ObservedBeforeExactly(es: seq<DirEntry>, procs: map<string, ProcRecord>, k: nat, x: Inode)
    requires k <= |es|
    ensures x in ObservedBefore(es, procs, k) <==> exists j :: 0 <= j < k && EntryInode(procs, es[j]) == Some(x)
    decreases k
  {
    if k > 0 {
      ObservedBeforeExactly(es, procs, k - 1, x);
      if x in ObservedBefore(es, procs, k) && x !in ObservedBefore(es, procs, k - 1) {
        assert EntryInode(procs, es[k - 1]) == Some(x);
      }
      if exists j :: 0 <= j < k && EntryInode(procs, es[j]) == Some(x) {
        var j :| 0 <= j < k && EntryInode(procs, es[j]) == Some(x);
        if j < k - 1 {
          ObservedBeforeHas(es, procs, j, k - 1);
        }
      }
    }
  }

  /**
   * Entry `k` stops a scan exactly when it is a process with a readable
   * namespace inode that no earlier entry has, and its cgroup names the pod.
   */
  lemma NewNamespaceHit(es: seq<DirEntry>, procs: map<string, ProcRecord>, uid: string, k: nat)
    requires k < |es|
    ensures Hit(es, procs, uid, k) <==>
              EntryInode(procs, es[k]).Some? &&
              (forall j :: 0 <= j < k ==> EntryInode(procs, es[j]) != EntryInode(procs, es[k])) &&
              CgroupMatches(procs[es[k].name].cgroup, uid)
  {
    if EntryInode(procs, es[k]).Some? {
      ObservedBeforeExactly(es, procs, k, EntryInode(procs, es[k]).value);
    }
  }

  /** Two processes sharing one namespace: the scan records that inode once. */
  lemma SharedNamespaceRecordedOnce(es: seq<DirEntry>, procs: map<string, ProcRecord>, x: Inode)
    requires |es| == 2 && EntryInode(procs, es[0]) == Some(x) && EntryInode(procs, es[1]) == Some(x)
    ensures ObservedBefore(es, procs, 2) == {x}
  {
    assert ObservedBefore(es, procs, 1) == {x};
  }

  /** Entries after a prefix do not change what the scan has recorded in it. */
  lemma {:induction false} ObservedBeforePrefix(es: seq<DirEntry>, more: seq<DirEntry>,
                                                procs: map<string, ProcRecord>, k: nat)
    requires k <= |es|
    ensures ObservedBefore(es + more, procs, k) == ObservedBefore(es, procs, k)
    decreases k
  {
    if k > 0 {
      ObservedBeforePrefix(es, more, procs, k - 1);
      assert (es + more)[k - 1] == es[k - 1];
    }
  }

  /** First match wins: once a prefix of the listing resolves, later entries do not matter. */
  lemma FirstMatchIgnoresLaterEntries(es: seq<DirEntry>, more: seq<DirEntry>,
                                      procs: map<string, ProcRecord>, uid: string)
    requires Resolve(ProcTree(Some(es), procs), uid).Ok?
    ensures Resolve(ProcTree(Some(es + more), procs), uid) == Resolve(ProcTree(Some(es), procs), uid)
  {
    var all := es + more;
    forall j | 0 <= j < |es|
      ensures Hit(all, procs, uid, j) == Hit(es, procs, uid, j)
    {
      ObservedBeforePrefix(es, more, procs, j);
      assert all[j] == es[j];
    }
    var k := FirstHit(es, procs, uid, 0).value;
    assert Hit(all, procs, uid, k);
    var k' := FirstHit(all, procs, uid, 0);
    assert k'.Some? && k'.value == k;
    assert all[k] == es[k];
  }

  /** A pod with an empty UID is never found. */
  lemma EmptyUidNeverResolves(tree: ProcTree)
    ensures Resolve(tree, "").Err?
  {
    if tree.listing.Some? {
      assert FirstHit(tree.listing.value, tree.procs, "", 0).None?;
    }
  }

  /** How sample characters and directory entries are classified. */
  lemma ClassificationExamples()
    ensures !IsNotNumber('0') && !IsNotNumber('5') && !IsNotNumber('9')
    ensures IsNotNumber('a') && IsNotNumber('Z') && IsNotNumber('-') && IsNotNumber(' ')
    ensures IsProcess(DirEntry("1234", true)) && IsProcess(DirEntry("", true))
    ensures !IsProcess(DirEntry("proc", true)) && !IsProcess(DirEntry("1234", false))
    ensures !IsProcess(DirEntry("123abc", true))
  {
    assert "proc"[0] == 'p';
    assert "123abc"[3] == 'a';
  }

  /** The cgroup line the process-tree fixtures write for a pod. */
  function CgroupLine(uid: string): string {
    "12:pids:/kubepods/pod" + uid + "\n"
  }

  /** A UID as the API server issues it: non-empty, with no '/' and no line break. */
  predicate ValidUid(uid: string) {
    uid != "" && '/' !in uid && '\n' !in uid
  }

  /** In a fixture cgroup line, a pattern starting with "/p" can only occur after "kubepods". */
  lemma OccursOnlyAfterKubepods(u: string, p: string) returns (t: string)
    requires ValidUid(u) && |p| >= 2 && p[0] == '/' && p[1] == 'p'
    requires Contains(CgroupLine(u), p)
    ensures t == "/pod" + u + "\n" && HasPrefix(t, p)
  {
    var s := CgroupLine(u);
    var head := "12:pids:/kubepods";
    t := "/pod" + u + "\n";
    assert s == head + t;
    var i := ContainsWitness(s, p);
    assert s[i] == '/';
    if i < |head| {
      assert false;
    } else if i > |head| {
      assert false;
    }
    assert s[i..i + |p|] == t[..|p|];
  }

  /** Where a prefix of the pod segment "/pod<u>\n" can end, given that `u` holds no '/' and no line break. */
  lemma PodSegmentEnd(u: string, p: string)
    requires ValidUid(u) && 4 < |p| && HasPrefix("/pod" + u + "\n", p)
    ensures p[|p| - 1] == '\n' ==> |p| == |u| + 5
    ensures p[|p| - 1] != '/'
  {
    var t := "/pod" + u + "\n";
    assert t[|p| - 1] == p[|p| - 1];
    if |p| - 1 < |u| + 4 {
      assert t[|p| - 1] == u[|p| - 5];
    }
  }

  /** A fixture cgroup line names exactly the pod it was written for. */
  lemma CgroupLineNamesOnlyItsPod(u: string, uid: string)
    requires ValidUid(u) && ValidUid(uid)
    ensures CgroupMatches(CgroupLine(u), uid) <==> uid == u
  {
    var s := CgroupLine(u);
    var m := "/pod" + uid;
    if uid == u {
      assert s == "12:pids:/kubepods" + (m + "\n");
      ContainsSuffix("12:pids:/kubepods", m + "\n");
    } else {
      if Contains(s, m + "\n") {
        var t := OccursOnlyAfterKubepods(u, m + "\n");
        PodSegmentEnd(u, m + "\n");
        assert forall k :: 0 <= k < |u| ==> uid[k] == (m + "\n")[k + 4] == t[k + 4] == u[k];
        assert false;
      }
      if Contains(s, m + "/") {
        var t := OccursOnlyAfterKubepods(u, m + "/");
        PodSegmentEnd(u, m + "/");
        assert false;
      }
      if HasSuffix(s, m) {
        LastCharOfSuffix(s, m);
        assert false;
      }
    }
  }

  /** Two processes in separate namespaces, each the member of its own pod. */
  function ScenarioTree(u1: string, u2: string): ProcTree {
    ProcTree(
      Some([DirEntry("1234", true), DirEntry("5678", true)]),
      map["1234" := ProcRecord(Some(1), CgroupLine(u1)), "5678" := ProcRecord(Some(2), CgroupLine(u2))])
  }

  /** Both entries of the scenario are processes, and the scan records the first one's inode. */
  lemma ScenarioEntries(u1: string, u2: string)
    ensures IsProcess(ScenarioTree(u1, u2).listing.value[0])
    ensures IsProcess(ScenarioTree(u1, u2).listing.value[1])
    ensures ObservedBefore(ScenarioTree(u1, u2).listing.value, ScenarioTree(u1, u2).procs, 1) == {1}
  {
    assert IsProcess(DirEntry("1234", true)) && IsProcess(DirEntry("5678", true));
  }

  /** The first process of the scenario stops a scan exactly for its own pod. */
  lemma ScenarioFirstHit(u1: string, u2: string, uid: string)
    requires ValidUid(u1) && ValidUid(uid)
    ensures Hit(ScenarioTree(u1, u2).listing.value, ScenarioTree(u1, u2).procs, uid, 0) <==> uid == u1
  {
    ScenarioEntries(u1, u2);
    CgroupLineNamesOnlyItsPod(u1, uid);
    assert ScenarioTree(u1, u2).procs["1234"].cgroup == CgroupLine(u1);
  }

  /** The second process, in a namespace of its own, stops a scan exactly for its own pod. */
  lemma ScenarioSecondHit(u1: string, u2: string, uid: string)
    requires ValidUid(u2) && ValidUid(uid)
    ensures Hit(ScenarioTree(u1, u2).listing.value, ScenarioTree(u1, u2).procs, uid, 1) <==> uid == u2
  {
    ScenarioEntries(u1, u2);
    CgroupLineNamesOnlyItsPod(u2, uid);
    assert ScenarioTree(u1, u2).procs["5678"] == ProcRecord(Some(2), CgroupLine(u2));
  }

  /** A scan over a listing resolves to the namespace file of its first stopping entry. */
  lemma ResolvesAt(tree: ProcTree, uid: string, k: nat)
    requires tree.listing.Some? && k < |tree.listing.value|
    requires Hit(tree.listing.value, tree.procs, uid, k)
    requires forall j :: 0 <= j < k ==> !Hit(tree.listing.value, tree.procs, uid, j)
    ensures Resolve(tree, uid) == Ok(NetnsName(tree.listing.value[k].name))
  {
    FirstHitIs(tree.listing.value, tree.procs, uid, k);
  }

  /** The namespace files of the scenario's two processes. */
  lemma ScenarioNames(u1: string, u2: string)
    ensures NetnsName(ScenarioTree(u1, u2).listing.value[0].name) == "1234/ns/net"
    ensures NetnsName(ScenarioTree(u1, u2).listing.value[1].name) == "5678/ns/net"
  {
    assert NetnsName("1234") == "1234/ns/net";
    assert NetnsName("5678") == "5678/ns/net";
  }

  /** The pod of pid 1234 resolves to the namespace of that process. */
  lemma ScenarioFindsFirstPod(u1: string, u2: string)
    requires ValidUid(u1)
    ensures Resolve(ScenarioTree(u1, u2), u1) == Ok("1234/ns/net")
  {
    ScenarioFirstHit(u1, u2, u1);
    ResolvesAt(ScenarioTree(u1, u2), u1, 0);
    ScenarioNames(u1, u2);
  }

  /** The pod of pid 5678 resolves to the namespace of that process. */
  lemma ScenarioFindsSecondPod(u1: string, u2: string)
    requires ValidUid(u1) && ValidUid(u2) && u1 != u2
    ensures Resolve(ScenarioTree(u1, u2), u2) == Ok("5678/ns/net")
  {
    var tree := ScenarioTree(u1, u2);
    ScenarioFirstHit(u1, u2, u2);
    ScenarioSecondHit(u1, u2, u2);
    assert !Hit(tree.listing.value, tree.procs, u2, 0);
    assert Hit(tree.listing.value, tree.procs, u2, 1);
    ResolvesAt(tree, u2, 1);
    ScenarioNames(u1, u2);
  }

  /** A UID that neither process's cgroup names is not found. */
  lemma ScenarioUnknownPod(u1: string, u2: string, uid: string)
    requires ValidUid(u1) && ValidUid(u2) && ValidUid(uid) && uid != u1 && uid != u2
    ensures Resolve(ScenarioTree(u1, u2), uid) == Err(NamespaceNotFound)
  {
    var tree := ScenarioTree(u1, u2);
    ScenarioFirstHit(u1, u2, uid);
    ScenarioSecondHit(u1, u2, uid);
    assert |tree.listing.value| == 2;
    assert FirstHit(tree.listing.value, tree.procs, uid, 0).None?;
  }

  /** The set of namespace inodes one scan has observed (a sets.Set[uint64]). */
  class NetnsObserved {
    var ids: set<Inode>

    constructor ()
      ensures ids == {}
    {
      ids := {};
    }

    predicate Has(id: Inode)
      reads this
    {
      id in ids
    }

    method Insert(id: Inode)
      modifies this
      ensures ids == old(ids) + {id}
    {
      ids := ids + {id};
    }
  }

  /**
   * processEntry: one entry of a scan. A non-process entry yields "" and no
   * error; an unreadable namespace inode is an error; an inode already observed
   * yields ""; otherwise the inode is recorded and the namespace file is the
   * answer when the cgroup names the pod.
   */
  method ProcessEntry(procs: map<string, ProcRecord>, observed: NetnsObserved, filter: string, entry: DirEntry)
    returns (r: Result<string, NsError>)
    modifies observed
    ensures observed.ids == old(observed.ids) + InodeSet(EntryInode(procs, entry))
    ensures !IsProcess(entry) ==> r == Ok("")
    ensures IsProcess(entry) && EntryInode(procs, entry).None? ==> r == Err(NetnsUnreadable)
    ensures EntryInode(procs, entry).Some? ==>
              r.Ok? &&
              (r.value != "" <==>
                 EntryInode(procs, entry).value !in old(observed.ids) &&
                 CgroupMatches(procs[entry.name].cgroup, filter))
    ensures r.Ok? && r.value != "" ==> r.value == NetnsName(entry.name)
  {
    if !IsProcess(entry) {
      return Ok("");
    }
    if entry.name !in procs || procs[entry.name].netnsInode.None? {
      return Err(NetnsUnreadable);
    }
    var inode := procs[entry.name].netnsInode.value;
    if observed.Has(inode) {
      return Ok("");
    }
    observed.Insert(inode);
    if CgroupMatches(procs[entry.name].cgroup, filter) {
      return Ok(NetnsName(entry.name));
    }
    return Ok("");
  }

  /**
   * FindNetnsForPod: scan the listing in order with a fresh observed set, skip
   * entries whose step fails, and stop at the first entry that answers.
   */
  method FindNetnsForPod(tree: ProcTree, uid: string) returns (r: Result<string, NsError>)
    ensures r == Resolve(tree, uid)
  {
    if tree.listing.None? {
      return Err(IOError);
    }
    var entries := tree.listing.value;
    var observed := new NetnsObserved();
    var i := 0;
    while i < |entries|
      invariant 0 <= i <= |entries|
      invariant observed.ids == ObservedBefore(entries, tree.procs, i)
      invariant forall j :: 0 <= j < i ==> !Hit(entries, tree.procs, uid, j)
    {
      var res := ProcessEntry(tree.procs, observed, uid, entries[i]);
      if res.Ok? && res.value != "" {
        assert Hit(entries, tree.procs, uid, i);
        FirstHitIs(entries, tree.procs, uid, i);
        return Ok(res.value);
      }
      assert !Hit(entries, tree.procs, uid, i);
      i := i + 1;
    }
    assert FirstHit(entries, tree.procs, uid, 0).None?;
    return Err(NamespaceNotFound);
  }

  /**
   * GetPodNSpath: the namespace found for the pod, under the host process
   * tree; fails whenever the scan fails, in particular for an empty UID.
   */
  method GetPodNSpath(tree: ProcTree, uid: string) returns (r: Result<string, NsError>)
    ensures uid == "" ==> r.Err?
    ensures r.Ok? <==> Resolve(tree, uid).Ok?
    ensures r.Err? ==> r == Resolve(tree, uid)
    ensures r.Ok? ==> r.value == HostProc + "/" + Resolve(tree, uid).value && r.value != ""
  {
    EmptyUidNeverResolves(tree);
    var found := FindNetnsForPod(tree, uid);
    if found.Err? {
      return found;
    }
    r := Ok(JoinHostProc(found.value));
  }
}
