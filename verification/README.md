# Kmesh node-local resolution: namespace resolver and TC checks, in Dafny

This project models two pieces of the Kmesh data plane's node agent. It then proves
what their callers rely on.

- **Device resolver and TC manager (`pkg/utils`)**, module `Tc` in `tc.dfy`.
  - `GetVethPeerIndexFromInterface` checks the interface before it asks the kernel
    for the veth peer. A loopback interface is refused as a "local interface". An
    interface that is not up is refused as "not up".
  - `GetVethPeerIndexFromName` resolves a name the way Go's `net.InterfaceByName`
    does. The empty name is refused outright. An unknown name is not found.
  - `IfaceContainIPs` answers whether some candidate string parses to an address
    bound to the interface. The prefix length of the bound address plays no part.
  - `ManageTCProgramByFd` accepts only mode 1 (attach) and mode 2 (detach). Any
    other mode is refused as an "invalid mode" before any kernel operation.
- **Namespace resolver (`pkg/controller/netns`)**, module `Netns` in `netns.dfy`.
  - `isNotNumber` and `isProcess` classify entries of the host process tree.
  - `processEntry` handles one entry. It adds the entry's namespace inode to a shared
    observed set, a class whose field the method updates in place.
  - `FindNetnsForPod` is a loop over the listing with a fresh observed set. It stops
    at the first process whose cgroup names the pod.
  - `GetPodNSpath` and `GetNodeNSpath` produce paths under `/host/proc`.

`results.dfy` holds the `Option` and `Result` types. `text.dfy` holds the substring
predicates. The error tests use them ("contains `not up`"), and so does the cgroup
matcher.

Model choices:

- **The kernel and the OS are parameters.**
  - The veth lookup is a map from link index to link kind and peer index.
  - The qdisc and filter operations are functions that return an optional error.
  - IP parsing and printing are functions (`parse`, `format`).
  - The process tree is a value. It holds the listing of its root, which is absent
    when the root cannot be listed. For each pid it also holds a `ProcRecord`: the
    namespace inode, absent when it cannot be read, and the cgroup text.
- **Order of the interface checks.** The program's own tests fix two cases. An
  interface with the loopback and up flags gives "local interface"
  (`pkg/utils/tc_test.go:53-62`). An interface with no flags gives "not up"
  (`pkg/utils/tc_test.go:65-74`). So the loopback check cannot depend on the up
  flag, and the model makes it first. Every loopback interface reports "local
  interface", and "not up" is promised for interfaces that are not loopback.
- **When an inode is recorded.** `processEntry` records a new inode before it reads
  the cgroup. So a later process in the same namespace is skipped without a second
  cgroup read, whether or not the first one matched.
- **Scan errors.** A `processEntry` error (unreadable namespace inode) makes the scan
  skip that entry. When nothing matches, the result is `NamespaceNotFound`.
- **The empty entry name.** The empty name contains no non-digit, so a directory with
  the empty name is a process. The model keeps this boundary behaviour.
- **Path forms.** `FindNetnsForPod` returns `path.Join(pid, "ns", "net")`, which is
  relative to the process-tree root. `path.Join` drops an empty pid, so the
  empty-named entry gives `ns/net`. `GetPodNSpath` puts `/host/proc/` in front.
- **The cgroup matcher.** `CgroupMatches(text, uid)` holds when the text contains
  `/pod<uid>` followed by a line break, a `/` or the end of the text, and the UID is
  not empty. This is the format of the fixture lines `12:pids:/kubepods/pod<uid>`.

## Model

| member | source | states |
|---|---|---|
| Tc.GetVethPeerIndexFromInterface | pkg/utils/tc_test.go:53-100 | A loopback interface fails with kind LocalInterface, and its message contains "local interface". An interface that is neither loopback nor up fails with NotUp, and its message contains "not up". Success happens exactly when the interface is up, is not loopback, and its link is a veth. The result is then that link's peer index. A missing link gives LookupFailure. A link of another kind gives NotVeth. |
| Tc.InterfaceByName | pkg/utils/tc_test.go:363-366 | Succeeds exactly when the name is non-empty and appears in the interface table. The result is the first interface with that name. Every failure is InterfaceNotFound. |
| Tc.GetVethPeerIndexFromName | pkg/utils/tc_test.go:103-106 | The empty name fails with InterfaceNotFound. A name that no interface has, such as "nonexistent999", also fails with InterfaceNotFound. The lookup succeeds exactly when the name is non-empty and the first interface with that name is up, is not loopback, and has a veth link. The result is then that link's peer index. |
| Tc.LoopbackNameRefused | pkg/utils/tc_test.go:109-114 | Looking up a non-empty name whose first interface is loopback, such as "lo", fails with LocalInterface. |
| Tc.IfaceContainIPs | pkg/utils/tc_test.go:150-182 | Never returns an error. The answer is true exactly when some candidate parses to the address part of some bound address. So an empty candidate list, an interface without addresses, and candidates not bound to the interface all give false. |
| Tc.FormattedBoundAddressFound | pkg/utils/tc_test.go:185-267 | Take the printed form of any bound address, IPv4 or IPv6. Put it anywhere in a candidate list among other strings. The answer is Ok(true), provided parsing inverts printing. |
| Tc.UnparseableCandidateIgnored | pkg/utils/tc_test.go:351-361 | Inserting an unparseable string, such as "not-an-ip", anywhere in the candidate list leaves the result unchanged. |
| Tc.ManageTCProgramByFd | pkg/utils/tc_test.go:287-306 | Any mode other than 1 or 2 fails with InvalidMode, and its message contains "invalid mode". Attach succeeds exactly when replacing the qdisc succeeds and then installing the filter succeeds. Detach succeeds exactly when removing the filter succeeds. Kernel failures are LinkOperation errors. |
| Tc.InvalidModeIndependentOfKernel | pkg/utils/tc_test.go:436-447 | For an invalid mode, the result is the same for every link, every fd and every behaviour of the kernel operations. So no kernel call decides it. |
| Netns.GetNodeNSpath | pkg/controller/netns/netns_test.go:32-39 | The node's namespace path is exactly "/host/proc/1/ns/net". |
| Netns.IsNotNumber | pkg/controller/netns/netns_test.go:111-133 | A character is "not a number" exactly when it is not one of "0123456789". |
| Netns.IsProcess | pkg/controller/netns/netns_test.go:135-175 | An entry is a process exactly when it is a directory and every character of its name is a decimal digit. So the empty name qualifies. |
| Netns.ClassificationExamples | pkg/controller/netns/netns_test.go:111-175 | '0', '5' and '9' are numbers. 'a', 'Z', '-' and ' ' are not. Directories named "1234" and "" are processes. A directory named "proc", a directory named "123abc" and a file named "1234" are not. |
| Netns.NetnsObserved.constructor | pkg/controller/netns/netns_test.go:208 | A new observed set is empty. |
| Netns.NetnsObserved.Insert | pkg/controller/netns/netns_test.go:224 | Inserting an inode adds exactly that inode to the set and nothing else. |
| Netns.ProcessEntry | pkg/controller/netns/netns_test.go:177-236 | A non-process entry gives Ok("") and leaves the set alone. A process whose namespace inode cannot be read gives Err(NetnsUnreadable). Otherwise the inode is added to the observed set. The answer is non-empty exactly when the inode was new and the cgroup names the pod. It is then the entry's namespace file. |
| Netns.Resolve | pkg/controller/netns/netns_test.go:238-276 | An unlistable root gives IOError. Otherwise the scan succeeds exactly when some entry stops it. The result is the non-empty namespace file of the first such entry, and no earlier entry stops it. With no such entry the scan gives NamespaceNotFound. |
| Netns.FindNetnsForPod | pkg/controller/netns/netns_test.go:238-276 | The loop over the listing, with a fresh observed set, returns exactly Resolve(tree, uid). |
| Netns.GetPodNSpath | pkg/controller/netns/netns_test.go:41-84 | An empty UID always fails. Success happens exactly when the scan succeeds. The path is then "/host/proc/" followed by the scan's result, so it is never empty. Failures are the scan's own. |
| Netns.EmptyUidNeverResolves | pkg/controller/netns/netns_test.go:57-63 | The scan for the empty UID fails, whatever the process tree. |
| Netns.ObservedBeforeExactly | pkg/controller/netns/netns_test.go:196-224 | After the first k entries, an inode is in the observed set exactly when some process entry before k has that readable namespace inode. |
| Netns.NewNamespaceHit | pkg/controller/netns/netns_test.go:177-276 | An entry stops the scan exactly when it is a process with a readable namespace inode that no earlier entry has, and its cgroup names the pod. |
| Netns.SharedNamespaceSkipped | pkg/controller/netns/netns_test.go:196-224 | A process entry that shares its namespace inode with an earlier process entry never stops the scan. |
| Netns.SharedNamespaceRecordedOnce | pkg/controller/netns/netns_test.go:200 | Two processes share one namespace inode. After both are handled, the observed set holds exactly that inode, once. |
| Netns.FirstMatchIgnoresLaterEntries | pkg/controller/netns/netns_test.go:264-273 | Once a listing resolves, appending entries to it does not change the result. The first match wins. |
| Netns.CgroupLineNamesOnlyItsPod | pkg/controller/netns/netns_test.go:317-319 | Take a cgroup line "12:pids:/kubepods/pod<u>" written for UID u. It names exactly UID u. |
| Netns.ScenarioFindsFirstPod | pkg/controller/netns/netns_test.go:178-194 | The two-process tree uses the fixture's pids 1234 and 5678 and its cgroup lines. It also gives the processes readable namespace inodes 1 and 2, which the fixture itself does not provide: its case at lines 212-219 expects "1234" to fail. The pod named by the first line resolves to "1234/ns/net". UIDs are valid: non-empty, with no `/` and no line break. |
| Netns.ScenarioFindsSecondPod | pkg/controller/netns/netns_test.go:178-194 | In the same tree, which adds readable inodes to the fixture's processes, with two distinct valid UIDs, the pod named by the second line resolves to "5678/ns/net". |
| Netns.ScenarioUnknownPod | pkg/controller/netns/netns_test.go:246-253 | In the same tree, which adds readable inodes to the fixture's processes, a valid UID that neither cgroup line names gives NamespaceNotFound. |

## Left out

- Real netlink qdisc and filter operations (`replaceQdisc`, filter install and removal) are function parameters. The idempotence of repeated attach and detach is a property of the kernel objects, so it is not modelled.
- The veth kind query and peer-index lookup through netlink are a map from link index to `LinkInfo`.
- Enumerating interfaces with `net.Interfaces()` and `Addrs()` is not modelled. Interfaces are given values. A failing `Addrs()` call cannot occur in the model.
- IP parsing and printing are function parameters. Addresses compare by value. Go's equality of an IPv4 address with its IPv4-in-IPv6 form is not modelled.
- Tc.GetVethPeerIndexFromInterface: an interface that is both loopback and down reports "local interface", not "not up". The loopback check comes first, so "not up" is promised only for interfaces that are not loopback.
- Error message wording: only the substrings the callers test are fixed ("local interface", "not up", "invalid mode").
- Reading `/host/proc` is not modelled. Neither is extracting an inode from `ns/net` nor the `fstest.MapFS` and temporary-directory fixtures. The process tree is a value.
- A cgroup file that cannot be read is not modelled. A `ProcRecord` always holds cgroup text, so the scan has no "skip on unreadable cgroup" branch.
- CgroupMatches: container-runtime cgroup conventions other than `/pod<uid>` (systemd slices with `_` for `-`) are not modelled.
- `builtinOrDir` and the embedded default process tree are library wrappers. Their only promised property is a non-nil result.
- Kubernetes `Pod` objects are reduced to their UID string.
- Benchmarks and concurrent callers are not modelled.
