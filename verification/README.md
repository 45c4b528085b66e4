# kluster, modelled

kluster is the operator's command line for a Kubernetes cluster on Hetzner (`tools/kluster`).
Most of what it does is a protocol over several stores that can be cut at any point and run
again, or an edit of a file that must leave the rest of the file alone. This project models
those parts and proves what they keep.

One module stands for one package or one command:

| file | what it models |
|---|---|
| `Text.dfy` | strings as Go's standard library splits, joins and trims them |
| `WgConf.dfy` | the wg-quick editor, on lines |
| `HostKey.dfy` | the pins file and the host key rotation |
| `HubPeers.dfy` | the Stages that add and remove a Worker's peer, in the hub's file and on its interface |
| `Catalog.dfy`, `Secrets.dfy`, `SecretsList.dfy`, `Rehearsal.dfy` | the secrets catalog, the planner and its writes, the listing, a rehearsal's Secrets |
| `WorkerSet.dfy` | the Worker set editor, on HCL's tokens, and address allocation |
| `Shell.dfy` | quoting for one shell and for a shell inside sudo |
| `Generations.dfy`, `Wal.dfy`, `DbCreate.dfy` | archive generations, WAL names, and db create over the repository, the buckets and the Clusters |
| `Stage.dfy` | the Stage runner |
| `Intent.dfy` | the check of a Terraform plan, the decision to apply it, and creating Workers |
| `SshGate.dfy` | opening and closing bootstrap SSH against a provider that may report anything |
| `Lifecycle.dfy` | node add, remove, replace and reset |

Where the source changes state step by step, a class has its state as fields and its methods
make the same effects in the same order; a `cut` says after how many effects the process dies.
Loops are methods proved against a function of their inputs, and the theorems are about those
functions. What a foreign service answers is a parameter, or an arbitrary value where the
claim must hold whatever it answers. Keys a run makes are parameters too, assumed new only
where a lemma says so.

Where the code does less than it seems to promise, that is stated with the exact condition and
an input or a state that shows it:

- `Set.Next` marks the addresses of a Worker through a map keyed by address, so one address for
  both pools is marked in one of them, and two Workers can get one address. It takes pools that
  overlap, which nothing refuses (`Alloc.NextKeepsIff`, `Alloc.SharedPoolCollides`).
- `node add` admits names that begin with a digit and writes them as bare keys. The readback
  refuses them all but numbers without leading zeros, and those `node remove` does not find
  (`WorkerSet.WithExact`, `WorkerSet.NamesRefused`).
- Removing a Worker takes the comments above it wherever they begin: also one behind the comma
  of the entry above, behind the brace, or at the end of that entry's line, where the readback
  refuses exactly when another entry follows (`WorkerSet.OwnNotesGo`, `WorkerSet.WithoutExact`).
- `AddPeer` compares whole `AllowedIPs` values, so an address in another peer's list is not
  seen (`HubPeers.AddHoldsOnce`, `HubPeers.AddedTwice`).
- The SSH gate looks for rules whose port is the text 22; a range that holds 22 reads as closed
  (`SshGate.ShutIff`, `SshGate.RangeUnseen`).
- A rehearsal's Secrets Stage looks for absent copies of present sources only; cut between a
  copy and its source and rerun, it leaves the two different (`Rehearsal.CutStrandsCopy`,
  `Rehearsal.ActAgreesIff`).
- A host key rotation cut between its rm and its mv leaves the new key staged and pinned; a rerun
  that dies after it cleared the staged file leaves the host no key file at all until a later
  run ends, while sshd still serves the old key (`RotateHostKey.ActDisk`,
  `RotateHostKey.CutLosesKeys`).
- The overlay check does not look at the order of the operations: with its test behind its
  replace an overlay passes, and the patch fails (`Generations.OverlayRecovers`).
- A generation bump cut between its two files looks done to its own Probe
  (`Generations.CutLooksDone`); the overlay check of the next db create is what refuses it.
- A resumed db create does not look at the buckets again, so a Cluster deleted by hand between
  its preflight and its apply is made anew; the path then gets a second writer if and only if
  it had one (`DbCreate.DeletedMidResume`, `DbCreate.WindowReached`).
- `node add` skips the join on a server that joined before, so after a replace or a removal that
  died behind the deletion of the Node it waits for a Node nobody registers. It does not
  uncordon one either (`Lifecycle.AddResumes`, `Lifecycle.DeletedNodeNoResume`). node replace
  goes on from there, except for the only Ready Worker (`Lifecycle.CrashLeadsOn`,
  `Lifecycle.DrainedIsHeld`).
- `node add` over a Node without a server names `node replace`, which names `node add`. No crash
  of either leaves that, and `node remove` is the way out (`Lifecycle.NeverStranded`,
  `Lifecycle.StaleWayOut`).

## Model

| member | source | states |
|---|---|---|
| WgConf.Sections | tools/kluster/internal/wgconf/wgconf.go:27-42 | the loop finds one section a header, each running to the next header or the end |
| WgConf.SectionIsBlock | tools/kluster/internal/wgconf/wgconf.go:27-42 | section k covers exactly the lines of the k-th block of the parsed config |
| WgConf.KeyLinePadded | tools/kluster/internal/wgconf/wgconf.go:45-55 | a `Key = value` line reads back as its lower-case key and its value, whatever space stands before, around and after them |
| WgConf.Peers | tools/kluster/internal/wgconf/wgconf.go:169-192 | the loops return the peers of the parsed config |
| WgConf.AddPeer | tools/kluster/internal/wgconf/wgconf.go:199-210 | the lines written, or a refusal over a held key or AllowedIPs value |
| WgConf.PeersAdd | tools/kluster/internal/wgconf/wgconf.go:199-210 | `Peers(AddPeer(c, p))` is `Peers(c)` and then p; it refuses exactly when a peer holds the key or the AllowedIPs value |
| WgConf.AddedText | tools/kluster/internal/wgconf/wgconf.go:199-210 | the lines are, joined, the text the source formats |
| WgConf.RemovePeer | tools/kluster/internal/wgconf/wgconf.go:214-231 | the loops cut the first section that holds the key, and the blank lines before it |
| WgConf.RemoveDropsOne | tools/kluster/internal/wgconf/wgconf.go:214-231 | exactly one peer goes; every line outside its section (which runs to the next header, comments included) and its leading blank lines stays in order |
| WgConf.RemoveAdded | tools/kluster/internal/wgconf/wgconf.go:199-231 | removing the peer just added gives the config back without its trailing blank lines, where no [Peer] section holds the key |
| WgConf.RemoveUndoesAdd | tools/kluster/internal/wgconf/wgconf.go:199-231 | so with one PublicKey line in each [Peer] section and no peer that holds the key or the AllowedIPs value, AddPeer and then RemovePeer give the config back |
| WgConf.OneKeyHolds | tools/kluster/internal/wgconf/wgconf.go:169-231 | with one PublicKey line a section, the key RemovePeer finds a section by is the key Peers reads |
| WgConf.RunKeepsDistinct | tools/kluster/internal/wgconf/wgconf.go:199-231 | over any run of adds and removes, keys and AllowedIPs values stay pairwise distinct |
| WgConf.FindHubSection | tools/kluster/internal/wgconf/wgconf.go:58-82 | the one section whose AllowedIPs route the hub, or none, or too many |
| WgConf.Hub | tools/kluster/internal/wgconf/wgconf.go:94-110 | the last PublicKey and the last Endpoint of that section |
| WgConf.SetHub | tools/kluster/internal/wgconf/wgconf.go:114-139 | the lines after the edit, or an error |
| WgConf.SetHubIff | tools/kluster/internal/wgconf/wgconf.go:58-139 | Hub succeeds if and only if exactly one section routes the hub, and SetHub if and only if that one has a PublicKey line |
| WgConf.HubAfterSetHub | tools/kluster/internal/wgconf/wgconf.go:94-139 | `Hub` after `SetHub` is what was set, and `SetHub` twice is `SetHub` once |
| WgConf.SetHubChanges | tools/kluster/internal/wgconf/wgconf.go:114-139 | only the last PublicKey and Endpoint lines of the hub section change, or one Endpoint line is put in after the key |
| WgConf.SetHubKeepsPeers | tools/kluster/internal/wgconf/wgconf.go:114-192 | every other peer stays, and the hub changes in its key alone |
| HostPins.Pins.Rewrite | tools/kluster/internal/hostkey/pins.go:80-106 | the other lines stay in order and the given keys are pinned last at the address |
| HostPins.RewrittenPins | tools/kluster/internal/hostkey/pins.go:63-106 | what a rewrite leaves pinned at its address and at every other |
| HostPins.Pins.Set | tools/kluster/internal/hostkey/pins.go:64-66 | the address has exactly these pins |
| HostPins.Pins.Add | tools/kluster/internal/hostkey/pins.go:70-72 | the address has one pin more, last |
| HostPins.Pins.Remove | tools/kluster/internal/hostkey/pins.go:76-78 | the address has no pin, every other line stays |
| HostPins.Pins.Has | tools/kluster/internal/hostkey/pins.go:110-122 | true exactly when the address has a pin |
| HostPins.Pins.Last | tools/kluster/internal/hostkey/pins.go:127-147 | the last pin of the address in file order |
| RotateHostKey.Finish | tools/kluster/internal/stages/hostkey.go:137-151 | the effects of finishPin in order, cut anywhere |
| RotateHostKey.Rotate | tools/kluster/internal/stages/hostkey.go:98-128 | the effects of Act in order, cut anywhere |
| RotateHostKey.Attempt | tools/kluster/internal/stages/hostkey.go:63-128 | one run: the login by the pins, Probe, and the effects of Act when it is not done, cut anywhere |
| RotateHostKey.ActKeeps | tools/kluster/internal/stages/hostkey.go:98-151 | each state of a call keeps the invariant and every other address |
| RotateHostKey.RunsKeep | tools/kluster/internal/stages/hostkey.go:63-151 | in every run, cut anywhere and rerun, the served key is pinned, and so is the key on the disk; the marker means that the last pin is served, is the key on the disk and is not the seeded one |
| RotateHostKey.ActDisk | tools/kluster/internal/stages/hostkey.go:98-128 | a call cut anywhere leaves no key on the disk if and only if it is cut between its rm and its mv, or before its rm over a disk without one; cut between them, the staged key is the new one and the last pin |
| RotateHostKey.DiskKept | tools/kluster/internal/stages/hostkey.go:25-38 | over every run without a cut between rm and mv the disk has a key |
| RotateHostKey.CutLosesKeys | tools/kluster/internal/stages/hostkey.go:98-128 | a rotation cut between its rm and its mv, and a rerun cut after its first effect, leave the host without any key file, installed or staged, while the seeded key is served |
| RotateHostKey.RunsKeepOthers | tools/kluster/internal/hostkey/pins.go:63-106 | no run changes the pins of another address |
| RotateHostKey.RerunCompletes | tools/kluster/internal/stages/hostkey.go:98-151 | from every state a run can leave, an uncut rerun ends done |
| RotateHostKey.DoneMeans | tools/kluster/internal/stages/hostkey.go:63-81 | a done Probe means that the served key is the one pin, the key on the disk, and not the seeded key |
| RotateHostKey.DoneStays | tools/kluster/internal/stages/hostkey.go:63-81 | a rerun over a done rotation changes nothing |
| RotateHostKey.InstallFirstStrands | tools/kluster/internal/stages/hostkey.go:98-128 | an Act that installed before it pinned, cut after its restart, would leave a host no later run can reach |
| HubPeers.FilePeer | tools/kluster/internal/stages/worker_remove.go:152-173 | the one file peer that lists the address, none, or a refusal |
| HubPeers.Hub.AddPeerStage | tools/kluster/internal/stages/worker_wireguard.go:111-153 | the file first, then the live interface, cut anywhere |
| HubPeers.Hub.RemovePeerStage | tools/kluster/internal/stages/worker_remove.go:209-304 | the file first, then the live interface, cut anywhere |
| HubPeers.AddStageKeeps | tools/kluster/internal/stages/worker_wireguard.go:109-153 | unless a peer of several addresses lists the new one: a finished HubPeer leaves file and live interface agreeing and every other peer and route alone; a refused one changes nothing |
| HubPeers.AddStageIff | tools/kluster/internal/stages/worker_wireguard.go:109-153 | HubPeer succeeds if and only if the file holds this very peer, or no peer of it has its key or lists its address |
| HubPeers.RemoveStageKeeps | tools/kluster/internal/stages/worker_remove.go:149-304 | HubPeerRemove refuses exactly when a peer of several addresses lists this one, and changes nothing; finished, it takes exactly the address out of both and leaves every other peer and route alone |
| HubPeers.RemoveStageIff | tools/kluster/internal/stages/worker_remove.go:149-304 | whatever the live interface holds, HubPeerRemove goes on if and only if no peer of several addresses lists this one and the interface routes it to the key the file has, or to none; refused, it changes nothing |
| HubPeers.AddRerun | tools/kluster/internal/stages/worker_wireguard.go:137-153 | a cut HubPeer, run again, ends as the uncut one |
| HubPeers.RemoveRerun | tools/kluster/internal/stages/worker_remove.go:282-304 | a cut HubPeerRemove, run again, ends as the uncut one |
| HubPeers.RunKeeps | tools/kluster/internal/stages/worker_remove.go:149-304 | over any run of both Stages, each cut one rerun, whose added addresses no peer of several addresses lists, no key and no address is in two sections, file and interface agree, and the peers of several addresses stay |
| HubPeers.SkippedAgrees | tools/kluster/internal/stages/worker_wireguard.go:98-107 | a HubPeer whose live check passes is in the file too |
| HubPeers.AddHoldsOnce | tools/kluster/internal/wgconf/wgconf.go:199-210 | AddPeer compares whole AllowedIPs values: the added address is held once if and only if no peer listed it before, alone or among others |
| HubPeers.AddedTwice | tools/kluster/internal/wgconf/wgconf.go:199-210 | over a peer of the addresses a and b, AddPeer accepts a second peer of b, and HubPeerRemove refuses b from there on |
| Catalog.RenderInjective | tools/kluster/internal/catalog/key.go:81-86 | two values that render alike are one value |
| Catalog.CopiesOf | tools/kluster/internal/catalog/catalog.go:172-183 | exactly the keys that copy the source |
| Catalog.Validate | tools/kluster/internal/catalog/catalog.go:215-279 | no error exactly when each copy names a generated or issued key of the catalog and its format holds the placeholder once; then the catalog is valid for the planner |
| Catalog.ValidIsAccepted | tools/kluster/internal/catalog/catalog.go:215-279 | such a catalog is always accepted |
| Secrets.Build | tools/kluster/internal/secrets/plan.go:264-329 | the two passes of the loop give every file the plan of its final values |
| Secrets.Compare | tools/kluster/internal/secrets/plan.go:295-340 | the changes between the old and the new values, uncatalogued keys removed, and what is missing |
| Secrets.Generate | tools/kluster/internal/secrets/plan.go:87-110 | plans a value for each generated key that has none |
| Secrets.Resolve | tools/kluster/internal/secrets/plan.go:199-231 | the wanted keys, or why a reference is refused; without a reference, every key of the kind |
| Secrets.Rotate | tools/kluster/internal/secrets/plan.go:115-133 | plans new values for the resolved keys, and without a reference for every generated key |
| Secrets.Pull | tools/kluster/internal/secrets/plan.go:137-177 | plans the vault values of the resolved keys, without a reference of every issued one, or nothing when a read fails or is empty; Set is Pull of one key with a given value |
| Secrets.Store.Write | tools/kluster/internal/secrets/plan.go:180-190 | the files of the plan, one after another, cut anywhere |
| Secrets.WriteSettles | tools/kluster/internal/secrets/plan.go:264-329 | from any files, a completed Write of any plan leaves every copy equal to its rendered source, every literal as catalogued and no uncatalogued key, and drops no catalogued value |
| Secrets.GenerateSettles | tools/kluster/internal/secrets/plan.go:87-110 | a written Generate settles whatever files there were |
| Secrets.GenerateIdempotent | tools/kluster/internal/secrets/plan.go:87-110 | from settled files Generate plans no change |
| Secrets.CutRepaired | tools/kluster/internal/secrets/plan.go:180-190 | a Write of any plan cut between two files is repaired by the next Generate and Write, every source keeping what the cut left it |
| Secrets.RotateChangesExactly | tools/kluster/internal/secrets/plan.go:115-133 | from settled files, new values change exactly their keys and the copies of them |
| SecretsList.List | tools/kluster/internal/secrets/list.go:45-141 | the rows of every catalogued and every uncatalogued key, without a vault |
| SecretsList.StateMeans | tools/kluster/internal/secrets/list.go:45-141 | each of the five states said of what is held and of what the next Generate plans: StaleCopy exactly where Generate changes a held copy of a held source |
| SecretsList.ListAgreesWithGenerate | tools/kluster/internal/secrets/list.go:45-141 | List shows only Present and NotComparedBW rows if and only if Generate plans no change and nothing is missing |
| Rehearsal.Fresh | tools/kluster/internal/secrets/fresh.go:17-71 | succeeds exactly when every value can be made, and then every copy is its rendered source |
| Rehearsal.FreshSecrets | tools/kluster/internal/coreset/check.go:69-77 | the loop gathers the fresh entries |
| Rehearsal.FreshOfIs | tools/kluster/internal/coreset/check.go:69-77 | they are exactly the entries of the listed namespaces without an omit, in the order of the catalog |
| Rehearsal.CheckRehearsal | tools/kluster/internal/coreset/check.go:84-125 | no error exactly when each key of a fresh entry can be made in a rehearsal, each copy has its source among the made entries, and no omit stands on an entry outside the namespaces |
| Rehearsal.FreshIffChecked | tools/kluster/internal/coreset/check.go:84-125 | Fresh makes every entry if and only if the check passes and the vault gives every item it is asked for |
| Rehearsal.ActAgrees | tools/kluster/internal/seed/stages.go:92-180 | a completed Act leaves every copy agreeing with its source when no present entry copies an absent one |
| Rehearsal.ActAgreesIff | tools/kluster/internal/seed/stages.go:131-180 | over newly made values that condition is exact |
| Rehearsal.CutStrandsCopy | tools/kluster/internal/seed/stages.go:163-180 | an Act cut after a copy and before its source, then rerun, leaves the two different |
| WorkerSet.EntrySpan | tools/kluster/internal/workerset/workerset.go:242-288 | the loops find the first entry of the name at a line start of the top level, and its value end |
| WorkerSet.SpanFound | tools/kluster/internal/workerset/workerset.go:242-321 | in an object of one entry a line, with any bracket nesting in values, the span found is the entry of that name, bare or quoted, and the comment tokens directly above it |
| WorkerSet.ParseObject | tools/kluster/internal/workerset/workerset.go:56-111 | an object reads as a set of Workers if and only if its items declare exactly those and it does not begin with the word for |
| WorkerSet.Without | tools/kluster/internal/workerset/workerset.go:184-200 | the tokens left, or why the edit is refused |
| WorkerSet.With | tools/kluster/internal/workerset/workerset.go:146-180 | the tokens with the entry last, or why the edit is refused |
| WorkerSet.WithoutExact | tools/kluster/internal/workerset/workerset.go:184-321 | Without does not find an entry whose name is written as a number; over every other it leaves the tokens around the entry and the comments above it, and its readback refuses if and only if the entry above ends in a comment and another entry follows, or the entry left first has the bare key for |
| WorkerSet.OwnNotesGo | tools/kluster/internal/workerset/workerset.go:182-260 | what is left is the file without the entry and the comments on lines of their own directly above it if and only if those comments begin after a line end; otherwise one comment more is gone |
| WorkerSet.TakesNoteBehindComma | tools/kluster/internal/workerset/workerset.go:257-260 | in `a = {...}, # about a` over b, removing b takes the comment about a |
| WorkerSet.TakesNoteBehindBrace | tools/kluster/internal/workerset/workerset.go:257-260 | in `{ # the set` over a, removing a takes the comment about the set |
| WorkerSet.LeavesForFirst | tools/kluster/internal/workerset/workerset.go:184-233 | removing the entry above a Worker named for leaves that word first, and the readback refuses |
| WorkerSet.WithExact | tools/kluster/internal/workerset/workerset.go:146-233 | for a name checkWorkerName admits, the readback accepts With if and only if the name is an identifier or a number without leading zeros, and not the word for in an empty set; then the Workers are the old ones and the new, and the entry is the only change |
| WorkerSet.NamesRefused | tools/kluster/cmd/node_add.go:60-72 | 1worker and 007 are refused by the readback over any file and for over an empty one; 7 is added, and Without does not find it |
| WorkerSet.WithThenWithout | tools/kluster/internal/workerset/workerset.go:146-200 | With then Without gives the tokens back up to one line end before the brace, but for a name that is a number, which Without does not find |
| Alloc.Lowest | tools/kluster/internal/workerset/alloc.go:33-40 | the lowest free address of the pool, or none when all are taken |
| Alloc.Next | tools/kluster/internal/workerset/alloc.go:45-72 | the lowest address of each pool that is not marked, reserved VPN addresses skipped; a Worker with one address for both is marked in one of the two pools, as its map literal keeps it |
| Alloc.NextKeepsIff | tools/kluster/internal/workerset/alloc.go:45-72 | Next keeps addresses distinct if and only if neither pool offers first an address that such a Worker holds unmarked |
| Alloc.RunKeepsApart | tools/kluster/internal/workerset/alloc.go:45-72 | where the pools share no unreserved address and no Worker begins with one address for both, addresses stay pairwise distinct and unreserved over any run of adds and removes |
| Alloc.SharedPoolCollides | tools/kluster/internal/workerset/alloc.go:51-53 | with both pools 1 to 3, two adds to an empty set give two Workers one private address or one VPN address, whichever entry the map keeps |
| Shell.JoinQuoted | tools/kluster/internal/local/local.go:177 | POSIX word splitting of quoted arguments joined by blanks gives the arguments, for every list without NUL |
| Shell.KubectlCommand | tools/kluster/internal/kube/kube.go:25-31 | the command splits into the assignment, kubectl and exactly the arguments |
| Shell.WrapWords | tools/kluster/internal/remote/ssh.go:270-279 | the login shell hands sudo the command unchanged |
| Shell.ThroughSudo | tools/kluster/internal/remote/ssh.go:270-279 | the arguments survive both quoting levels |
| Generations.ParsePrints | tools/kluster/internal/pgcluster/pgcluster.go:45-62 | a string parses as generation g if and only if it is the name of g, 1 to the largest int |
| Generations.NamesDiffer | tools/kluster/internal/pgcluster/pgcluster.go:60-62 | two generations never share a name |
| Generations.ReplacePieces | tools/kluster/internal/pgcluster/pgcluster.go:311-313 | one ReplaceAll of a quoted name replaces closed pieces between quotes and nothing else |
| Generations.BumpedMoves | tools/kluster/internal/pgcluster/pgcluster.go:309-313 | the two ReplaceAll calls in that order are one simultaneous renaming of the strings |
| Generations.CheckOverlay | tools/kluster/internal/pgcluster/pgcluster.go:143-215 | no error exactly when every operation is right and one of each is there |
| Generations.OverlayRecovers | tools/kluster/internal/pgcluster/pgcluster.go:140-215 | applied to the Cluster of generation g, an overlay that passes at g makes one that reads g through the source store and archives to the next generation, but where it tests behind its replace, which the check does not see and the patch fails over |
| Generations.OverlayExact | tools/kluster/internal/pgcluster/pgcluster.go:140-215 | with one operation of each kind, tests first, the check passes if and only if the patch does that |
| Generations.OverlayMoves | tools/kluster/internal/pgcluster/pgcluster.go:143-215 | an overlay right at g is right at the next generation once renamed |
| Generations.Repository.Bump | tools/kluster/internal/pgcluster/pgcluster.go:289-327 | the two files in order, cut anywhere, and its own check last |
| Generations.BumpMoves | tools/kluster/internal/pgcluster/pgcluster.go:289-327 | a Bump that ends passes its own check at g+1 if and only if g is not the largest int; it changes the serverName line and the names of g and g+1, nothing else |
| Generations.BumpRefusesIff | tools/kluster/internal/pgcluster/pgcluster.go:289-303 | Bump refuses, with nothing written, if and only if there is no current generation or not exactly one line ends in its serverName |
| Generations.CutLooksDone | tools/kluster/internal/db/stages.go:718-737 | a Bump cut between its files always looks done to its Probe while the overlay check fails |
| Wal.HexOrder | tools/kluster/internal/db/wal.go:16-20 | on upper-case hex of one width, string order is numeric order |
| Wal.ParsesSegment | tools/kluster/internal/db/wal.go:43-58 | every printed segment name gives back its timeline and position |
| Wal.ParsesHistory | tools/kluster/internal/db/wal.go:43-58 | every history file gives back its timeline |
| Wal.ReadWals | tools/kluster/internal/db/wal.go:66-83 | exactly the full segments and the opened timelines |
| Wal.Newest | tools/kluster/internal/db/wal.go:86-94 | a segment at the highest position, in any listing order |
| Wal.LatestTimeline | tools/kluster/internal/db/wal.go:97-103 | the highest timeline a history opens, at least 1 |
| Wal.LowestTimeline | tools/kluster/internal/db/wal.go:107-115 | what the loop holds at its end |
| Wal.LowestIff | tools/kluster/internal/db/wal.go:107-115 | the loop finds the minimum if and only if no segment has timeline 0 |
| Wal.LowestByOrder | tools/kluster/internal/db/wal.go:107-115 | with a timeline 0 the answer depends on the listing order |
| Wal.FirstOn | tools/kluster/internal/db/wal.go:118-126 | the lowest segment of one timeline, in any listing order |
| Wal.FreshProbe | tools/kluster/internal/db/stages.go:323-333 | done on a fresh Cluster exactly when a segment is there |
| Wal.ArchiveProbe | tools/kluster/internal/db/stages.go:334-367 | on a recovery not yet exactly while no timeline history or no segment is there; then the first segment of the lowest timeline decides: done means it is at or after the end of the source WAL, a refusal that it is before |
| DbCreate.NewestOf | tools/kluster/internal/db/stages.go:194-206 | the newest generation among the prefixes |
| DbCreate.CheckPreflight | tools/kluster/internal/db/stages.go:138-235 | passes exactly over its own render or over an empty slot with the buckets in order: the segment of a recovery and the lock of a live one with them |
| DbCreate.StartIff | tools/kluster/internal/db/stages.go:138-235 | over a committed, sound tree and no live run or Cluster, a fresh live create starts if and only if nothing is archived, and a live recovery if and only if the committed generation is the newest, holds a segment, and the next one is locked |
| DbCreate.RehearsalIff | tools/kluster/internal/db/stages.go:138-235 | a rehearsal starts into an empty slot if and only if its own path is empty and, for a recovery, the committed generation is the newest live one and holds a segment; no lock is asked for |
| DbCreate.ResumeIff | tools/kluster/internal/db/stages.go:138-153 | over a Cluster, whatever the buckets hold, a run starts if and only if it is of that Cluster's own render, and it makes none |
| DbCreate.Desk.Begin | tools/kluster/cmd/db.go:92-126 | the gates and the preflight start a run exactly when that step exists |
| DbCreate.Desk.ApplyCluster | tools/kluster/internal/db/plan.go:86-91 | the Cluster is made once and otherwise resumed |
| DbCreate.Desk.BumpStage | tools/kluster/internal/db/stages.go:718-737 | the generation is bumped once, or the step is cut |
| DbCreate.StepKeeps | tools/kluster/internal/db/stages.go:138-235 | every step of kluster, a Cluster or the operator keeps the archive invariant |
| DbCreate.ArchivesSafe | tools/kluster/internal/db/plan.go:86-98 | at every moment of every run no archive path has two writers, no recovery writes the generation it reads, and the newest live generation is the committed one or its successor |
| DbCreate.RecoveriesFounded | tools/kluster/internal/db/stages.go:166-235 | in every run from nothing, every recovered Cluster reads a generation that holds a segment, and the archive path of a live one is under a lock rule |
| DbCreate.CutBumpBlocks | tools/kluster/internal/db/plan.go:60-98 | after a bump cut between its files no db create starts before the tree is mended or reverted |
| DbCreate.RecoversAgain | tools/kluster/internal/db/stages.go:194-235 | behind a live recovery whose Cluster archived a segment, the bump, its commit, the end of the run, the Cluster deleted by hand and a new lock lead to a state in which the next recovery starts |
| DbCreate.NoneStarts | tools/kluster/internal/db/stages.go:194-211 | with the successor archived and not committed, no db create starts over an empty slot |
| DbCreate.DeletedMidResume | tools/kluster/internal/db/stages.go:143-153 | a Cluster deleted by hand between a resumed preflight and the apply is made again, and its first object is the path's second writer if and only if the path had a writer |
| DbCreate.WindowReached | tools/kluster/internal/db/stages.go:143-153 | a run from an empty project that reaches such a window: create, archive, cut, and begin again |
| Stage.Host.RunStages | tools/kluster/internal/stage/stage.go:65-97 | the loop is the run, call by call |
| Stage.DoneAtTurn | tools/kluster/internal/stage/stage.go:65-97 | nil under apply if and only if each Stage was done at its turn |
| Stage.AllDone | tools/kluster/internal/stage/stage.go:65-97 | when no Act undoes an earlier Stage, all Stages passed are done at the end |
| Stage.NilThenIdle | tools/kluster/internal/stage/stage.go:65-97 | after nil a rerun acts not at all |
| Stage.CutRunResumes | tools/kluster/internal/stage/stage.go:65-97 | a cut run resumes behind the Stages it got past |
| Stage.PlanIdle | tools/kluster/internal/stage/stage.go:65-97 | Plan Mode changes nothing |
| Stage.RunAllAlone | tools/kluster/internal/stage/stage.go:117-124 | in every interleaving and failure each host ends as Run alone leaves it, and RunAll returns nil if and only if each run does |
| Intent.Changes | tools/kluster/internal/intent/intent.go:69-102 | exactly the real changes, and an error over any unknown action set |
| Intent.StarMatches | tools/kluster/internal/intent/intent.go:133-136 | a star is any run of characters without a line end |
| Intent.PlainMatches | tools/kluster/internal/intent/intent.go:133-136 | a pattern without a star matches itself alone |
| Intent.Check | tools/kluster/internal/intent/intent.go:105-131 | empty if and only if every change is allowed and every required one met; each mismatch is a true one |
| Intent.WorkerOfAddress | tools/kluster/internal/provision/workers.go:26-143 | the regular expression gives back the name an address was made from, and no other |
| Intent.OneAdmits | tools/kluster/internal/provision/workers.go:83-90 | for a DNS-label name the Intent admits exactly the plans whose changes are all that action on that server, at least one |
| Intent.Decide | tools/kluster/internal/tf/tf.go:199-240 | an apply is reached only under --apply, with changes, and with the Intent satisfied unless unexpected ones are allowed |
| Provision.CreateWorkers | tools/kluster/internal/provision/workers.go:36-73 | applies exactly under --apply, when the first plan creates the wanted set and the second has changes and is admitted, or unexpected ones are allowed; says nothing is to do exactly when the decision kept the plan; and ends created if and only if the apply succeeded and every new name has an address, each then pinned; else the names before the first without one are |
| Provision.SortInOrder | tools/kluster/internal/provision/workers.go:45-49 | the names are taken in order, so the ones pinned before a stop are the first by name |
| Provision.CreatesAdmit | tools/kluster/internal/provision/workers.go:51-66 | the creates Intent admits exactly plans that create each of the names and nothing else |
| Provision.PinCreated | tools/kluster/internal/provision/workers.go:160-178 | pins the named servers up to the first without an address, and ends created if and only if there is none |
| Provision.PinnedOthers | tools/kluster/internal/provision/workers.go:160-178 | the seeded key is the one pin of each created address, and other addresses stay |
| SshGate.WithoutSsh | tools/kluster/internal/cloud/firewall.go:22-30 | every rule but the SSH rules, in order |
| SshGate.OthersInOrder | tools/kluster/internal/cloud/firewall.go:22-30 | each other rule stays between its neighbours |
| SshGate.Cloud.SshOpen | tools/kluster/internal/cloud/firewall.go:35-49 | whether the firewall has an inbound TCP rule whose port is the text 22 |
| SshGate.Cloud.ClearSsh | tools/kluster/internal/cloud/firewall.go:54-67 | the firewall keeps its other rules |
| SshGate.OpenGate | tools/kluster/internal/sshgate/sshgate.go:66-104 | nil after an apply means each named firewall was read back with a rule for port 22; with the known fault alone, SSH rules all that differs and the other firewall as the Module wants it, it is nil |
| SshGate.ShutIff | tools/kluster/internal/cloud/firewall.go:13-49 | port 22 is shut if and only if the firewalls read as closed and no rule admits it in other words, as a range that holds it |
| SshGate.RangeUnseen | tools/kluster/internal/cloud/firewall.go:13-30 | a rule for 20-25 admits port 22, reads as closed and is not cleared |
| SshGate.Close | tools/kluster/internal/sshgate/sshgate.go:108-164 | whatever the provider did, nil means no firewall has a rule for port 22, port 22 is then shut if and only if no rule's range holds it, and under --apply the last plan was clean; under the one-rule-to-none fault nil leaves the Module's own rules, and it does succeed where SSH rules are all that differs |
| SshGate.WithBootstrapSsh | tools/kluster/cmd/node_add.go:167-189 | nil only in the closed state, shut but for such a range, whatever the body did; with the known fault alone and SSH rules all that comes and goes, every return behind the gate leaves the Module's own rules, after a failed open or body too, and where the firewall that stays closed was closed it is nil if and only if the body ends well |
| Lifecycle.DatabaseGate | tools/kluster/cmd/node_replace.go:188-205 | passes exactly when every database is healthy |
| Lifecycle.NotLastReadyWorker | tools/kluster/cmd/node_replace.go:210-225 | refuses exactly the only Ready Worker |
| Lifecycle.AcceptsIff | tools/kluster/cmd/node_replace.go:103-225 | a replace is accepted if and only if the server is there, its address is not reserved, the plan is exactly its one replace, the databases are healthy, and another Worker is Ready or this one is not |
| Lifecycle.WaitDatabases | tools/kluster/cmd/node_replace.go:228-251 | succeeds exactly when the gate passed at some poll |
| Lifecycle.Operator.Replace | tools/kluster/cmd/node_replace.go:103-159 | without --allow-unexpected a plan that is not exactly its one replace changes nothing; an accepted replace makes its effects in order up to the cut |
| Lifecycle.Operator.Add | tools/kluster/cmd/node_add.go:75-217 | in Plan Mode nothing; else the refusals, each named, and the effects in order up to the cut |
| Lifecycle.Operator.Retire | tools/kluster/cmd/node_remove.go:80-162 | run 1 of node remove: the gates, then its effects up to the cut; the entry is said to be gone exactly when the run was not cut |
| Lifecycle.Operator.Delete | tools/kluster/cmd/node_remove.go:168-219 | run 2 of node remove: refused over a Node and over any plan but the one delete; the server is said to be gone exactly when the run was not cut |
| Lifecycle.ReplaceEnds | tools/kluster/cmd/node_replace.go:103-143 | a replace run through ends with the Worker joined and pinned on the new server and no pin left at the old address, whatever was there |
| Lifecycle.AddEnds | tools/kluster/cmd/node_add.go:193-550 | an add run through over nothing ends joined and pinned; over a server it ends without an error if and only if it can log in and the Node is there or the server never joined, and joined if and only if besides the Node is not cordoned |
| Lifecycle.RemoveEnds | tools/kluster/cmd/node_remove.go:80-208 | both runs of a removal leave nothing of the Worker |
| Lifecycle.CutsStaySound | tools/kluster/cmd/node_replace.go:95-143 | any number of replaces and adds, each cut after any effect, leave a sound state |
| Lifecycle.OwnCrashesLeadOn | tools/kluster/cmd/node_replace.go:95-143 | while only kluster changes Nodes: from a state in which a replace of the Worker, or an add of it without a server, is accepted, and every other declared Worker has its server, after any number of replaces and adds each cut before its end, with the databases healthy again and Terraform planning the one replace, the command for what is there is accepted and ends joined and pinned |
| Lifecycle.CrashLeadsOn | tools/kluster/cmd/node_replace.go:95-225 | whatever Nodes turn Ready or not as well: from every sound state, after any such crashes, node replace or node add is accepted and ends joined and pinned if and only if the Worker is not held: the only Ready one, with its Node cordoned or its server out of reach; where every Node could be reached at the start, cordoned |
| Lifecycle.DrainedIsHeld | tools/kluster/cmd/node_replace.go:207-225 | the only Worker, not Ready, drained by a replace that dies there, whose Node then turns Ready: node replace refuses, and node add ends without an error and leaves the Node cordoned |
| Lifecycle.AmidIsBetween | tools/kluster/internal/stages/worker_join.go:132-150 | Nodes that turn Ready or not in the middle of a command leave what the command and then such a change leave |
| Lifecycle.AddResumes | tools/kluster/cmd/node_add.go:117-142 | node add over a server it can log in to is accepted, and ends joined on that server if and only if the Node is there and not cordoned, or there is none and the server never joined |
| Lifecycle.DeletedNodeNoResume | tools/kluster/internal/stages/worker_join.go:45-54 | a joined Worker whose replace or removal dies after it deleted the Node: node add takes its server for one to resume, skips the join and ends waiting for a Node nobody registers |
| Lifecycle.RemoveCutSound | tools/kluster/cmd/node_remove.go:80-208 | either run of a removal cut anywhere leaves a sound state |
| Lifecycle.AfterOthers | tools/kluster/cmd/node_replace.go:103-159 | no effect of a Worker touches another Worker |
| Lifecycle.NeverStranded | tools/kluster/cmd/node_add.go:117-142 | no crash of a replace or an add, and no Node turning Ready or not, leaves a Node without a server; with all else in order that, and the only Ready Worker without a pin, are exactly where neither command is accepted |
| Lifecycle.StaleWayOut | tools/kluster/cmd/node_remove.go:80-162 | run 1 of node remove deletes a Node without a server, and node add of the name is then accepted and ends joined |
| Lifecycle.ReachedCut | tools/kluster/cmd/reset.go:69-85 | any cut of the i-th replacement leaves the Workers before it replaced and those after it untouched |
| Lifecycle.Reset | tools/kluster/cmd/reset.go:39-99 | at every step those before are replaced, those after untouched and another Worker is Ready; no Worker is touched before the databases were healthy; it stops at the first Worker whose turn does not go, with exactly that partition, and ends with every Worker replaced if and only if all go |
| Lifecycle.GoesIs | tools/kluster/cmd/reset.go:69-85 | a turn goes if and only if the databases are healthy, and for each turn after the first were seen healthy at a poll, its plan is exact, its address is not reserved, another Worker is Ready from the start, and its cut lets the replacement end |

## Left out

- Hetzner, Cloudflare, R2, Bitwarden, kubectl, kustomize, SSH sessions and WireGuard itself: foreign services, present as state that is read and written or as answers a method is given.
- YAML, JSON, HCL and known_hosts lexing, base64 and netip: library code. The models start from lines, tokens, parsed operations and numbers.
- `WgConf.FindHubSection`: which AllowedIPs hold the hub's address is a parameter, because the prefix test is netip's.
- `HostPins.Pins.Rewrite`: a pin is an address and a key; a known_hosts line with several hosts is not modelled, since kluster writes none.
- `RotateHostKey.Rotate`: a reboot of the host in the middle of a rotation, and files half written on it, are not modelled.
- `Catalog.Validate`: the checks of file names, key names, lengths and a kind's fields are left out; they touch one key at a time.
- `Catalog.CopiesOf`: the order of the copies is not modelled.
- `Secrets.Build`: the order of the changes in a plan and the reasons printed with them are not modelled; the changes of a file are a map.
- `Secrets.Pull`: a run without a vault is one whose every read fails; the code refuses it also where there is no issued key.
- `SecretsList.List`: the comparison with a vault is not modelled, and rows are a set.
- `WorkerSet.SpanFound`: block comments on lines of their own and comments inside values are not modelled; the first are kept by Without, the second are part of a value.
- `WorkerSet.With`: HCL's rendering of the new Worker is a parameter that its reader gives back; hclwrite's formatting changes no token and is left out. The scanner is modelled on the name alone, for the names checkWorkerName admits; a key that is a longer expression is read as none, since its value is never that name.
- `Alloc.Next`: addresses are IPv4 numbers, which have one text each; a pool of IPv6 or of mixed addresses is not modelled.
- `HubPeers.SkippedAgrees`: the two checks of the Probe are shell text; the lemma takes the live one.
- `Shell.JoinQuoted`: the shell's reading covers single quotes, the backslash and blanks; other special characters outside quotes have no reading here, and kluster quotes them.
- `Generations.BumpMoves`: recover.json is read as strings by their place in the text, without escapes; pg-cluster.yaml as lines whose serverName ends its line.
- `Wal.LowestTimeline`: states the loop itself, because the minimum holds only without timeline 0; `Wal.LowestIff` states exactly when.
- `Generations.OverlayRecovers`: an operation outside the four the check reads is one that leaves what those write alone, by its path; whether the patch finds the other paths it names is not modelled.
- `DbCreate.ArchivesSafe`: one db create at a time in each environment, and only commits of what the working tree holds; a Cluster deleted by hand in the window `DbCreate.DeletedMidResume` describes is outside it.
- `DbCreate.RecoveriesFounded`: lock rules are only added; taking one away is no step.
- The checks of the operator, the plugin, the Secrets and the ObjectStores before a Cluster is made, and the Stages for health, the marker, replication, switchover and backups: single readings that add only easy members.
- `Stage.RunAllAlone`: which of several errors RunAll returns is not modelled, only whether it returns one.
- `Intent.Changes`: the sort by address is left out, since Check does not depend on the order.
- `Intent.WorkerOfAddress`: names are strings that Go's %q leaves as they are; others are not Worker names.
- `Provision.PinCreated`: an address that is empty counts as none.
- `SshGate.Close`: nobody else changes a firewall while a close runs; a rule's sources are not looked at.
- `Lifecycle.Operator.Replace`: what an apply does to servers when a plan that does not match is allowed is arbitrary, and nothing is claimed after it.
- `Lifecycle.Operator.Retire`: a project without a Control Plane, where nothing is gated and no Node and no peer is there to remove, is not modelled.
- `Lifecycle.Operator.Add`: the create plan is taken to create each declared Worker without a server; its check is `Provision.CreateWorkers`.
- `Lifecycle.CrashLeadsOn`: the waits succeed, so a Node that is there turns Ready in its wait; the join is one effect, so a crash between kubelet.conf and the Node it registers is not modelled; and Terraform plans the one replace it is asked for; the host key rotation, the hub peer and the Worker set edit inside a run are proved in their own modules.
- `Lifecycle.Reset`: states a Reset under --apply without --allow-unexpected; in Plan Mode `Lifecycle.Operator.Replace` changes nothing, and with unexpected changes allowed nothing is claimed. A kubelet that registers a deleted Node again is not modelled; only kluster changes Nodes.
- The commit gates, the Worker set's file mode and the preview of every change: git, the file system and the user interface.
- cp init, kluster up and down, laptop kubeconfigs, tunnels, zone and lock-rule files, and the shell scripts inside the Stages: other commands, or shell text.
