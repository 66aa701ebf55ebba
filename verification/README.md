# YFS in Dafny

YFS is a small distributed file system: clients cache locks and file contents, a
lock server hands the locks round, and an extent server keeps the files on a disk
of blocks and inodes. This project models its four cores and two helpers and proves
what they are for.

`dafny verify dfyconfig.toml` checks everything.

## What is modelled

Each stretch of source code is a function on the record that the code works on.
Where the source changes an object in place, a class runs the same code on fields,
arrays and loops, and its methods are proved equal to those functions. The theorems
are about the functions and about runs that are made of them.

| file | what it holds |
|---|---|
| `LockClientCache`, `LockServerCache`, `LockServer`, `ExtentClient` | the client and server of the caching lock, the simple lock server, the write-back cache |
| `LockProtocol` | the protocol for one lock id and the extent of that id: any number of clients and threads, one step per stretch under a mutex, RPCs and callbacks under way in any order |
| `LockInvariant`, `LockSteps` | the inductive invariant and the proof that every step keeps it |
| `LockTheorems`, `LockRefinement`, `LockProgress`, `LockHolds` | coherence, exclusion, nothing lost, refinement of the simple lock, queue order, no deadlock and no endless chatter, no lost update |
| `UnaskedWakeup`, `WakeupHarmless`, `TwoAskers`, `WakeupBreaks`, `SpuriousWakeup` | exactly when an unasked wakeup can cost exclusion |
| `BlindPut` | what a put without a get before it can lose |
| `Bytes`, `InodeLayout`, `InodeSpec`, `InodeManager` | little-endian words, the disk layout and inode record, the inode manager on its parts and in place on an array of blocks |
| `InodeOwnership`, `InodeRefinement`, `InodeRuns`, `InodeHistory` | exact block ownership, refinement of a map of files, runs, running out of blocks, the table that all large files share, last writes and times |
| `Directory`, `Namespace`, `FileBytes`, `YfsClient` | directory records, the directory tree, byte ranges of files, the client in place |
| `TreeOnDisk` | runs of the directory tree as runs of the disk |
| `Fifo`, `Handles` | the bounded blocking queue, the reference-counted handle table |

## Assumptions

- Client ids are distinct, RPCs are executed at most once and are answered, a thread
  releases only a lock it holds, and a thread puts an extent only after a get under
  the same lock. These are the guards of the steps in `LockProtocol`.
- A signal wakes only its target in `LockProtocol`. `SpuriousWakeup` says exactly what
  happens otherwise. `Fifo` allows unasked wakeups, since its waits are in loops.
- An entry of a client's queue stands for the condition variable of the thread that
  pushed it, and a thread that has left through a NOENT exit does not keep the mutex.
  Without unasked wakeups both are exact, since no thread has two entries and no NOENT
  exit is taken. After an unasked wakeup the source can hold the mutex for ever or
  delete a condition variable that a thread sleeps on; the model lets the others go on.
- A client id stands for the "host:port" string, in the order of those strings.
- A revoke is under way from the moment the server decides on it. The server looks up
  whom to send it to only after it has let go of the mutex (lock_server_cache.cc:40-41);
  `LockTheorems.NothingLost` shows that this is still the same client.
- Time comes in as a parameter (`now`), and so does memory that the source reads
  before setting it: the root record at format time, the unused bytes of a directory
  record, the attributes of a new cache entry (`root`, `junk`).
- Where the source calls `exit(0)` the model has an explicit outcome.

## Where the code does not do what it should

- Mutual exclusion needs that no thread wakes unasked behind another local thread.
  `SpuriousWakeup.BreaksExclusionIff`: ordinary steps can lead from such a wakeup to two
  holders exactly when the client has the lock, or when it has given the lock back and
  the thread at the head of its queue has been told so but not gone on. There are runs
  to a state of each kind: `TwoHolders` (a thread holds the lock),
  `TwoHoldersAfterHandOver` (the lock was handed to a thread that has not gone on) and
  `TwoHoldersAfterGivingBack`. In all other states the wakeup is harmless to exclusion,
  whatever is done after it.
- A `put` leaves the attributes of the entry invalid, so a `getattr` right after it
  can throw the bytes away: `ExtentClient.GetAttrKeepsPutIff` says exactly when, and
  `ExtentClient.StartUpPutDropped` is a put that every client makes when it starts.
  `BlindPut.BlindPutKeptIff` says the same for every reachable state of the protocol,
  with a run in `BlindPut.BlindPutLost`.
- The indirect block is never allocated and all inodes but the root use block 0 for
  it: `InodeRuns.TwoLargeFilesShare` is the failing input, and
  `InodeRuns.WriteKeepsExclusiveIff` says exactly when a write keeps blocks apart.
- `read` and `write` cut the offset to 32 bits in one place and not in the other:
  `FileBytes.ReadIff` and `FileBytes.WriteIff` say exactly when they do the right
  thing, and `FileBytes.FarWriteThrows` and `FileBytes.FarReadThrows` are inputs on
  which they throw.

## Model

| member | source | states |
|---|---|---|
| LockTheorems.Coherence | extent_client.cc:41-150 | over every run, each get on any client returns what the last put on any client wrote, and each getattr its size |
| LockTheorems.AttrIsCurrent | extent_client.cc:67-114 | over every run, each getattr on any client answers with the kind of the extent and the number of bytes that the last put on any client wrote, cut to 32 bits |
| LockTheorems.OnlyOwnerCaches | lock_client_cache.cc:166-176 | a valid or dirty cache entry exists only at the client the server has as owner, and not once its release RPC is under way |
| LockTheorems.ReadsAreCurrent | extent_client.cc:41-91 | in every state with the invariant a get or getattr sees the last put |
| LockTheorems.MutualExclusion | lock_tester.cc:31-54 | over every run, at most one thread of all clients is between acquire and release |
| LockTheorems.ExactlyOneToken | lock_server_cache.cc:19-102 | the right to the lock is in exactly one place (server, grant under way, client, release under way), and a release is handled only from the holding client |
| LockTheorems.NothingLost | lock_server_cache.cc:37-100 | revoking and retrying are always backed by a callback under way, a record at the client, or the client acting on it; every callback under way is the only one and finds the client in the role it was sent for |
| LockTheorems.NobodyForgotten | lock_server_cache.cc:30-72 | a refused client is waiting or chosen, the holder does not wait, and waiting clients mean revoking or retrying |
| LockTheorems.ServerKeepsOrder | lock_server_cache.cc:19-102 | in every step of every run: an acquire is granted exactly when nobody has the lock and no other client was chosen, a refused client waits; a release tells the least of the waiting clients to try again, takes it off the waiting ones and tells no other client anything |
| LockTheorems.DeadBranches | lock_client_cache.cc:72-152 | the NOENT exits of acquire and rpc_acquire are never reached |
| LockTheorems.RevocationSurvives | lock_client_cache.cc:166-219 | a free lock has an empty queue and no recorded revoke; a recorded revoke stays, with the lock never free, until the lock has been given back |
| LockTheorems.RecordedRevokeStays | lock_client_cache.cc:166-190 | the same for each step of a client |
| LockTheorems.AtMostOneHolder | lock_client_cache.cc:98-192 | exclusion in every state with the invariant |
| LockTheorems.HolderIsOwner | lock_client_cache.cc:113-152 | a thread with the lock is at the head of its client's queue and its client is the server's holder |
| LockTheorems.TokenOfClient | lock_client_cache.cc:65-222 | what a client's threads and handlers are at tells whether it has the token |
| LockRefinement.RefinesSimpleLock | lock_server.cc:24-84 | every run, seen as acquires and releases of threads, is a legal run of one flag, set exactly while a thread has the lock |
| LockRefinement.StepAgainstFlag | lock_server.cc:24-64 | a step gives the lock to a thread only when nobody has it, and takes it only from the one who has it |
| LockRefinement.LocalOrder | lock_client_cache.cc:113-190 | the threads of a client get the lock in the order of their calls |
| LockRefinement.RunInOrder | lock_client_cache.cc:113-190 | the queue is the tail of those who asked, and all before it have had the lock |
| LockProgress.LockGoesOn | lock_client_cache.cc:80-94 | from every reachable state the protocol takes only boundedly many steps of its own, and where it rests while a thread waits, a thread has the lock |
| LockProgress.NoDeadlock | lock_server_cache.cc:37-100 | if nothing can move while a thread waits, some thread has the lock |
| LockProgress.TotalFalls | lock_client_cache.cc:65-237 | every step of the protocol's own brings the clients forward |
| LockProgress.OwnMoveWorks | lock_client_cache.cc:72-94 | a client that is not waiting for others has a step to take |
| LockSteps.StepKeeps | lock_client_cache.cc:65-238 | every step keeps the invariant of the lock protocol and of the caches |
| LockSteps.RunKeeps | lock_client_cache.cc:65-238 | the invariant holds at the end of every run |
| LockSteps.InvOverRun | lock_client_cache.cc:65-238 | a run from any state with the invariant keeps it |
| LockHolds.NoLostUpdate | yfs_client.cc:176-184 | when a thread gets an extent and later puts it without releasing in between, the put replaces exactly what the get returned: nobody has put anything meanwhile |
| LockHolds.HoldIsAtomic | yfs_client.cc:381-396 | from a thread's first use of the extent until it releases, every get, getattr, put and release of any client is its own |
| LockSteps.AcquireRoles | lock_server_cache.cc:19-79 | an acquire RPC changes the role of its caller, makes an unrevoked holder a revoked one when it sends a revoke, and changes no other |
| LockSteps.ReleaseRoles | lock_server_cache.cc:81-102 | a release RPC makes the holder a stranger and, if clients wait, one of them the chosen one |
| LockSteps.LocalKeeps | lock_client_cache.cc:65-238 | each stretch of client code keeps the client's part of the invariant |
| LockSteps.FileStepCurrent | extent_client.cc:41-114 | get, getattr and put at the owner work on the last put |
| LockSteps.WriteBackNode | extent_client.cc:135-150 | sync leaves a clean entry, and what it writes back is the last put |
| LockServerCache.Least | lock_server_cache.cc:90-91 | the least of the waiting ids |
| LockServerCache.Server.HandleAcquire | lock_server_cache.cc:19-79 | acquire in place: new record, answer and revoke, other locks untouched |
| LockServerCache.AcquireAnswers | lock_server_cache.cc:30-75 | for every record: when an acquire is granted, who holds and who waits afterwards, and who is sent a revoke |
| LockServerCache.ReleaseAnswers | lock_server_cache.cc:88-100 | for every record: the first of the waiting clients is chosen and waits no longer |
| LockServerCache.ReleaseToNobody | lock_server_cache.cc:97-100 | for every record without waiting clients: the lock is free and nobody is told anything |
| LockServerCache.Server.HandleRelease | lock_server_cache.cc:81-102 | release in place: a retry exactly if clients wait, to the least of them, and other locks untouched |
| LockClientCache.Client.BeginAcquire | lock_client_cache.cc:98-138 | acquire up to its first wait, RPC or return |
| LockClientCache.Client.ResumeAcquire | lock_client_cache.cc:124-152 | acquire after a wait |
| LockClientCache.Client.AcquireAnswered | lock_client_cache.cc:78-94 | rpc_acquire after the answer, up to its next wait, RPC or return |
| LockClientCache.Client.ResumeAsking | lock_client_cache.cc:89-94 | rpc_acquire after the wait for a retry: the response is cleared, and the server is asked again as long as the client is acquiring |
| LockClientCache.Client.BeginRelease | lock_client_cache.cc:155-192 | release up to the sync, or all of it when the lock stays |
| LockClientCache.Client.EndRelease | lock_client_cache.cc:174-191 | release after the release RPC |
| LockClientCache.Client.BeginRevoke | lock_client_cache.cc:194-219 | revoke_handler up to the sync, or all of it when the lock is in use |
| LockClientCache.Client.EndRevoke | lock_client_cache.cc:209-215 | revoke_handler after the release RPC |
| LockClientCache.Client.HandleRetry | lock_client_cache.cc:224-238 | the retry is recorded and the thread at the head of the queue is signalled, other locks untouched |
| LockClientCache.AcquireAnswers | lock_client_cache.cc:113-137 | for every record: when acquire returns, asks the server, sleeps or gives up, and that the caller is last in the queue |
| LockClientCache.WokenAnswers | lock_client_cache.cc:72-152 | for every record: a woken thread goes on with the lock exactly when the client has it, asks the server exactly when the lock is none, and rpc_acquire asks again exactly while the client is acquiring |
| LockClientCache.RevokeAnswers | lock_client_cache.cc:203-219 | for every record: a revoke makes the client give the lock back exactly when it is free and at most one thread is in the queue |
| LockClientCache.ReleaseAnswers | lock_client_cache.cc:166-189 | for every record: a release gives the lock back exactly when a revoke is recorded and nobody else waits, and otherwise the next thread in the queue is the one signalled |
| LockServer.Server.AcquirePass | lock_server.cc:24-52 | waits exactly while the flag is set, and sets it otherwise |
| LockServer.Server.Release | lock_server.cc:54-64 | the lock is free afterwards and no other lock has changed |
| SpuriousWakeup.BreaksExclusionIff | lock_client_cache.cc:135-152 | some run of ordinary steps leads from an unasked wakeup behind another thread to two holders if and only if the client's lock is locked, or it is none and the thread at the head of the queue has been signalled |
| SpuriousWakeup.TwoHolders | lock_client_cache.cc:135-146 | a run in which an unasked wakeup behind the holder leads to two holders |
| SpuriousWakeup.TwoHoldersAfterHandOver | lock_client_cache.cc:185-189 | a run in which nobody has the lock at the wakeup, since the thread that it was handed to has not gone on, and two have it one step later |
| SpuriousWakeup.TwoHoldersAfterGivingBack | lock_client_cache.cc:174-188 | a run to a state in which the lock has been given back, from which an unasked wakeup can lead to two holders |
| WakeupBreaks.BreaksWhenLocked | lock_client_cache.cc:142-147 | the wakeup leads to two holders when the client has the lock |
| WakeupBreaks.BreaksWhenTold | lock_client_cache.cc:139-147 | so it does when the thread at the head has been told that the lock was given back |
| WakeupBreaks.Finish | lock_client_cache.cc:65-238 | from every state with the invariant the other clients can go on until none of their threads wants or has the lock |
| WakeupHarmless.FailureIsHarmless | lock_client_cache.cc:148-150 | no run leads to two holders after a thread has left through the NOENT exit |
| WakeupHarmless.RunWithout | lock_client_cache.cc:148-150 | whatever is done beside such a thread can be done beside one that sleeps on, with the same effect |
| TwoAskers.AskingBesideIsHarmless | lock_client_cache.cc:124-141 | no run leads to two holders when the woken thread asks the server beside the thread at the head |
| TwoAskers.MuddledOverRun | lock_client_cache.cc:65-238 | what is true while two threads of a client ask stays true over every run |
| TwoAskers.OneAsksKeeps | lock_client_cache.cc:65-192 | after the grant at most one thread of the client is active, whatever the client does |
| TwoAskers.BothAskKeeps | lock_client_cache.cc:65-152 | before the grant both threads go on asking |
| BlindPut.BlindPutKeptIff | extent_client.cc:67-114 | in every reachable state, what a thread puts without a get survives a getattr exactly when its client has read the extent since it got the lock, or what it puts is what was there |
| BlindPut.BlindPutLost | extent_client.cc:67-114 | a run after which a put is gone at the next get |
| ExtentClient.GetAttrKeepsPutIff | extent_client.cc:67-114 | the bytes of a put survive a getattr exactly when the attributes were valid or the server has those bytes; otherwise nothing is left to write back |
| ExtentClient.StartUpPutDropped | yfs_client.cc:18-21 | the put of an empty root at start-up, followed by getattr, is gone when the root on the server has entries |
| ExtentClient.CacheAnswers | extent_client.cc:41-114 | a hit asks nobody and changes nothing, a miss takes bytes and attributes from the server, a put sets the size to the number of bytes put |
| ExtentClient.Cache.GetFile | extent_client.cc:41-65 | get in place: the cached bytes if they are valid, the server's otherwise |
| ExtentClient.Cache.GetFileAttr | extent_client.cc:67-91 | getattr in place: the cached attributes if they are valid, otherwise kind and size of the server's file |
| ExtentClient.Cache.PutFile | extent_client.cc:93-114 | put in place: the entry is dirty and has the bytes and their number |
| ExtentClient.Cache.Sync | extent_client.cc:135-150 | the entry is invalid and clean, a dirty one is at the server, others are untouched |
| InodeLayout.LayoutDisjoint | inode_manager.h:51-72 | block 0, the inode table and the data region are pairwise disjoint, inodes have different blocks, records fit |
| InodeLayout.LoadStored | inode_manager.cc:185-210 | an inode record is read back from its block as it was written |
| InodeLayout.StoredAt | inode_manager.h:74-81 | where each field of an inode record is in its block |
| InodeLayout.TableUpdated | inode_manager.cc:118-122 | setting one id in the table changes that one |
| InodeSpec.FirstFree | inode_manager.cc:31-44 | the first free data block, or none if all are used |
| InodeSpec.FirstFreeInodeIsLeast | inode_manager.cc:150-158 | the search for a free inode passes over none |
| InodeRuns.FirstFreeNumber | inode_manager.cc:150-158 | the least number that no file has, or none if all are taken |
| InodeOwnership.AttachOwned | inode_manager.cc:108-124 | one more block keeps ownership exact |
| InodeOwnership.GrowOwned | inode_manager.cc:252-256 | growth across the direct and indirect part keeps ownership exact |
| InodeOwnership.ShrinkOwned | inode_manager.cc:247-251 | shrinking frees exactly the blocks given up |
| InodeOwnership.RemoveOwned | inode_manager.cc:289-300 | removal frees exactly the blocks of the file |
| InodeOwnership.FormatOwned | inode_manager.cc:133-141 | a formatted disk has exact ownership whatever was in memory for the root |
| InodeRefinement.WriteRefines | inode_manager.cc:239-275 | a write that does not run out of blocks replaces one file in the map and keeps ownership exact |
| InodeRefinement.WriteReadsBack | inode_manager.cc:239-275 | the blocks then hold exactly the bytes written, the last one padded |
| InodeRefinement.WriteLeavesOthers | inode_manager.cc:239-275 | no other file changes |
| InodeRefinement.FillHits | inode_manager.cc:258-269 | each slice of the bytes ends up in its block |
| InodeRefinement.FillMisses | inode_manager.cc:258-269 | no other block is written |
| InodeRuns.ReadsContents | inode_manager.cc:214-236 | the blocks read, cut to size, are the file |
| InodeRuns.TakeRefines | inode_manager.cc:145-168 | allocation adds one empty file, also on an inode used before |
| InodeRuns.RemoveRefines | inode_manager.cc:289-300 | removal takes one file out of the map |
| InodeRuns.WriteRunsOutIff | inode_manager.cc:31-44 | the program exits for want of blocks exactly when the free ones do not suffice |
| InodeRuns.GrowFailsIff | inode_manager.cc:31-44 | the same for the allocation loop |
| InodeRuns.StepRefines | inode_manager.cc:145-300 | each operation does what it does on a map, or there is no inode or no block left |
| InodeRuns.RunRefines | inode_manager.cc:145-300 | every run has the results of the map and ends with its files |
| InodeRuns.DiskRefinesMap | inode_manager.cc:133-300 | the same from a formatted disk; blocks are exclusive, the used ones are those of live inodes, and all inodes but the root point to block 0 |
| InodeHistory.DiskReadsLast | inode_manager.cc:145-300 | in every run from a formatted disk, each read returns what was last written to that inode since it was handed out |
| InodeHistory.MapReadsLast | inode_manager.cc:214-275 | the same for runs of the map |
| InodeHistory.RunAttr | inode_manager.cc:277-287 | after every run kind, size and times of each inode are what the operations on it made them, and operations on others left them alone |
| InodeHistory.ChangedAt | inode_manager.cc:270-272 | the times of change are the time of the last write |
| InodeHistory.FormatAttr | inode_manager.cc:133-141 | what the attributes of every inode are on a formatted disk |
| InodeHistory.WritePads | inode_manager.cc:264-268 | after a write the rest of the last block is zero |
| InodeRuns.WriteKeepsExclusiveIff | inode_manager.cc:82-124 | a write leaves each block with one place exactly when it needs no table or no other live file uses it |
| InodeRuns.TwoLargeFilesShare | inode_manager.cc:114-123 | two new files of 101 blocks each end up sharing a block |
| InodeRuns.LargeFilesOverlap | inode_manager.cc:82-91 | two large files other than the root read the same bytes in their first indirect block |
| InodeManager.Manager.AllocBlock | inode_manager.cc:31-44 | first fit in place |
| InodeManager.Manager.FreeBlock | inode_manager.cc:46-50 | the block is free again and nothing else changes |
| InodeManager.Manager.BlockIdInInode | inode_manager.cc:82-91 | the direct or indirect id |
| InodeManager.Manager.AllocBlockInInode | inode_manager.cc:108-124 | the new block in the inode or in the table, nothing else changed |
| InodeManager.Manager.StoreInodeAt | inode_manager.cc:200-210 | one inode changes, no other and no data |
| InodeManager.Manager.LoadInodeAt | inode_manager.cc:185-198 | the inode of that number |
| InodeManager.Manager.AllocInode | inode_manager.cc:145-168 | the first free inode from 2 on becomes an empty file |
| InodeManager.Manager.WriteFile | inode_manager.cc:239-275 | write_file in place, or its exit |
| InodeManager.Manager.ReadFile | inode_manager.cc:214-236 | read_file in place |
| InodeManager.Manager.GetAttr | inode_manager.cc:277-287 | the attributes of the inode, as they are in its block |
| InodeManager.Manager.RemoveFile | inode_manager.cc:289-300 | remove_file in place |
| InodeManager.OperationsReady | inode_manager.cc:214-300 | with exact ownership the methods can be called for every live inode, and reading gives the file |
| Directory.EntryRoundTrip | yfs_client.cc:215-219 | an entry is read back as written whatever the unused bytes are |
| Directory.RecordLayout | yfs_client.h:40-44 | where inum, name and length are in a record; all other bytes are what was in memory |
| Directory.ListRoundTrip | yfs_client.cc:434-443 | so is a list of entries |
| Directory.AppendRecord | yfs_client.cc:219-221 | a record appended is an entry appended |
| Directory.WholeRecords | yfs_client.cc:320-322 | contents are whole records, one per entry |
| Directory.Find | yfs_client.cc:278-286 | the first entry of a name |
| Directory.AddBinds | yfs_client.cc:202-222 | an entry of a new name adds exactly one binding |
| Directory.DropUnbinds | yfs_client.cc:432-433 | dropping an entry removes exactly one binding, the others keep their order |
| Namespace.CreateBinds | yfs_client.cc:189-263 | a successful create binds one new name to a new inode in one directory |
| Namespace.RemoveUnbinds | yfs_client.cc:411-449 | a successful removal unbinds one name and removes its inode |
| Namespace.CreateAnswers | yfs_client.cc:202-222 | for every store: EXIST exactly when the name is bound in the parent, an exit exactly when the parent is no directory or the name is new and no inode is free, and otherwise the least free inode |
| Namespace.RemoveAnswers | yfs_client.cc:419-433 | for every store: success exactly when the name is bound in the parent, with the inode it is bound to; NOENT exactly when it is not; an exit exactly when the parent is no directory |
| Namespace.CreateKeeps | yfs_client.cc:189-263 | create, mkdir and symlink keep the tree in shape, also on a reused inode number |
| Namespace.RemoveKeeps | yfs_client.cc:411-449 | so does removal, also of a directory with entries |
| Namespace.NoCycle | yfs_client.cc:189-263 | no path of entries leads back to where it started |
| Namespace.TreeOverRuns | yfs_client.cc:189-263 | in every state of every run: entries name live inodes, no inode has two entries, names are distinct, contents are whole records, no cycles |
| TreeOnDisk.TreeSurvivesOnDisk | yfs_client.cc:189-263 | every run of create, mkdir, symlink, rmdir, unlink and writes, made on a formatted disk by the calls of its operations, leaves on the disk exactly the files of the tree, with the tree in shape and each block in one place |
| TreeOnDisk.RunTakes | yfs_client.cc:189-263 | a run of the tree is the run of its calls on the map of files |
| TreeOnDisk.OpTakes | yfs_client.cc:411-449 | so is each operation |
| Namespace.RunExtends | yfs_client.cc:189-263 | a run can be continued with every allowed operation, so that the conditions on its states exclude nothing |
| FileBytes.WriteIff | yfs_client.cc:386-394 | write overwrites the range exactly unless the cut offset falls into the file and the offset past its end, and throws exactly then |
| FileBytes.FarWriteThrows | yfs_client.cc:386-394 | a write to an empty file at 4 GB throws |
| FileBytes.FarReadThrows | yfs_client.cc:359-363 | a read of a file of one byte at 4 GB throws |
| FileBytes.ReadIff | yfs_client.cc:359-363 | read returns the range exactly under the like condition, and throws otherwise |
| FileBytes.ReadAfterWrite | yfs_client.cc:345-399 | after a write any read sees new bytes in the range, old ones elsewhere, zeros in a gap |
| FileBytes.DisjointWritesCommute | yfs_client.cc:368-399 | writes to disjoint ranges commute |
| FileBytes.ResizeKeeps | yfs_client.cc:164-187 | setattr keeps the common part and fills up with zeros |
| YfsClient.Client.Readdir | yfs_client.cc:302-332 | the entries of the directory |
| YfsClient.Client.Lookup | yfs_client.cc:266-289 | the inode number that the name is bound to, if it is |
| YfsClient.Client.Make | yfs_client.cc:189-263 | create, mkdir and symlink in place: refused exactly when the name is bound, successful exactly when it is not and an inode is free |
| YfsClient.Client.Rmdir | yfs_client.cc:411-449 | rmdir and unlink in place: successful exactly when the name is bound |
| YfsClient.Client.ReadRange | yfs_client.cc:345-365 | read in place |
| YfsClient.Client.WriteRange | yfs_client.cc:368-399 | write in place: the file with the range overwritten, or the throw; the number of bytes written counts a gap |
| YfsClient.Client.Setattr | yfs_client.cc:164-187 | the size is set, bytes are kept or zero, other files are untouched |
| Fifo.FirstInFirstOut | rpc/fifo.h:56-92 | over every run, what came out followed by the queue is what went in, in order, and the limit holds |
| Fifo.NobodyStranded | rpc/fifo.h:56-92 | while a consumer sleeps unsignalled, items do not outnumber woken consumers, and dually for producers |
| Fifo.StepKeeps | rpc/fifo.h:56-92 | every pass and every unasked wakeup keeps that |
| Fifo.EnqAnswers | rpc/fifo.h:56-72 | enq is through exactly if there is room; otherwise the caller waits with its own item, or is refused and nothing happens |
| Fifo.EnqAgainAnswers | rpc/fifo.h:60-72 | a pass after a wait puts the same item in, or waits on |
| Fifo.DeqAnswers | rpc/fifo.h:74-92 | deq takes the first item, or waits exactly if there is none |
| Fifo.WakeAnswers | rpc/fifo.h:60-81 | a thread that wakes unasked is awake, and nothing else has happened |
| Fifo.Queue.EnqPass | rpc/fifo.h:56-72 | each pass of enq, the first or one after a wait |
| Fifo.Queue.DeqPass | rpc/fifo.h:74-92 | each pass of deq, the first or one after a wait |
| Handles.HandlesSound | handle.cc:12-110 | over every run: a handle's record exists, is the one under its name, counts its handles; a marked one has handles; a freed one has none |
| Handles.RunExtends | handle.cc:12-110 | a run can be continued with every enabled act, so that the conditions on its states exclude nothing |
| Handles.StepKeeps | handle.cc:12-110 | every operation keeps that |
| Handles.DeleteKeeps | handle.cc:88-110 | a deletion frees a record without handles and marks one with handles |
| Handles.GetAnswers | handle.cc:52-70 | a handle is given exactly when the name is new or its record is not marked; the record has that name, is not marked and has one reference more, and all others stay |
| Handles.DeleteAnswers | handle.cc:88-110 | a deletion frees a record without references, marks one with references, and leaves the others |
| Handles.DoneAnswers | handle.cc:72-79 | a record goes with its last handle exactly if it is marked |
| Handles.BindAnswers | handle.cc:12-40 | a first bind binds the record exactly when the attempt works and marks it exactly when it fails |
| Handles.Manager.Get | handle.cc:52-70 | get_handle in place |
| Handles.Manager.Done | handle.cc:72-79 | done_handle in place |
| Handles.Manager.Delete | handle.cc:81-110 | delete_handle in place |
| Handles.Manager.Bind | handle.cc:12-40 | safebind in place, also for a handle without a record and for a mark that comes after the test |

## Left out

- FUSE handlers, `main` functions, RPC transport, thread pool, marshalling, debug printing: plumbing.
- `stat`, `nacquire`, `xlock` and `lock_release_user`: they do not take part in the protocol.
- Fairness between clients: the waiting set is ordered by id and local threads may keep a revoked lock, so there is no bound on the wait of one client; `LockProgress` proves that some thread gets the lock.
- Liveness of the nested calls inside the server's handlers: replies and callbacks may arrive in any order, which covers them; that a server thread waits for a callback to be answered is not modelled.
- Several lock ids at once: the classes show that a call touches one record; the protocol follows one id.
- `extent_client::create` and `remove` in the coherence theorem: the inode number they work on is not locked, so that their entries are not coherent between clients. The put of an empty root at start-up, which is not preceded by a get, is left out for the like reason.
- `attr.size` of a newly created cache entry, which the source never sets, and the timestamps of the extent cache.
- Concurrent handlers inside the extent server, which takes no mutex: each of its calls is one step.
- InodeManager.Manager.BlockIdInInode: does not model a root with more than 100 blocks, because its indirect id is whatever was in memory.
- InodeManager.Manager.WriteFile: does not model writes to inodes that are not live or sizes above 228 blocks, because the source then overruns its buffers or frees blocks twice.
- InodeManager.Manager.AllocBlockInInode: does not model a root that grows past 100 blocks, for the same reason.
- ExtentClient.Cache.GetFileAttr: does not model the times in the attributes, because they come from the clock.
- ExtentClient.Cache.PutFile: does not model the times that it sets, because they come from the clock.
- LockServer.Server.Release: does not model the signal to a waiting caller, because the flag alone is the specification of a lock.
- Unasked wakeups at the waits for a release under way and for a retry (lock_client_cache.cc:89, 126).
- The write-back cache between the tree and the disk: `TreeOnDisk` makes each call when the operation does.
- YfsClient.Client.Make: does not model names longer than 64 bytes, because the source then overruns its record, nor the EXIST path of symlink, which returns with the parent lock held.
- Getters (`isfile`, `getfile`, `readlink` and the like), which read one field.
