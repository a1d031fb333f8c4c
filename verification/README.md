# Folly containers, strings and conversions

A Dafny model of the parts of the vendored folly library whose correctness depends on many steps of
many threads, or on representations that must not show: two lock-free hash maps, the cancellation
token, the concurrent skip list with its node recycler, the intrusive work list, the copy-on-write
string, the table-driven fingerprint, and the conversions between integers and text.

The concurrent parts are state machines. A step is one atomic access of the code (one load, store,
compare-and-swap or counter update, or one spin-lock operation), and a run is any interleaving of the
steps of any number of threads. Each machine has an invariant, every step keeps it, and the results
below are about every state of every run. Auxiliary fields record history for the proofs and decide
nothing inside a call. The sequential parts are classes and methods with loops, proved against
specification functions, with lemmas about those functions.

| file | part |
|---|---|
| `AtomicUnorderedMap.dfy` | `AtomicUnorderedInsertMap`: insert-only chains, head and state in one word |
| `AtomicHashMap.dfy`, `AtomicHashMapProof.dfy` | `AtomicHashArray` and `AtomicHashMap`: open addressing, the full barrier, growth |
| `CancellationToken.dfy`, `CancellationTokenProof.dfy` | `CancellationState`: packed word, callback list, signalling |
| `ConcurrentSkipList.dfy`, `ConcurrentSkipListProof.dfy`, `ConcurrentSkipListRuns.dfy` | `ConcurrentSkipList`: optimistic search, locking, linking, removal, head growth |
| `ConcurrentSkipListSearch.dfy` | its searches and the `Skipper` on a list at rest |
| `NodeRecycler.dfy` | deferred destruction of unlinked nodes |
| `AtomicIntrusiveList.dfy` | `AtomicIntrusiveLinkedList`: push, sweep, in-place reversal |
| `FbString.dfy` | `fbstring_core`, its word layout, and `basic_fbstring::find` |
| `Fingerprint.dfy` | Rabin fingerprints over 64, 96 and 128 bits |
| `Conv.dfy` | decimal printing and parsing |

Reading the proofs: `XNext` lemmas say what a step leaves behind for its own thread, `XKeeps` lemmas
that it keeps the invariant, `Frame`, `Evolves` and `Steady` are what the other threads may rely on,
and `Holds` predicates (`ThreadHolds`, `MemoryHolds`) carry a fact folded up.

## Model

| member | source | states |
|---|---|---|
| `AtomicUnorderedMap.InsertLinearizes` | folly/folly/AtomicUnorderedMap.h:262-307 | A `findOrConstruct` that returns true took effect at one compare-and-swap of that same call, where the key was still unbound, and which bound it to the bucket the call returns. |
| `AtomicUnorderedMap.FindLinearizes` | folly/folly/AtomicUnorderedMap.h:417-426 | Every call that does not insert answers what the abstract map said at a head load made during that call, and the bucket it returns is constructed and holds the key. |
| `AtomicUnorderedMap.OnlyCasBinds` | folly/folly/AtomicUnorderedMap.h:287-293 | The abstract map changes at no step of any run except the head compare-and-swap of an inserting call, on an absent key. |
| `AtomicUnorderedMap.OneWinnerPerKey` | folly/folly/AtomicUnorderedMap.h:262-307 | In a run, at most one call per key returns true. |
| `AtomicUnorderedMap.ExactlyOneWinner` | folly/folly/AtomicUnorderedMap.h:262-307 | Each bound key was bound by exactly one step, and the call of that step has returned true since or stands right before the state update that precedes its return. |
| `AtomicUnorderedMap.BoundForever` | folly/folly/AtomicUnorderedMap.h:262-307 | A binding is never changed or lost. |
| `AtomicUnorderedMap.ReachableForever` | folly/folly/AtomicUnorderedMap.h:262-307 | A bucket that is on a chain keeps its key, value and successor for the rest of the run, never goes back to EMPTY, and stays the bucket its key is bound to. |
| `AtomicUnorderedMap.AbstractionIsReal` | folly/folly/AtomicUnorderedMap.h:417-426 | In every reachable state a key is bound to a bucket exactly when following `next_` from the head of its slot meets that bucket and it holds the key; from every head the walk meets no bucket twice and ends; every bucket it meets holds a key of that slot, so the chains of two slots share no bucket. |
| `AtomicUnorderedMap.WalkIsBounded` | folly/folly/AtomicUnorderedMap.h:417-426 | Each step of a chain walk brings it one bucket nearer to its end, whatever the other threads do. |
| `AtomicUnorderedMap.AccessesAreSafe` | folly/folly/AtomicUnorderedMap.h:262-441 | Every access of every call in every run is in range, a bucket whose key is read is constructed and not EMPTY, and both state updates find the bucket CONSTRUCTING, so the checks written into the steps exclude nothing. |
| `AtomicUnorderedMap.WordsFit` | folly/folly/AtomicUnorderedMap.h:277-285 | Packing the chain head above the two state bits never leaves the 32-bit word. |
| `AtomicUnorderedMap.KeyToSlotIdx` | folly/folly/AtomicUnorderedMap.h:408-415 | Masking and then subtracting in a loop gives the remainder that the rest of the model calls the home slot. |
| `AtomicHashMapProof.AtMostOneHolder` | folly/folly/AtomicHashMap-inl.h:133-206 | Over all sub-maps of every reachable state at most one cell holds a given key, counting cells still being built. |
| `AtomicHashMapProof.BarrierHolds` | folly/folly/AtomicHashArray-inl.h:172-193 | Once any thread has left the wait for pending inserts, then in every later state `isFull_` is set, no thread stands between its `isFull_` check and its unlock in that sub-map, and every cell then empty stays empty, even after a late inserter has overwritten 2 with 1. |
| `AtomicHashMapProof.ProbeInvariant` | folly/folly/AtomicHashArray-inl.h:97-116 | In every reachable state each position before a held key on its probe sequence holds a tombstone or a different live key, never an empty or locked cell, so stopping there misses nothing. |
| `AtomicHashMapProof.Linearizable` | folly/folly/AtomicHashMap-inl.h:133-206 | Every completed insert, find and erase belongs to one call, begun with the key it answers for, and takes effect at one moment between that first step and its return: a successful insert adds the key there, a successful erase removes it there, every other answer is what the abstract map says there, and the call changes the abstract map at no other step. |
| `AtomicHashMapProof.OnlyEffectsChange` | folly/folly/AtomicHashArray-inl.h:195-336 | No step of any run changes the abstract map except the unlock of an insert, which adds its key where it was absent, and the compare-and-swap of an erase that returns 1, which removes its key. |
| `AtomicHashMapProof.OneEffect` | folly/folly/AtomicHashArray-inl.h:195-336 | At any point of any call the steps of that call so far changed the abstract map once if it is an insert past its unlock or a successful erase, and never otherwise, also when it throws. |
| `AtomicHashMapProof.AbstractionIsReal` | folly/folly/AtomicHashArray-inl.h:95-117 | In every reachable state the abstract map binds a key to a cell and value exactly when that cell is live with that key and value. |
| `AtomicHashMapProof.InsertAccessesAreSafe` | folly/folly/AtomicHashArray-inl.h:159-268 | Every probe of an insert is in range, the next sub-map it will go to exists, and the pending counter it is going to decrement is positive. |
| `AtomicHashMapProof.GrowthAccessesAreSafe` | folly/folly/AtomicHashMap-inl.h:156-200 | The sub-map that a grower publishes, or that a waiter goes on to, has been stored, and publishing moves the count by exactly one. |
| `AtomicHashMapProof.SearchAccessesAreSafe` | folly/folly/AtomicHashArray-inl.h:95-117 | A call starts on a first sub-map that exists, every probe of a find or erase is in range, and so is the first one in the next sub-map. |
| `CallbackList.PushIsCons` | folly/folly/CancellationToken.cpp:57-62 | The pointer stores of an insertion turn a memory that holds a list into one that holds the callback followed by that list. |
| `CallbackList.UnlinkIsRemoval` | folly/folly/CancellationToken.cpp:81-87 | Writing through `prevNext_` removes exactly the callback, wherever it stands in the list. |
| `CallbackList.PopIsTail` | folly/folly/CancellationToken.cpp:129-138 | Dequeuing leaves the tail of the list, clears the callback's `prevNext_`, and `anyMore` is true exactly when something is left. |
| `CancellationTokenProof.RunsAtMostOnce` | folly/folly/CancellationToken.cpp:119-177 | In any run each callback object is invoked at most once. |
| `CancellationTokenProof.EveryCallbackDelivered` | folly/folly/CancellationToken.cpp:119-177 | When the cancelling call is over, a callback that was listed before the cancellation bit was set has run exactly once, or was unlinked by its own destructor, and then it has not run and never will. |
| `CancellationTokenProof.NoneLinkedAfterCancel` | folly/folly/CancellationToken.cpp:38-73 | After the bit is set no callback is ever linked again, and once the signaller has seen that no more are left the list stays empty, which is what its early return relies on. |
| `CancellationTokenProof.NoTouchAfterRemove` | folly/folly/CancellationToken.cpp:75-117 | After `removeCallback` has returned, whether the callback was still listed, is destroyed inside its own invocation or is executing on another thread, no step changes the object or its `next_` and `prevNext_`, the signalling call never looks at it again, and it is in no list. |
| `CancellationTokenProof.WordDecodes` | folly/folly/CancellationToken-inl.h:79-95 | In every reachable state the 64-bit word decodes to the cancellation bit, the lock bit, the number of live tokens plus registered callbacks, and the number of live sources, with no carry between them. |
| `CancellationTokenProof.LockExcludes` | folly/folly/CancellationToken.cpp:179-209 | At most one call is ever between taking and releasing the lock bit. |
| `CancellationTokenProof.DoomedExactlyAtZero` | folly/folly/CancellationToken-inl.h:284-315 | The state is doomed exactly when no token, source or registered callback is left, at that moment the lock is free and the list empty, and one thread and no other is going to delete it. |
| `CancellationTokenProof.DeletedOnce` | folly/folly/CancellationToken-inl.h:284-315 | From the last reference on, word, list and signalling stay as they were and the same thread deletes, once. |
| `CancellationTokenProof.AccessesAreSafe` | folly/folly/CancellationToken.cpp:38-177 | Every step of a call finds the callback it is about to read or write, so the checks in the steps exclude nothing. |
| `ConcurrentSkipListRuns.LayersAreSorted` | folly/folly/ConcurrentSkipList.h:314-533 | In every reachable state, read from the current head, each layer ends, ascends strictly, holds exactly the nodes linked there, and is contained in the layer below. |
| `ConcurrentSkipListRuns.FlagsAreKept` | folly/folly/ConcurrentSkipList-inl.h:133-180 | Keys and heights never change, and the marked and fully-linked flags are never lost although setting one is a separate load and store. |
| `ConcurrentSkipListRuns.RemovedOnce` | folly/folly/ConcurrentSkipList.h:367-407 | Each node is the victim of at most one successful remove and is recycled at most once, and from then on it is on no layer and is not the head; a node that has left the bottom layer is such a victim, or its remover is about to decrement `size_`. |
| `ConcurrentSkipListRuns.SizeNeverWraps` | folly/folly/ConcurrentSkipList.h:263-265 | `size_` is the number of nodes added and not removed, so the decrement of a remove never takes it below zero. |
| `ConcurrentSkipListRuns.QuiescentSize` | folly/folly/ConcurrentSkipList.h:251-265 | When nobody is inside a call, `size_` is the number of nodes on the bottom layer. |
| `ConcurrentSkipListRuns.LocksDescend` | folly/folly/ConcurrentSkipList.h:279-305 | A thread only ever asks for the lock of a node that lies strictly before every node it has locked. |
| `ConcurrentSkipListRuns.NoWaitCycle` | folly/folly/ConcurrentSkipList.h:279-305 | In no reachable state does a chain of threads waiting for each other's locks close. |
| `ConcurrentSkipListRuns.OnlyLocksBlock` | folly/folly/ConcurrentSkipList.h:314-440 | A thread inside a call that is waiting neither for a lock nor for a node to be fully linked always has a next step that changes the state: every access it makes is in range. |
| `ConcurrentSkipListRuns.NoDeadlock` | folly/folly/ConcurrentSkipList.h:279-305 | As long as a thread is inside a call, some thread inside a call has a step that changes the state. |
| `ConcurrentSkipListSearch.ReachableIsSearchable` | folly/folly/ConcurrentSkipList.h:314-533 | What the searches ask of the list holds in every reachable state. |
| `ConcurrentSkipListSearch.FindNodeDownRight` | folly/folly/ConcurrentSkipList.h:458-482 | The search returns the node with the least key not below the argument, and says it is found exactly when the key is in the list. |
| `ConcurrentSkipListSearch.FindNodeRightDown` | folly/folly/ConcurrentSkipList.h:485-500 | The reference search meets the same specification. |
| `ConcurrentSkipListSearch.Find` | folly/folly/ConcurrentSkipList.h:268-274 | The node returned has the key and is not being removed, and nothing is returned only if every node with the key is. |
| `ConcurrentSkipListSearch.LowerBound` | folly/folly/ConcurrentSkipList.h:502-508 | The node returned has the least key not below the argument among the nodes that are not being removed. |
| `ConcurrentSkipListSearch.Last` | folly/folly/ConcurrentSkipList.h:414-427 | The node returned has the largest key, and nothing is returned exactly when the list is empty. |
| `ConcurrentSkipListSearch.FindInsertionPoint` | folly/folly/ConcurrentSkipList.h:222-249 | From any node on any layer, the arrays record on every layer below the neighbours of the key, or of the starting node if that lies beyond it, entries above are untouched, and a layer is reported exactly when the key is present and not before the start. |
| `ConcurrentSkipListSearch.LowerBoundIff` | folly/folly/ConcurrentSkipList.h:842-861 | A search that starts at a node gives the lower bound exactly when no key from the argument on lies at or before that node. |
| `ConcurrentSkipListSearch.Skipper.constructor` | folly/folly/ConcurrentSkipList.h:779-793 | A new Skipper stands on the first key. |
| `ConcurrentSkipListSearch.Skipper.Next` | folly/folly/ConcurrentSkipList.h:795-804 | The increment moves to the least key beyond the current one, although cursors on upper layers may stay behind. |
| `ConcurrentSkipListSearch.Skipper.To` | folly/folly/ConcurrentSkipList.h:842-861 | For any key beyond the node before the current one the Skipper lands on its lower bound; for every key it lands on the least key not below it among those after the node the search starts from; it returns true exactly when it stands on the key and that node is not being removed, and past the end it stays there. |
| `NodeRecycler.DestroyedOnce` | folly/folly/ConcurrentSkipList-inl.h:299-334 | The nodes destroyed are pairwise different and are exactly those whose life is over. |
| `NodeRecycler.NothingLeaks` | folly/folly/ConcurrentSkipList-inl.h:275-282 | Once the recycler is gone, every node handed to it has been destroyed. |
| `NodeRecycler.DestroyedUnseen` | folly/folly/ConcurrentSkipList-inl.h:299-334 | When a node is destroyed, no accessor that has held its reference ever since the node was unlinked is left, except the one that destroys it, even if others have arrived meanwhile. |
| `NodeRecycler.SwapFindsNodes` | folly/folly/ConcurrentSkipList-inl.h:310-322 | The swap finds the vector it dereferences: nothing empties it between the check and the swap. |
| `AtomicIntrusiveList.DeliveredExactlyOnce` | folly/folly/AtomicIntrusiveLinkedList.h:80-122 | Counted with multiplicity, what was inserted is what was delivered, what the sweeper holds and what is still in the list. |
| `AtomicIntrusiveList.DeliveredInOrder` | folly/folly/AtomicIntrusiveLinkedList.h:103-122 | As long as only `sweep` is used, callbacks see the elements in the order of their successful compare-and-swaps. |
| `AtomicIntrusiveList.HookIsCleared` | folly/folly/AtomicIntrusiveLinkedList.h:167-175 | A callback gets its element with the hook null and in no list, so it may insert it again. |
| `AtomicIntrusiveList.TrueIffWasEmpty` | folly/folly/AtomicIntrusiveLinkedList.h:80-96 | `insertHead` returns true exactly for the insertion that made an empty list non-empty. |
| `AtomicIntrusiveList.HookIsReadable` | folly/folly/AtomicIntrusiveLinkedList.h:154-175 | Every element the sweeper is about to follow has a hook and is the next one due. |
| `HookLoops.Reverse` | folly/folly/AtomicIntrusiveLinkedList.h:154-163 | The fragment is reversed in place: following the hooks from the new head reads the old list backwards. |
| `HookLoops.UnlinkAll` | folly/folly/AtomicIntrusiveLinkedList.h:167-175 | Every element is called once, in list order, and all hooks end up null. |
| `FbString.Strings.BlocksAreOwned` | folly/folly/FBString.h:545-613 | The blocks in use are exactly those some string points to, so nothing dangles and nothing leaks, and the reference count calls a string shared exactly when another string points to its block. |
| `FbString.DropKeeps` | folly/folly/FBString.h:535-543 | Giving up a block frees it exactly when its last owner goes, and no other string's text changes. |
| `FbString.ShareKeeps` | folly/folly/FBString.h:736-743 | A copy of a large string joins the owners, reads the same text and leaves every other string alone. |
| `FbString.SwapKeeps` | folly/folly/FBString.h:421-425 | Swapping exchanges two texts and leaves every count and every other text as it was. |
| `FbString.Strings.Construct` | folly/folly/FBString.h:367-381 | The new string has the given text, is small, medium or large by its length and by whether small strings are compiled in, and no other string changes. |
| `FbString.Strings.Copy` | folly/folly/FBString.h:341-358 | The copy reads the same text whatever the representation, a large one without a new block. |
| `FbString.Strings.Move` | folly/folly/FBString.h:360-365 | The new string has the text, the old one is empty, and no block is touched. |
| `FbString.Strings.Acquire` | folly/folly/FBString.h:397-415 | A string taken over from malloc reads the text in the block, and an empty one does not keep the block. |
| `FbString.Strings.Destroy` | folly/folly/FBString.h:383-388 | The string is gone and every other one keeps its text and its representation. |
| `FbString.Strings.Swap` | folly/folly/FBString.h:421-425 | The two texts change places and no other text changes. |
| `FbString.Strings.Unshare` | folly/folly/FBString.h:822-837 | The string gets a block of its own, of at least the old and the requested capacity, with the same text. |
| `FbString.Strings.MutableData` | folly/folly/FBString.h:432-442 | Afterwards the string shares with nobody, every text is as before, and nothing happens to a string that was not shared. |
| `FbString.Strings.SetChar` | folly/folly/FBString.h:432-442 | Writing a character changes that character of that string and of no other, even if the buffer was shared. |
| `FbString.Strings.Shrink` | folly/folly/FBString.h:451-460 | The text loses its last characters, and a shared buffer is not written to. |
| `FbString.Strings.Reserve` | folly/folly/FBString.h:462-478 | The text stays, the string is unshared, and the capacity is at least what was asked for, across all changes of representation. |
| `FbString.Strings.ExpandNoinit` | folly/folly/FBString.h:938-971 | The text grows by the given number of characters after its old text, in any representation and with either growth policy, and no other string changes. |
| `FbString.Strings.PushBack` | folly/folly/FBString.h:485-487 | The text grows by exactly the given character, and no other string changes. |
| `FbStringLayout.CapacityRoundTrip` | folly/folly/FBString.h:617-656 | Capacity and category survive being packed into one word, whose last byte is then above any small-string length. |
| `FbStringFind.Find` | folly/folly/FBString.h:2081-2143 | The result is the least position at or after `pos` where the needle matches, and `npos` exactly when there is none, for every haystack, needle and `pos`, including a `pos` for which `pos + nsize` wraps around. |
| `FbStringFind.SkipIsSafe` | folly/folly/FBString.h:2119-2132 | After a mismatch no match starts within the skip distance. |
| `Gf2.FastIsSlow` | folly/folly/Fingerprint.h:112-140 | Shifting in a byte or a word and looking up what falls out equals feeding its bits one by one, as the slow reference does. |
| `Gf2.AbsorbIsReduction` | folly/folly/Fingerprint.h:112-140 | The table lookups for the bytes shifted out add up to the reduction of all of them modulo P. |
| `Gf2Polynomials.UpdateDivides` | folly/folly/detail/SlowFingerprint.h:70-83 | Feeding bits to a fingerprint divides the polynomial of both together by P and keeps the remainder. |
| `Gf2Polynomials.RemainderIsUnique` | folly/folly/Fingerprint.h:84-100 | A polynomial has one remainder of degree below that of P. |
| `Fingerprint.FingerprintIsTheRemainder` | folly/folly/Fingerprint.h:84-100 | The fingerprint of a byte string is the remainder of X^(k-1) X^(8n) + message by P, and no other polynomial is. |
| `Fingerprint.FingerprintString` | folly/folly/Fingerprint.h:194-222 | Building the table, feeding the bytes and writing the words leaves in the words exactly that remainder, for 64, 96 and 128 bits. |
| `Fingerprint.ShlorShifts` | folly/folly/Fingerprint.h:224-291 | Each of the nine shift specialisations moves the fingerprint's own bits left, returns those that fall out and keeps unused bits zero. |
| `Fingerprint.Fingerprint.UpdateWord` | folly/folly/Fingerprint.h:112-140 | `update8`, `update32` and `update64` equal the slow update with the bits of their argument. |
| `Fingerprint.Fingerprint.UpdateBigEndian` | folly/folly/Fingerprint.h:121-140 | `update32` and `update64` equal four and eight `update8` calls on the bytes from the most significant one on. |
| `Fingerprint.Fingerprint.Update` | folly/folly/Fingerprint.h:142-148 | Updating with a string equals the slow update with all its bits. |
| `Fingerprint.Polynomial.MulXmod` | folly/folly/detail/FingerprintPolynomial.h:91-99 | Multiplying by X across the words, and adding P when a bit falls out, is multiplication by X modulo P. |
| `Fingerprint.MakePolyTable` | folly/folly/Fingerprint.cpp:91-109 | Every entry of the table is its byte's polynomial times the power of X for its row, modulo P. |
| `Conv.Digits10` | folly/folly/Conv.h:297-346 | The estimate from the highest bit, corrected by one comparison, is the number of decimal digits of every 64-bit value. |
| `Conv.Digits10Portable` | folly/folly/Conv.h:348-370 | The loop that divides by 10000 gives the number of decimal digits too. |
| `Conv.Uint64ToBufferUnsafe` | folly/folly/Conv.h:385-402 | The buffer holds the shortest decimal text of the value from its front on, and nothing behind it is written. |
| `Conv.ToAppendSigned` | folly/folly/Conv.h:570-580 | The text of every signed 64-bit value is appended, the most negative one included. |
| `Conv.ToAppendUnsigned` | folly/folly/Conv.h:599-608 | The text of every unsigned 64-bit value is appended. |
| `Conv.ToAppend` | folly/folly/Conv.h:566-630 | Every value of every signed and unsigned type of up to eight bytes is appended as its decimal text, the types below four bytes through the eight-byte ones. |
| `Conv.MaxStringIsMax` | folly/folly/Conv.cpp:47-81 | The literals the overflow test compares with denote the largest values of their types. |
| `Conv.TooLargeIsOverflow` | folly/folly/Conv.cpp:551-569 | The test by length and by character comparison is true exactly for the digit strings whose value does not fit. |
| `Conv.DigitsTo` | folly/folly/Conv.cpp:532-631 | A digit string gives exactly its value, or an overflow if that does not fit, the accumulator never wrapping on the way; anything else gives an error. |
| `Conv.Finalize` | folly/folly/Conv.cpp:487-501 | The sign of the converted value reports exactly the values outside the signed type. |
| `Conv.StrToIntegral` | folly/folly/Conv.cpp:682-727 | It succeeds exactly on blanks, an optional sign for signed types and digits whose signed value fits, with that value, consuming just these; it reports overflow exactly when only the range is wrong, on the right side; on any error the input is not consumed. |
| `Conv.PrintedTextDenotes` | folly/folly/Conv.h:570-580 | What is printed for a value of a type denotes that value, alone or followed by anything but a digit. |
| `Conv.DenotesOne` | folly/folly/Conv.cpp:682-727 | A text denotes at most one value and has one rest. |
| `Conv.RoundTrip` | folly/folly/Conv.cpp:682-727 | Parsing what was printed gives back every value of every signed and unsigned type of one, two, four and eight bytes, and stops exactly where the printed text ends, whatever but a digit follows. |

## Left out

- Memory orders: every atomic access is sequentially consistent.
- `ThreadCachedInt`, `MicroSpinLock` and `Sleeper` are an exact counter, a mutex and a step that does nothing.
- Limits taken as assumptions, not proved: fewer than 2^31 tokens, sources and callbacks per cancellation state, fewer than 2^64 skip list nodes, string capacities below 2^62.
- Cancellation: the immediate invocation inside `tryAddCallback` is one atomic step, so calls made from inside that callback are not modelled; destroying a callback from inside its own delivery by `requestCancellation` is.
- Cancellation: a client holds the token, source or callback it calls through for the whole call; the state is the one of a single source.
- AtomicHashMap: iterators, `clear`, `findAt`, `spaceRemaining`, lookups by another key type, and the floating-point sizing of sub-maps; sub-map capacities are parameters.
- AtomicHashMap: creating a sub-map never throws; in the source a throwing `SubMap::create` leaves the slot locked and the waiters spinning.
- AtomicUnorderedMap: iteration and the memory mapping; the slot that `allocateNear` tries is any slot, and the exception after too many tries ends the call.
- Skip list: random heights and the size that triggers growth are arbitrary; keys are natural numbers; forward iterators, `first` and `pop_back` would only add easy members. Linearizability is not claimed, because `find` does not look at the fully-linked flag that `remove` looks at.
- Skip list searches and the Skipper are proved on a list at rest, not while writers run.
- NodeRecycler: the variant for arena allocators, which does nothing.
- AtomicIntrusiveList: one sweeper at a time.
- FbString: all strings of a program are fields of one object and are named by numbers, so self-assignment through aliased references is not expressed; malloc failure, size_t overflow of requested sizes, the big-endian layout, word-wise copying of small texts, streams, `insert` and `assign` on top of the core are not modelled.
- Fingerprint: that the three fixed polynomials are irreducible, which no other property needs.
- Conv: floating point, 128-bit integers, other bases, the boolean, enum and single-character conversions, and direct calls of `digits_to` for signed types.
- ConcurrentSkipListRuns.SizeNeverWraps: that an increment does not wrap is the assumption of the step itself.
- FbString.Strings.ExpandNoinit: the new characters are whatever the memory held, as the code leaves them uninitialised.
- Everything else in folly: futures, executors, IO, formatting, benchmarks and platform wrappers.
