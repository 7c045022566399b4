# Verification of the monkey cache plugin

A Dafny model of the hard parts of the plugin, with proofs.

**Serving pipeline** (`socket.c`, `cache_req.c`, `cache.c`, `cache_file.c`, `pipe_buf.c`, `curr_reqs.c`).
`CacheState` holds the data: pipes with their bytes and their `filled` count, files with their chunk lists,
requests with their private pipe, the pools and lists of each thread, and what went to each socket.  `Protocol`
says what each atomic step of a handler does and states the invariant.  `Ownership`, `Streams`, `Steps`, `Headers`,
`Lifecycle`, `Requests` and `Creation` prove it for each step, `Runs` for every run; `Guarantees` and `Stability`
draw the conclusions.  `Calls` looks at serve calls as sequences of steps, `Interference` at such calls with steps of
others in between, `Scenario` builds runs that end badly, and `CInts` and `Limits` hold the C integer conversions.  `Server` is the code itself: a class whose methods follow the handlers
and refine the steps; between its steps any other handlers may run (`others` is an arbitrary schedule of their steps).
`Answers` says what the kernel has to say in each turn of the serve loop (`Kernel`), what the loop heard of it and how it
ended for that (`Heard`), and what a request may rely on while others act (`Moves`).

A `vmsplice` that blocks or fails makes `pipe_buf_vmsplice` return at pipe_buf.c:90-98 without unlocking the mutex
it took at pipe_buf.c:72.  `State.locked` holds the pipes left that way.  `cache_req_fill_curr` on such a chunk never
returns while the chunk is empty, so a serve call can hang: `Interference` says exactly when, `Scenario.HangIsReachable` that
it happens.  A locked pipe stays locked in the pools; where it becomes a header pipe, the trylock of the publisher fails.

Readings: `vmsplice` and `tee` into a pipe with room move everything or answer EAGAIN; a socket takes any part of at
least one byte or answers EAGAIN or an error; the check and the fill of `cache_req_fill_curr` are one step; `mk_list_add` appends.
`cache_file_tmp` is taken to start with zombie = pending_reqs = 0, as `cache_file_new` does.

**Hash table** (`ht.c`).  `TableLog` is the table as a log of its entries, `HashTable` the buckets of linked nodes.
`Makefile.in` links `unqlite_ht.c` behind the same header; `ht.c` is the table modelled.  The comparison at
ht.c:129 is taken as `== 0`, and the return at ht.c:120 as leaving the table unlocked, which is what they are for.

**cJSON** (`cJSON.c`).  `JsonText` is the printer and `JsonParse` the parser as functions; `JsonLayout` is the grammar
of RFC 8259 with the meaning of its texts; `JsonGrammar`, `JsonStrings`, `JsonDocs` and `JsonRoundTrip` connect them.
`JsonNodes` is the heap: nodes, allocated strings and the set of what is allocated.  `JsonPrinter` and `JsonParser`
are the loops over buffers and nodes, `JsonLists` and `JsonNames` the edits of sibling lists, `JsonOwnership` what a
tree owns.  A picture (`Shape`) says how a tree lies in memory.  `JsonValues` compares values by what their numbers
denote, `JsonShape` describes the printed text itself, and `JsonAccepts` says what is accepted at all.

**angular.js**.  `Lru` and `LruRuns` are the caches of `$cacheFactory`, `Scopes` the scope tree with `$new`,
`$destroy` and the walk of `$broadcast`.

## Model

| member | source | states |
|---|---|---|
| `Runs.InitInv` | cache.c:86-94 | the state after start-up (empty pools, lists and table) meets the invariant |
| `Runs.StepInv` | socket.c:27-113 | every step a handler can take, of any request at any point of its run, keeps the whole invariant (ownership, memory, lists, reference counts, contents), and leaves the pointers of the next step valid |
| `Runs.RunInv` | cache.c:306-446 | the invariant holds in every state of every run, for any interleaving of threads, transfer sizes, resets and evictions |
| `Guarantees.SentIsPrefix` | socket.c:27-113 | in every run the bytes put on a socket, followed by what waits in the private pipe, are a prefix of the response (cached headers if taken, then the file); bytes_to_send is exactly what is missing, and offset + bytes_to_send = size |
| `Guarantees.ServingFacts` | socket.c:36-103 | a serving request has no byte of a recycled pipe in its stream, 0 <= filled <= capacity, and bytes_to_send is between 0 and size + headers, so none of the mk_bug checks can fire |
| `Guarantees.GuardMeansUnsent` | socket.c:33 | the while condition holds exactly when part of the response is unsent: a request never runs out of chunks early |
| `Guarantees.EmbeddedNeverTeed` | socket.c:40 | a request that took headers and the embedded body gets a non-zero answer from cache_req_fill_curr although its first curr is still set, so the body is not teed twice |
| `Guarantees.ChunksHoldFile` | cache_req.c:51-89 | in every run chunk k is empty or exactly bytes k*cap..min((k+1)*cap,size) of its file, and the list has ceil(size/cap) chunks |
| `Guarantees.ChunksPlain` | cache_req.c:75-79 | the same in one state of the invariant: filled always equals what a chunk holds |
| `Guarantees.FileLifetime` | cache_file.c:61-68 | in every run pending_reqs is the number of live requests on the file; a file exists exactly while it is in the table or in use, and is freed at most once |
| `Guarantees.LifeFacts` | cache_req.c:94-98 | the same for one state: freed exactly once when gone, never while listed or referenced |
| `Guarantees.OneOwner` | pipe_buf.c:109-142 | in every run each live pipe is referred to from exactly one place, memory used is PIPE_SIZE for each live pipe, and both pools keep their limits |
| `Guarantees.ReaderTakesWhole` | cache.c:96-108 | whatever the publisher has reached, a reader that sees filled non-zero takes exactly the headers, or the headers and the whole one-chunk file |
| `Stability.OthersUndisturbed` | cache.c:306-446 | a step of anyone else leaves the fields of a live request as they are |
| `Stability.BufferStays` | socket.c:42-60 | no step of anyone else touches the private pipe of a live request |
| `Stability.FilesFixed` | cache_file.c:213-229 | no step changes what a file stands for while it exists: its uri, its bytes, its chunk list, its header pipe, whether it may be evicted, and headers once published; its stamp changes only when somebody asks for it |
| `Stability.RunStamp` | cache_file.c:53-59 | in every run, over a stretch in which nobody asks for a file its last_accessed stays |
| `Stability.RunListed` | cache_file.c:61-68 | in every run a listed file that nobody resets or asks for is still listed later, with its last_accessed |
| `Stability.VisibleStay` | cache.c:198 | headers that can be taken can be taken as long as the file lives, whatever anybody does |
| `Stability.StepProgress` | socket.c:97-99 | a step keeps the response of a live request and only extends what its client has received |
| `Stability.RunProgress` | cache.c:398-445 | over any stretch of a run without the deletion of a request, its client keeps what it received and the response it was promised does not change, through resets and replacements of the file |
| `Stability.FilledChunkStays` | cache_req.c:75-79 | a filled shared chunk is not refilled, drained or replaced by any step while its file lives |
| `Calls.StallsAtLocked` | pipe_buf.c:70-72 | the fill of a request waits on a mutex exactly when the chunk it stands at is empty and locked |
| `Calls.LockedChunkStays` | pipe_buf.c:72-98 | no step fills or unlocks an empty locked chunk while its file lives |
| `Calls.WaitsForEver` | pipe_buf.c:70-72 | in every run a request that waits at such a chunk waits on, without a step of its own, whatever everybody else does |
| `Interference.CallHangs` | socket.c:33-103 | while vmsplice is refused to nobody, a serve call can come to wait, for some sizes the socket takes and some steps of others on any given threads in between, exactly when one of the chunks it has still to fill is empty and locked when it starts |
| `Interference.CallMayHang` | pipe_buf.c:89-98 | with vmsplice free to refuse anybody, a serve call can come to wait, with steps of others on any given threads in between, exactly when a chunk it has still to fill is empty and locked, or lies behind its current one, or is the current one while its private pipe holds bytes, or is still to be filled by another request on one of those threads, or by one that may come because the file is listed |
| `Interference.FullAheadReturns` | socket.c:33-103 | with no empty chunk ahead a call never waits, whatever is refused to whom |
| `Interference.RunTrail` | socket.c:60-72 | in every run the chunks a request has passed are full |
| `Interference.IntReturnExact` | socket.c:112 | in every state of the invariant, a serve call, with or without steps of others in between, can end with bytes unsent and a returned int that is not positive exactly when more than INT_MAX bytes are owed when it starts and it does not start by waiting |
| `Answers.WillingEnds` | socket.c:33-112 | a call that returns, and heard no refusal and no error, has sent the whole response |
| `Answers.StepMoves` | socket.c:97-99 | a step keeps the response of a live request, a full chunk full and a locked one locked; without a request for the file it keeps its stamp, and without a refused fill no chunk ahead gets locked |
| `Scenario.HangIsReachable` | cache.c:413 | for every file and all headers there is a run from start-up in which the request waits for ever in its first serve call, because its early fill was refused |
| `Scenario.HeadersTakenFirst` | cache.c:427-437 | for every file and all headers there is a run after which a request owes headers and file in full, with no pipe locked |
| `Scenario.IntReturnWitness` | socket.c:112 | a run from start-up to a request on a file of 0x7ffff000 bytes with 5000 bytes of headers, and a serve call that leaves bytes unsent and returns an int that is not positive |
| `Ownership.PipeNewOwned` | pipe_buf.c:109-132 | pipe_buf_new hands over one pipe that nothing else owns |
| `Ownership.PipeNewEmpty` | pipe_buf.c:116-131 | the pipe is empty, wherever it was recycled from |
| `Ownership.PipeFreeOwned` | pipe_buf.c:134-142 | pipe_buf_free passes the pipe to the pool or closes it; all other owners stay |
| `Ownership.PipeFreePipesOk` | pipe_buf.c:39-44 | closing a pipe takes exactly PIPE_SIZE off the counter |
| `Ownership.PipesFreeOwned` | cache_file.c:38-48 | freeing the header pipe and all chunks of a file releases each of them once |
| `Ownership.PipesNewOwned` | cache_file.c:225-237 | the pipes of a new file are distinct and nobody else owns them |
| `Ownership.PipesNewEmpty` | cache_file.c:225-237 | all of them are empty |
| `Steps.FillCases` | cache_req.c:51-89 | cache_req_fill_curr either changes nothing, and returns 0 only for a chunk that is complete at offset k*cap, or writes exactly the bytes of an empty chunk |
| `Steps.FillKeeps` | cache_req.c:51-89 | the fill step keeps the invariant |
| `Steps.TeeBuffer` | socket.c:42-60 | after the tee the private pipe holds exactly the chunk the request stood at |
| `Steps.TeeStreamOk` | socket.c:60-72 | the stream continues with the right bytes when curr moves on |
| `Steps.TeeKeeps` | socket.c:40-74 | the tee step, full or EAGAIN, keeps the invariant |
| `Steps.SpliceStream` | socket.c:97-99 | taking any part of the private pipe keeps sent + pipe a prefix of the response |
| `Steps.SpliceKeeps` | socket.c:83-103 | the splice step keeps the invariant for every size the socket takes |
| `Headers.SkipKeeps` | cache.c:167-168 | not getting the write mutex, or finding headers there, keeps the invariant |
| `Headers.SendHeadersKeeps` | cache.c:184 | writing header bytes while filled is still 0 keeps the invariant |
| `Headers.SizeHeadersKeeps` | cache.c:186-190 | recording header_len keeps the invariant: it equals the bytes written |
| `Headers.ShowHeadersKeeps` | cache.c:198 | setting filled keeps the invariant, whoever reads next |
| `Headers.RoomMeansWhole` | cache.c:203-210 | leftover > filled of the first chunk implies that this chunk is the whole file |
| `Headers.EmbedKeeps` | cache.c:209-215 | teeing the first chunk behind the headers keeps the invariant while filled lags behind |
| `Headers.ShowEmbeddedKeeps` | cache.c:217 | adding the embedded bytes to filled keeps the invariant |
| `Headers.HeadersTaken` | cache.c:96-111 | in any state a tee of filled bytes yields the headers or headers and body |
| `Headers.TakeHeadersKeeps` | cache.c:96-116 | serve_cache_headers keeps the invariant: the negative offset makes headers part of the stream |
| `Headers.OwnHeadersKeeps` | cache.c:429-431 | a request that sends its own headers serves just the file |
| `Lifecycle.FreeKeeps` | cache_file.c:29-51 | freeing an unlisted, unreferenced file keeps the invariant |
| `Lifecycle.ResetKeeps` | cache_file.c:61-68 | a reset frees an idle file or leaves a zombie, and keeps the invariant |
| `Lifecycle.TouchKeeps` | cache_file.c:53-59 | a lookup keeps the invariant, and changes last_accessed of the file and nothing else |
| `Lifecycle.TableAfterDrop` | cache_file.c:62 | after table_del the key is gone, keys stay unique and all other entries stay |
| `Lifecycle.WriterIsLive` | cache.c:164-229 | a half-published header pipe always has a live publisher, so its file is not freed under it |
| `Requests.RemoveKeeps` | curr_reqs.c:32-43 | taking one request off a list leaves all the others, each once |
| `Requests.DetachedCounts` | cache_req.c:92-96 | after the decrement either every count is right or the file is an unreferenced zombie |
| `Requests.ParkKeeps` | cache_req.c:99-108 | pooling a request, or freeing it with its pipe, keeps the invariant |
| `Requests.DeleteKeeps` | cache_req.c:91-109 | cache_req_del as a whole keeps the invariant |
| `Creation.CreateKeeps` | cache_file.c:213-246 | a new file with empty pipes, listed once, keeps the invariant |
| `Creation.ReqNewOwned` | cache_req.c:24-49 | a new or recycled request owns one pipe, which is empty, and nobody else owns it |
| `Creation.AdmitKeeps` | cache.c:398-410 | linking the request and counting the reference keeps the invariant |
| `Creation.EarlyFillKeeps` | cache.c:413 | the early fill keeps the invariant; it writes at most chunk 0 of the file, with exactly its bytes |
| `Creation.PipeRecycled` | pipe_buf.c:109-142 | a freed pipe is handed out again by later calls of pipe_buf_new, after those freed before it and without any new pipe; it is closed exactly when the pool is full |
| `Creation.ReqRecycled` | cache_req.c:24-109 | a parked request is the next one its thread gets, with those parked before it first and none allocated; it is freed exactly when the pool is full |
| `Server.Cache.PipeBufFlush` | pipe_buf.c:59-68 | the pipe is empty afterwards, in the kernel and by its count; all others stay as they are |
| `Server.Cache.PipeBufNew` | pipe_buf.c:109-132 | refines the specification of a new pipe: first of the pool, flushed, or created |
| `Server.Cache.PipeBufFree` | pipe_buf.c:134-142 | refines pooling or closing |
| `Server.Cache.CacheFileFree` | cache_file.c:29-51 | the loop over the chunk list refines freeing the header pipe and every chunk |
| `Server.Cache.FileTableReset` | cache_file.c:61-68 | refines unlisting, the zombie mark and the free at zero references |
| `Server.Cache.BuildPipes` | cache_file.c:225-237 | the loop makes exactly ceil(size/cap) chunks behind the header pipe |
| `Server.Cache.CacheFileNew` | cache_file.c:179-253 | returns no file (failed stat, directory or empty file, failed open, failed mmap or a mapping too long for an int), the listed file, or a new one, in just these cases, and keeps the invariant; the new file is evictable, has the bytes on disk and last_accessed now, and no other file changes |
| `Server.Cache.CacheFileReset` | cache_file.c:70-73 | the uri is unlisted afterwards |
| `Server.Cache.CacheFileTmp` | cache_file.c:96-177 | drops the entry of the uri, and lists a file exactly when the temporary file was made, written and mapped; the file is not evictable, has the given bytes and last_accessed now |
| `Server.Cache.CacheFileTick` | cache_file.c:75-94 | one tick looks at each entry once; an entry is gone exactly when its file is evictable and its visit reads a time at least 5001000 microseconds past its last_accessed, so a file that is not evictable is always kept |
| `Server.Cache.CacheFileGet` | cache_file.c:53-59 | returns the listed file and sets its last_accessed; the files are otherwise as they were, and nothing else is written |
| `Server.Cache.CacheReqNew` | cache_req.c:24-49 | refines the specification of a new request |
| `Server.Cache.CacheReqDel` | cache_req.c:91-109 | refines unlink, decrement, free at zero and pooling |
| `Server.Cache.CurrReqsGet` | curr_reqs.c:13-25 | finds a live request of the socket, or there is none |
| `Server.Cache.CurrReqsDel` | curr_reqs.c:32-43 | deletes the one live request of the socket, or does nothing |
| `Server.Cache.CacheReqFillCurr` | cache_req.c:51-89 | offset arithmetic and fill, equal to the specification in state and return value, or waiting for ever exactly where the specification stalls |
| `Server.Cache.FillForTee` | socket.c:40 | the condition in front of the tee, with the fill: the request gets ready for the tee, goes on to the splice, or waits for ever; the chunk is full afterwards, or empty and locked because vmsplice was asked and refused, and only then the request goes on with an empty pipe; with no locked chunk ahead and room for the fill it does not wait |
| `Server.Cache.TeeCurr` | socket.c:41-74 | tee, EAGAIN or error, as the kernel answers; a tee that moves puts exactly the chunk at curr into the private pipe, and curr goes to the next chunk or to none; otherwise the pipe stays empty |
| `Server.Cache.SpliceBuf` | socket.c:76-103 | with an empty pipe the socket is not asked; a splice that moves takes as much as the kernel allows, at least one byte, and one that does not changes nothing |
| `Server.Cache.FillPipe` | socket.c:38-76 | the first half of a turn: the private pipe is empty after it only if vmsplice refused or the tee moved nothing; bytes and counters are as before |
| `Server.Cache.ServeOnce` | socket.c:38-107 | one turn: it puts at least one byte on the socket, or stops for a refusal, or fails for an error, each exactly as the kernel answered it |
| `Server.Cache.SocketServeReqSplice` | socket.c:27-113 | for every answer of the kernel in each turn and any steps of others: each turn but the last puts bytes on the socket; the call fails exactly when the last turn heard an error, and leaves bytes unsent only if that turn was refused room, tee or splice, or if it waits for ever at an empty locked chunk; it returns 0 exactly when the whole response is sent; with no such chunk ahead and vmsplice refused to nobody it returns, and if tee and splice move something each time it returns 0 with everything sent |
| `Server.Cache.ServeReq` | cache.c:439-445 | a request is deleted exactly when serving returned and ended: done, failed, or with more than INT_MAX bytes left; it is untouched while the call waits; what the call heard, and when it must end with everything sent, as for the serve loop |
| `Server.Cache.EventWrite` | cache.c:136-161 | each return code in just its case, and what it means for the request of the socket, waiting for ever included; with nothing refused and no locked chunk ahead the request ends with everything sent |
| `Server.Cache.SetUpRequest` | cache.c:398-415 | links and counts one request on the socket, then its early fill: the request is fresh with its first chunk full, or empty and locked because vmsplice refused, or it waits for ever at a locked first chunk |
| `Server.Cache.FillCacheHeaders` | cache.c:164-229 | all sub-steps of publishing, with others running in between, keep the invariant; whoever finds the header pipe empty and free leaves it with his text published and ready to be taken |
| `Server.Cache.ServeCacheHeaders` | cache.c:96-116 | takes the cached headers without its mk_bug checks firing |
| `Server.Cache.SendHead` | cache.c:423-437 | the shared headers are taken exactly when the connection may be kept alive and they are there in the state of the choice; headers that were there before, or that the request could write, are there then |
| `Server.Cache.FindFile` | cache.c:332-396 | the listed file for a GET, else the one on disk; none exactly when neither can be had; a GET that finds the file, and the creation of a file, set its last_accessed to now, and no other file changes |
| `Server.Cache.AnswerFrom` | cache.c:398-446 | stage 30 once it has its file, with each outcome; with headers there at set-up and a connection that may be kept alive the response is headers, then file; with no locked chunk in the file and nothing refused everything is sent; the stamp of the file stays unless somebody asks for it |
| `Server.Cache.Stage30` | cache.c:306-446 | one request from lookup to its first bytes, for every outcome of stat, open, mmap and every answer of the kernel: passed on exactly when there is no file to serve, kept with bytes to send, deleted, or waiting for ever; which headers and bytes the client is owed, when all of them are sent, and that the file counts as used now until somebody asks for it again |
| `Server.Cache.UsedFileStays` | cache_file.c:75-94 | a file that a GET found, or that was created, at some time is still listed after any steps that neither ask for it nor reset it and a tick whose clock is less than 5001000 microseconds past that time |
| `Server.Cache.Respond` | cache.c:423-445 | a request that may keep its connection gets the shared headers if they are there, or its own text as shared headers if it finds the pipe free; then the serve loop and its outcome, with everything sent if nothing is refused |
| `Server.AnswerMeans` | socket.c:112 | what a caller may conclude from the int the serve loop returns |
| `Server.ReturnsZeroWhenDone` | socket.c:112 | the returned int is 0 exactly when the response is complete, truncation included |
| `Limits.IntMeans` | socket.c:112 | the conversion to int of what can be left of a response is not positive exactly when nothing or more than INT_MAX bytes are left |
| `Limits.MmapCovers` | cache_file.c:201-202 | the mapped length is the least number of whole pages that covers the file |
| `HashTable.KeyHash` | ht.c:27-36 | the loop in 32-bit arithmetic computes the polynomial in 37, wrapped, modulo the table size |
| `HashTable.WrapKeepsBucket` | ht.c:27-36 | the wrap-around does not change the bucket |
| `HashTable.LookupInBucket` | ht.c:84-97 | searching one bucket finds what searching the whole table would |
| `HashTable.DropInBucket` | ht.c:114-140 | deleting from one bucket is deleting from the table |
| `HashTable.AddInBucket` | ht.c:99-112 | adding to one bucket is adding to the table |
| `HashTable.AddPushes` | ht.c:99-112 | an added value shadows the earlier values of its key and touches no other key |
| `HashTable.DropPops` | ht.c:114-140 | a deletion takes just the newest value of its key |
| `HashTable.LookupIsTop` | ht.c:84-97 | a lookup returns the newest value not deleted |
| `HashTable.VisitsAll` | ht.c:67-82 | going through the buckets meets each entry as often as it is stored |
| `HashTable.Table.Get` | ht.c:84-97 | the newest entry of the key |
| `HashTable.Table.Add` | ht.c:99-112 | the entry is put in front |
| `HashTable.Table.Unlink` | ht.c:117-136 | relinks one chain around the first node of the key |
| `HashTable.Table.Del` | ht.c:114-140 | returns and removes the newest entry of the key, and no other node |
| `HashTable.Table.EachInBucket` | ht.c:69-79 | the inner loop visits each entry once although the callback frees the node visited |
| `HashTable.Table.Each` | ht.c:67-82 | every entry is visited once and exactly those the callback evicts are gone |
| `JsonStrings.TranscodeIsUtf8` | cJSON.c:167-177 | shifts and masks write the UTF-8 encoding of section 3 of RFC 3629 for every 16-bit code |
| `JsonStrings.Utf8ReadsBack` | cJSON.c:169-175 | the encoding determines the code |
| `JsonStrings.PairMeans` | cJSON.c:158-167 | where section 7 of RFC 8259 has one character of four bytes for a pair of surrogate escapes, the parser has six bytes |
| `JsonStrings.DecodeFits` | cJSON.c:148-182 | both loops of parse_string stop at the same quote and the output fits what was measured |
| `JsonStrings.PiecesStand` | cJSON.c:154-182 | the measuring loop counts, and the decoding loop turns, every literal of section 7 of RFC 8259 into its meaning, and both stop at its closing quote |
| `JsonStrings.LiteralStands` | cJSON.c:143-188 | every literal whose count and terminator fit an int, and no other, is read up to its closing quote; the whole meaning is kept exactly when it has no u0000 escape |
| `JsonStrings.StringStands` | cJSON.c:143-188 | the same for literals a C string can hold |
| `JsonStrings.MeantStands` | cJSON.c:143-188 | parse_string returns the meaning of section 7 of RFC 8259, pairs combined, exactly when the literal has no surrogate escape and no u0000 escape, for every literal that is not too long to count; a literal without meaning has a surrogate escape |
| `JsonStrings.PairWitness` | cJSON.c:158-167 | the literal of U+1F600 as two escapes is read as six bytes that are not its encoding |
| `JsonGrammar.NumberStands` | cJSON.c:96-116 | parse_number reads every literal of section 6 of RFC 8259, no more and no less, with its exact decimal value |
| `JsonGrammar.AccumulateIsDecimal` | cJSON.c:103-107 | digit by digit accumulation is the decimal value |
| `JsonDocs.DocStands` | cJSON.c:255-267 | parse_value on any text of the grammar returns its meaning and stops behind it |
| `JsonDocs.ItemsStand` | cJSON.c:297-313 | elements with any white space around them |
| `JsonDocs.MembersStand` | cJSON.c:376-400 | members with any white space around names, colons and values |
| `JsonDocs.TextParses` | cJSON.c:240-248 | cJSON_Parse on any layout of a document gives its meaning |
| `JsonAccepts.AcceptsTexts` | cJSON.c:237-267 | cJSON_Parse accepts nothing but a text of the grammar, up to spelled-out liberties with white space, numbers and escapes, and returns the value of that text; what may be missing is the closing quote of a literal at the very end |
| `JsonAccepts.LegalIsLoose` | cJSON.c:255-267 | each text of RFC 8259 is one of these texts, with its meaning as the value |
| `JsonValues.MeaningDenotes` | cJSON.c:96-116 | the mantissa and exponent that parse_number has for a literal denote the decimal number that section 6 of RFC 8259 means |
| `JsonValues.LayoutIsFree` | cJSON.c:237-248 | two texts parse to the same value, numbers compared by what they denote, exactly when they say the same, whatever their layout and however they write their numbers |
| `JsonValues.OneIsOne` | cJSON.c:103-114 | 1, 1.0 and 10e-1 denote the same number |
| `JsonRoundTrip.RoundTrip` | cJSON.c:251-252 | parsing the output of cJSON_Print and of cJSON_PrintUnformatted gives back the tree, each number as the 32-bit integer it denotes |
| `JsonRoundTrip.Reprints` | cJSON.c:240-252 | every document of 32-bit integers, whatever its layout and the way its numbers are written, means the same after parsing, printing and parsing again |
| `JsonRoundTrip.PrintsAlike` | cJSON.c:123-126 | a tree is printed as the tree of the integers its numbers denote, and has its value |
| `JsonRoundTrip.DocReads` | cJSON.c:270-285 | what is printed, at any depth, is a text of the grammar that means the tree |
| `JsonRoundTrip.PieceReads` | cJSON.c:205-219 | each byte is printed as an escape that means it |
| `JsonRoundTrip.ShortestEscape` | cJSON.c:205-219 | no way to write a byte that section 7 of RFC 8259 allows is shorter than the one printed |
| `JsonRoundTrip.IntReads` | cJSON.c:125-126 | an int is printed as a number literal of its value |
| `JsonShape.FormattedIsLayout` | cJSON.c:352-456 | the formatted text of a tree is its unformatted text with just these gaps outside of literals: one blank behind each comma of an array, one tab behind each colon, and in an object a line break in front of each member and of the closing brace, with as many tabs as there are brackets and braces open |
| `JsonShape.UnformattedIsBare` | cJSON.c:352-456 | the unformatted text has no white space outside of literals |
| `JsonShape.EscapesInLowerCase` | cJSON.c:216 | in both texts an escape with digits has four of them, 0-9 and a-f |
| `JsonSizes.NumberFits` | cJSON.c:125-126 | the text of any int and its terminator fit 21 bytes |
| `JsonSizes.ArrayFits` | cJSON.c:316-364 | the bytes print_array measures exceed the bytes written by exactly 3 + n + fmt, or 2 for an empty array |
| `JsonSizes.ObjectFits` | cJSON.c:403-458 | the bytes print_object measures exceed the bytes written by exactly 5, or 4 for an empty object, at every depth |
| `JsonSizes.ArrayRoom` | cJSON.c:319-339 | len is an int: print_array allocates what it measured, and enough for the text, exactly when the text with its slack is at most INT_MAX |
| `JsonSizes.ObjectRoom` | cJSON.c:406-431 | the same for print_object |
| `JsonSizes.StringRoom` | cJSON.c:193-198 | the same for print_string_ptr, whose slack is 0 |
| `JsonSizes.ArrayOverrun` | cJSON.c:319-339 | an array of three strings, each of which can be printed, whose text of 4294967309 bytes is written into 19 |
| `JsonPrinter.StrLen` | cJSON.c:335 | length up to the terminator |
| `JsonPrinter.StrCpy` | cJSON.c:357 | copies the text and its terminator behind what is there |
| `JsonPrinter.EscapedSize` | cJSON.c:196 | the measuring loop counts each byte as it will be written |
| `JsonPrinter.MeasureString` | cJSON.c:196 | the measured length is that of the escaped text, counted in an int, for strings whose quoted text fits one |
| `JsonPrinter.WriteString` | cJSON.c:201-222 | the writing loop fills exactly the measured bytes |
| `JsonPrinter.PrintStringPtr` | cJSON.c:191-224 | allocates len+3 bytes and writes exactly those, for strings whose quoted text fits an int; a missing string prints as nothing |
| `JsonPrinter.PrintNumber` | cJSON.c:119-139 | the decimal text of an int |
| `JsonPrinter.PrintEntries` | cJSON.c:330-337 | prints every child; len is the sum of the lengths, wrapped to an int |
| `JsonPrinter.ComposeArray` | cJSON.c:352-362 | writes the array within the buffer and frees every entry |
| `JsonPrinter.PrintArray` | cJSON.c:316-364 | the text of the array as `JsonShape.FormattedIsLayout` describes it, as long as what is measured fits an int; nothing but the result stays allocated |
| `JsonPrinter.PrintPairs` | cJSON.c:419-427 | prints every name and value; len is the sum of the lengths, wrapped to an int |
| `JsonPrinter.ComposeObject` | cJSON.c:441-456 | writes the object within the buffer and frees every name and value |
| `JsonPrinter.PrintObject` | cJSON.c:403-458 | the text of the object, as long as what is measured fits an int; nothing but the result stays allocated |
| `JsonPrinter.PrintItem` | cJSON.c:270-285 | the text of any tree of 32-bit integers, however they are held, references included, as long as every node and string it shows is allocated and every size measured fits an int |
| `JsonPrinter.PrintText` | cJSON.c:251-252 | cJSON_Print and cJSON_PrintUnformatted, of trees whose nodes and strings are allocated and whose sizes fit an int, references included |
| `JsonParser.SkipSpace` | cJSON.c:237 | stops at the first byte that is not white space |
| `JsonParser.ReadNumber` | cJSON.c:96-116 | fills the node with the value the specification reads |
| `JsonParser.MeasureLiteral` | cJSON.c:148 | refines the measuring loop; the count stays an int for every literal that the specification reads |
| `JsonParser.WriteCode` | cJSON.c:167-177 | the fall-through switch writes one code back to front, in bounds |
| `JsonParser.DecodeLiteral` | cJSON.c:153-182 | the decoding loop stays within the measured buffer |
| `JsonParser.ReadString` | cJSON.c:143-188 | allocates one string and stores the decoded text |
| `JsonParser.ReadElements` | cJSON.c:297-313 | links one new node for each element, in order, in both directions |
| `JsonParser.ReadArray` | cJSON.c:288-313 | builds the list of the array |
| `JsonParser.ReadMembers` | cJSON.c:376-400 | links one new node for each member, under its name |
| `JsonParser.ReadObject` | cJSON.c:367-400 | builds the list of the object |
| `JsonParser.ReadItem` | cJSON.c:255-267 | builds a tree of new nodes with the value of the text, or fails just where the specification does |
| `JsonParser.ParseText` | cJSON.c:240-248 | the returned tree has the value of the text, owns all that was allocated, and a failed parse leaves nothing allocated |
| `JsonParser.ShallowIsDeep` | cJSON.c:240-248 | a parsed tree has no references, so it can be printed as it stands |
| `JsonLists.Delete` | cJSON.c:81-93 | frees exactly what the nodes own, each object once, and changes no other object |
| `JsonLists.CreateReference` | cJSON.c:468 | one new node that shares child list and string and owns only itself |
| `JsonLists.ReferenceMeansSame` | cJSON.c:468 | a reference has the value of what it refers to |
| `JsonLists.Append` | cJSON.c:471 | links the item behind the last child; next and prev stay inverse |
| `JsonLists.AddItemToArray` | cJSON.c:471 | the children become children + [item], all subtrees unchanged |
| `JsonLists.Unlink` | cJSON.c:477 | relinks around one node and leaves it without siblings |
| `JsonLists.DetachItemFromArray` | cJSON.c:476-477 | remove-at on the children; a negative position acts as 0, one behind the end changes nothing |
| `JsonLists.Relink` | cJSON.c:484-485 | the new node stands where the old one stood, in both directions |
| `JsonLists.SwapItem` | cJSON.c:484-485 | the list with the new node in the place of the old, which is left unlinked |
| `JsonLists.ReplaceItemInArray` | cJSON.c:483-485 | update-at on the children, and the old child is freed |
| `JsonLists.DeleteItemFromArray` | cJSON.c:478 | remove-at, and the child is freed |
| `JsonNames.StrCaseCmp` | cJSON.c:39-44 | 0 exactly for names equal without regard to case, otherwise the difference at the first place they differ; 0 for two missing strings and 1 for one |
| `JsonNames.MatchIs` | cJSON.c:39-44 | names are equal without regard to case exactly when they are of one length and any two bytes of a position are equal or the two cases of one letter, 32 apart |
| `JsonNames.Find` | cJSON.c:463 | the first child of the name |
| `JsonNames.GetArraySize` | cJSON.c:461 | the number of children |
| `JsonNames.GetArrayItem` | cJSON.c:462 | the child at the position |
| `JsonNames.GetObjectItem` | cJSON.c:463 | the first child of the name, or null |
| `JsonNames.FirstNamedUnique` | cJSON.c:479 | the first match is determined by the children and the name |
| `JsonNames.DetachItemFromObject` | cJSON.c:479 | remove-at on the first match |
| `JsonNames.DeleteItemFromObject` | cJSON.c:480 | remove-at on the first match, which is freed |
| `JsonNames.AddItemToObject` | cJSON.c:472 | frees the old name, copies the new one, appends |
| `JsonNames.ReplaceItemInObject` | cJSON.c:486 | update-at on the first match, under a copy of the name |
| `JsonNames.AddItemReferenceToArray` | cJSON.c:473 | the list shows the value of the item and owns one node more |
| `JsonOwnership.OwnedIsReached` | cJSON.c:81-93 | an object is freed by cJSON_Delete exactly when a path through no reference leads to it |
| `JsonOwnership.ReachedOnce` | cJSON.c:81-93 | by one path only, so nothing is freed twice |
| `JsonOwnership.AppendOwns` | cJSON.c:471 | appending hands over what the item owns |
| `JsonOwnership.DetachOwns` | cJSON.c:476-477 | list and detached child share nothing and own together what the list owned |
| `JsonOwnership.ReplaceOwns` | cJSON.c:483-485 | the list owns what it owned, less the old child, plus the new one |
| `JsonOwnership.ReplaceLeaks` | cJSON.c:486 | what cJSON_ReplaceItemInObject leaves allocated without an owner is the name the new item came with, so nothing exactly when it came without one |
| `JsonOwnership.LosingReplace` | cJSON.c:486 | a call that loses a name |
| `JsonOwnership.DeleteDangles` | cJSON.c:81-93 | deleting an item leaves a reference to it that may not be printed exactly when the item is itself no reference and has a text or children |
| `Lru.Cache.Link` | conf/webui/libs/angular/angular.js:3387-3392 | links two entries in both directions unless they are the same |
| `Lru.Cache.Refresh` | conf/webui/libs/angular/angular.js:3368-3381 | the list becomes the list with the entry moved, or added, at the fresh end |
| `Lru.Cache.Put` | conf/webui/libs/angular/angular.js:3302-3314 | map and recency become those with the key put last, less the stalest key if the capacity is exceeded |
| `Lru.Cache.Get` | conf/webui/libs/angular/angular.js:3317-3325 | the stored value; the key becomes the most recent |
| `Lru.Cache.Unlink` | conf/webui/libs/angular/angular.js:3333-3335 | relinks around one entry, ends included |
| `Lru.Cache.Remove` | conf/webui/libs/angular/angular.js:3328-3340 | map and recency without the key, size one less |
| `Lru.Cache.RemoveAll` | conf/webui/libs/angular/angular.js:3343-3348 | the empty cache |
| `LruRuns.RunBounded` | conf/webui/libs/angular/angular.js:3302-3348 | in every run the size is the number of stored keys, never above the capacity, and the list names each key once |
| `LruRuns.RunSorted` | conf/webui/libs/angular/angular.js:3368-3381 | in every run the list is sorted by the step that last put or got each key |
| `LruRuns.EvictsLeastRecent` | conf/webui/libs/angular/angular.js:3311-3313 | a put throws out another key exactly when the cache is full, its own key is new and the other is the least recently used |
| `LruRuns.StoresLastPut` | conf/webui/libs/angular/angular.js:3317-3325 | a key is stored exactly when it was put and no step since took it out, and then with the value last put |
| `LruRuns.LostBy` | conf/webui/libs/angular/angular.js:3302-3348 | which steps take a key out: remove, removeAll, or an eviction as the least recently used |
| `Scopes.Tree.New` | conf/webui/libs/angular/angular.js:7521-7533 | a new last child; no other scope changes its parent or children, and the tree stays well formed |
| `Scopes.Tree.Append` | conf/webui/libs/angular/angular.js:7526-7532 | the links of the new child in both directions |
| `Scopes.Tree.MoveEnds` | conf/webui/libs/angular/angular.js:7801-7802 | childHead and childTail of the parent, whether or not the scope is still among its children |
| `Scopes.Tree.Unlink` | conf/webui/libs/angular/angular.js:7803-7809 | the row closes over the scope, which is left alone |
| `Scopes.Tree.Destroy` | conf/webui/libs/angular/angular.js:7795-7810 | the broadcast, then removal; throws exactly for a scope without a parent that is not the root; what was below it is out of reach of the root afterwards |
| `Scopes.Tree.Silenced` | conf/webui/libs/angular/angular.js:7782-7785 | no scope below a destroyed one is reached from the root |
| `Scopes.Tree.Descend` | conf/webui/libs/angular/angular.js:8099 | going down continues the preorder |
| `Scopes.Tree.Sideways` | conf/webui/libs/angular/angular.js:8100 | going to the next sibling continues the preorder |
| `Scopes.Tree.Upwards` | conf/webui/libs/angular/angular.js:8100-8102 | going up skips nothing |
| `Scopes.Tree.Step` | conf/webui/libs/angular/angular.js:8099-8103 | the next scope of the preorder, or none when it is done |
| `Scopes.Tree.Broadcast` | conf/webui/libs/angular/angular.js:8066-8104 | terminates and visits the subtree of the target in preorder |
| `Scopes.Tree.VisitsOnce` | conf/webui/libs/angular/angular.js:8066-8104 | the preorder holds exactly the scopes of the subtree, each once |

## Left out

- JsonAccepts.AcceptsTexts: that every text is accepted is proved for the grammar of RFC 8259
  (`JsonDocs.TextParses`), not for the liberties.
- Server.Cache.ServeReq: `socket_serve_req_splice` returns an int, so with more than INT_MAX unsent bytes the
  caller sees a number that is not positive and ends the request; `Interference.IntReturnExact` says exactly when.
- Server.Cache.SocketServeReqSplice: does not always return, because of the mutex that a refused `vmsplice` leaves
  locked; `Interference.CallHangs` and `Interference.CallMayHang` say exactly when it can hang.
- JsonStrings.StringStands: states the meaning escape by escape, so literals with a u0000 escape are cut at the NUL
  (`JsonStrings.LiteralStands` says exactly when) and a surrogate pair is six bytes (`JsonStrings.MeantStands` says
  exactly when the parser gives the meaning of section 7).
- JsonRoundTrip.RoundTrip: numbers denote the 32-bit integers that `print_number` prints with `%d`; rounding of doubles
  (which may move a product with a negative power of ten off an integer) and the `%e` and `%f` forms are not
  modelled.  Parsed numbers are exact decimals (`JsonValues` compares what they denote), and `subscale` is unbounded.
- JsonParser.ParseText: texts on which the C code would read behind the terminator, use an unset variable or overflow
  the int that counts a literal (`Stray`) are excluded; the error pointer `ep` and failing allocations are not
  modelled, and `valueint` is worked out when a number is printed.
- JsonPrinter.PrintItem: does not cover sizes above INT_MAX, where the int wraps and the buffer is too small or its size
  negative (`JsonSizes.ArrayRoom`, `JsonSizes.ObjectRoom` and `JsonSizes.StringRoom` say that these are just the cases).
- JsonPrinter.PrintText: children of objects have names and strings have texts, as in every parsed tree; what it
  reads is allocated (`JsonOwnership.DeleteDangles` says when deleting an item breaks that for a reference to it).
- JsonLists.AddItemToArray: the item is unlinked and not part of the list, as after creation or detaching; the list
  node is not itself a reference (or is viewed with what it shares).
- JsonNames.StrCaseCmp: `tolower` in the C locale, on bytes.
- The scratch buffer of `parse_string` and the key array of the pictures stand for C memory; strings once stored are
  values with an identity.
- In the pipeline pipes, files and requests are identifiers in maps rather than C pointers, and `curr` is an index
  into the chunk list.
- Interference.CallMayHang: a thread that waits for ever still takes the steps of its other requests.
- Steps finer than the stated atomic ones: the window between the lookup of a file and the increment of
  pending_reqs at cache.c:407 is one step.
- The table mutex, and the write mutex of a pipe while its holder is at work: only one left locked for good is a state.
- `int` overflow of pipe_mem_used; a mapped length above INT_MAX counts as a failed mmap.
- Server.Cache.CacheFileTick: the entries are looked at in table order, not bucket by bucket
  (`HashTable.Table.Each` covers the order and the freeing under the walk).
- Header text is an arbitrary non-empty byte string that fits a pipe; stat, mmap, clocks and transfers are parameters
  or arbitrary choices.
- URIs are shorter than MAX_URI_LEN and free of NUL.
- The sendfile fallback of `serve_req`, which no file reaches; the dispatch of API uris, statistics, mime types and
  the timer, which would add only easy members.
- unqlite.c and unqlite_ht.c.
- Lru.Cache.Put: values are defined and the capacity is an integer of at least 1; keys found on Object.prototype,
  `destroy` and the registry of caches are not modelled.
- Scopes.Tree.Broadcast: listeners do not change the tree; what they do is not modelled.
- The rest of angular.js and the web interface.
