# A verified model of ttw's protocols and data structures

ttw is a C++ network library: coroutines on threads, epoll, timers, an HTTP server, a JSON
reader, a file cache and a database connection pool. This project models the parts whose
correctness does not show from reading one function, and proves what they are for.

| part | files | main results |
|---|---|---|
| JSON | `JsonTree`, `JsonMachine`, `JsonReader`, `JsonRoundTrip`, `JsonTheorems` | reading a printed tree, with blanks anywhere between its tokens, gives it back exactly when it is readable; the pointer stack of the reader never dangles |
| Coroutines | `Protocol`, `ProtocolTokens`, `ProtocolSafety`, `ProtocolTheorems`, `ProtocolTime`, `CorScheduler` | in every reachable state every coroutine has exactly the wake-ups its situation calls for; nothing is resumed twice, early, or before its context is saved; each registration is answered once, by a delivery or a cancellation |
| Event table | `EventTable`, `MapSum` | the event counter and the kernel's interest match the table over every run, exactly as long as no stale record is handled |
| HTTP | `HttpMessage`, `HttpParser`, `HttpRoundTrip`, `HttpSession` | one parse of a printed request reads exactly its head and gives the request back, under an exact condition; bodies do not depend on how the stream is cut, and when a transfer succeeds |
| File cache | `LruCache` | the linked list refines a recency sequence that is the top of the unbounded one; when a run is defined, and that the manager is then transparent |
| Timers | `Timers` | the set stays ordered although its keys change; an expiry pass conserves timers; firings are spaced by the period |
| Connection pool | `ConnectionPool` | conservation, bounds, order by age; when the scan is defined, and what its early exit leaves |
| Shared | `OrderedMap`, `Decimals`, `MachineInt`, `Optional` | `std::map` as its sorted entries; decimal text; integer widths; options |

Each imperative component is a class whose methods follow the source step by step and are
proved equal to functions on values; the laws are then lemmas about those functions. The
coroutine scheduler, which is spread over many threads, is a state machine: a step is one
critical section of the source, or a stretch of one thread between two of them, and the
theorems hold for every interleaving.

## What the proofs found

Some properties the design asks for hold only under a condition; each is stated exactly.

- The reader takes back a tree if and only if its root is a container, no object in it is
  empty, no key is empty, no number's text begins with `5`, no value is `false`, and every raw
  string is well escaped (`JsonTheorems.RoundTrip`).
- The handler of a kernel record tests that the record and the armed events overlap, then
  handles the whole record. The event counter is off by exactly the number of unarmed events
  handled (`EventTable.RunCounts`), and a coroutine is queued a second time exactly when the slot
  of such an event still names one (`ProtocolTheorems.DeliveryConserves`); `EventTable.StaleRecord`
  and `EventTable.StaleWaiter` are concrete runs that do both.
- Take a request with a method of the table, an origin-form path (one leading slash) and query
  keys and values of characters legal there, version 1.0 or 1.1, header lines the automaton reads
  through, and no body (`HttpRoundTrip.Legal`). It survives printing and parsing if and only if
  its method is not M-SEARCH, no query key holds `=` or `&` and no query value `&`, it has no
  connection header, and no header value begins with a blank (`HttpRoundTrip.RoundTrip`). The
  query alone survives under its part of that condition, whatever characters it holds
  (`HttpMessage.QueryBack`); `HttpMessage.AmpersandSplits` is a query that does not.
- A transfer of any length is complete when the stream and the calls allow it, but `recvlen` and
  `sendlen` report its length cut to 32 bits: a complete body whose missing part is a multiple of
  2^32 bytes, or 2^31 to 2^32 - 1 bytes beyond one, is thrown away (`HttpSession.Session.RecvBody`).
- The poll loop truncates the time to the next deadline to 32 bits before it compares it, so the
  sleep is the intended one if and only if that hides nothing (`Timers.PollTimeoutIsMinimum`); a
  deadline 2^31 ms away makes it sleep without limit (`Timers.PollForever`).
- A recurring timer is re-armed for later if and only if its period is not 0 and the 64-bit sum
  does not wrap (`Timers.RearmedLater`).
- The pool's scan reads the front of an empty list if and only if more connections than the
  minimum are on lease and every idle one is over age (`ConnectionPool.ScanUndefined`);
  `ConnectionPool.AllOnLease` leads a pool there by its own methods.
- `delEvent` forgets the waiter of the event it removes: no run after it ever wakes that coroutine
  (`ProtocolTheorems.DeletedWaiterNeverWoken`).
- A lookup in a cache that may hold nothing evicts from an empty list when the file loads. A run
  of the manager meets this if and only if `max` is below 1 and it looks up a loadable file that
  is not permanent at that moment (`LruCache.RunUndefined`); `LruCache.NoRoomFails` is the shortest
  such run. A lookup after a defined run answers what loading the file gives if and only if `max`
  is at least 1, or the file does not load, or is permanent (`LruCache.Transparent`).
- A method text is recognised by prefix, so any text that begins with a method's name is read as
  that method (`HttpMessage.MethodByPrefix`).

## Assumptions of the coroutine model

- Waiters are coroutines, as in every socket call of the library; a callback waiting for an event
  can leave a stale waiter behind (`EventTable.StaleWaiter`).
- A record is handled while its events are armed (the precondition of the step `Poll`); without
  it `ProtocolTheorems.DeliveryConserves` says exactly what happens.
- A coroutine that has registered a wake-up suspends next.
- Registering for an event is one step: two threads that create the entry of the same descriptor
  at once are not modelled.

## Model

| member | source | states |
|---|---|---|
| JsonTheorems.RoundTrip | ttw/json/reader.cc:41-118 | for every tree and all blanks between its printed tokens, the parse succeeds and rebuilds the same tree if and only if the root is a container and every value in it is readable |
| JsonTheorems.PrintThenRead | ttw/json/jsonelement.cc:183-257 | `parser` on `toString()` gives the tree back under exactly that condition |
| JsonTheorems.AcceptedIsGenuine | ttw/json/reader.cc:303-417 | whatever non-empty text is accepted, the tree has map-ordered non-empty keys, well-escaped strings, numbers in int range, and no `false`; the empty text leaves the element as it was |
| JsonTheorems.EmptyIsAccepted | ttw/json/reader.cc:41-43 | the empty text is accepted for every element |
| JsonTheorems.RunSound | ttw/json/reader.cc:41-118 | every round keeps the half-built tree sound, and a run that ends without error has seen a root bracket |
| JsonTheorems.RootScalar | ttw/json/reader.cc:41-49 | a printed scalar at the root is always refused |
| JsonTree.PrintIsLay | ttw/json/jsonelement.cc:183-257 | the recursive printer writes the token sequence of the tree with nothing between the tokens |
| JsonMachine.MaskTable | ttw/json/reader.cc:50-101 | testing a token's bit in the composed legality mask is the table of legal next tokens |
| JsonMachine.Step | ttw/json/reader.cc:43-110 | one round consumes text or ends the parse |
| JsonMachine.Run | ttw/json/reader.cc:41-118 | the parse loop ends on every text |
| JsonRoundTrip.Value | ttw/json/reader.cc:41-118 | in any machine state that expects a value, the laid-out tokens of a tree are consumed and leave it as the newest child exactly when it is readable, and end in an error otherwise |
| JsonRoundTrip.Items | ttw/json/reader.cc:217-247 | the remaining items of an open array are read one after the other, each behind the ones already there |
| JsonRoundTrip.Members | ttw/json/reader.h:70-93 | the remaining members of an open object are read in key order, each key pending until its value arrives |
| JsonRoundTrip.FiveRefused | ttw/json/reader.cc:132-142 | a number that begins with 5 is an error wherever it stands |
| JsonReader.ChainSafe | ttw/json/jsonelement.cc:385-407 | growing or overwriting inside the innermost open container leaves every stacked pointer valid |
| JsonReader.ChainPush | ttw/json/reader.cc:217-280 | pushing the new child of the top keeps the stack the chain of open containers |
| JsonReader.ChainPop | ttw/json/reader.cc:282-301 | popping closes the innermost container in place and keeps the chain |
| JsonReader.Reader.Parse | ttw/json/reader.cc:41-118 | the pointer-based reader ends in the state of the abstract machine on the whole text, for every text and old content of the element |
| JsonReader.Reader.Round | ttw/json/reader.cc:43-110 | one round keeps the pointer chain and the result of the run, and advances or stops |
| JsonReader.Reader.SkipSpaces | ttw/json/reader.cc:190-202 | skips exactly the leading blanks and counts them |
| JsonReader.Reader.Scan | ttw/json/reader.cc:120-175 | stops at the first character that is no blank and classifies it |
| JsonReader.Reader.FindStringEnd | ttw/json/reader.cc:461-474 | finds the first quote that no backslash escapes |
| JsonReader.Reader.NumberEnd | ttw/json/reader.cc:367-407 | the number loop ends, by (characters left, dot not seen), behind the digit run, and a dot is always an error |
| JsonReader.Reader.ReadInteger | ttw/json/reader.cc:367-407 | reads an int into the top container, or flags the dot, or throws out of range |
| JsonReader.Reader.ReadQuoted | ttw/json/reader.cc:303-346 | a string becomes the pending key or a value, as the character after it tells |
| JsonReader.Reader.ReadNull | ttw/json/reader.cc:409-417 | reads the word or flags an error without advancing |
| JsonReader.Reader.ReadWord | ttw/json/reader.cc:352-366 | four characters are compared with the word, so `false` always ends in an error |
| JsonReader.Reader.AddContainer | ttw/json/reader.cc:217-280 | opens a container in the top one, or as the root |
| JsonReader.Reader.EndContainer | ttw/json/reader.cc:282-301 | a bracket closes the top container only when it is of its kind |
| JsonReader.Reader.AddElement | ttw/json/reader.h:70-93 | a value goes to the pending key of an object or to the end of an array, and the key is cleared |
| Decimals.DigitsValue | ttw/json/jsonelement.cc:183-257 | the printed digits of a number have that number as their value |
| OrderedMap.PutSorted | ttw/json/jsonelement.cc:385-400 | writing under a key keeps the map's strict key order |
| OrderedMap.PutContents | ttw/http/http.cc:117-127 | writing is the finite-map update at the compared form of the key |
| OrderedMap.PutGet | ttw/http/http.cc:117-119 | reading a key just written gives the value written |
| OrderedMap.PutPut | ttw/http/http.cc:117-119 | the last write to a key wins |
| OrderedMap.PutLast | ttw/json/jsonelement.cc:183-257 | writing entries in the order they are printed in rebuilds the map entry by entry |
| OrderedMap.LessTotal | ttw/http/http.cc:121-127 | two keys are equal in compared form or ordered one way |
| EventTable.RunCounts | ttw/ioscheduler.cc:99-228 | over every run of add, delete, cancel and delivery, with any kernel failures, the kernel watches exactly the armed entries and the counter is the number of armed bits less the unarmed events handled; it is right if and only if there were none |
| EventTable.DoCounts | ttw/ioscheduler.cc:324-373 | one operation keeps the kernel's interest right and changes the balance by the unarmed events it handles |
| EventTable.AddCounted | ttw/ioscheduler.cc:99-146 | adding keeps the balance, also when the kernel refuses or the event is armed already |
| EventTable.CancelCounted | ttw/ioscheduler.cc:188-228 | cancelling keeps the balance |
| EventTable.DelCounted | ttw/ioscheduler.cc:148-186 | deleting keeps the balance |
| EventTable.DeliverCounted | ttw/ioscheduler.cc:332-373 | a delivery unbalances the counter by each event of the record that is not armed |
| EventTable.AddLegal | ttw/ioscheduler.cc:122-128 | ADD or MOD is chosen as the kernel's registration requires |
| EventTable.DropLegal | ttw/ioscheduler.cc:204-211 | MOD or DEL is only issued for a registered descriptor |
| EventTable.StaleRecord | ttw/ioscheduler.cc:347-368 | a record handled after one of its events was cancelled queues a coroutine twice and leaves the counter at -1 |
| EventTable.StaleWaiter | ttw/ioscheduler.cc:404-433 | a slot used first by a coroutine and then by a callback queues the coroutine a second time |
| EventTable.IOScheduler.AddEvent | ttw/ioscheduler.cc:99-146 | finds or creates the entry, refuses an armed event, and arms it with its waiter once the kernel agrees |
| EventTable.IOScheduler.DelEvent | ttw/ioscheduler.cc:148-186 | disarms an event without waking anybody; an entry that waits for nothing is deleted |
| EventTable.IOScheduler.CancelEvent | ttw/ioscheduler.cc:188-228 | disarms an event and queues who waited |
| EventTable.IOScheduler.TriggerEvent | ttw/ioscheduler.cc:404-433 | takes the event off and queues coroutine and callback of its slot, which keeps its content |
| EventTable.IOScheduler.Handle | ttw/ioscheduler.cc:324-373 | one kernel record: errors count as everything armed, the remaining events are registered anew, the waiters are queued |
| EventTable.IOScheduler.EpollCtl | ttw/ioscheduler.cc:128-132 | every call the scheduler makes is one the kernel's registration state allows |
| Protocol.FirstPickIsFirst | ttw/corscheduler.cc:38-57 | every entry before the picked one is of a running coroutine |
| Protocol.FirstPickIs | ttw/corscheduler.cc:38-57 | the picked entry is the only one that is not of a running coroutine and has only such before it |
| CorScheduler.Scheduler.Pick | ttw/corscheduler.cc:36-57 | walking the queue takes out the entry the state machine picks, or none when all are running |
| CorScheduler.Scheduler.Settle | ttw/corscheduler.cc:69-75 | the queue grows by a ready coroutine, a running one becomes suspended, one that is over is dropped, and nothing else changes |
| CorScheduler.Scheduler.Run | ttw/corscheduler.cc:31-77 | one turn of the loop on the objects, from the pick over the switch in, whose assertion always holds, to the settling, leaves queue and states as the steps of the state machine do |
| ProtocolTokens.StepTokens | ttw/corscheduler.cc:31-91 | no step loses or duplicates a wake-up: each creates one where a coroutine is spawned, registers, sleeps or is put back ready, uses one up where its entry is picked, and otherwise moves it |
| ProtocolTokens.CancelledTokens | ttw/ioscheduler.cc:188-228 | cancelling moves the wake-up from the event to the queue |
| ProtocolTokens.DeliveredTokens | ttw/ioscheduler.cc:324-373 | a delivery moves the wake-ups of armed events to the queue and adds one for each stale waiter |
| ProtocolTokens.DeletedTokens | ttw/ioscheduler.cc:148-186 | deleting an event loses exactly the wake-up of its waiter |
| ProtocolTokens.AddedTokens | ttw/ioscheduler.cc:99-146 | registering creates one wake-up, exactly when it succeeds |
| ProtocolSafety.StepInv | ttw/corscheduler.cc:31-91 | every step keeps the invariant: threads and coroutines agree on who has whom, states and saved contexts fit, and each coroutine has exactly the wake-ups its situation needs |
| ProtocolSafety.RunInv | ttw/corscheduler.cc:31-91 | so does every run |
| ProtocolSafety.InitialInv | ttw/corscheduler.cc:95-106 | a fresh scheduler satisfies it |
| ProtocolSafety.PickRests | ttw/corscheduler.cc:47-56 | a queued coroutine that is not running is at rest: in nobody's hands, saved, and not finished |
| ProtocolSafety.SettleKept | ttw/corscheduler.cc:69-75 | settling after the switch turns running into suspended and puts a ready coroutine back, with the right number of wake-ups |
| ProtocolTheorems.Exclusive | ttw/corscheduler.cc:36-75 | at most one thread has a given coroutine |
| ProtocolTheorems.SwapInIsSafe | ttw/coroutine.cc:142-149 | the assertion of `swapIn` never fails, what is swapped in is neither finished nor failed, and its context was saved before |
| ProtocolTheorems.OneWakeUp | ttw/coroutine.cc:110-116 | what is suspended, ready or new has exactly one pending wake-up, what is over has none and no queue entry, what runs has one exactly from its registration to its settling |
| ProtocolTheorems.ResumedOnce | ttw/socket.cc:472-523 | over every run a coroutine was picked as often as a wake-up was created for it, but for the one still pending |
| ProtocolTheorems.EachWaitAnsweredOnce | ttw/ioscheduler.cc:99-228 | over every run, deliveries and cancellations have queued a coroutine exactly as often as it registered for events, but for at most one registration that is still armed |
| ProtocolTheorems.DeletedWaiterNeverWoken | ttw/ioscheduler.cc:148-186 | after `delEvent` has removed the event a coroutine waited for, in a reachable state, no run ever queues or picks that coroutine |
| ProtocolTheorems.NeverWoken | ttw/corscheduler.cc:31-91 | a coroutine without a wake-up that no thread is about to give one stays so over every run and is never picked |
| ProtocolTheorems.QueuedIsPickable | ttw/corscheduler.cc:38-57 | an entry of a settled coroutine is never hidden from a free thread |
| ProtocolTheorems.DeliveryConserves | ttw/ioscheduler.cc:347-368 | handling any record keeps every coroutine at its number of wake-ups if and only if no slot of a named but unarmed event still holds one |
| ProtocolTime.RunOnTime | ttw/socket.cc:490-499 | in every run no timeout leaves its timer, and no flag is set, before the deadline of its attempt |
| ProtocolTime.TimeoutIsGenuine | ttw/socket.cc:508-518 | a receive that reports a timeout was given one and its deadline has passed; without a timeout it never reports one |
| ProtocolTime.OnlyOwnCallback | ttw/socket.cc:491-498 | the flag of an attempt is changed by its own callback only, so a late callback of an earlier one can only cause a retry |
| ProtocolTime.SleepsLongEnough | ttw/coroutine.cc:174-181 | a sleeping coroutine is swapped in only when its time has come |
| HttpRoundTrip.ParsePrinted | ttw/http/http11_parser.cc:117-628 | for every request with a method other than M-SEARCH, an origin-form path (no second slash), query text of legal characters, version 1.0 or 1.1, and header lines the automaton reads through (no NUL, DEL, CR or LF in a value): one parse of its printed text, whatever follows, consumes exactly the head, sets the body start there, and gives back method, path, version, the query as its printed text is cut, and the shown headers, each value without its leading blanks |
| HttpRoundTrip.RoundTrip | ttw/http/http.cc:151-190 | such a request without a body comes back unchanged if and only if its method is not M-SEARCH, no query key holds a separator and no query value an ampersand, it has no connection header, and no header value begins with a blank |
| HttpRoundTrip.SearchRefused | ttw/http/http11_parser.cc:138-147 | any text that begins with M-SEARCH is refused |
| HttpRoundTrip.SameHeaders | ttw/http/http.cc:176-181 | the headers come back as they were exactly when none is left out and none is trimmed |
| HttpRoundTrip.MethodPart | ttw/http/http11_parser.cc:117-154 | every method name but M-SEARCH is read up to its blank as itself |
| HttpRoundTrip.PathPart | ttw/http/http11_parser.cc:903-984 | a path of legal characters and percent escapes is read back |
| HttpRoundTrip.QueryPart | ttw/http/http11_parser.cc:1001-1135 | the printed query map reaches `setQuery` whole, as one text |
| HttpRoundTrip.VersionPart | ttw/http/http_parser.cc:71-85 | both versions are read back from their text |
| HttpRoundTrip.LineSegment | ttw/http/http11_parser.cc:373-517 | a header line is read as its name and its value without leading blanks |
| HttpRoundTrip.LinesSegment | ttw/http/http11_parser.cc:373-517 | all lines are read in order |
| HttpMessage.MethodByPrefix | ttw/http/http.cc:22-30 | a text is taken for a method if and only if it begins with its name, whatever the order of the table |
| HttpMessage.QueryReads | ttw/http/http.cc:129-140 | reading printed pairs puts each of them, in order |
| HttpMessage.QueryBack | ttw/http/http.cc:129-140 | splitting the printed query at ampersands and equals signs rebuilds the map if and only if no key holds either and no value an ampersand |
| HttpMessage.QueryOfSeparable | ttw/http/http.cc:129-140 | whatever text is read, the map holds only pairs a query can carry |
| HttpMessage.AmpersandSplits | ttw/http/http.cc:129-140 | a value with an ampersand comes back as two pairs |
| HttpMessage.ShownSorted | ttw/http/http.cc:176-181 | leaving the connection header out keeps the order of the others and drops nothing else |
| HttpMessage.PutAllRebuilds | ttw/http/http.cc:117-119 | adding fields in map order rebuilds the map |
| HttpMessage.HttpRequest.Print | ttw/http/http.cc:151-190 | the printing loops write the text of the request |
| HttpMessage.HttpRequest.SetQuery | ttw/http/http.cc:129-140 | the cutting loop puts each piece that has an equals sign |
| HttpMessage.HttpRequest.AddHeaderKey | ttw/http/http.cc:91-119 | the finite map of the headers is updated at the lower-case key and stays in order; an equivalent key keeps its spelling and place and gets the new value |
| HttpParser.NextPlaced | ttw/http/http11_parser.cc:117-628 | for every input every mark stays behind the reading position, so no callback gets a range outside what was read |
| HttpParser.Parser.Execute | ttw/http/http11_parser.cc:91-108 | the loop over the buffer computes the automaton's run on every text, and what it consumed |
| HttpParser.Parser.ExecuteInPlace | ttw/http/http_parser.cc:125-129 | what was not consumed is moved to the front of the buffer |
| HttpParser.Parser.OnRequestMethod | ttw/http/http_parser.cc:39-50 | the method becomes entry i of the table when the text from the mark begins with it; when it begins with none, error 1000 is set |
| HttpParser.Parser.OnRequestVersion | ttw/http/http_parser.cc:71-85 | undoes the printing of a version; any text no version prints as sets error 1001 |
| HttpParser.Parser.OnHttpField | ttw/http/http_parser.cc:91-101 | a field without a name is dropped; any other updates the finite map of the headers at its lower-case name |
| HttpSession.Session.RecvLen | ttw/http/http_session.cc:86-98 | however the stream is cut, exactly as much as is asked for, there, and allowed by the calls is stored in order and consumed; all of it is reported by its length cut to an int, less by a number that is not positive |
| HttpSession.Session.SendLen | ttw/http/http_session.cc:100-112 | exactly as much of the buffer as the calls allow is sent, once and in order; all of it is reported by its length cut to an int, less by a number that is not positive |
| HttpSession.Session.RecvBody | ttw/http/http_session.cc:48-73 | the body is the first announced bytes of the unparsed remainder followed by the stream, and nothing beyond them is consumed; it is had if and only if the stream and the calls give what is missing and its length is positive as an int, else the socket is closed |
| LruCache.CacheIsTopOfRecent | ttw/file/filecache.cc:57-149 | after any accesses the cache holds exactly the first `max` entries of the unbounded recency list, whose paths are distinct |
| LruCache.RecentByLastUse | ttw/file/filecache.cc:57-118 | that list holds exactly the loadable paths of the history, strictly ordered by their last use |
| LruCache.Transparent | ttw/file/filecache.cc:195-249 | with a fixed file system, after every run of the manager that is defined a lookup answers what loading the file gives if and only if `max` is at least 1, or the file does not load, or is permanent |
| LruCache.TransparentWithRoom | ttw/file/filecache.cc:195-249 | with `max` at least 1 every run is defined and every lookup after it transparent |
| LruCache.RunUndefined | ttw/file/filecache.cc:57-92 | a run dereferences the null tail of an empty list if and only if `max` is below 1 and it looks up a loadable file that is not permanent at that moment |
| LruCache.NoRoomFails | ttw/file/filecache.cc:57-92 | one lookup of an existing file in a cache made for 0 files does |
| LruCache.AccessUndefined | ttw/file/filecache.cc:57-92 | one access does if and only if `max` is below 1, the cache is empty and the file loads |
| LruCache.AskConsistent | ttw/file/filecache.cc:195-210 | a lookup in a consistent manager answers what loading gives, or is undefined |
| LruCache.StaysConsistent | ttw/file/filecache.cc:195-249 | every defined run keeps both tiers equal to the file system |
| LruCache.AccessAnswers | ttw/file/filecache.cc:57-74 | a defined access answers what loading would, and does not overfill a cache whose maximum is not lowered |
| LruCache.DistinctAccess | ttw/file/filecache.cc:57-149 | an access keeps the paths distinct |
| LruCache.Cache.GetFileCache | ttw/file/filecache.cc:57-74 | where the access is defined, a hit moves one entry to the front, a full miss evicts exactly the least recent, a failed load changes nothing |
| LruCache.Cache.MoveToHead | ttw/file/filecache.cc:93-118 | the links of the list are rewritten to put one node first and keep the others in order |
| LruCache.Cache.DelCacheNode | ttw/file/filecache.cc:75-92 | the last node leaves list, map and count |
| LruCache.Cache.AddToHead | ttw/file/filecache.cc:120-154 | a loaded file becomes the first node and is mapped under its path |
| LruCache.Cache.Clear | ttw/file/filecache.cc:156-165 | leaves an empty list |
| LruCache.Cache.IsExists | ttw/file/filecache.cc:177-185 | the map holds exactly the listed paths |
| LruCache.FileCacheMan.GetFileCacheData | ttw/file/filecache.cc:195-210 | permanent files first, then the cache |
| LruCache.FileCacheMan.AddFileCacheData | ttw/file/filecache.cc:224-242 | loads a permanent file unless it is there and need not be loaded again |
| LruCache.FileCacheMan.DelFileCacheData | ttw/file/filecache.cc:244-249 | the path is permanent no more and the cache is as it was; while both tiers agree with the file system and the cache has room, no lookup can tell |
| Timers.FindExact | ttw/timer.cc:42-57 | searching by the current key finds a member exactly where it stands |
| Timers.InsertAt | ttw/timer.cc:107-113 | inserting keeps the set strictly ordered by deadline and address |
| Timers.ExpireConserves | ttw/timer.cc:145-176 | a pass removes exactly what is due, loses and duplicates nothing, and puts each recurring timer back at now plus its period |
| Timers.EachDueOnce | ttw/corscheduler.cc:131-137 | each due timer's callback reaches the scheduler once, in deadline order, and the empty padding is dropped |
| Timers.RestartKeepsStart | ttw/timer.cc:80-86 | a reset without a new start keeps the last start, unless the numbers wrap |
| Timers.RunOrdered | ttw/timer.cc:42-176 | every run of additions, cancellations, restarts and passes keeps the set ordered |
| Timers.FiringsSpaced | ttw/timer.cc:145-176 | between restarts a recurring timer fires at least its period apart, and not before its first deadline, whatever happens to the other timers |
| Timers.FiringsInWindow | ttw/timer.cc:145-176 | in every run, a window of length T holds at most T / ms + 1 firings of a recurring timer that is not restarted in it, none of them before its first deadline |
| Timers.RearmedLater | ttw/timer.cc:171-174 | re-arming is for later if and only if the period is not 0 and the sum does not wrap |
| Timers.NextWaitIsMinimum | ttw/timer.cc:129-143 | the wait is the time to the earliest deadline, 0 exactly when one is due, all ones exactly when there is none (or it is the last instant, seen from time 0) |
| Timers.PollTimeoutIsMinimum | ttw/ioscheduler.cc:298-306 | the poll sleeps the smaller of 3000 and that time if and only if truncation to 32 bits does not hide how long it is |
| Timers.PollForever | ttw/ioscheduler.cc:299-306 | a deadline 2^31 ms away gives a negative timeout |
| Timers.WokenPassFires | ttw/ioscheduler.cc:306-316 | after a sleep that was not clamped the next pass fires |
| Timers.TimerManage.Find | ttw/timer.cc:42-49 | `find` succeeds exactly for members |
| Timers.TimerManage.AddTimer | ttw/timer.cc:107-117 | the timer stands at its place, once, and the poll loop is woken exactly when it is first |
| Timers.TimerManage.CancelTimer | ttw/timer.cc:42-50 | removes exactly the timer asked for |
| Timers.TimerManage.RefreshTimer | ttw/timer.cc:52-62 | a member's deadline becomes now plus its period and it moves to its new place |
| Timers.TimerManage.ResetTimer | ttw/timer.cc:64-91 | a member gets its new period from its last start or from now; with nothing to change it reports success, member or not |
| Timers.TimerManage.CutAt | ttw/timer.cc:160-164 | the cut of a pass does not depend on the address of its probe |
| Timers.TimerManage.ListExpiredCbs | ttw/timer.cc:145-176 | one empty callback for each fired timer, then theirs in deadline order, and the set after the pass |
| ConnectionPool.ScanUndefined | ttw/db/mysqlcppconn.cc:212-228 | the scan reads the front of an empty list if and only if more than the minimum are on lease and every idle connection is over age when its turn comes |
| ConnectionPool.AllOnLease | ttw/db/mysqlcppconn.cc:212-248 | taking, producing and taking again leads a pool of 1 to 2 connections to such a state |
| ConnectionPool.ScanLeavesNoOverAge | ttw/db/mysqlcppconn.cc:212-228 | with the clock read for each connection, the scan drops a prefix of over-age connections and leaves none that was over age at the last reading, unless it is down to the minimum |
| ConnectionPool.Pool.ScanPass | ttw/db/mysqlcppconn.cc:212-228 | the loop does that to the list, and never falls below the minimum once the pool has reached it |
| ConnectionPool.Pool.GetConnection | ttw/db/mysqlcppconn.cc:230-248 | leases the connection unused the longest; a filled pool stays between its bounds |
| ConnectionPool.Pool.ReturnConnection | ttw/db/mysqlcppconn.cc:239-243 | a returned connection is refreshed and becomes the last of the idle ones |
| ConnectionPool.Pool.Produce | ttw/db/mysqlcppconn.cc:195-209 | adds a connection only when too few are idle and the maximum allows it |
| ConnectionPool.Pool.AddConnection | ttw/db/mysqlcppconn.cc:180-193 | a failed connect changes nothing |
| ConnectionPool.Pool.constructor | ttw/db/mysqlcppconn.cc:153-167 | fills the pool to its minimum as far as the server lets it; if it lets all, the pool is filled, and every method keeps it so |

## Left out

JSON

- Text after the root has closed (a further bracket there is marked undefined, the rest is not
  pursued), floating point, the other number types, and deep copies. Truncated text that the
  reader accepts is covered by the soundness lemmas only.
- Strings are sequences of characters standing for bytes. A `std::map` is the sequence of its
  entries in key order. A pointer into the tree is the path to its target; what operations of
  `std::vector` and `std::map` do to pointers is modelled by the paths they invalidate.

Scheduler and sockets

- EventTable.RunCounts: a record for a descriptor whose entry was deleted is a step that does
  nothing, because no freed memory is modelled; the source follows a dangling `FdContext*` there.
- EventTable.DoCounts: the same for one operation.
- The protocol as a whole is a state machine on values, so what several threads do to one object
  is a sequence of steps, not of writes. Its event table, its pick and its settling are the ones
  the classes of `EventTable` and `CorScheduler` are proved against.
- Shutdown, the null-entry branch of the pick, `cancelAll`, freeing an entry while its mutex is
  held, and reuse of a descriptor after close.
- The poll loop as a whole: handling one record is a step, so is moving one expired timer or one
  callback, and the state machine interleaves them.
- The other waiting loops of the sockets have the shape of the receive loop that is modelled.
- Memory orders: reading a coroutine's state and a timeout flag is taken to be atomic.

HTTP

- States of the automaton other than origin-form requests (authority, fragments, XML and JSON
  messages) end in one state where the model stops; parsing on after a buffer ended inside the
  head, where marks are reset; the response parser.
- `uri_relaxed` is never initialised, so the round trip holds for either value.
- Buffers of 2^63 bytes and more, which the source's signed counters would not read at all.
- The receiving loop that collects the head of a request from several buffers.

File cache, timers, pool

- Clocks that run backwards: the pool's readings rise, and so do those of a run of the timers.
- Two threads that miss on the same path at once; the cache is sequential. The file system is a
  load function.
- Addresses are numbers that differ for different live timers; the two critical sections of
  `resetTimer` and of the expiry pass follow each other directly.
- Connecting, the prepared statements of a connection, and waiting with a timeout: a method starts
  where the wait has ended.
